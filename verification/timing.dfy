/** When an armed compaction acts: the two threshold arms, the quiet window, and the
    warm cache's edge, as one sweep reads them. Times are in nanoseconds. */
module Timing {
  import opened Vocabulary

  const SECOND: int := 1_000_000_000
  const HEADROOM_TOKENS: int := 50_000
  const KV_CACHE_TTL: int := 300 * SECOND
  const QUIET_WINDOW: int := 180 * SECOND
  const CACHE_EDGE_MARGIN: int := 30 * SECOND
  const CONTEXT_SWEEP: int := 30 * SECOND
  const READING_CAP: nat := 4096

  type U32 = x: int | 0 <= x < 0x1_0000_0000

  type NonZeroU32 = x: int | 0 < x < 0x1_0000_0000 witness 1

  datatype ContextReading = ContextReading(
    windowTokens: Option<NonZeroU32>, usedTokens: Option<U32>, sinceDispatch: Option<nat>)

  datatype TimingReading = TimingReading(sinceInbound: Option<nat>, sinceDispatch: Option<nat>)

  datatype Moment = Now | Wait

  function SaturatingSub(a: int, b: int): int {
    if a <= b then 0 else a - b
  }

  /** Whether either threshold arm holds; with either number unknown, neither does. */
  predicate ThresholdArmed(reading: ContextReading, cacheTtl: nat) {
    reading.windowTokens.Some? && reading.usedTokens.Some? &&
    var window, used := reading.windowTokens.value, reading.usedTokens.value;
    if SaturatingSub(window, used) <= HEADROOM_TOKENS then true
    else reading.sinceDispatch.Some? && reading.sinceDispatch.value >= cacheTtl && used * 2 > window
  }

  /** Whether an armed compaction goes now or waits for the next sweep. */
  function MomentOf(reading: TimingReading, cacheTtl: nat): Moment {
    if reading.sinceInbound.None? || reading.sinceInbound.value >= QUIET_WINDOW then Now
    else match reading.sinceDispatch
      case Some(since) =>
        if since < cacheTtl then
          if since >= SaturatingSub(cacheTtl, CACHE_EDGE_MARGIN) then Now else Wait
        else Wait
      case None => Wait
  }

  // ─── The watch ─────────────────────────────────────────────────────────

  /** The readings one process holds: inbound arrivals, dispatches and reported usage by
      conversation, and the configured window. */
  datatype Readings = Readings(
    window: Option<NonZeroU32>, inbound: map<int, int>, dispatched: map<int, int>, used: map<int, U32>)

  function Since(at: map<int, int>, conversation: int, now: int): Option<nat> {
    if conversation in at then Some(SaturatingSub(now, at[conversation])) else None
  }

  predicate DueAt(r: Readings, conversation: int, now: int) {
    && ThresholdArmed(
         ContextReading(r.window, if conversation in r.used then Some(r.used[conversation]) else None,
                        Since(r.dispatched, conversation, now)), KV_CACHE_TTL)
    && MomentOf(TimingReading(Since(r.inbound, conversation, now), Since(r.dispatched, conversation, now)),
                KV_CACHE_TTL) == Now
  }

  function InboundRecorded(r: Readings, conversation: int, now: int): Readings {
    r.(inbound := (if |r.inbound| >= READING_CAP then map[] else r.inbound)[conversation := now])
  }

  function Forgotten(r: Readings, conversation: int): Readings {
    r.(inbound := r.inbound - {conversation},
       dispatched := r.dispatched - {conversation}, used := r.used - {conversation})
  }

  class ContextWatch {
    const window: Option<NonZeroU32>
    var inbound: map<int, int>
    var dispatched: map<int, int>
    var used: map<int, U32>

    constructor (window: Option<NonZeroU32>)
      ensures State() == Readings(window, map[], map[], map[])
    {
      this.window := window;
      inbound, dispatched, used := map[], map[], map[];
    }

    function State(): Readings
      reads this
    {
      Readings(window, inbound, dispatched, used)
    }

    method RecordInbound(conversation: int, now: int)
      modifies this`inbound
      ensures State() == InboundRecorded(old(State()), conversation, now)
      ensures inbound == if |old(inbound)| >= 4096 then map[conversation := now]
                         else old(inbound)[conversation := now]
      ensures |old(inbound)| <= 4096 ==> |inbound| <= 4096
    {
      if |inbound| >= READING_CAP {
        inbound := map[];
      }
      inbound := inbound[conversation := now];
    }

    method Forget(conversation: int)
      modifies this
      ensures State() == Forgotten(old(State()), conversation)
      ensures inbound == old(inbound) - {conversation} && dispatched == old(dispatched) - {conversation}
      ensures used == old(used) - {conversation}
      ensures forall now :: !DueAt(State(), conversation, now)
    {
      inbound := inbound - {conversation};
      dispatched := dispatched - {conversation};
      used := used - {conversation};
    }

    /** The two questions, the timing asked only of an armed trigger. */
    method Due(conversation: int, now: int) returns (due: bool)
      ensures due <==>
              && (AtTheWall(State(), conversation)
                  || (Cold(State(), conversation, now) && PastHalf(State(), conversation)))
              && (Quiet(State(), conversation, now) || WarmAtTheEdge(State(), conversation, now))
    {
      var usedTokens := if conversation in used then Some(used[conversation]) else None;
      var sinceDispatch := Since(dispatched, conversation, now);
      due := ThresholdArmed(ContextReading(window, usedTokens, sinceDispatch), KV_CACHE_TTL);
      if due {
        due := MomentOf(TimingReading(Since(inbound, conversation, now), sinceDispatch), KV_CACHE_TTL) == Now;
      }
      DueExactly(State(), conversation, now);
    }
  }

  // ─── When it is due ────────────────────────────────────────────────────

  /** No more than fifty thousand tokens are left of a known window. */
  predicate AtTheWall(r: Readings, conversation: int) {
    r.window.Some? && conversation in r.used && r.window.value as int - r.used[conversation] as int <= 50_000
  }

  /** More than half of a known window is used. */
  predicate PastHalf(r: Readings, conversation: int) {
    r.window.Some? && conversation in r.used && 2 * r.used[conversation] > r.window.value
  }

  /** Nothing arrived for three minutes. */
  predicate Quiet(r: Readings, conversation: int, now: int) {
    conversation in r.inbound ==> now >= r.inbound[conversation] + 180_000_000_000
  }

  /** The cache, five minutes warm past a dispatch, is in its last half minute. */
  predicate WarmAtTheEdge(r: Readings, conversation: int, now: int) {
    conversation in r.dispatched
    && r.dispatched[conversation] + 270_000_000_000 <= now < r.dispatched[conversation] + 300_000_000_000
  }

  predicate Cold(r: Readings, conversation: int, now: int) {
    conversation in r.dispatched && now >= r.dispatched[conversation] + 300_000_000_000
  }

  /** A compaction is due exactly when the window is at its wall, or past half under a
      cold cache, and the channel is quiet or its warm cache at the edge. */
  lemma DueExactly(r: Readings, conversation: int, now: int)
    ensures DueAt(r, conversation, now) <==>
            && (AtTheWall(r, conversation) || (Cold(r, conversation, now) && PastHalf(r, conversation)))
            && (Quiet(r, conversation, now) || WarmAtTheEdge(r, conversation, now))
  {
  }

  /** On a busy channel only the headroom arm acts, and only at the warm cache's edge: a
      cache gone cold waits for quiet. */
  lemma BusyActsOnlyAtTheEdge(r: Readings, conversation: int, now: int)
    requires !Quiet(r, conversation, now)
    ensures DueAt(r, conversation, now) <==> AtTheWall(r, conversation) && WarmAtTheEdge(r, conversation, now)
  {
  }

  /** Losing the inbound readings, at the cap or over a restart, can only hurry a
      compaction: it never delays one. */
  lemma LosingInboundOnlyHurries(r: Readings, conversation: int, now: int)
    ensures DueAt(r, conversation, now) ==> DueAt(r.(inbound := map[]), conversation, now)
    ensures DueAt(r.(inbound := map[]), conversation, now) && !DueAt(r, conversation, now) ==>
              !Quiet(r, conversation, now)
  {
  }

  // ─── No warm window passes unseen ──────────────────────────────────────

  /** The k-th sweep of a schedule. */
  function SweepAt(start: int, period: int, k: nat): int {
    start + k * period
  }

  /** The first sweep at or past a time. */
  function SweepsBefore(start: int, period: int, at: int): (k: nat)
    requires period > 0 && start <= at
    ensures SweepAt(start, period, k) >= at && SweepAt(start, period, k) < at + period
    decreases at - start
  {
    if start == at then 0
    else if start + period >= at then
      assert SweepAt(start, period, 1) == start + period;
      1
    else
      var rest := SweepsBefore(start + period, period, at);
      assert SweepAt(start, period, rest + 1) == SweepAt(start + period, period, rest) by {
        assert (rest + 1) * period == rest * period + period;
      }
      rest + 1
  }

  /** What has last arrived, as the watch holds it at each time. */
  type Arrivals = int -> map<int, int>

  /** The readings a sweep takes at a time: nothing dispatched and nothing more used, and
      whatever has arrived by then. */
  function ReadingsAt(r: Readings, arrivals: Arrivals, now: int): Readings {
    r.(inbound := arrivals(now))
  }

  predicate InTheWarmWindow(r: Readings, conversation: int, now: int) {
    conversation in r.dispatched
    && r.dispatched[conversation] <= now < r.dispatched[conversation] + 300_000_000_000
  }

  /** The channel is never quiet while the dispatch's cache is warm. */
  ghost predicate BusyThroughout(r: Readings, arrivals: Arrivals, conversation: int) {
    forall now | InTheWarmWindow(r, conversation, now) :: !Quiet(ReadingsAt(r, arrivals, now), conversation, now)
  }

  /** Some sweep acts while the dispatch's cache is warm. */
  ghost predicate ActsWhileWarm(r: Readings, arrivals: Arrivals, conversation: int, start: int, period: int) {
    exists k: nat :: ActsAt(r, arrivals, conversation, SweepAt(start, period, k))
  }

  predicate ActsAt(r: Readings, arrivals: Arrivals, conversation: int, now: int) {
    InTheWarmWindow(r, conversation, now) && DueAt(ReadingsAt(r, arrivals, now), conversation, now)
  }

  /** A conversation at its wall whose dispatch has a full warm edge ahead of the
      schedule's start. */
  ghost predicate AwaitsItsEdge(r: Readings, conversation: int, start: int) {
    && AtTheWall(r, conversation) && conversation in r.dispatched
    && start <= r.dispatched[conversation] + 270_000_000_000
  }

  /** A sweep no further apart than the edge's margin acts in every full warm window,
      however busy the channel. */
  lemma EveryWarmWindowIsSwept(r: Readings, arrivals: Arrivals, conversation: int, start: int, period: int)
    requires 0 < period <= 30_000_000_000 && AwaitsItsEdge(r, conversation, start)
    ensures ActsWhileWarm(r, arrivals, conversation, start, period)
  {
    var edge := r.dispatched[conversation] + 270_000_000_000;
    var k := SweepsBefore(start, period, edge);
    var now := SweepAt(start, period, k);
    DueExactly(ReadingsAt(r, arrivals, now), conversation, now);
    assert ActsAt(r, arrivals, conversation, SweepAt(start, period, k));
  }

  /** A slower one misses a whole warm window of every busy channel dispatched one tick
      past its sweep: the edge slips between two sweeps, and no sweep before it acts. */
  lemma {:induction false} ASlowerSweepMissesOne(r: Readings, arrivals: Arrivals, conversation: int,
                                                 start: int, period: int)
    requires period > 30_000_000_000 && conversation in r.dispatched && BusyThroughout(r, arrivals, conversation)
    requires r.dispatched[conversation] == start + 1 - 270_000_000_000
    ensures !ActsWhileWarm(r, arrivals, conversation, start, period)
  {
    forall k: nat ensures !ActsAt(r, arrivals, conversation, SweepAt(start, period, k)) {
      var now := SweepAt(start, period, k);
      SweepsPastTheFirst(start, period, k);
      if InTheWarmWindow(r, conversation, now) {
        BusyActsOnlyAtTheEdge(ReadingsAt(r, arrivals, now), conversation, now);
      }
    }
  }

  /** Past the first, every sweep is a whole period on. */
  lemma SweepsPastTheFirst(start: int, period: int, k: nat)
    requires period > 0
    ensures if k == 0 then SweepAt(start, period, k) == start else SweepAt(start, period, k) >= start + period
  {
    if k > 0 {
      assert k * period == (k - 1) * period + period;
      assert (k - 1) * period >= 0;
    }
  }

  /** Over every channel that stays busy, every warm window of a conversation at its wall
      holds a sweep that acts exactly when the sweep is no slower than the margin; the
      configured one is not. */
  lemma SweptExactlyWithinTheMargin(period: int)
    requires period > 0
    ensures (forall r: Readings, arrivals: Arrivals, conversation: int, start: int ::
               AwaitsItsEdge(r, conversation, start) && BusyThroughout(r, arrivals, conversation) ==>
                 ActsWhileWarm(r, arrivals, conversation, start, period))
            <==> period <= 30_000_000_000
    ensures CONTEXT_SWEEP <= CACHE_EDGE_MARGIN == 30_000_000_000
  {
    if period <= 30_000_000_000 {
      forall r: Readings, arrivals: Arrivals, conversation: int, start: int | AwaitsItsEdge(r, conversation, start)
        ensures ActsWhileWarm(r, arrivals, conversation, start, period)
      {
        EveryWarmWindowIsSwept(r, arrivals, conversation, start, period);
      }
    } else {
      var r := Readings(Some(1), map[], map[7 := 1 - 270_000_000_000], map[7 := 1]);
      var arrivals: Arrivals := now => map[7 := now];
      assert AwaitsItsEdge(r, 7, 0) && BusyThroughout(r, arrivals, 7);
      ASlowerSweepMissesOne(r, arrivals, 7, 0, period);
    }
  }
}
