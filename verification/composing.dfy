/** The composing edge: a keyed counter of unfinished sends fed by two carriers, with a
    polling order and a deadline. */
module Composing {
  import opened Vocabulary
  import opened Tables

  /** The longest one signal may hold open, in seconds. */
  const LIFETIME: nat := 300

  datatype Signal = Signal(channel: ChannelKey, unfinished: nat, expiresAt: nat)

  datatype Cue = ComposingCue | StoppedCue

  /** One update sent, annotated with the conversation it was sent for. */
  datatype Update = Update(conversation: int, channel: ChannelKey, state: Cue)

  datatype BusEvent = Starting(conversation: int) | Terminal(conversation: int) | AnythingElse | EventsLost

  datatype Ending = Ended(conversation: int) | EndingsLost

  datatype Edge = Edge(
    open: map<int, Signal>, updates: seq<Update>, bus: seq<BusEvent>, finished: seq<Ending>, clock: nat)

  /** What lands on one of the two carriers. An ending is of one send; the carrier, and
      so the edge, is told only its conversation. */
  datatype Arrival = Event(event: BusEvent) | Finish(ending: Ending, send: nat)

  function Arrived(e: Edge, arrival: Arrival): Edge {
    match arrival
    case Event(event) => e.(bus := e.bus + [event])
    case Finish(ending, _) => e.(finished := e.finished + [ending])
  }

  function Landed(e: Edge, arrivals: seq<Arrival>): (f: Edge)
    ensures f == e.(bus := f.bus, finished := f.finished) && e.bus <= f.bus && e.finished <= f.finished
    decreases |arrivals|
  {
    if |arrivals| == 0 then e else Landed(Arrived(e, arrivals[0]), arrivals[1..])
  }

  /** What one conversation was told. */
  function Said(updates: seq<Update>, conversation: int): (said: seq<Update>)
  {
    if |updates| == 0 then []
    else
      var before, last := Said(updates[..|updates| - 1], conversation), updates[|updates| - 1];
      if last.conversation == conversation then before + [last] else before
  }

  lemma SaidOneMore(updates: seq<Update>, update: Update, conversation: int)
    ensures Said(updates + [update], conversation) ==
            Said(updates, conversation) + (if update.conversation == conversation then [update] else [])
  {
  }

  // ─── What each branch does ─────────────────────────────────────────────

  /** The given signals close, each with exactly one stop; which of them first is left
      open. */
  ghost predicate Silenced(e: Edge, f: Edge, due: set<int>) {
    && f.open == e.open - due
    && e.updates <= f.updates
    && (forall c :: Said(f.updates, c) == Said(e.updates, c)
                      + (if c in due && c in e.open then [Update(c, e.open[c].channel, StoppedCue)] else []))
    && f.bus == e.bus && f.finished == e.finished && f.clock == e.clock
  }

  predicate Expired(e: Edge, conversation: int) {
    conversation in e.open && e.open[conversation].expiresAt <= e.clock
  }

  function AllExpired(e: Edge): set<int> {
    set c | c in e.open && Expired(e, c)
  }

  /** A begin: the first resolves the channel and lights the cue, a later one is counted
      and pushes the deadline out. The mapping read takes its time. */
  function BeginTaken(e: Edge, conversation: int, answer: Option<ChannelKey>, waited: nat): Edge {
    if conversation in e.open then
      var signal := e.open[conversation];
      e.(open := e.open[conversation := Signal(signal.channel, signal.unfinished + 1, e.clock + LIFETIME)])
    else if answer.None? then e.(clock := e.clock + waited)
    else
      e.(clock := e.clock + waited,
         open := e.open[conversation := Signal(answer.value, 1, e.clock + waited + LIFETIME)],
         updates := e.updates + [Update(conversation, answer.value, ComposingCue)])
  }

  ghost predicate EndingTaken(e: Edge, f: Edge, conversation: int) {
    if conversation in e.open && e.open[conversation].unfinished > 1
    then
      var signal := e.open[conversation];
      f == e.(open := e.open[conversation := signal.(unfinished := signal.unfinished - 1)])
    else Silenced(e, f, {conversation})
  }

  /** What a poll serves: an expiry ahead of the bus, the bus ahead of the endings. The
      branches are polled one after the other, and what lands meanwhile lands behind the
      bus's reading and ahead of the endings'. */
  datatype Served = Expiry | OnBus(event: BusEvent) | OnEndings(ending: Ending) | Parked

  function Serves(e: Edge, landed: seq<Arrival>): Served {
    if AllExpired(e) != {} then Expiry
    else if |e.bus| > 0 then OnBus(e.bus[0])
    else if |Landed(e, landed).finished| > 0 then OnEndings(Landed(e, landed).finished[0])
    else Parked
  }

  /** One pass of the loop. */
  ghost predicate Polled(e: Edge, answer: Option<ChannelKey>, waited: nat, landed: seq<Arrival>, f: Edge) {
    var found := Landed(e, landed);
    match Serves(e, landed)
    case Expiry => Silenced(found, f, AllExpired(e))
    case OnBus(event) =>
      (var taken := found.(bus := found.bus[1..]);
       match event
       case Starting(c) => f == BeginTaken(taken, c, answer, waited)
       case Terminal(c) => Silenced(taken, f, {c})
       case AnythingElse => f == taken
       case EventsLost => Silenced(taken, f, taken.open.Keys))
    case OnEndings(ending) =>
      (var taken := found.(finished := found.finished[1..]);
       match ending
       case Ended(c) => EndingTaken(taken, f, c)
       case EndingsLost => Silenced(taken, f, taken.open.Keys))
    case Parked => f == found
  }

  // ─── The edge, updated in place ────────────────────────────────────────

  /** Any member of a set. */
  method AnyOf<T(==)>(members: set<T>) returns (member: T)
    requires members != {}
    ensures member in members
  {
    member :| member in members;
  }

  class ComposingEdge {
    var open: map<int, Signal>
    var updates: seq<Update>
    var bus: seq<BusEvent>
    var finished: seq<Ending>
    var clock: nat

    function State(): Edge
      reads this
    {
      Edge(open, updates, bus, finished, clock)
    }

    method StopOne(conversation: int)
      modifies this`open, this`updates
      ensures Silenced(old(State()), State(), {conversation})
    {
      if conversation in open {
        var update := Update(conversation, open[conversation].channel, StoppedCue);
        forall c ensures Said(updates + [update], c) ==
          if c == conversation then Said(updates, c) + [update] else Said(updates, c)
        {
          SaidOneMore(updates, update, c);
        }
        open := open - {conversation};
        updates := updates + [update];
      } else {
        assert open == open - {conversation};
      }
    }

    /** Stop every signal of a collected list, one at a time. */
    method StopAll(due: set<int>)
      modifies this`open, this`updates
      ensures Silenced(old(State()), State(), due)
    {
      ghost var was := State();
      var left := due;
      assert open == open - {};
      while left != {}
        invariant left <= due
        invariant Silenced(was, State(), due - left)
        decreases left
      {
        var conversation := AnyOf(left);
        ghost var mid := State();
        StopOne(conversation);
        left := left - {conversation};
        SilencedOneMore(was, mid, State(), due - left, conversation);
      }
      assert due - left == due;
    }

    method StopExpired()
      modifies this`open, this`updates
      ensures Silenced(old(State()), State(), AllExpired(old(State())))
    {
      var due := set c | c in open && open[c].expiresAt <= clock;
      assert due == AllExpired(State());
      StopAll(due);
    }

    method StopEverything()
      modifies this`open, this`updates
      ensures Silenced(old(State()), State(), old(open).Keys)
    {
      StopAll(open.Keys);
    }

    method OneSendDone(conversation: int)
      modifies this`open, this`updates
      ensures EndingTaken(old(State()), State(), conversation)
    {
      if conversation !in open {
        assert open == open - {conversation};
        return;
      }
      var signal := open[conversation];
      var unfinished := if signal.unfinished == 0 then 0 else signal.unfinished - 1;
      if unfinished == 0 {
        StopOne(conversation);
      } else {
        open := open[conversation := signal.(unfinished := unfinished)];
      }
    }

    method Begin(conversation: int, answer: Option<ChannelKey>, waited: nat)
      modifies this
      ensures State() == BeginTaken(old(State()), conversation, answer, waited)
    {
      if conversation in open {
        var signal := open[conversation];
        open := open[conversation := Signal(signal.channel, signal.unfinished + 1, clock + LIFETIME)];
        return;
      }
      clock := clock + waited;
      if answer.Some? {
        open := open[conversation := Signal(answer.value, 1, clock + LIFETIME)];
        updates := updates + [Update(conversation, answer.value, ComposingCue)];
      }
    }

    /** What lands on the carriers while the branches are polled. */
    method Land(landed: seq<Arrival>)
      modifies this`bus, this`finished
      ensures State() == Landed(old(State()), landed)
    {
      ghost var was := State();
      for i := 0 to |landed|
        invariant Landed(was, landed) == Landed(State(), landed[i..])
      {
        assert landed[i..][1..] == landed[i + 1..] && landed[i..][0] == landed[i];
        match landed[i] {
          case Event(event) => bus := bus + [event];
          case Finish(ending, _) => finished := finished + [ending];
        }
      }
    }

    /** One pass of the select loop. */
    method Poll(answer: Option<ChannelKey>, waited: nat, landed: seq<Arrival>)
      modifies this
      ensures Polled(old(State()), answer, waited, landed, State())
    {
      var expired, ready := AllExpired(State()) != {}, |bus| > 0;
      Land(landed);
      if expired {
        StopExpired();
      } else if ready {
        var event := bus[0];
        bus := bus[1..];
        match event {
          case Starting(c) => Begin(c, answer, waited);
          case Terminal(c) => StopOne(c);
          case AnythingElse =>
          case EventsLost => StopEverything();
        }
      } else if |finished| > 0 {
        var ending := finished[0];
        finished := finished[1..];
        match ending {
          case Ended(c) => OneSendDone(c);
          case EndingsLost => StopEverything();
        }
      }
    }
  }

  lemma SilencedOneMore(was: Edge, mid: Edge, now: Edge, due: set<int>, conversation: int)
    requires Silenced(was, mid, due - {conversation}) && Silenced(mid, now, {conversation}) && conversation in due
    ensures Silenced(was, now, due)
  {
  }

  // ─── Runs ──────────────────────────────────────────────────────────────

  datatype Step =
    | Arrives(arrival: Arrival)
    | LoseEvents(n: nat)
    | LoseEndings(n: nat)
    | Tick(seconds: nat)
    | Poll(answer: Option<ChannelKey>, waited: nat, landed: seq<Arrival>)

  ghost predicate Took(e: Edge, step: Step, f: Edge) {
    match step
    case Arrives(arrival) => f == Arrived(e, arrival)
    case LoseEvents(n) => n <= |e.bus| && f == e.(bus := [EventsLost] + e.bus[n..])
    case LoseEndings(n) => n <= |e.finished| && f == e.(finished := [EndingsLost] + e.finished[n..])
    case Tick(seconds) => f == e.(clock := e.clock + seconds)
    case Poll(answer, waited, landed) => Polled(e, answer, waited, landed, f)
  }

  /** A run: each state follows from the one before by its step, whatever the carriers
      lose, however late the polls come. */
  ghost predicate Trace(states: seq<Edge>, steps: seq<Step>) {
    && |states| == |steps| + 1
    && forall k | 0 <= k < |steps| :: Took(states[k], steps[k], states[k + 1])
  }

  // ─── Begin and stop alternate ──────────────────────────────────────────

  /** Begin and stop in strict turn, each stop on its begin's own channel. */
  ghost predicate Alternating(said: seq<Update>) {
    && (forall k | 0 <= k < |said| :: said[k].state == if k % 2 == 0 then ComposingCue else StoppedCue)
    && (forall k | 0 < k < |said| && k % 2 == 1 :: said[k].channel == said[k - 1].channel)
  }

  /** A conversation's cue is lit exactly while its signal is open. */
  ghost predicate Lit(e: Edge, conversation: int) {
    var said := Said(e.updates, conversation);
    && Alternating(said)
    && (conversation in e.open <==> |said| % 2 == 1)
    && (conversation in e.open ==> said[|said| - 1].channel == e.open[conversation].channel)
  }

  ghost predicate Sane(e: Edge) {
    && (forall c :: Lit(e, c))
    && (forall c | c in e.open :: e.open[c].unfinished >= 1 && e.open[c].expiresAt <= e.clock + LIFETIME)
  }

  lemma SilencedStaysSane(e: Edge, f: Edge, due: set<int>)
    requires Sane(e) && Silenced(e, f, due)
    ensures Sane(f)
  {
    forall c ensures Lit(f, c) {
      assert Lit(e, c);
    }
  }

  lemma BeginAlternates(said: seq<Update>, update: Update)
    requires Alternating(said) && |said| % 2 == 0 && update.state == ComposingCue
    ensures Alternating(said + [update])
  {
  }

  lemma BeginStaysLit(e: Edge, conversation: int, answer: Option<ChannelKey>, waited: nat, c: int)
    requires Lit(e, c)
    ensures Lit(BeginTaken(e, conversation, answer, waited), c)
  {
    var said := Said(e.updates, c);
    hide Said;
    if conversation !in e.open && answer.Some? {
      var update := Update(conversation, answer.value, ComposingCue);
      SaidOneMore(e.updates, update, c);
      if c == conversation {
        BeginAlternates(said, update);
      }
    }
    hide Alternating;
  }

  lemma BeginStaysSane(e: Edge, conversation: int, answer: Option<ChannelKey>, waited: nat)
    requires Sane(e)
    ensures Sane(BeginTaken(e, conversation, answer, waited))
  {
    var f := BeginTaken(e, conversation, answer, waited);
    forall c ensures Lit(f, c) {
      assert Lit(e, c);
      BeginStaysLit(e, conversation, answer, waited, c);
    }
    hide Lit;
  }

  /** The carriers are no part of what the signals are. */
  lemma CarriersAreNoMatter(e: Edge, f: Edge)
    requires Sane(e) && f == e.(bus := f.bus, finished := f.finished)
    ensures Sane(f)
  {
    assert forall c :: Lit(e, c) ==> Lit(f, c);
  }

  lemma PollStaysSane(e: Edge, answer: Option<ChannelKey>, waited: nat, landed: seq<Arrival>, f: Edge)
    requires Sane(e) && Polled(e, answer, waited, landed, f)
    ensures Sane(f)
  {
    var found := Landed(e, landed);
    CarriersAreNoMatter(e, found);
    match Serves(e, landed)
    case Expiry => SilencedStaysSane(found, f, AllExpired(e));
    case OnBus(event) =>
      var taken := found.(bus := found.bus[1..]);
      CarriersAreNoMatter(found, taken);
      match event {
        case Starting(c) => BeginStaysSane(taken, c, answer, waited);
        case Terminal(c) => SilencedStaysSane(taken, f, {c});
        case AnythingElse =>
        case EventsLost => SilencedStaysSane(taken, f, taken.open.Keys);
      }
    case OnEndings(ending) =>
      var taken := found.(finished := found.finished[1..]);
      CarriersAreNoMatter(found, taken);
      match ending {
        case Ended(c) => EndingStaysSane(taken, f, c);
        case EndingsLost => SilencedStaysSane(taken, f, taken.open.Keys);
      }
    case Parked =>
  }

  lemma EndingStaysSane(e: Edge, f: Edge, conversation: int)
    requires Sane(e) && EndingTaken(e, f, conversation)
    ensures Sane(f)
  {
    if conversation in e.open && e.open[conversation].unfinished > 1 {
      assert forall d :: Lit(e, d) ==> Lit(f, d);
    } else {
      SilencedStaysSane(e, f, {conversation});
    }
  }

  lemma StepStaysSane(e: Edge, step: Step, f: Edge)
    requires Sane(e) && Took(e, step, f)
    ensures Sane(f)
  {
    if step.Poll? {
      PollStaysSane(e, step.answer, step.waited, step.landed, f);
    } else {
      assert forall c :: Lit(e, c) ==> Lit(f, c);
    }
  }

  /** Over every run, whatever is lost: each conversation is told begin and stop in
      strict turn, its last word is a begin exactly while its signal is open, and every
      open signal counts an unfinished send. */
  lemma {:induction false} EveryRunAlternates(states: seq<Edge>, steps: seq<Step>, k: nat)
    requires Trace(states, steps) && Sane(states[0]) && k <= |steps|
    ensures Sane(states[k])
  {
    if k > 0 {
      EveryRunAlternates(states, steps, k - 1);
      StepStaysSane(states[k - 1], steps[k - 1], states[k]);
    }
  }

  // ─── No signal outlives its lifetime ───────────────────────────────────

  /** This step took a begin of the conversation that left its signal open. */
  ghost predicate TakesBegin(e: Edge, step: Step, conversation: int) {
    && step.Poll? && Serves(e, step.landed) == OnBus(Starting(conversation))
    && (conversation in e.open || step.answer.Some?)
  }

  /** The newest begin of the conversation taken before a state. */
  ghost predicate NewestBegin(states: seq<Edge>, steps: seq<Step>, j: nat, k: nat, conversation: int)
    requires |states| == |steps| + 1
  {
    && j < k <= |steps| && TakesBegin(states[j], steps[j], conversation)
    && forall m | j < m < k :: !TakesBegin(states[m], steps[m], conversation)
  }

  lemma DeadlinesMoveByBegins(e: Edge, step: Step, f: Edge, conversation: int)
    requires Took(e, step, f) && conversation in f.open
    ensures if TakesBegin(e, step, conversation) then f.open[conversation].expiresAt == f.clock + LIFETIME
            else conversation in e.open && e.open[conversation].expiresAt == f.open[conversation].expiresAt
  {
  }

  /** The deadline of an open signal is a lifetime past its newest begin. */
  lemma {:induction false} DeadlineIsALifetimePastABegin(states: seq<Edge>, steps: seq<Step>, k: nat, conversation: int)
    returns (j: nat)
    requires Trace(states, steps) && k <= |steps| && conversation in states[k].open
    requires conversation !in states[0].open
    ensures NewestBegin(states, steps, j, k, conversation)
    ensures states[k].open[conversation].expiresAt == states[j + 1].clock + 300
  {
    var e, step := states[k - 1], steps[k - 1];
    assert Took(e, step, states[k]);
    DeadlinesMoveByBegins(e, step, states[k], conversation);
    hide Took;
    if TakesBegin(e, step, conversation) {
      j := k - 1;
    } else {
      j := DeadlineIsALifetimePastABegin(states, steps, k - 1, conversation);
    }
  }

  /** A poll leaves no signal open past its deadline, whatever the bus is doing: every
      signal open after it had its newest begin within the last lifetime. */
  lemma NoSignalOutlivesItsLifetime(states: seq<Edge>, steps: seq<Step>, k: nat, conversation: int) returns (j: nat)
    requires Trace(states, steps) && k < |steps| && steps[k].Poll?
    requires conversation in states[k + 1].open && conversation !in states[0].open
    ensures NewestBegin(states, steps, j, k + 1, conversation) && states[k].clock < states[j + 1].clock + 300
  {
    assert Took(states[k], steps[k], states[k + 1]);
    j := DeadlineIsALifetimePastABegin(states, steps, k + 1, conversation);
    if !TakesBegin(states[k], steps[k], conversation) {
      assert conversation !in AllExpired(states[k]);
    }
  }

  /** Once a lifetime has gone by with no begin, the next poll stops the signal, whatever
      the carriers hold. */
  lemma AnOverdueSignalStops(e: Edge, f: Edge, g: Edge, seconds: nat, poll: Step, conversation: int)
    requires conversation in e.open && e.open[conversation].expiresAt <= e.clock + 300 && seconds >= 300
    requires Took(e, Tick(seconds), f) && poll.Poll? && Took(f, poll, g)
    ensures conversation !in g.open
    ensures Said(g.updates, conversation) ==
            Said(e.updates, conversation) + [Update(conversation, e.open[conversation].channel, StoppedCue)]
  {
    assert Expired(f, conversation) && conversation in AllExpired(f);
  }

  // ─── Whose sends the count stands for ──────────────────────────────────

  /** One run's account of one conversation's sends, told apart by number; the edge keeps
      none of it. A bus event's number is the place it landed in. */
  datatype Account = Account(
    begins: seq<nat>,   // the numbers of the events on the bus
    endings: seq<nat>,  // the sends the endings on the other carrier are of
    next: nat,
    known: set<nat>,    // sends whose begin has landed
    reported: set<nat>, // sends whose ending has landed
    counted: set<nat>,  // sends the open signal has counted
    passed: set<nat>,   // sends it has not: counted before it was open, dropped or lost
    ended: set<nat>,    // sends whose ending has been taken
    early: set<nat>,    // sends it counted whose ending had been taken before
    strays: seq<nat>)   // endings it counted down by that end none it still counts
  {
    /** The sends the open signal counted that have not ended. */
    function Owing(): set<nat> {
      counted - ended
    }
  }

  const UNHEARD: Account := Account([], [], 0, {}, {}, {}, {}, {}, {}, [])

  function Noted(a: Account, arrival: Arrival, conversation: int): Account {
    match arrival
    case Event(event) =>
      a.(begins := a.begins + [a.next], next := a.next + 1,
         known := a.known + if event == Starting(conversation) then {a.next} else {})
    case Finish(ending, send) =>
      a.(endings := a.endings + [send],
         reported := a.reported + if ending == Ended(conversation) then {send} else {})
  }

  function NotedAll(a: Account, arrivals: seq<Arrival>, conversation: int): Account
    decreases |arrivals|
  {
    if |arrivals| == 0 then a else NotedAll(Noted(a, arrivals[0], conversation), arrivals[1..], conversation)
  }

  /** The signal closes: what it counted has passed. */
  function Cleared(a: Account): Account {
    a.(counted := {}, passed := a.passed + a.counted, early := {}, strays := [])
  }

  /** A begin is taken, and counted unless its mapping read answered nothing. */
  function BeginAccounted(a: Account, send: nat, counts: bool): Account {
    if !counts then a.(passed := a.passed + {send})
    else a.(counted := a.counted + {send}, early := a.early + if send in a.ended then {send} else {})
  }

  /** An ending counts an open signal down, whichever send it is of. */
  function EndingCounted(a: Account, send: nat): Account {
    if send in a.Owing() then a.(ended := a.ended + {send})
    else a.(ended := a.ended + {send}, strays := a.strays + [send])
  }

  function EndingAccounted(a: Account, e: Edge, send: nat, conversation: int): Account {
    if conversation !in e.open then a.(ended := a.ended + {send})
    else if e.open[conversation].unfinished > 1 then EndingCounted(a, send)
    else Cleared(EndingCounted(a, send))
  }

  function ServedAccount(a: Account, e: Edge, served: Served, answered: bool, conversation: int): Account {
    match served
    case Expiry => if Expired(e, conversation) then Cleared(a) else a
    case OnBus(event) =>
      if |a.begins| == 0 then a
      else
        var send, taken := a.begins[0], a.(begins := a.begins[1..]);
        (match event
         case Starting(c) => if c == conversation then BeginAccounted(taken, send, c in e.open || answered) else taken
         case Terminal(c) => if c == conversation then Cleared(taken) else taken
         case AnythingElse => taken
         case EventsLost => Cleared(taken))
    case OnEndings(ending) =>
      if |a.endings| == 0 then a
      else
        var send, taken := a.endings[0], a.(endings := a.endings[1..]);
        (match ending
         case Ended(c) => if c == conversation then EndingAccounted(taken, e, send, conversation) else taken
         case EndingsLost => Cleared(taken))
    case Parked => a
  }

  /** The numbers a lag takes off the bus. */
  function Lost(begins: seq<nat>, n: nat): set<nat> {
    set i | 0 <= i < n && i < |begins| :: begins[i]
  }

  /** The account after one step taken from `e`. */
  function Turned(a: Account, e: Edge, step: Step, conversation: int): Account {
    match step
    case Arrives(arrival) => Noted(a, arrival, conversation)
    case LoseEvents(n) =>
      if n > |a.begins| then a
      else a.(begins := [a.next] + a.begins[n..], next := a.next + 1, passed := a.passed + Lost(a.begins, n))
    case LoseEndings(n) => if n > |a.endings| then a else a.(endings := [0] + a.endings[n..])
    case Tick(_) => a
    case Poll(answer, _, landed) =>
      ServedAccount(NotedAll(a, landed, conversation), e, Serves(e, landed), answer.Some?, conversation)
  }

  function AccountAt(states: seq<Edge>, steps: seq<Step>, conversation: int, k: nat): Account
    requires k <= |steps| && |states| == |steps| + 1
  {
    if k == 0 then UNHEARD
    else Turned(AccountAt(states, steps, conversation, k - 1), states[k - 1], steps[k - 1], conversation)
  }

  lemma AccountTurns(states: seq<Edge>, steps: seq<Step>, conversation: int, k: nat)
    requires 0 < k <= |steps| && |states| == |steps| + 1
    ensures AccountAt(states, steps, conversation, k)
            == Turned(AccountAt(states, steps, conversation, k - 1), states[k - 1], steps[k - 1], conversation)
  {
  }

  lemma AccountBegins(states: seq<Edge>, steps: seq<Step>, conversation: int)
    requires |states| == |steps| + 1
    ensures AccountAt(states, steps, conversation, 0) == UNHEARD
  {
  }

  /** A run starts on a subscription of its own: nothing open, nothing queued. */
  ghost predicate Fresh(e: Edge) {
    e.open == map[] && e.bus == [] && e.finished == []
  }

  // ─── The count ─────────────────────────────────────────────────────────

  /** The account numbers what is queued, each event once, none of it taken before. */
  ghost predicate Numbered(a: Account, e: Edge) {
    && |a.begins| == |e.bus| && |a.endings| == |e.finished|
    && (forall i | 0 <= i < |a.begins| :: a.begins[i] < a.next && a.begins[i] !in a.counted && a.begins[i] !in a.passed)
    && (forall i, j | 0 <= i < j < |a.begins| :: a.begins[i] != a.begins[j])
    && (forall send | send in a.known || send in a.counted || send in a.passed :: send < a.next)
  }

  /** The open signal counts the sends of its own that have not ended, one more for each
      whose ending was taken early, and one less for each stray ending. */
  ghost predicate CountsExactly(a: Account, e: Edge, conversation: int) {
    && a.early <= a.counted * a.ended
    && if conversation in e.open
       then 1 <= e.open[conversation].unfinished == |a.Owing()| + |a.early| - |a.strays|
       else a.counted == {} && a.early == {} && a.strays == []
  }

  ghost predicate Exact(a: Account, e: Edge, conversation: int) {
    Numbered(a, e) && CountsExactly(a, e, conversation)
  }

  lemma ArrivalStaysExact(a: Account, e: Edge, arrival: Arrival, conversation: int)
    requires Exact(a, e, conversation)
    ensures Exact(Noted(a, arrival, conversation), Arrived(e, arrival), conversation)
  {
    ArrivalStaysNumbered(a, e, arrival, conversation);
    hide Numbered;
  }

  lemma ArrivalStaysNumbered(a: Account, e: Edge, arrival: Arrival, conversation: int)
    requires Numbered(a, e)
    ensures Numbered(Noted(a, arrival, conversation), Arrived(e, arrival))
  {
  }

  lemma {:induction false} LandingStaysExact(a: Account, e: Edge, arrivals: seq<Arrival>, conversation: int)
    requires Exact(a, e, conversation)
    ensures Exact(NotedAll(a, arrivals, conversation), Landed(e, arrivals), conversation)
    decreases |arrivals|
  {
    if |arrivals| > 0 {
      ArrivalStaysExact(a, e, arrivals[0], conversation);
      LandingStaysExact(Noted(a, arrivals[0], conversation), Arrived(e, arrivals[0]), arrivals[1..], conversation);
    }
  }

  lemma LossStaysExact(a: Account, e: Edge, step: Step, f: Edge, conversation: int)
    requires Exact(a, e, conversation) && Took(e, step, f) && (step.LoseEvents? || step.LoseEndings?)
    ensures Exact(Turned(a, e, step, conversation), f, conversation)
  {
    if step.LoseEvents? {
      var b := Turned(a, e, step, conversation);
      assert forall i | 0 < i < |b.begins| :: b.begins[i] == a.begins[step.n + i - 1];
    }
  }

  lemma ClearedStaysExact(a: Account, e: Edge, f: Edge, due: set<int>, conversation: int)
    requires Exact(a, e, conversation) && Silenced(e, f, due)
    ensures Exact(if conversation in due then Cleared(a) else a, f, conversation)
  {
  }

  lemma BeginStaysNumbered(a: Account, e: Edge, f: Edge, counts: bool)
    requires Numbered(a, e) && |e.bus| > 0 && f.bus == e.bus[1..] && f.finished == e.finished
    ensures Numbered(BeginAccounted(a.(begins := a.begins[1..]), a.begins[0], counts), f)
  {
    var b := BeginAccounted(a.(begins := a.begins[1..]), a.begins[0], counts);
    assert forall i | 0 <= i < |b.begins| :: b.begins[i] == a.begins[i + 1];
  }

  lemma OneMoreOwed(a: Account, send: nat)
    requires send !in a.counted && a.early <= a.counted * a.ended
    ensures var b := BeginAccounted(a, send, true);
            && b.early <= b.counted * b.ended && b.strays == a.strays
            && |b.Owing()| + |b.early| == |a.Owing()| + |a.early| + 1
  {
    var b := BeginAccounted(a, send, true);
    assert b.Owing() == if send in a.ended then a.Owing() else a.Owing() + {send};
    assert send !in a.early;
  }

  lemma BeginStaysExact(a: Account, e: Edge, answer: Option<ChannelKey>, waited: nat, conversation: int)
    requires Exact(a, e, conversation) && |e.bus| > 0
    ensures var taken := e.(bus := e.bus[1..]);
            Exact(BeginAccounted(a.(begins := a.begins[1..]), a.begins[0], conversation in e.open || answer.Some?),
                  BeginTaken(taken, conversation, answer, waited), conversation)
  {
    var send, taken := a.begins[0], e.(bus := e.bus[1..]);
    var counts := conversation in e.open || answer.Some?;
    var f := BeginTaken(taken, conversation, answer, waited);
    BeginStaysNumbered(a, e, f, counts);
    OneMoreOwed(a.(begins := a.begins[1..]), send);
    hide Numbered;
    if !counts {
      assert f.open == e.open;
    }
  }

  lemma CountingDown(a: Account, send: nat)
    requires a.early <= a.counted * a.ended
    ensures var b := EndingCounted(a, send);
            && b.early == a.early <= b.counted * b.ended && b.counted == a.counted
            && |b.Owing()| - |b.strays| == |a.Owing()| - |a.strays| - 1
  {
    var b := EndingCounted(a, send);
    if send in a.Owing() {
      assert b.Owing() == a.Owing() - {send};
    } else {
      assert b.Owing() == a.Owing();
    }
  }

  lemma EndingStaysExact(a: Account, e: Edge, f: Edge, send: nat, conversation: int)
    requires Exact(a, e, conversation) && EndingTaken(e, f, conversation)
    ensures Exact(EndingAccounted(a, e, send, conversation), f, conversation)
  {
    CountingDown(a, send);
  }

  lemma QueueTaken(a: Account, e: Edge, conversation: int)
    requires Exact(a, e, conversation)
    ensures |e.bus| > 0 ==> Exact(a.(begins := a.begins[1..]), e.(bus := e.bus[1..]), conversation)
    ensures |e.finished| > 0 ==> Exact(a.(endings := a.endings[1..]), e.(finished := e.finished[1..]), conversation)
  {
  }

  lemma PollStaysExact(a: Account, e: Edge, step: Step, f: Edge, conversation: int)
    requires Exact(a, e, conversation) && Took(e, step, f) && step.Poll?
    ensures Exact(Turned(a, e, step, conversation), f, conversation)
  {
    hide Exact, Silenced, EndingTaken;
    var noted, found := NotedAll(a, step.landed, conversation), Landed(e, step.landed);
    LandingStaysExact(a, e, step.landed, conversation);
    QueueTaken(noted, found, conversation);
    ExactIsNumbered(noted, found, conversation);
    match Serves(e, step.landed)
    case Expiry => ClearedStaysExact(noted, found, f, AllExpired(e), conversation);
    case OnBus(event) =>
      var taken, b := found.(bus := found.bus[1..]), noted.(begins := noted.begins[1..]);
      match event {
        case Starting(c) =>
          if c == conversation {
            BeginStaysExact(noted, found, step.answer, step.waited, conversation);
          } else {
            OthersStayExact(b, taken, f, conversation);
          }
        case Terminal(c) => ClearedStaysExact(b, taken, f, {c}, conversation);
        case AnythingElse =>
        case EventsLost => EverythingStaysExact(b, taken, f, conversation);
      }
    case OnEndings(ending) =>
      var taken, b := found.(finished := found.finished[1..]), noted.(endings := noted.endings[1..]);
      match ending {
        case Ended(c) =>
          if c == conversation {
            EndingStaysExact(b, taken, f, noted.endings[0], conversation);
          } else {
            OtherEndingKeeps(taken, f, c, conversation);
            OthersStayExact(b, taken, f, conversation);
          }
        case EndingsLost => EverythingStaysExact(b, taken, f, conversation);
      }
    case Parked =>
  }

  lemma ExactIsNumbered(a: Account, e: Edge, conversation: int)
    requires Exact(a, e, conversation)
    ensures Numbered(a, e)
  {
  }

  lemma OtherEndingKeeps(e: Edge, f: Edge, other: int, conversation: int)
    requires EndingTaken(e, f, other) && other != conversation
    ensures f.bus == e.bus && f.finished == e.finished
    ensures conversation in f.open <==> conversation in e.open
    ensures conversation in e.open ==> f.open[conversation] == e.open[conversation]
  {
  }

  /** What another conversation is told leaves this one's account as it is. */
  lemma OthersStayExact(a: Account, e: Edge, f: Edge, conversation: int)
    requires Exact(a, e, conversation) && f.bus == e.bus && f.finished == e.finished
    requires conversation in f.open <==> conversation in e.open
    requires conversation in e.open ==> f.open[conversation] == e.open[conversation]
    ensures Exact(a, f, conversation)
  {
  }

  lemma EverythingStaysExact(a: Account, e: Edge, f: Edge, conversation: int)
    requires Exact(a, e, conversation) && Silenced(e, f, e.open.Keys)
    ensures Exact(Cleared(a), f, conversation)
  {
  }

  lemma StepStaysExact(a: Account, e: Edge, step: Step, f: Edge, conversation: int)
    requires Exact(a, e, conversation) && Took(e, step, f)
    ensures Exact(Turned(a, e, step, conversation), f, conversation)
  {
    hide Exact;
    match step
    case Arrives(arrival) => ArrivalStaysExact(a, e, arrival, conversation);
    case LoseEvents(_) => LossStaysExact(a, e, step, f, conversation);
    case LoseEndings(_) => LossStaysExact(a, e, step, f, conversation);
    case Tick(_) => OthersStayExact(a, e, f, conversation);
    case Poll(_, _, _) => PollStaysExact(a, e, step, f, conversation);
  }

  /** Over every run, whatever is lost, doubled, dropped or raced and however often the
      signal clears: it counts exactly its own sends that have not ended, those that ended
      before they were counted, less the endings of other sends it was counted down by. */
  lemma {:induction false} TheCountIsExact(states: seq<Edge>, steps: seq<Step>, conversation: int, k: nat)
    requires Trace(states, steps) && Fresh(states[0]) && k <= |steps|
    ensures Exact(AccountAt(states, steps, conversation, k), states[k], conversation)
  {
    AccountBegins(states, steps, conversation);
    hide AccountAt, Turned;
    if k > 0 {
      AccountTurns(states, steps, conversation, k);
      TheCountIsExact(states, steps, conversation, k - 1);
      assert Took(states[k - 1], steps[k - 1], states[k]);
      hide Exact, Took;
      StepStaysExact(AccountAt(states, steps, conversation, k - 1),
                     states[k - 1], steps[k - 1], states[k], conversation);
    }
  }

  // ─── What an ending stops ──────────────────────────────────────────────

  /** The step takes an ending of the conversation over its open signal. */
  ghost predicate EndsOne(e: Edge, step: Step, conversation: int) {
    step.Poll? && Serves(e, step.landed) == OnEndings(Ended(conversation)) && conversation in e.open
  }

  /** The account with that ending counted, before a stop clears it. */
  function Tallied(states: seq<Edge>, steps: seq<Step>, conversation: int, k: nat): Account
    requires k < |steps| && |states| == |steps| + 1 && steps[k].Poll?
  {
    var noted := NotedAll(AccountAt(states, steps, conversation, k), steps[k].landed, conversation);
    if |noted.endings| == 0 then noted
    else EndingCounted(noted.(endings := noted.endings[1..]), noted.endings[0])
  }

  lemma EmptyExactly(owing: set<nat>)
    ensures owing == {} <==> |owing| == 0
  {
  }

  lemma TallyBalances(states: seq<Edge>, steps: seq<Step>, conversation: int, k: nat)
    requires Trace(states, steps) && Fresh(states[0]) && k < |steps| && EndsOne(states[k], steps[k], conversation)
    ensures var tally := Tallied(states, steps, conversation, k);
            && |tally.Owing()| + |tally.early| - |tally.strays| == states[k].open[conversation].unfinished - 1
            && (conversation !in states[k + 1].open <==> states[k].open[conversation].unfinished == 1)
  {
    var a := AccountAt(states, steps, conversation, k);
    TheCountIsExact(states, steps, conversation, k);
    LandingStaysExact(a, states[k], steps[k].landed, conversation);
    var noted := NotedAll(a, steps[k].landed, conversation);
    assert Took(states[k], steps[k], states[k + 1]);
    CountingDown(noted.(endings := noted.endings[1..]), noted.endings[0]);
  }

  /** Over every run, an ending stops the open signal exactly when the sends it still
      owes and those it counted late come to the strays it was counted down by. It stops
      exactly when the last of the signal's sends has ended, if and only if, where one or
      the other happens, as many were counted late as strays counted. */
  lemma AnEndingStopsExactly(states: seq<Edge>, steps: seq<Step>, conversation: int, k: nat)
    requires Trace(states, steps) && Fresh(states[0]) && k < |steps| && EndsOne(states[k], steps[k], conversation)
    ensures var tally, stops := Tallied(states, steps, conversation, k), conversation !in states[k + 1].open;
            && (stops <==> |tally.Owing()| + |tally.early| == |tally.strays|)
            && ((stops <==> tally.Owing() == {}) <==>
                (stops || tally.Owing() == {} ==> |tally.early| == |tally.strays|))
  {
    TallyBalances(states, steps, conversation, k);
    EmptyExactly(Tallied(states, steps, conversation, k).Owing());
  }

  // ─── Runs in order ─────────────────────────────────────────────────────

  /** A send's ending lands after its begin has, and lands once. */
  predicate InTurn(a: Account, arrival: Arrival, conversation: int) {
    arrival.Finish? && arrival.ending == Ended(conversation) ==> arrival.send in a.known && arrival.send !in a.reported
  }

  predicate AllInTurn(a: Account, arrivals: seq<Arrival>, conversation: int)
    decreases |arrivals|
  {
    |arrivals| > 0 ==>
      && InTurn(a, arrivals[0], conversation)
      && AllInTurn(Noted(a, arrivals[0], conversation), arrivals[1..], conversation)
  }

  /** Every send of the conversation ends once, past its begin; anything may still be
      lost, dropped or cleared. */
  ghost predicate Orderly(states: seq<Edge>, steps: seq<Step>, conversation: int)
    requires |states| == |steps| + 1
  {
    forall k: nat | k < |steps| ::
      && (steps[k].Arrives? ==> InTurn(AccountAt(states, steps, conversation, k), steps[k].arrival, conversation))
      && (steps[k].Poll? ==> AllInTurn(AccountAt(states, steps, conversation, k), steps[k].landed, conversation))
  }

  /** Nothing lands between a poll's two readings. */
  ghost predicate Unraced(steps: seq<Step>) {
    forall k: nat | k < |steps| && steps[k].Poll? :: steps[k].landed == []
  }

  /** Every send begun is counted, passed or still on the bus; every ending queued is of a
      send begun, and its first. */
  ghost predicate Told(a: Account, e: Edge, conversation: int) {
    && Numbered(a, e)
    && a.ended <= a.reported <= a.known
    && (forall send | send in a.known :: send in a.counted || send in a.passed || send in a.begins)
    && (forall i | 0 <= i < |e.bus| && a.begins[i] in a.known :: e.bus[i] == Starting(conversation))
    && (forall i | 0 <= i < |e.finished| && e.finished[i] == Ended(conversation) ::
          a.endings[i] in a.reported && a.endings[i] !in a.ended)
    && (forall i, j | 0 <= i < j < |e.finished| && e.finished[i] == Ended(conversation) == e.finished[j] ::
          a.endings[i] != a.endings[j])
  }

  lemma ArrivalStaysTold(a: Account, e: Edge, arrival: Arrival, conversation: int)
    requires Told(a, e, conversation) && InTurn(a, arrival, conversation)
    ensures Told(Noted(a, arrival, conversation), Arrived(e, arrival), conversation)
  {
    var b := Noted(a, arrival, conversation);
    assert forall send | send in a.begins :: send in b.begins;
    if arrival.Event? {
      assert b.begins[|a.begins|] == a.next;
    }
  }

  lemma {:induction false} LandingStaysTold(a: Account, e: Edge, arrivals: seq<Arrival>, conversation: int)
    requires Told(a, e, conversation) && AllInTurn(a, arrivals, conversation)
    ensures Told(NotedAll(a, arrivals, conversation), Landed(e, arrivals), conversation)
    decreases |arrivals|
  {
    if |arrivals| > 0 {
      ArrivalStaysTold(a, e, arrivals[0], conversation);
      LandingStaysTold(Noted(a, arrivals[0], conversation), Arrived(e, arrivals[0]), arrivals[1..], conversation);
    }
  }

  lemma LandingExtends(a: Account, arrivals: seq<Arrival>, conversation: int)
    ensures var b := NotedAll(a, arrivals, conversation);
            && a.begins <= b.begins && a.endings <= b.endings && a.known <= b.known && a.next <= b.next
            && b.counted == a.counted && b.passed == a.passed && b.ended == a.ended
            && b.early == a.early && b.strays == a.strays
            && forall send | send in b.known && send !in a.known :: send in b.begins
    decreases |arrivals|
  {
    if |arrivals| > 0 {
      var m := Noted(a, arrivals[0], conversation);
      LandingExtends(m, arrivals[1..], conversation);
      assert forall send | send in m.known && send !in a.known :: m.begins[|a.begins|] == send;
    }
  }

  lemma LostEventsStayTold(a: Account, e: Edge, step: Step, f: Edge, conversation: int)
    requires Told(a, e, conversation) && Took(e, step, f) && step.LoseEvents?
    ensures Told(Turned(a, e, step, conversation), f, conversation)
  {
    var b := Turned(a, e, step, conversation);
    LossStaysNumbered(a, e, step.n);
    assert forall i | 0 < i < |b.begins| :: b.begins[i] == a.begins[step.n + i - 1];
    forall send | send in a.begins ensures send in b.passed || send in b.begins {
      var i :| 0 <= i < |a.begins| && a.begins[i] == send;
      if i >= step.n { assert b.begins[i - step.n + 1] == send; }
    }
    hide Numbered, Lost;
  }

  lemma LossStaysNumbered(a: Account, e: Edge, n: nat)
    requires Numbered(a, e) && n <= |e.bus|
    ensures var b := a.(begins := [a.next] + a.begins[n..], next := a.next + 1, passed := a.passed + Lost(a.begins, n));
            Numbered(b, e.(bus := [EventsLost] + e.bus[n..]))
  {
    var begins := [a.next] + a.begins[n..];
    assert forall i | 0 < i < |begins| :: begins[i] == a.begins[n + i - 1];
  }

  lemma LostEndingsStayTold(a: Account, e: Edge, step: Step, f: Edge, conversation: int)
    requires Told(a, e, conversation) && Took(e, step, f) && step.LoseEndings?
    ensures Told(Turned(a, e, step, conversation), f, conversation)
  {
    var b := Turned(a, e, step, conversation);
    assert forall i | 0 < i < |f.finished| ::
        f.finished[i] == e.finished[step.n + i - 1] && b.endings[i] == a.endings[step.n + i - 1];
  }

  /** A bus event taken: a begin of the conversation goes to its signal or has passed. */
  lemma TakingStaysTold(a: Account, e: Edge, conversation: int, counts: bool)
    requires Told(a, e, conversation) && |e.bus| > 0
    ensures var b, taken := a.(begins := a.begins[1..]), e.(bus := e.bus[1..]);
            if e.bus[0] == Starting(conversation) then Told(BeginAccounted(b, a.begins[0], counts), taken, conversation)
            else Told(b, taken, conversation)
  {
    var b := a.(begins := a.begins[1..]);
    assert a.begins == [a.begins[0]] + b.begins;
    assert forall i | 0 <= i < |b.begins| :: b.begins[i] == a.begins[i + 1];
  }

  lemma AnsweringStaysTold(a: Account, e: Edge, conversation: int)
    requires Told(a, e, conversation) && |e.finished| > 0
    ensures var b, taken := a.(endings := a.endings[1..]), e.(finished := e.finished[1..]);
            && Told(b, taken, conversation)
            && (e.finished[0] == Ended(conversation) ==>
                  Told(b.(ended := b.ended + {a.endings[0]}), taken, conversation))
  {
  }

  /** Strays and what was counted early are no part of it, and clearing moves nothing out
      of it. */
  lemma ToldStands(a: Account, b: Account, e: Edge, f: Edge, conversation: int)
    requires Told(a, e, conversation) && f.bus == e.bus && f.finished == e.finished
    requires b == a.(counted := b.counted, passed := b.passed, early := b.early, strays := b.strays)
    requires b.counted + b.passed == a.counted + a.passed
    ensures Told(b, f, conversation)
  {
    assert forall send :: send in b.counted || send in b.passed <==> send in a.counted + a.passed;
  }

  lemma BusStaysTold(a: Account, e: Edge, f: Edge, event: BusEvent, answered: bool, conversation: int)
    requires Told(a, e, conversation) && |e.bus| > 0 && e.bus[0] == event
    requires f.bus == e.bus[1..] && f.finished == e.finished
    ensures Told(ServedAccount(a, e, OnBus(event), answered, conversation), f, conversation)
  {
    var taken, b := e.(bus := e.bus[1..]), a.(begins := a.begins[1..]);
    var counts := conversation in e.open || answered;
    ToldIsNumbered(a, e, conversation);
    TakingStaysTold(a, e, conversation, counts);
    var from := if event == Starting(conversation) then BeginAccounted(b, a.begins[0], counts) else b;
    hide Told;
    ToldStands(from, ServedAccount(a, e, OnBus(event), answered, conversation), taken, f, conversation);
  }

  lemma EndingsStayTold(a: Account, e: Edge, f: Edge, ending: Ending, conversation: int)
    requires Told(a, e, conversation) && |e.finished| > 0 && e.finished[0] == ending
    requires f.bus == e.bus && f.finished == e.finished[1..]
    ensures Told(ServedAccount(a, e, OnEndings(ending), false, conversation), f, conversation)
  {
    var taken, b := e.(finished := e.finished[1..]), a.(endings := a.endings[1..]);
    ToldIsNumbered(a, e, conversation);
    AnsweringStaysTold(a, e, conversation);
    var from := if ending == Ended(conversation) then b.(ended := b.ended + {a.endings[0]}) else b;
    hide Told;
    ToldStands(from, ServedAccount(a, e, OnEndings(ending), false, conversation), taken, f, conversation);
  }

  /** What a poll takes off the carriers. */
  lemma PollTakes(e: Edge, step: Step, f: Edge)
    requires Took(e, step, f) && step.Poll?
    ensures var found := Landed(e, step.landed);
            match Serves(e, step.landed)
            case Expiry => f.bus == found.bus && f.finished == found.finished
            case OnBus(event) =>
              |found.bus| > 0 && found.bus[0] == event && f.bus == found.bus[1..] && f.finished == found.finished
            case OnEndings(ending) =>
              && |found.finished| > 0 && found.finished[0] == ending
              && f.bus == found.bus && f.finished == found.finished[1..]
            case Parked => f == found
  {
  }

  lemma PollStaysTold(a: Account, e: Edge, step: Step, f: Edge, conversation: int)
    requires Told(a, e, conversation) && Took(e, step, f) && step.Poll? && AllInTurn(a, step.landed, conversation)
    ensures Told(Turned(a, e, step, conversation), f, conversation)
  {
    var noted, found := NotedAll(a, step.landed, conversation), Landed(e, step.landed);
    LandingStaysTold(a, e, step.landed, conversation);
    PollTakes(e, step, f);
    hide Told, Took, AllInTurn, NotedAll;
    match Serves(e, step.landed)
    case Expiry => ToldStands(noted, Turned(a, e, step, conversation), found, f, conversation);
    case OnBus(event) =>
      BusStaysTold(noted, found, f, event, step.answer.Some?, conversation);
      SameOpenServesAlike(noted, e, found, OnBus(event), step.answer.Some?, conversation);
    case OnEndings(ending) =>
      EndingsStayTold(noted, found, f, ending, conversation);
      SameOpenServesAlike(noted, e, found, OnEndings(ending), step.answer.Some?, conversation);
    case Parked =>
  }

  lemma SameOpenServesAlike(a: Account, e: Edge, f: Edge, served: Served, answered: bool, conversation: int)
    requires f.open == e.open && f.clock == e.clock
    ensures ServedAccount(a, e, served, answered, conversation) == ServedAccount(a, f, served, answered, conversation)
    ensures served.OnEndings? ==>
              ServedAccount(a, e, served, answered, conversation) == ServedAccount(a, f, served, false, conversation)
  {
  }

  lemma ToldIsNumbered(a: Account, e: Edge, conversation: int)
    requires Told(a, e, conversation)
    ensures Numbered(a, e)
  {
  }

  lemma StepStaysTold(a: Account, e: Edge, step: Step, f: Edge, conversation: int)
    requires Told(a, e, conversation) && Took(e, step, f)
    requires step.Arrives? ==> InTurn(a, step.arrival, conversation)
    requires step.Poll? ==> AllInTurn(a, step.landed, conversation)
    ensures Told(Turned(a, e, step, conversation), f, conversation)
  {
    hide Told;
    match step
    case Arrives(arrival) => ArrivalStaysTold(a, e, arrival, conversation);
    case LoseEvents(_) => LostEventsStayTold(a, e, step, f, conversation);
    case LoseEndings(_) => LostEndingsStayTold(a, e, step, f, conversation);
    case Tick(_) => ToldStands(a, a, e, f, conversation);
    case Poll(_, _, _) => PollStaysTold(a, e, step, f, conversation);
  }

  lemma OrderlyStep(states: seq<Edge>, steps: seq<Step>, conversation: int, k: nat)
    requires Trace(states, steps) && Orderly(states, steps, conversation) && k < |steps|
    ensures Took(states[k], steps[k], states[k + 1])
    ensures steps[k].Arrives? ==> InTurn(AccountAt(states, steps, conversation, k), steps[k].arrival, conversation)
    ensures steps[k].Poll? ==> AllInTurn(AccountAt(states, steps, conversation, k), steps[k].landed, conversation)
  {
    hide Took, InTurn, AllInTurn, AccountAt;
  }

  lemma FreshIsTold(e: Edge, conversation: int)
    requires Fresh(e)
    ensures Told(UNHEARD, e, conversation)
  {
  }

  lemma {:induction false} EveryOrderlyRunIsTold(states: seq<Edge>, steps: seq<Step>, conversation: int, k: nat)
    requires Trace(states, steps) && Fresh(states[0]) && Orderly(states, steps, conversation) && k <= |steps|
    ensures Told(AccountAt(states, steps, conversation, k), states[k], conversation)
  {
    AccountBegins(states, steps, conversation);
    FreshIsTold(states[0], conversation);
    hide AccountAt, Turned, Told, Took, Fresh, InTurn, AllInTurn;
    if k > 0 {
      AccountTurns(states, steps, conversation, k);
      EveryOrderlyRunIsTold(states, steps, conversation, k - 1);
      OrderlyStep(states, steps, conversation, k - 1);
      hide Trace, Orderly;
      StepStaysTold(AccountAt(states, steps, conversation, k - 1),
                    states[k - 1], steps[k - 1], states[k], conversation);
    }
  }

  /** The begin is counted before its ending, unless both land between one poll's two
      readings: an ending is taken with its begin still on the bus exactly when the begin
      landed after that poll had found the bus empty, and then neither carrier held
      anything before. */
  lemma AnEndingOvertakesExactly(states: seq<Edge>, steps: seq<Step>, conversation: int, k: nat)
    requires Trace(states, steps) && Fresh(states[0]) && Orderly(states, steps, conversation)
    requires k < |steps| && steps[k].Poll? && Serves(states[k], steps[k].landed) == OnEndings(Ended(conversation))
    ensures var a := AccountAt(states, steps, conversation, k);
            var noted := NotedAll(a, steps[k].landed, conversation);
            && |noted.endings| > 0
            && (noted.endings[0] in noted.begins <==> noted.endings[0] !in a.known)
            && (noted.endings[0] in noted.begins ==> states[k].bus == [] && states[k].finished == [])
  {
    var a, landed := AccountAt(states, steps, conversation, k), steps[k].landed;
    var noted, found := NotedAll(a, landed, conversation), Landed(states[k], landed);
    EveryOrderlyRunIsTold(states, steps, conversation, k);
    LandingStaysTold(a, states[k], landed, conversation);
    LandingExtends(a, landed, conversation);
    assert found.finished[0] == Ended(conversation) && noted.endings[0] in noted.known;
    if noted.endings[0] in a.known {
      assert a.begins == [];
      assert noted.endings[0] in noted.counted || noted.endings[0] in noted.passed;
    }
  }

  // ─── Where nothing races ───────────────────────────────────────────────

  /** Nothing is counted early, and every stray is of a send begun that the signal did
      not count: one of before it was open, dropped or lost. */
  ghost predicate OnTime(a: Account) {
    && a.early == {}
    && (forall i | 0 <= i < |a.strays| :: a.strays[i] in a.known && a.strays[i] in a.passed)
    && (forall i | 0 <= i < |a.begins| :: a.begins[i] !in a.ended)
  }

  lemma TalliesOnTime(a: Account, e: Edge, conversation: int)
    requires Told(a, e, conversation) && OnTime(a) && e.bus == []
    requires |e.finished| > 0 && e.finished[0] == Ended(conversation)
    ensures OnTime(EndingCounted(a.(endings := a.endings[1..]), a.endings[0]))
  {
  }

  lemma StepStaysOnTime(a: Account, e: Edge, step: Step, f: Edge, conversation: int)
    requires Told(a, e, conversation) && OnTime(a) && Took(e, step, f)
    requires step.Poll? ==> step.landed == []
    ensures OnTime(Turned(a, e, step, conversation))
  {
    if step.Poll? && Serves(e, []) == OnEndings(Ended(conversation)) {
      TalliesOnTime(a, e, conversation);
    }
  }

  lemma {:induction false} EveryUnracedRunIsOnTime(states: seq<Edge>, steps: seq<Step>, conversation: int, k: nat)
    requires Trace(states, steps) && Fresh(states[0]) && Orderly(states, steps, conversation) && Unraced(steps)
    requires k <= |steps|
    ensures OnTime(AccountAt(states, steps, conversation, k))
  {
    AccountBegins(states, steps, conversation);
    hide AccountAt, Turned, Told, Took, Fresh, InTurn, AllInTurn;
    if k > 0 {
      AccountTurns(states, steps, conversation, k);
      EveryUnracedRunIsOnTime(states, steps, conversation, k - 1);
      EveryOrderlyRunIsTold(states, steps, conversation, k - 1);
      OrderlyStep(states, steps, conversation, k - 1);
      hide OnTime, Orderly, Trace;
      StepStaysOnTime(AccountAt(states, steps, conversation, k - 1),
                      states[k - 1], steps[k - 1], states[k], conversation);
    }
  }

  /** Over every run in order that nothing races, with any number of clears, losses and
      dropped begins: an ending that finds the last of the signal's sends ended stops it;
      and one that stops it finds them all ended exactly when no ending of another send,
      of before the signal opened above all, was counted since. As many sends are left
      unended as there were strays. */
  lemma AnEndingStopsExactlyTheLast(states: seq<Edge>, steps: seq<Step>, conversation: int, k: nat)
    requires Trace(states, steps) && Fresh(states[0]) && Orderly(states, steps, conversation) && Unraced(steps)
    requires k < |steps| && EndsOne(states[k], steps[k], conversation)
    ensures var tally, stops := Tallied(states, steps, conversation, k), conversation !in states[k + 1].open;
            && (tally.Owing() == {} ==> stops)
            && (stops ==> |tally.Owing()| == |tally.strays| && (tally.Owing() == {} <==> tally.strays == []))
            && (forall i | 0 <= i < |tally.strays| :: tally.strays[i] in tally.known && tally.strays[i] in tally.passed)
  {
    AnEndingStopsExactly(states, steps, conversation, k);
    TallyBalances(states, steps, conversation, k);
    EveryOrderlyRunIsTold(states, steps, conversation, k);
    EveryUnracedRunIsOnTime(states, steps, conversation, k);
    var a, tally := AccountAt(states, steps, conversation, k), Tallied(states, steps, conversation, k);
    TheCountIsExact(states, steps, conversation, k);
    assert NotedAll(a, steps[k].landed, conversation) == a && Landed(states[k], steps[k].landed) == states[k];
    TalliesOnTime(a, states[k], conversation);
    EmptyExactly(tally.Owing());
  }

  /** So over a whole such run every ending stops the open signal exactly at the last of
      its sends, if and only if no ending that stops it had counted a stray since it
      opened. */
  lemma EveryStopIsTheLastExactly(states: seq<Edge>, steps: seq<Step>, conversation: int)
    requires Trace(states, steps) && Fresh(states[0]) && Orderly(states, steps, conversation) && Unraced(steps)
    ensures (forall k: nat | k < |steps| && EndsOne(states[k], steps[k], conversation) ::
               conversation !in states[k + 1].open <==> Tallied(states, steps, conversation, k).Owing() == {})
            <==>
            (forall k: nat | k < |steps| && EndsOne(states[k], steps[k], conversation) ::
               conversation !in states[k + 1].open ==> Tallied(states, steps, conversation, k).strays == [])
  {
    forall k: nat | k < |steps| && EndsOne(states[k], steps[k], conversation)
      ensures (conversation !in states[k + 1].open <==> Tallied(states, steps, conversation, k).Owing() == {})
              <==>
              (conversation !in states[k + 1].open ==> Tallied(states, steps, conversation, k).strays == [])
    {
      AnEndingStopsExactlyTheLast(states, steps, conversation, k);
    }
    hide Trace, Orderly, Unraced, Tallied, EndsOne;
  }

  // ─── Two runs ──────────────────────────────────────────────────────────

  function LitOnce(conversation: int, channel: ChannelKey): map<int, Signal> {
    map[conversation := Signal(channel, 1, LIFETIME)]
  }

  /** One send begins, its round's stream ends, it ends itself, and the next send begins:
      nothing is lost or raced, and both mapping reads are answered. */
  function StaleSteps(conversation: int, channel: ChannelKey): seq<Step> {
    [Arrives(Event(Starting(conversation))), Poll(Some(channel), 0, []),
     Arrives(Event(Terminal(conversation))), Poll(None, 0, []),
     Arrives(Finish(Ended(conversation), 0)), Arrives(Event(Starting(conversation))),
     Poll(Some(channel), 0, []), Poll(None, 0, [])]
  }

  function StaleStates(conversation: int, channel: ChannelKey): seq<Edge> {
    var begin, stop := Update(conversation, channel, ComposingCue), Update(conversation, channel, StoppedCue);
    var start, done := Starting(conversation), Ended(conversation);
    var lit := LitOnce(conversation, channel);
    [Edge(map[], [], [], [], 0), Edge(map[], [], [start], [], 0), Edge(lit, [begin], [], [], 0),
     Edge(lit, [begin], [Terminal(conversation)], [], 0), Edge(map[], [begin, stop], [], [], 0),
     Edge(map[], [begin, stop], [], [done], 0), Edge(map[], [begin, stop], [start], [done], 0),
     Edge(lit, [begin, stop, begin], [], [done], 0), Edge(map[], [begin, stop, begin, stop], [], [], 0)]
  }

  /** The account of that run, state by state. */
  function StaleAccounts(): seq<Account> {
    [UNHEARD,
     Account([0], [], 1, {0}, {}, {}, {}, {}, {}, []),
     Account([], [], 1, {0}, {}, {0}, {}, {}, {}, []),
     Account([1], [], 2, {0}, {}, {0}, {}, {}, {}, []),
     Account([], [], 2, {0}, {}, {}, {0}, {}, {}, []),
     Account([], [0], 2, {0}, {0}, {}, {0}, {}, {}, []),
     Account([2], [0], 3, {0, 2}, {0}, {}, {0}, {}, {}, []),
     Account([], [0], 3, {0, 2}, {0}, {2}, {0}, {}, {}, [])]
  }

  /** One open signal, stopped. */
  lemma StoppingSilences(e: Edge, conversation: int)
    requires conversation in e.open && e.open.Keys == {conversation}
    ensures var stop := Update(conversation, e.open[conversation].channel, StoppedCue);
            Silenced(e, e.(open := map[], updates := e.updates + [stop]), {conversation})
  {
    var stop := Update(conversation, e.open[conversation].channel, StoppedCue);
    forall c {
      SaidOneMore(e.updates, stop, c);
    }
    assert e.open - {conversation} == map[];
  }

  lemma StaleStep(conversation: int, channel: ChannelKey, k: nat)
    requires k < 8
    ensures Took(StaleStates(conversation, channel)[k], StaleSteps(conversation, channel)[k],
                 StaleStates(conversation, channel)[k + 1])
  {
    var e, f := StaleStates(conversation, channel)[k], StaleStates(conversation, channel)[k + 1];
    if k == 3 || k == 7 {
      assert e.open.Keys == {conversation};
      var taken := if k == 3 then e.(bus := []) else e.(finished := []);
      StoppingSilences(taken, conversation);
      assert f == taken.(open := map[], updates := taken.updates + [Update(conversation, channel, StoppedCue)]);
    }
  }

  lemma StaleFirstTurns(conversation: int, channel: ChannelKey, k: nat)
    requires k < 4
    ensures Turned(StaleAccounts()[k], StaleStates(conversation, channel)[k],
                   StaleSteps(conversation, channel)[k], conversation)
            == StaleAccounts()[k + 1]
  {
  }

  lemma StaleLastTurns(conversation: int, channel: ChannelKey, k: nat)
    requires 4 <= k < 7
    ensures Turned(StaleAccounts()[k], StaleStates(conversation, channel)[k],
                   StaleSteps(conversation, channel)[k], conversation)
            == StaleAccounts()[k + 1]
  {
  }

  lemma {:induction false} StaleAccount(conversation: int, channel: ChannelKey, k: nat)
    requires k < 8
    ensures AccountAt(StaleStates(conversation, channel), StaleSteps(conversation, channel), conversation, k)
            == StaleAccounts()[k]
  {
    if k > 0 {
      StaleAccount(conversation, channel, k - 1);
      if k - 1 < 4 {
        StaleFirstTurns(conversation, channel, k - 1);
      } else {
        StaleLastTurns(conversation, channel, k - 1);
      }
      hide Turned, StaleAccounts;
    }
  }

  /** The second send is taken ahead of the first one's ending, which then stops its
      signal: in order, unraced, nothing lost, and the second send has not ended. */
  lemma AStaleEndingDarkensTheNext(conversation: int, channel: ChannelKey)
    ensures var states, steps := StaleStates(conversation, channel), StaleSteps(conversation, channel);
            && Trace(states, steps) && Fresh(states[0]) && Orderly(states, steps, conversation) && Unraced(steps)
            && EndsOne(states[7], steps[7], conversation) && conversation !in states[8].open
            && Tallied(states, steps, conversation, 7).Owing() == {2}
            && Tallied(states, steps, conversation, 7).strays == [0]
  {
    var states, steps := StaleStates(conversation, channel), StaleSteps(conversation, channel);
    forall k | 0 <= k < |steps| ensures Took(states[k], steps[k], states[k + 1]) {
      StaleStep(conversation, channel, k);
    }
    StaleAccount(conversation, channel, 4);
    assert Orderly(states, steps, conversation) by {
      hide AccountAt;
      assert InTurn(AccountAt(states, steps, conversation, 4), steps[4].arrival, conversation);
    }
    StaleAccount(conversation, channel, 7);
    hide AccountAt, Turned, Took;
  }

  lemma TwoLand(a: Account, e: Edge, first: Arrival, second: Arrival, conversation: int)
    ensures Landed(e, [first, second]) == Arrived(Arrived(e, first), second)
    ensures NotedAll(a, [first, second], conversation) == Noted(Noted(a, first, conversation), second, conversation)
    ensures AllInTurn(a, [first, second], conversation) <==>
            InTurn(a, first, conversation) && InTurn(Noted(a, first, conversation), second, conversation)
  {
    assert [first, second][1..] == [second] && [second][1..] == [];
    assert Landed(Arrived(e, first), [second]) == Arrived(Arrived(e, first), second);
    assert NotedAll(Noted(a, first, conversation), [second], conversation)
           == Noted(Noted(a, first, conversation), second, conversation);
    assert AllInTurn(Noted(a, first, conversation), [second], conversation)
           <==> InTurn(Noted(a, first, conversation), second, conversation);
  }

  /** A begin and its ending land between one poll's two readings. */
  function RacedSteps(conversation: int, channel: ChannelKey): seq<Step> {
    [Poll(None, 0, [Event(Starting(conversation)), Finish(Ended(conversation), 0)]), Poll(Some(channel), 0, [])]
  }

  function RacedStates(conversation: int, channel: ChannelKey): seq<Edge> {
    [Edge(map[], [], [], [], 0), Edge(map[], [], [Starting(conversation)], [], 0),
     Edge(LitOnce(conversation, channel), [Update(conversation, channel, ComposingCue)], [], [], 0)]
  }

  lemma RacedPoll(conversation: int, channel: ChannelKey)
    ensures var states, steps := RacedStates(conversation, channel), RacedSteps(conversation, channel);
            && Took(states[0], steps[0], states[1])
            && Turned(UNHEARD, states[0], steps[0], conversation) == Account([0], [], 1, {0}, {0}, {}, {}, {0}, {}, [])
            && AllInTurn(UNHEARD, steps[0].landed, conversation)
  {
    var e := RacedStates(conversation, channel)[0];
    TwoLand(UNHEARD, e, Event(Starting(conversation)), Finish(Ended(conversation), 0), conversation);
    assert Landed(e, RacedSteps(conversation, channel)[0].landed)
           == Edge(map[], [], [Starting(conversation)], [Ended(conversation)], 0);
    hide Landed, NotedAll, AllInTurn;
  }

  lemma LateBegin(conversation: int, channel: ChannelKey)
    ensures var states, steps := RacedStates(conversation, channel), RacedSteps(conversation, channel);
            && Took(states[1], steps[1], states[2])
            && Turned(Account([0], [], 1, {0}, {0}, {}, {}, {0}, {}, []), states[1], steps[1], conversation)
               == Account([], [], 1, {0}, {0}, {0}, {}, {0}, {0}, [])
  {
  }

  /** Both carriers are empty as the poll reads the bus, so it takes the ending first; the
      next one lights a cue whose send has ended. */
  lemma ARacedBeginLeavesTheCueLit(conversation: int, channel: ChannelKey)
    ensures var states, steps := RacedStates(conversation, channel), RacedSteps(conversation, channel);
            var account := AccountAt(states, steps, conversation, 2);
            && Trace(states, steps) && Fresh(states[0]) && Orderly(states, steps, conversation)
            && conversation in states[2].open && account.Owing() == {} && account.early == {0}
  {
    var states, steps := RacedStates(conversation, channel), RacedSteps(conversation, channel);
    RacedPoll(conversation, channel);
    LateBegin(conversation, channel);
    AccountBegins(states, steps, conversation);
    AccountTurns(states, steps, conversation, 1);
    AccountTurns(states, steps, conversation, 2);
    assert steps[1].landed == [] && AllInTurn(AccountAt(states, steps, conversation, 1), [], conversation);
    hide AccountAt, Took, Turned, AllInTurn, InTurn;
  }

  /** Under the other order the ending of the one send begun finds nothing to count
      down, and the cue its begin then lights has no ending left to stop it. */
  lemma EndingsFirstLeavesTheCueLit(e: Edge, f: Edge, conversation: int, channel: ChannelKey)
    requires conversation !in e.open && e.bus == [Starting(conversation)] && e.finished == [Ended(conversation)]
    requires EndingTaken(e.(finished := []), f, conversation)
    ensures var lit := BeginTaken(f.(bus := []), conversation, Some(channel), 0);
            && conversation in lit.open && lit.open[conversation].unfinished == 1
            && lit.bus == [] && lit.finished == []
  {
  }
}
