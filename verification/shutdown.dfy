/** The unattended tasks and their shutdown: loops are aborted and awaited, confirmed
    erasures are awaited to their end, and none is accepted once a shutdown has begun. */
module Shutdown {

  /** A task told to abort is still there until it winds down. */
  datatype TaskState = Running | Aborting | Ended | Aborted
  {
    predicate Live() {
      Running? || Aborting?
    }
  }

  /** One shutdown call: the loops it has still to abort, those it has still to await,
      and the erasures it has still to await. */
  datatype Call = Call(unaborted: seq<nat>, loops: seq<nat>, waiting: seq<nat>, returned: bool)

  /** Every task ever started, by number, and which of them are erasures; the two lists
      the assembly holds; whether a shutdown has begun; every shutdown call made. */
  datatype State = State(
    tasks: seq<TaskState>, erasing: set<nat>,
    aborted: seq<nat>, erasures: seq<nat>, stopping: bool, calls: seq<Call>)

  predicate IsLive(tasks: seq<TaskState>, t: nat) {
    t < |tasks| && tasks[t].Live()
  }

  function Unfinished(tasks: seq<TaskState>, list: seq<nat>): (left: seq<nat>)
    ensures forall t :: t in left <==> t in list && IsLive(tasks, t)
  {
    if |list| == 0 then []
    else if IsLive(tasks, list[0]) then [list[0]] + Unfinished(tasks, list[1..])
    else Unfinished(tasks, list[1..])
  }

  // ─── Every interleaving ────────────────────────────────────────────────

  datatype Step = Spawned | Finished(task: nat) | WoundDown(task: nat) | ShutdownCalled | CallMoves(call: nat)

  function AfterAbort(tasks: seq<TaskState>, t: nat): seq<TaskState> {
    if t < |tasks| && tasks[t].Running? then tasks[t := Aborting] else tasks
  }

  /** A call aborts every loop it took, then awaits each, then each erasure, then
      returns; while the task it awaits is there it does not move. */
  function Awaited(s: State, c: nat): State
    requires c < |s.calls|
  {
    var call := s.calls[c];
    if |call.unaborted| > 0 then
      s.(tasks := AfterAbort(s.tasks, call.unaborted[0]),
         calls := s.calls[c := call.(unaborted := call.unaborted[1..])])
    else if |call.loops| > 0 then
      if IsLive(s.tasks, call.loops[0]) then s else s.(calls := s.calls[c := call.(loops := call.loops[1..])])
    else if |call.waiting| > 0 then
      if IsLive(s.tasks, call.waiting[0]) then s else s.(calls := s.calls[c := call.(waiting := call.waiting[1..])])
    else s.(calls := s.calls[c := call.(returned := true)])
  }

  function Next(s: State, step: Step): State
  {
    match step
    case Spawned =>
      if s.stopping then s
      else s.(tasks := s.tasks + [Running], erasing := s.erasing + {|s.tasks|},
              erasures := Unfinished(s.tasks, s.erasures) + [|s.tasks|])
    case Finished(t) => if t < |s.tasks| && s.tasks[t].Running? then s.(tasks := s.tasks[t := Ended]) else s
    case WoundDown(t) => if t < |s.tasks| && s.tasks[t].Aborting? then s.(tasks := s.tasks[t := Aborted]) else s
    case ShutdownCalled =>
      s.(stopping := true, aborted := [], erasures := [],
         calls := s.calls + [Call(s.aborted, s.aborted, s.erasures, false)])
    case CallMoves(c) => if c < |s.calls| then Awaited(s, c) else s
  }

  /** The loops a fresh assembly starts with. */
  function Start(loops: nat): State {
    State(seq(loops, _ => Running), {}, seq(loops, k => k), [], false, [])
  }

  /** A list of loops, none of them an erasure. */
  ghost predicate LoopsOnly(s: State, list: seq<nat>) {
    forall t | t in list :: t < |s.tasks| && t !in s.erasing
  }

  /** A call's loops are loops, and those it no longer has to abort are not running on. */
  ghost predicate CallKept(s: State, call: Call) {
    && LoopsOnly(s, call.unaborted) && LoopsOnly(s, call.loops)
    && (forall t | t in call.loops && t !in call.unaborted :: t < |s.tasks| && !s.tasks[t].Running?)
    && (call.returned ==> call.unaborted == [] && call.loops == [] && call.waiting == [])
  }

  /** Every live task is on a list the first shutdown takes or has taken, each kind on
      its own. */
  ghost predicate Listed(s: State) {
    && (s.stopping <==> |s.calls| > 0)
    && (forall t: nat | IsLive(s.tasks, t) ::
          if t in s.erasing then t in if s.stopping then s.calls[0].waiting else s.erasures
          else t in if s.stopping then s.calls[0].loops else s.aborted)
  }

  ghost predicate ErasuresRun(s: State) {
    forall t | t in s.erasing :: t < |s.tasks| && (s.tasks[t].Running? || s.tasks[t].Ended?)
  }

  ghost predicate Kept(s: State) {
    && Listed(s) && ErasuresRun(s) && LoopsOnly(s, s.aborted)
    && forall c | 0 <= c < |s.calls| :: CallKept(s, s.calls[c])
  }

  /** No task starts or runs on, and none changes its kind. */
  ghost predicate WindsDown(s: State, after: State) {
    && |after.tasks| == |s.tasks| && after.erasing == s.erasing
    && forall t: nat | t < |s.tasks| ::
         && (after.tasks[t].Running? ==> s.tasks[t].Running?)
         && (after.tasks[t].Live() ==> s.tasks[t].Live())
  }

  lemma WindingDownKeepsCall(s: State, after: State, call: Call)
    requires CallKept(s, call) && WindsDown(s, after)
    ensures CallKept(after, call)
  {
  }

  lemma MoveWindsDown(s: State, c: nat)
    requires c < |s.calls|
    ensures WindsDown(s, Awaited(s, c))
    ensures Awaited(s, c) == s.(tasks := Awaited(s, c).tasks, calls := s.calls[c := Awaited(s, c).calls[c]])
  {
  }

  /** A call's own move: it told one loop to abort, or dropped one that is gone. */
  lemma MovedCallKeeps(s: State, c: nat)
    requires c < |s.calls| && CallKept(s, s.calls[c])
    ensures CallKept(Awaited(s, c), Awaited(s, c).calls[c])
  {
    var call, after := s.calls[c], Awaited(s, c);
    MoveWindsDown(s, c);
    WindingDownKeepsCall(s, after, call);
    if |call.unaborted| > 0 {
      var first, rest := call.unaborted[0], call.unaborted[1..];
      assert call.unaborted == [first] + rest;
      assert after.calls[c] == call.(unaborted := rest) && after.tasks == AfterAbort(s.tasks, first);
      assert forall t | t in rest :: t in call.unaborted;
    } else if |call.loops| > 0 {
      assert call.loops == [call.loops[0]] + call.loops[1..];
    }
  }

  /** A move drops no live task from the lists it waits on. */
  lemma MoveKeepsWaiting(s: State, c: nat)
    requires c < |s.calls|
    ensures var after := Awaited(s, c);
            && (forall t | t in s.calls[c].loops && IsLive(s.tasks, t) :: t in after.calls[c].loops)
            && (forall t | t in s.calls[c].waiting && IsLive(s.tasks, t) :: t in after.calls[c].waiting)
  {
    var call := s.calls[c];
    if |call.loops| > 0 {
      assert call.loops == [call.loops[0]] + call.loops[1..];
    }
    if |call.waiting| > 0 {
      assert call.waiting == [call.waiting[0]] + call.waiting[1..];
    }
  }

  lemma MoveStaysListed(s: State, c: nat)
    requires c < |s.calls| && Listed(s)
    ensures Listed(Awaited(s, c))
  {
    var after := Awaited(s, c);
    MoveWindsDown(s, c);
    MoveKeepsWaiting(s, c);
    hide Awaited;
    forall t: nat | IsLive(after.tasks, t)
      ensures if t in after.erasing then t in after.calls[0].waiting else t in after.calls[0].loops
    {
      assert IsLive(s.tasks, t);
    }
  }

  /** An abort reaches no erasure. */
  lemma MoveSparesErasures(s: State, c: nat)
    requires c < |s.calls| && ErasuresRun(s) && CallKept(s, s.calls[c])
    ensures ErasuresRun(Awaited(s, c))
  {
  }

  lemma CallMovesKeeps(s: State, c: nat)
    requires Kept(s) && c < |s.calls|
    ensures Kept(Awaited(s, c))
  {
    var after := Awaited(s, c);
    MoveStaysListed(s, c);
    MoveSparesErasures(s, c);
    MoveWindsDown(s, c);
    MovedCallKeeps(s, c);
    hide Awaited, Listed, ErasuresRun, CallKept;
    forall d | 0 <= d < |after.calls| ensures CallKept(after, after.calls[d]) {
      if d != c {
        assert CallKept(s, s.calls[d]);
        WindingDownKeepsCall(s, after, s.calls[d]);
      }
    }
  }

  lemma SpawningKeeps(s: State)
    requires Kept(s)
    ensures Kept(Next(s, Spawned))
  {
    var after := Next(s, Spawned);
    forall t: nat | IsLive(after.tasks, t) && t < |s.tasks| ensures IsLive(s.tasks, t) {
    }
    forall d | 0 <= d < |after.calls| ensures CallKept(after, after.calls[d]) {
      assert CallKept(s, s.calls[d]);
    }
  }

  lemma EndingKeeps(s: State, t: nat, to: TaskState)
    requires Kept(s) && t < |s.tasks|
    requires (to.Ended? && s.tasks[t].Running?) || (to.Aborted? && s.tasks[t].Aborting?)
    ensures Kept(s.(tasks := s.tasks[t := to]))
  {
    var after := s.(tasks := s.tasks[t := to]);
    forall u: nat | IsLive(after.tasks, u) ensures IsLive(s.tasks, u) {
    }
    assert WindsDown(s, after);
    forall d | 0 <= d < |after.calls| ensures CallKept(after, after.calls[d]) {
      WindingDownKeepsCall(s, after, s.calls[d]);
    }
  }

  lemma CallingKeeps(s: State)
    requires Kept(s)
    ensures Kept(Next(s, ShutdownCalled))
  {
    var after := Next(s, ShutdownCalled);
    forall d | 0 <= d < |after.calls| ensures CallKept(after, after.calls[d]) {
      assert d < |s.calls| ==> after.calls[d] == s.calls[d];
      if d < |s.calls| { WindingDownKeepsCall(s, after, s.calls[d]); }
    }
  }

  lemma NextKeeps(s: State, step: Step)
    requires Kept(s)
    ensures Kept(Next(s, step))
  {
    hide Kept;
    match step
    case CallMoves(c) => if c < |s.calls| { CallMovesKeeps(s, c); }
    case Spawned => SpawningKeeps(s);
    case Finished(t) => if t < |s.tasks| && s.tasks[t].Running? { EndingKeeps(s, t, Ended); }
    case WoundDown(t) => if t < |s.tasks| && s.tasks[t].Aborting? { EndingKeeps(s, t, Aborted); }
    case ShutdownCalled => CallingKeeps(s);
  }

  // ─── The lists, updated in place under their lock ──────────────────────

  /** The assembly's tasks and lists. Each method is one step of the machine above. */
  class Workers {
    var tasks: seq<TaskState>
    var erasing: set<nat>
    var aborted: seq<nat>
    var erasures: seq<nat>
    var stopping: bool
    var calls: seq<Call>

    /** A fresh assembly, its loops running. */
    constructor (loops: nat)
      ensures Contents() == Start(loops) && Kept(Contents())
    {
      tasks, erasing := seq(loops, _ => Running), {};
      aborted, erasures := seq(loops, k => k), [];
      stopping, calls := false, [];
      new;
      StartIsKept(loops);
    }

    ghost function Contents(): State
      reads this
    {
      State(tasks, erasing, aborted, erasures, stopping, calls)
    }

    /** Start a confirmed erasure, dropping the handles of those already finished; a
        shutdown that has begun accepts none. */
    method SpawnErasure() returns (started: bool)
      requires Kept(Contents())
      modifies this
      ensures started == !old(stopping)
      ensures !started ==> tasks == old(tasks) && erasures == old(erasures)
      ensures started ==>
                && tasks == old(tasks) + [Running]
                && erasures == Unfinished(old(tasks), old(erasures)) + [|old(tasks)|]
      ensures Contents() == Next(old(Contents()), Spawned) && Kept(Contents())
    {
      NextKeeps(Contents(), Spawned);
      if stopping {
        return false;
      }
      var retained: seq<nat> := [];
      for i := 0 to |erasures|
        invariant retained + Unfinished(tasks, erasures[i..]) == Unfinished(tasks, erasures)
      {
        assert erasures[i..][1..] == erasures[i + 1..];
        if IsLive(tasks, erasures[i]) {
          assert retained + [erasures[i]] + Unfinished(tasks, erasures[i + 1..])
                 == retained + Unfinished(tasks, erasures[i..]);
          retained := retained + [erasures[i]];
        }
      }
      assert retained + [] == retained;
      erasures := retained + [|tasks|];
      erasing := erasing + {|tasks|};
      tasks := tasks + [Running];
      started := true;
    }

    /** A shutdown's first act: refuse from here on, and take both lists. */
    method TakeLists() returns (call: nat)
      requires Kept(Contents())
      modifies this
      ensures Contents() == Next(old(Contents()), ShutdownCalled) && Kept(Contents())
      ensures call == |old(calls)| && |calls| == call + 1 && !calls[call].returned
    {
      NextKeeps(Contents(), ShutdownCalled);
      stopping, call := true, |calls|;
      calls := calls + [Call(aborted, aborted, erasures, false)];
      aborted, erasures := [], [];
    }

    /** Tell every loop a call took to abort, awaiting none: each that runs is aborting,
        and no erasure is. */
    method AbortLoops(call: nat)
      requires Kept(Contents()) && call < |calls|
      modifies this`tasks, this`calls
      ensures Kept(Contents()) && calls == old(calls)[call := old(calls)[call].(unaborted := [])]
      ensures |tasks| == |old(tasks)|
      ensures forall t: nat | t < |tasks| ::
                tasks[t] == if t in old(calls)[call].unaborted && old(tasks)[t].Running?
                            then Aborting else old(tasks)[t]
      ensures forall t | t in erasing :: t < |tasks| && tasks[t] == old(tasks)[t]
    {
      ghost var was := tasks;
      var taken := calls[call].unaborted;
      LoopsAreNoErasures(Contents(), call);
      hide Kept;
      for i := 0 to |taken|
        invariant Kept(Contents()) && |tasks| == |was|
        invariant calls == old(calls)[call := old(calls)[call].(unaborted := taken[i..])]
        invariant forall t: nat | t < |tasks| ::
                    tasks[t] == if t in taken[..i] && was[t].Running? then Aborting else was[t]
      {
        AbortingKeeps(Contents(), call);
        assert calls[call].unaborted == taken[i..] && taken[i..][1..] == taken[i + 1..];
        assert taken[..i + 1] == taken[..i] + [taken[i]];
        tasks := AfterAbort(tasks, calls[call].unaborted[0]);
        calls := calls[call := calls[call].(unaborted := calls[call].unaborted[1..])];
      }
      assert taken[..|taken|] == taken && taken[|taken|..] == [];
    }
  }

  lemma LoopsAreNoErasures(s: State, c: nat)
    requires Kept(s) && c < |s.calls|
    ensures forall t | t in s.calls[c].unaborted :: t !in s.erasing
    ensures forall t | t in s.erasing :: t < |s.tasks|
  {
    assert CallKept(s, s.calls[c]);
  }

  lemma AbortingKeeps(s: State, c: nat)
    requires Kept(s) && c < |s.calls| && |s.calls[c].unaborted| > 0
    ensures var call := s.calls[c];
            Kept(s.(tasks := AfterAbort(s.tasks, call.unaborted[0]),
                    calls := s.calls[c := call.(unaborted := call.unaborted[1..])]))
  {
    NextKeeps(s, CallMoves(c));
  }

  function Run(s: State, steps: seq<Step>): State
    decreases |steps|
  {
    if |steps| == 0 then s else Run(Next(s, steps[0]), steps[1..])
  }

  lemma {:induction false} RunKeeps(s: State, steps: seq<Step>)
    requires Kept(s)
    ensures Kept(Run(s, steps))
    decreases |steps|
  {
    if |steps| > 0 {
      NextKeeps(s, steps[0]);
      RunKeeps(Next(s, steps[0]), steps[1..]);
    }
  }

  /** What a call still has ahead of it. */
  function Ahead(call: Call): nat {
    |call.unaborted| + |call.loops| + |call.waiting| + if call.returned then 0 else 1
  }

  /** The task a call that has aborted everything waits for. */
  function Awaits(call: Call): (list: seq<nat>) {
    if |call.loops| > 0 then call.loops else call.waiting
  }

  /** A call comes one nearer to its return by its own move, unless the task it waits for
      is there; and that task going is all it waits for. */
  lemma CallMovesOn(s: State, c: nat)
    requires c < |s.calls| && !s.calls[c].returned
    requires s.calls[c].unaborted == [] && Awaits(s.calls[c]) != [] ==> !IsLive(s.tasks, Awaits(s.calls[c])[0])
    ensures var after := Next(s, CallMoves(c));
            |after.calls| == |s.calls| && Ahead(after.calls[c]) == Ahead(s.calls[c]) - 1
  {
  }

  lemma TaskGoes(s: State, t: nat)
    requires IsLive(s.tasks, t)
    ensures var after := Next(s, if s.tasks[t].Running? then Finished(t) else WoundDown(t));
            !IsLive(after.tasks, t) && after.calls == s.calls
  {
  }

  /** No shutdown is ever stuck: from any state, with no more than tasks ending on their
      own and its own moves, a call comes to its return. */
  lemma {:induction false} EveryCallCanReturn(s: State, c: nat) returns (steps: seq<Step>)
    requires c < |s.calls|
    ensures forall k | 0 <= k < |steps| :: steps[k] == CallMoves(c) || steps[k].Finished? || steps[k].WoundDown?
    ensures c < |Run(s, steps).calls| && Run(s, steps).calls[c].returned
    decreases Ahead(s.calls[c])
  {
    var call := s.calls[c];
    if call.returned {
      return [];
    }
    var ends: seq<Step> := [];
    var ready := s;
    if call.unaborted == [] && Awaits(call) != [] && IsLive(s.tasks, Awaits(call)[0]) {
      var t := Awaits(call)[0];
      TaskGoes(s, t);
      ends := [if s.tasks[t].Running? then Finished(t) else WoundDown(t)];
      ready := Next(s, ends[0]);
    }
    CallMovesOn(ready, c);
    var rest := EveryCallCanReturn(Next(ready, CallMoves(c)), c);
    steps := ends + ([CallMoves(c)] + rest);
    hide Next, Ahead, Awaits, IsLive;
    assert ([CallMoves(c)] + rest)[1..] == rest;
    assert |ends| == 1 ==> steps[1..] == [CallMoves(c)] + rest;
    assert |ends| == 0 ==> steps == [CallMoves(c)] + rest;
  }

  /** No task is there to write: none runs, and none is still winding down. */
  ghost predicate NothingRuns(s: State) {
    forall t: nat | t < |s.tasks| :: !s.tasks[t].Live()
  }

  lemma {:induction false} QuietStaysQuiet(s: State, steps: seq<Step>)
    requires Kept(s) && s.stopping && NothingRuns(s)
    ensures Run(s, steps).tasks == s.tasks
    decreases |steps|
  {
    if |steps| > 0 {
      NextKeeps(s, steps[0]);
      var t := Next(s, steps[0]);
      assert t.tasks == s.tasks && t.stopping;
      QuietStaysQuiet(t, steps[1..]);
    }
  }

  lemma StartIsKept(loops: nat)
    ensures Kept(Start(loops))
  {
    var s := Start(loops);
    forall t: nat | t < |s.tasks| ensures t in s.aborted {
      assert s.aborted[t] == t;
    }
  }

  /** Once the shutdown that began returns, nothing is there to write and nothing ever
      starts again; every erasure a person was told had started ran to its end, and none
      was aborted. */
  lemma ShutdownIsTheEnd(loops: nat, steps: seq<Step>, later: seq<Step>)
    requires var s := Run(Start(loops), steps); |s.calls| > 0 && s.calls[0].returned
    ensures var s := Run(Start(loops), steps);
            && NothingRuns(s) && (forall t | t in s.erasing :: t < |s.tasks| && s.tasks[t].Ended?)
            && Run(s, later).tasks == s.tasks
  {
    StartIsKept(loops);
    RunKeeps(Start(loops), steps);
    var s := Run(Start(loops), steps);
    assert CallKept(s, s.calls[0]);
    forall t: nat | t < |s.tasks| ensures !IsLive(s.tasks, t) {
    }
    QuietStaysQuiet(s, later);
  }

  /** What any call's return is worth: once a shutdown has begun, nothing is there to
      write exactly when nothing the first call took still is. */
  lemma StoppedExactly(loops: nat, steps: seq<Step>)
    requires Run(Start(loops), steps).stopping
    ensures var s := Run(Start(loops), steps);
            && |s.calls| > 0
            && (NothingRuns(s) <==> forall t | t in s.calls[0].waiting || t in s.calls[0].loops :: !IsLive(s.tasks, t))
  {
    StartIsKept(loops);
    RunKeeps(Start(loops), steps);
    var s := Run(Start(loops), steps);
    forall t: nat | t < |s.tasks| && s.tasks[t].Live() ensures IsLive(s.tasks, t) {
    }
  }

  /** No loop is awaited before every loop has been told to abort: from then on nothing
      but an erasure runs on, however long the wait for the first loop takes. */
  lemma EveryLoopIsAbortedBeforeAnyIsAwaited(loops: nat, steps: seq<Step>)
    requires var s := Run(Start(loops), steps); |s.calls| > 0 && s.calls[0].unaborted == []
    ensures var s := Run(Start(loops), steps);
            forall t: nat | t < |s.tasks| && s.tasks[t].Running? :: t in s.erasing
  {
    StartIsKept(loops);
    RunKeeps(Start(loops), steps);
    var s := Run(Start(loops), steps);
    assert CallKept(s, s.calls[0]);
    forall t: nat | t < |s.tasks| && s.tasks[t].Running? ensures t in s.erasing {
      assert IsLive(s.tasks, t);
    }
  }

  /** A second call made while the first still waits takes empty lists: it returns with
      every loop and the erasure running. */
  lemma ASecondCallReturnsEarly(loops: nat)
    ensures var s := Run(Start(loops), [Spawned, ShutdownCalled, ShutdownCalled, CallMoves(1)]);
            && |s.calls| == 2 && s.calls[1].returned && !s.calls[0].returned
            && |s.tasks| == loops + 1 && forall t | 0 <= t <= loops :: s.tasks[t].Running?
  {
    var steps := [Spawned, ShutdownCalled, ShutdownCalled, CallMoves(1)];
    assert steps[1..] == [ShutdownCalled, ShutdownCalled, CallMoves(1)];
    assert steps[1..][1..] == [ShutdownCalled, CallMoves(1)] && [ShutdownCalled, CallMoves(1)][1..] == [CallMoves(1)];
    assert [CallMoves(1)][1..] == [];
    var first := Next(Next(Start(loops), Spawned), ShutdownCalled);
    assert Run(Start(loops), steps) == Run(first, [ShutdownCalled, CallMoves(1)]);
  }
}
