/** The tool-choice supersession and the contract notice that rides it: two writes no
    transaction spans, ordered so a crash between them loses nothing. */
module Contract {
  import opened Vocabulary

  // ─── Comparing recorded names with registered ones ─────────────────────

  const SEND := "send_message"
  const REPLY := "reply_message"

  predicate NamesTheSendingTools(recorded: seq<string>) {
    SEND in recorded && REPLY in recorded
  }

  /** Byte order on names. */
  predicate Ordered(a: string, b: string) {
    |a| == 0 || (|b| > 0 && (a[0] < b[0] || (a[0] == b[0] && Ordered(a[1..], b[1..]))))
  }

  function Placed(name: string, sorted: seq<string>): seq<string> {
    if |sorted| == 0 || Ordered(name, sorted[0]) then [name] + sorted
    else [sorted[0]] + Placed(name, sorted[1..])
  }

  function Sorted(names: seq<string>): seq<string> {
    if |names| == 0 then [] else Placed(names[0], Sorted(names[1..]))
  }

  /** Read as a set and not as a sequence, duplicates compared. */
  predicate NamesTheSameSet(recorded: seq<string>, registered: seq<string>) {
    |recorded| == |registered| && Sorted(recorded) == Sorted(registered)
  }

  ghost predicate InOrder(names: seq<string>) {
    forall i, j | 0 <= i <= j < |names| :: Ordered(names[i], names[j])
  }

  lemma {:induction false} OrderedIsReflexive(a: string)
    ensures Ordered(a, a)
  {
    if |a| > 0 { OrderedIsReflexive(a[1..]); }
  }

  lemma {:induction false} OrderedIsTotal(a: string, b: string)
    ensures Ordered(a, b) || Ordered(b, a)
    ensures Ordered(a, b) && Ordered(b, a) ==> a == b
  {
    if |a| > 0 && |b| > 0 {
      OrderedIsTotal(a[1..], b[1..]);
      assert a == [a[0]] + a[1..] && b == [b[0]] + b[1..];
    }
  }

  lemma {:induction false} OrderedIsTransitive(a: string, b: string, c: string)
    requires Ordered(a, b) && Ordered(b, c)
    ensures Ordered(a, c)
  {
    if |a| > 0 && a[0] == b[0] && b[0] == c[0] {
      OrderedIsTransitive(a[1..], b[1..], c[1..]);
    }
  }

  lemma {:induction false} PlacingKeepsOrder(name: string, sorted: seq<string>)
    requires InOrder(sorted)
    ensures InOrder(Placed(name, sorted)) && multiset(Placed(name, sorted)) == multiset(sorted) + multiset{name}
  {
    OrderedIsReflexive(name);
    if |sorted| > 0 && !Ordered(name, sorted[0]) {
      var first, rest := sorted[0], sorted[1..];
      OrderedIsTotal(name, first);
      PlacingKeepsOrder(name, rest);
      var placed := Placed(name, rest);
      assert sorted == [first] + rest;
      forall j | 0 <= j < |placed| ensures Ordered(first, placed[j]) {
        assert placed[j] in multiset(placed);
        if placed[j] != name {
          assert placed[j] in multiset(rest);
          var k :| 0 <= k < |rest| && rest[k] == placed[j];
          assert sorted[k + 1] == rest[k];
        }
      }
    } else if |sorted| > 0 {
      forall j | 0 <= j < |sorted| ensures Ordered(name, sorted[j]) {
        OrderedIsTransitive(name, sorted[0], sorted[j]);
      }
    }
  }

  lemma {:induction false} SortingSorts(names: seq<string>)
    ensures InOrder(Sorted(names)) && multiset(Sorted(names)) == multiset(names)
  {
    if |names| > 0 {
      SortingSorts(names[1..]);
      PlacingKeepsOrder(names[0], Sorted(names[1..]));
      assert names == [names[0]] + names[1..];
      assert Sorted(names) == Placed(names[0], Sorted(names[1..]));
      hide InOrder, Placed, Sorted;
    }
  }

  lemma FirstsAgree(a: seq<string>, b: seq<string>)
    requires InOrder(a) && InOrder(b) && multiset(a) == multiset(b) && |a| > 0 && |b| > 0
    ensures a[0] == b[0]
  {
    assert a[0] in multiset(b) && b[0] in multiset(a);
    var i :| 0 <= i < |b| && b[i] == a[0];
    var j :| 0 <= j < |a| && a[j] == b[0];
    hide Ordered;
    OrderedIsTotal(a[0], b[0]);
    assert Ordered(a[0], a[j]) && Ordered(b[0], b[i]);
  }

  lemma RestKeepsOrder(a: seq<string>)
    requires InOrder(a) && |a| > 0
    ensures InOrder(a[1..]) && multiset(a[1..]) == multiset(a) - multiset{a[0]}
  {
    hide Ordered;
    assert a == [a[0]] + a[1..];
  }

  lemma {:induction false} OneSortedForm(a: seq<string>, b: seq<string>)
    requires InOrder(a) && InOrder(b) && multiset(a) == multiset(b)
    ensures a == b
  {
    assert |multiset(a)| == |a| && |multiset(b)| == |b|;
    if |a| > 0 {
      FirstsAgree(a, b);
      RestKeepsOrder(a);
      RestKeepsOrder(b);
      hide InOrder;
      OneSortedForm(a[1..], b[1..]);
      assert a == [a[0]] + a[1..] && b == [b[0]] + b[1..];
    }
  }

  /** Sorted copies agree exactly when each name is recorded as often as registered. */
  lemma SameSetExactly(recorded: seq<string>, registered: seq<string>)
    ensures NamesTheSameSet(recorded, registered) <==> multiset(recorded) == multiset(registered)
  {
    SortingSorts(recorded);
    SortingSorts(registered);
    if multiset(recorded) == multiset(registered) {
      assert |multiset(recorded)| == |recorded| && |multiset(registered)| == |registered|;
      OneSortedForm(Sorted(recorded), Sorted(registered));
    }
  }

  // ─── One conversation's record ─────────────────────────────────────────

  /** A ledger entry: a recorded choice, this reconciliation's own or another writer's;
      the notice; anything else. */
  datatype Entry = Choice(names: seq<string>, ours: bool) | Notice | AnythingElse

  function NewestChoice(ledger: seq<Entry>): (newest: Option<seq<string>>)
    ensures newest.None? <==> forall k | 0 <= k < |ledger| :: !ledger[k].Choice?
  {
    if |ledger| == 0 then None
    else if ledger[|ledger| - 1].Choice? then Some(ledger[|ledger| - 1].names)
    else NewestChoice(ledger[..|ledger| - 1])
  }

  /** Where one activity's writes stop: before the notice, between the two, or not. */
  datatype Stop = BeforeNotice | Between | Nowhere

  predicate Crossed(ledger: seq<Entry>) {
    NewestChoice(ledger).Some? && !NamesTheSendingTools(NewestChoice(ledger).value)
  }

  ghost predicate NewestAt(ledger: seq<Entry>, k: int) {
    0 <= k < |ledger| && ledger[k].Choice? && forall j | k < j < |ledger| :: !ledger[j].Choice?
  }

  /** The newest recorded choice names not both of the sending tools. */
  ghost predicate Lacking(ledger: seq<Entry>) {
    exists k :: NewestAt(ledger, k) && !("send_message" in ledger[k].names && "reply_message" in ledger[k].names)
  }

  lemma {:induction false} NewestExactly(ledger: seq<Entry>, k: int)
    requires NewestAt(ledger, k)
    ensures NewestChoice(ledger) == Some(ledger[k].names)
  {
    if k < |ledger| - 1 {
      NewestExactly(ledger[..|ledger| - 1], k);
    }
  }

  lemma {:induction false} NewestSomewhere(ledger: seq<Entry>)
    ensures NewestChoice(ledger).Some? ==> exists k :: NewestAt(ledger, k)
  {
    if |ledger| > 0 {
      if ledger[|ledger| - 1].Choice? {
        assert NewestAt(ledger, |ledger| - 1);
      } else {
        var front := ledger[..|ledger| - 1];
        NewestSomewhere(front);
        if k :| NewestAt(front, k) {
          assert NewestAt(ledger, k);
        }
      }
    }
  }

  lemma CrossedExactly(ledger: seq<Entry>)
    ensures Crossed(ledger) <==> Lacking(ledger)
  {
    NewestSomewhere(ledger);
    forall k | NewestAt(ledger, k) ensures NewestChoice(ledger) == Some(ledger[k].names) {
      NewestExactly(ledger, k);
    }
    hide NewestAt, NewestChoice;
  }

  predicate Current(ledger: seq<Entry>, registered: seq<string>) {
    NewestChoice(ledger).Some? && NamesTheSameSet(NewestChoice(ledger).value, registered)
  }

  function WithNotice(ledger: seq<Entry>, stop: Stop): seq<Entry> {
    if Crossed(ledger) && Notice !in ledger && !stop.BeforeNotice? then ledger + [Notice] else ledger
  }

  /** The ledger after one unremembered activity. */
  function Reconciled(ledger: seq<Entry>, registered: seq<string>, stop: Stop): seq<Entry> {
    if Current(ledger, registered) then ledger
    else if stop.Nowhere? then WithNotice(ledger, stop) + [Choice(registered, true)]
    else WithNotice(ledger, stop)
  }

  /** Whether the activity came to its end, and the memory is marked. */
  predicate CameThrough(ledger: seq<Entry>, registered: seq<string>, stop: Stop) {
    Current(ledger, registered) || stop.Nowhere?
  }

  // ─── The process, updated in place ─────────────────────────────────────

  const MEMORY_CAP := 4096

  class Reconciler {
    const registered: seq<string>
    var ledgers: map<int, seq<Entry>>
    var reconciled: set<int>

    constructor (registered: seq<string>, ledgers: map<int, seq<Entry>>)
      ensures this.registered == registered && this.ledgers == ledgers && reconciled == {}
    {
      this.registered := registered;
      this.ledgers := ledgers;
      reconciled := {};
    }

    function Ledger(conversation: int): seq<Entry>
      reads this
    {
      if conversation in ledgers then ledgers[conversation] else []
    }

    /** The supersession on one conversation's first activity in this process. A write
        that fails leaves the memory unmarked and is answered false. */
    method ReconcileToolChoice(conversation: int, stop: Stop) returns (through: bool)
      modifies this
      ensures forall c | c != conversation :: Ledger(c) == old(Ledger(c))
      ensures conversation in old(reconciled) ==>
                through && Ledger(conversation) == old(Ledger(conversation)) && reconciled == old(reconciled)
      ensures conversation !in old(reconciled) ==>
                && Ledger(conversation) == Reconciled(old(Ledger(conversation)), registered, stop)
                && through == CameThrough(old(Ledger(conversation)), registered, stop)
                && reconciled == if !through then old(reconciled)
                                 else if |old(reconciled)| >= 4096 then {conversation}
                                 else old(reconciled) + {conversation}
      ensures |old(reconciled)| <= MEMORY_CAP ==> |reconciled| <= MEMORY_CAP
    {
      if conversation in reconciled {
        return true;
      }
      var recorded := NewestChoice(Ledger(conversation));
      var crossedIntoSending := recorded.Some? && !NamesTheSendingTools(recorded.value);
      var alreadyCurrent := recorded.Some? && NamesTheSameSet(recorded.value, registered);
      if !alreadyCurrent {
        if crossedIntoSending && Notice !in Ledger(conversation) {
          if stop.BeforeNotice? {
            return false;
          }
          ledgers := ledgers[conversation := Ledger(conversation) + [Notice]];
        }
        if !stop.Nowhere? {
          return false;
        }
        ledgers := ledgers[conversation := Ledger(conversation) + [Choice(registered, true)]];
      }
      if |reconciled| >= MEMORY_CAP {
        reconciled := {};
      }
      reconciled := reconciled + {conversation};
      through := true;
    }
  }

  // ─── Every run of one conversation ─────────────────────────────────────

  datatype Step =
    | Activity(stop: Stop)
    | Restarted(registered: seq<string>)
    | Forgotten
    | OthersChoice(names: seq<string>)
    | OthersBlock

  datatype State = State(ledger: seq<Entry>, registered: seq<string>, remembered: bool)

  function Next(s: State, step: Step): State {
    match step
    case Activity(stop) =>
      if s.remembered then s
      else s.(ledger := Reconciled(s.ledger, s.registered, stop),
              remembered := CameThrough(s.ledger, s.registered, stop))
    case Restarted(registered) => s.(registered := registered, remembered := false)
    case Forgotten => s.(remembered := false)
    case OthersChoice(names) => s.(ledger := s.ledger + [Choice(names, false)])
    case OthersBlock => s.(ledger := s.ledger + [AnythingElse])
  }

  function Run(s: State, steps: seq<Step>): State
    decreases |steps|
  {
    if |steps| == 0 then s else Run(Next(s, steps[0]), steps[1..])
  }

  lemma {:induction false} RunByLast(s: State, steps: seq<Step>, step: Step)
    ensures Run(s, steps + [step]) == Next(Run(s, steps), step)
    decreases |steps|
  {
    if |steps| == 0 {
      assert steps + [step] == [step] && [step][1..] == [];
    } else {
      assert (steps + [step])[1..] == steps[1..] + [step];
      RunByLast(Next(s, steps[0]), steps[1..], step);
    }
  }

  /** What the last step of any run leaves. An activity of a process that does not remember
      coming through records the tools unless they are recorded, behind a notice where the
      newest choice lacked one of the sending tools and no notice stood; stopped short it
      leaves the notice, or nothing, and is not remembered. */
  lemma EveryStepIsTaken(s: State, steps: seq<Step>, step: Step)
    ensures var was, now := Run(s, steps), Run(s, steps + [step]);
            match step
            case Restarted(registered) => now == State(was.ledger, registered, false)
            case Forgotten => now == State(was.ledger, was.registered, false)
            case OthersChoice(names) =>
              now == State(was.ledger + [Choice(names, false)], was.registered, was.remembered)
            case OthersBlock => now == State(was.ledger + [AnythingElse], was.registered, was.remembered)
            case Activity(stop) =>
              var notice := if Lacking(was.ledger) && Notice !in was.ledger then [Notice] else [];
              var recorded := exists k :: NewestAt(was.ledger, k)
                                          && multiset(was.ledger[k].names) == multiset(was.registered);
              now == if was.remembered then was
                     else if recorded then was.(remembered := true)
                     else match stop
                       case BeforeNotice => was
                       case Between => was.(ledger := was.ledger + notice)
                       case Nowhere =>
                         was.(ledger := was.ledger + notice + [Choice(was.registered, true)], remembered := true)
  {
    RunByLast(s, steps, step);
    var was := Run(s, steps);
    CrossedExactly(was.ledger);
    RecordedExactly(was.ledger, was.registered);
    assert was.ledger + [] == was.ledger;
    hide Run, Lacking, Crossed, Current, NewestAt;
  }

  lemma RecordedExactly(ledger: seq<Entry>, registered: seq<string>)
    ensures Current(ledger, registered) <==>
            exists k :: NewestAt(ledger, k) && multiset(ledger[k].names) == multiset(registered)
  {
    NewestSomewhere(ledger);
    forall k | NewestAt(ledger, k)
      ensures NewestChoice(ledger) == Some(ledger[k].names)
      ensures NamesTheSameSet(ledger[k].names, registered) <==> multiset(ledger[k].names) == multiset(registered)
    {
      NewestExactly(ledger, k);
      SameSetExactly(ledger[k].names, registered);
    }
    hide NewestAt, NewestChoice, NamesTheSameSet;
  }

  /** At most one notice stands; each stands right where a choice lacking the sending
      tools was the newest; and one stands in front of every choice this reconciliation
      wrote over such a choice. */
  ghost predicate Explained(ledger: seq<Entry>) {
    && (forall i, j | 0 <= i < j < |ledger| :: !(ledger[i].Notice? && ledger[j].Notice?))
    && (forall i | 0 <= i < |ledger| && ledger[i].Notice? :: Lacking(ledger[..i]))
    && (forall i | 0 <= i < |ledger| && ledger[i].Choice? && ledger[i].ours && Lacking(ledger[..i]) ::
          Notice in ledger[..i])
  }

  lemma OneMoreStaysExplained(ledger: seq<Entry>, entry: Entry)
    requires Explained(ledger)
    requires entry.Notice? ==> Lacking(ledger) && Notice !in ledger
    requires entry.Choice? && entry.ours && Lacking(ledger) ==> Notice in ledger
    ensures Explained(ledger + [entry])
  {
    var longer := ledger + [entry];
    assert forall i | 0 <= i <= |ledger| :: longer[..i] == ledger[..i];
    assert longer[..|ledger|] == ledger && ledger[..|ledger|] == ledger;
  }

  lemma NewestPastANotice(ledger: seq<Entry>)
    ensures NewestChoice(ledger + [Notice]) == NewestChoice(ledger)
  {
  }

  lemma ReconcilingStaysExplained(ledger: seq<Entry>, registered: seq<string>, stop: Stop)
    requires Explained(ledger)
    ensures Explained(Reconciled(ledger, registered, stop))
  {
    CrossedExactly(ledger);
    CrossedExactly(WithNotice(ledger, stop));
    hide Lacking;
    if !Current(ledger, registered) {
      if WithNotice(ledger, stop) != ledger {
        OneMoreStaysExplained(ledger, Notice);
        NewestPastANotice(ledger);
      }
      if stop.Nowhere? {
        OneMoreStaysExplained(WithNotice(ledger, stop), Choice(registered, true));
      }
    }
  }

  /** Under any sequence of activities, failures and crashes at every point, restarts
      with other tools, cleared memory and other writers' choices: at most one notice,
      never without a crossing, and never a crossing granted without it. */
  lemma {:induction false} EveryRunIsExplained(s: State, steps: seq<Step>)
    requires Explained(s.ledger)
    ensures Explained(Run(s, steps).ledger)
    decreases |steps|
  {
    if |steps| > 0 {
      match steps[0] {
        case Activity(stop) => ReconcilingStaysExplained(s.ledger, s.registered, stop);
        case OthersChoice(names) => OneMoreStaysExplained(s.ledger, Choice(names, false));
        case OthersBlock => OneMoreStaysExplained(s.ledger, AnythingElse);
        case _ =>
      }
      EveryRunIsExplained(Next(s, steps[0]), steps[1..]);
    }
  }

  /** An activity that came through leaves the registered tools recorded, and another
      one, in this process or a later one of the same tools, appends nothing. */
  lemma ASecondReconciliationAppendsNothing(ledger: seq<Entry>, registered: seq<string>, stop: Stop, again: Stop)
    requires CameThrough(ledger, registered, stop)
    ensures var after := Reconciled(ledger, registered, stop);
            && NewestChoice(after).Some? && multiset(NewestChoice(after).value) == multiset(registered)
            && Reconciled(after, registered, again) == after && CameThrough(after, registered, again)
  {
    var after := Reconciled(ledger, registered, stop);
    SameSetExactly(registered, registered);
    if Current(ledger, registered) {
      SameSetExactly(NewestChoice(ledger).value, registered);
    }
  }

  /** A failure at either point is made up for: the next activity that comes through
      ends in the ledger an undisturbed one would have left. */
  lemma AFailureIsMadeUpFor(ledger: seq<Entry>, registered: seq<string>, stop: Stop)
    ensures Reconciled(Reconciled(ledger, registered, stop), registered, Nowhere)
            == Reconciled(ledger, registered, Nowhere)
  {
  }

  /** One activity after another, each stopping where it does. */
  function Activities(stops: seq<Stop>): (steps: seq<Step>)
    ensures |steps| == |stops| && forall k | 0 <= k < |stops| :: steps[k] == Activity(stops[k])
  {
    seq(|stops|, k requires 0 <= k < |stops| => Activity(stops[k]))
  }

  /** Written the other way round, one crash loses the notice for good: the choice that
      names the tools stands, and no activity of these tools ever finds a crossing. */
  lemma {:induction false} ChoiceFirstLosesTheNotice(ledger: seq<Entry>, registered: seq<string>, activities: seq<Stop>)
    requires Lacking(ledger) && Notice !in ledger && !Current(ledger, registered)
    ensures var crashed := ledger + [Choice(registered, true)];
            && !Explained(crashed)
            && Run(State(crashed, registered, false), Activities(activities)).ledger == crashed
  {
    var crashed := ledger + [Choice(registered, true)];
    assert crashed[..|ledger|] == ledger && crashed[|ledger|].ours;
    SameSetExactly(registered, registered);
    IdleRuns(State(crashed, registered, false), activities);
  }

  lemma {:induction false} IdleRuns(s: State, activities: seq<Stop>)
    requires Current(s.ledger, s.registered)
    ensures Run(s, Activities(activities)).ledger == s.ledger
    decreases |activities|
  {
    var steps := Activities(activities);
    if |activities| > 0 {
      var rest := activities[1..];
      assert steps[1..] == Activities(rest);
      IdleRuns(Next(s, steps[0]), rest);
    }
  }
}
