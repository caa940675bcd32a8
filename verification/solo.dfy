/** One process with nobody beside it: what its steps come to is the operation itself. */
module Solo {
  import opened Vocabulary
  import opened Kind
  import opened Tables
  import opened Erasure
  import opened Convergence
  import opened Filing
  import opened Protocol
  import opened Interleaving

  /** The one process at a stage, over what it holds and asks. */
  function One(work: Work, stage: Stage, fence: Fence, stamp: Mutex, door: Mutex, tables: Tables, next: int): State {
    State([work], [stage], fence, stamp, door, tables, next)
  }

  const FREE := Mutex(None, [])
  const TAKEN := Mutex(Some(0), [])
  const INSIDE := Fence({0}, None, [])
  const ALONE := Fence({}, Some(0), [])

  ghost function Ran(s: State, n: nat, plan: seq<int>): State {
    Run(FenceFirst, s, Alone(n, plan))
  }

  lemma MovesOn(s: State, t: State, n: nat, plan: seq<int>)
    requires n > 0 && Step(FenceFirst, s, Move(0, plan)) == Some(t)
    ensures Ran(s, n, plan) == Ran(t, n - 1, plan)
  {
    AloneByFirst(s, t, n, plan);
  }

  lemma Enters(work: Work, tables: Tables, next: int, n: nat, plan: seq<int>)
    ensures Ran(Start([work], tables, next), n + 2, plan)
            == Ran(One(work, FenceHeld, if work.Erase? then ALONE else INSIDE, FREE, FREE, tables, next), n, plan)
  {
    var s := Start([work], tables, next);
    var asked := One(work, FenceAsked, Fence({}, None, [0]), FREE, FREE, tables, next);
    var inside := One(work, FenceHeld, if work.Erase? then ALONE else INSIDE, FREE, FREE, tables, next);
    assert s.stages == [Idle] && AskFence(s, 0).stages == [FenceAsked] && AskFence(s, 0).fence.queue == [0];
    assert TakeFence(asked, 0).stages == [FenceHeld] && TakeFence(asked, 0).fence == inside.fence;
    assert Step(FenceFirst, s, Move(0, plan)) == Some(asked);
    assert Step(FenceFirst, asked, Move(0, plan)) == Some(inside);
    hide Ran, Start, Step;
    MovesOn(s, asked, n + 2, plan);
    MovesOn(asked, inside, n + 1, plan);
  }

  lemma Leaves(work: Work, tables: Tables, next: int, n: nat, plan: seq<int>)
    ensures Ran(One(work, Leaving, if work.Erase? then ALONE else INSIDE, FREE, FREE, tables, next), n, plan).tables
            == tables
  {
    var s := One(work, Leaving, if work.Erase? then ALONE else INSIDE, FREE, FREE, tables, next);
    if n > 0 {
      var t := LeaveFence(s, 0);
      assert Step(FenceFirst, s, Move(0, plan)) == Some(t) && t.stages == [Finished];
      MovesOn(s, t, n, plan);
      StaysFinished(t, n - 1, plan);
    }
  }

  lemma {:induction false} StaysFinished(s: State, n: nat, plan: seq<int>)
    requires |s.work| == 1 && s.stages == [Finished]
    ensures Ran(s, n, plan) == s
    decreases n
  {
    if n > 0 {
      assert After(FenceFirst, s, Alone(n, plan)[0]) == s;
      assert Alone(n, plan)[1..] == Alone(n - 1, plan);
      StaysFinished(s, n - 1, plan);
    }
  }

  // ─── An erasure ────────────────────────────────────────────────────────

  lemma {:induction false} ErasingComesTo(person: int, before: Tables, plan: seq<int>, done: nat, next: int, n: nat)
    requires person in before.principals && done <= Whole(plan) && n >= Whole(plan) - done + 1
    ensures Ran(One(Erase(person), Erasing(before, plan, done), ALONE, FREE, FREE,
                    Attempt(before, person, plan, done), next), n, plan).tables
            == Erased(before, person, plan)
    decreases Whole(plan) - done
  {
    var work := Erase(person);
    var s := One(work, Erasing(before, plan, done), ALONE, FREE, FREE, Attempt(before, person, plan, done), next);
    if done < Whole(plan) {
      var t := One(work, Erasing(before, plan, done + 1), ALONE, FREE, FREE,
                   Attempt(before, person, plan, done + 1), next);
      AttemptByOps(before, person, plan, done);
      hide Ran, Attempt, ErasureStep;
      assert EraseNext(s, 0).stages == t.stages;
      assert Step(FenceFirst, s, Move(0, plan)) == Some(t);
      MovesOn(s, t, n, plan);
      ErasingComesTo(person, before, plan, done + 1, next, n - 1);
    } else {
      var leaving := One(work, Leaving, ALONE, FREE, FREE, Erased(before, person, plan), next);
      hide Ran, Attempt;
      assert At(s, 0, Leaving).stages == [Leaving];
      assert Step(FenceFirst, s, Move(0, plan)) == Some(leaving);
      MovesOn(s, leaving, n, plan);
      Leaves(work, Erased(before, person, plan), next, n - 1, plan);
    }
  }

  /** An erasure by itself erases: every operation of it, in order, over whatever order it
      reads its plan in. */
  lemma AnErasureErases(person: int, plan: seq<int>, tables: Tables, next: int)
    requires person in tables.principals && Enumerates(plan, Plan(tables, person))
    ensures Ran(Start([Erase(person)], tables, next), Whole(plan) + 4, plan).tables == Erased(tables, person, plan)
  {
    var work := Erase(person);
    var inside := One(work, FenceHeld, ALONE, FREE, FREE, tables, next);
    var begun := One(work, Erasing(tables, plan, 0), ALONE, FREE, FREE, tables, next);
    Enters(work, tables, next, Whole(plan) + 2, plan);
    hide Plan, Ran, Start;
    assert At(inside, 0, Erasing(tables, plan, 0)).stages == [Erasing(tables, plan, 0)];
    assert Step(FenceFirst, inside, Move(0, plan)) == Some(begun);
    MovesOn(inside, begun, Whole(plan) + 2, plan);
    assert Attempt(tables, person, plan, 0) == tables;
    hide Attempt;
    ErasingComesTo(person, tables, plan, 0, next, Whole(plan) + 1);
  }

  // ─── An ingestion ──────────────────────────────────────────────────────

  /** The ingestion midway through its mirror, everything it holds its own. */
  function MidMirror(work: Work, before: Tables, done: nat, next: int): State
    requires work.Ingest? && work.mirror.Some? && done <= MIRROR
  {
    var c, named := work.conversation, work.mirror.value;
    One(work, Nulling(before, Found(before, c, named, done), done), INSIDE, TAKEN, TAKEN,
        MirrorPrefix(before, c, named, done), next)
  }

  lemma NullsOn(work: Work, before: Tables, done: nat, next: int, n: nat)
    requires work.Ingest? && work.mirror.Some? && done < MIRROR
    requires done < 2 || Recorded(before, work.conversation, work.mirror.value)
    ensures Ran(MidMirror(work, before, done, next), n + 1, []) == Ran(MidMirror(work, before, done + 1, next), n, [])
  {
    var c, named := work.conversation, work.mirror.value;
    var s, t := MidMirror(work, before, done, next), MidMirror(work, before, done + 1, next);
    FoundGrows(before, c, named, done);
    assert done < MirrorLength(Found(before, c, named, done), done);
    hide Ran, MirrorStep, Recorded, Reached, Found;
    assert NullNext(s, 0).stages == t.stages;
    assert Step(FenceFirst, s, Move(0, [])) == Some(t);
    MovesOn(s, t, n + 1, []);
  }

  lemma EndsItsMirror(work: Work, before: Tables, done: nat, next: int, n: nat)
    requires work.Ingest? && work.mirror.Some?
    requires done == if Recorded(before, work.conversation, work.mirror.value) then MIRROR else 2
    ensures Ran(MidMirror(work, before, done, next), n + 1, []) ==
            Ran(One(work, MirrorDone, INSIDE, TAKEN, FREE,
                    Mirrored(before, work.conversation, work.mirror.value), next), n, [])
  {
    var c, named := work.conversation, work.mirror.value;
    var s := MidMirror(work, before, done, next);
    var t := One(work, MirrorDone, INSIDE, TAKEN, FREE, Mirrored(before, c, named), next);
    MirrorComesTo(before, c, named);
    hide Ran, MirrorStep, Recorded, Reached, MirrorPrefix, Mirrored;
    assert LeaveDoor(s, 0, MirrorDone).stages == [MirrorDone];
    assert Step(FenceFirst, s, Move(0, [])) == Some(t);
    MovesOn(s, t, n + 1, []);
  }

  lemma {:induction false} NullingComesTo(work: Work, before: Tables, done: nat, next: int, n: nat)
    requires work.Ingest? && work.mirror.Some?
    requires done <= if Recorded(before, work.conversation, work.mirror.value) then MIRROR else 2
    ensures var length := if Recorded(before, work.conversation, work.mirror.value) then MIRROR else 2;
            Ran(MidMirror(work, before, done, next), n + (length - done) + 1, []) ==
            Ran(One(work, MirrorDone, INSIDE, TAKEN, FREE,
                    Mirrored(before, work.conversation, work.mirror.value), next), n, [])
    decreases MIRROR - done
  {
    var length := if Recorded(before, work.conversation, work.mirror.value) then MIRROR else 2;
    hide Ran, MidMirror, Recorded, Mirrored;
    if done < length {
      NullsOn(work, before, done, next, n + (length - done));
      NullingComesTo(work, before, done + 1, next, n);
    } else {
      EndsItsMirror(work, before, done, next, n);
    }
  }

  lemma WritesAndLeaves(work: Work, stage: Stage, tables: Tables, next: int, n: nat)
    requires work.Ingest? && (stage.MirrorDone? || (stage.StampHeld? && work.recorded && work.mirror.None?))
    ensures Ran(One(work, stage, INSIDE, TAKEN, FREE, tables, next), n + 2, []).tables
            == Record(tables, work.conversation, next, AMessage(work.row))
  {
    var u := Record(tables, work.conversation, next, AMessage(work.row));
    var s := One(work, stage, INSIDE, TAKEN, FREE, tables, next);
    var written := One(work, RowWritten, INSIDE, TAKEN, FREE, u, next + 1);
    var leaving := One(work, Leaving, INSIDE, FREE, FREE, u, next + 1);
    hide Ran, Record;
    assert WriteRow(s, 0).stages == [RowWritten] && LeaveStamp(written, 0).stages == [Leaving];
    assert Step(FenceFirst, s, Move(0, [])) == Some(written);
    assert Step(FenceFirst, written, Move(0, [])) == Some(leaving);
    MovesOn(s, written, n + 2, []);
    MovesOn(written, leaving, n + 1, []);
    Leaves(work, u, next + 1, n, []);
  }

  lemma TakesTheStamp(work: Work, tables: Tables, next: int, n: nat)
    requires work.Ingest? && work.admitted
    ensures Ran(Start([work], tables, next), n + 4, [])
            == Ran(One(work, StampHeld, INSIDE, TAKEN, FREE, tables, next), n, [])
  {
    var inside := One(work, FenceHeld, INSIDE, FREE, FREE, tables, next);
    var asked := One(work, StampAsked, INSIDE, Mutex(None, [0]), FREE, tables, next);
    var held := One(work, StampHeld, INSIDE, TAKEN, FREE, tables, next);
    Enters(work, tables, next, n + 2, []);
    hide Ran, Start;
    assert AskStamp(inside, 0).stages == [StampAsked] && AskStamp(inside, 0).stamp.queue == [0];
    assert TakeStamp(asked, 0).stages == [StampHeld] && TakeStamp(asked, 0).stamp.queue == [];
    assert Step(FenceFirst, inside, Move(0, [])) == Some(asked);
    assert Step(FenceFirst, asked, Move(0, [])) == Some(held);
    MovesOn(inside, asked, n + 2, []);
    MovesOn(asked, held, n + 1, []);
  }

  lemma MirrorsOnItsWay(work: Work, tables: Tables, next: int, n: nat)
    requires work.Ingest? && work.recorded && work.mirror.Some?
    ensures Ran(One(work, StampHeld, INSIDE, TAKEN, FREE, tables, next), n + 3, [])
            == Ran(MidMirror(work, tables, 0, next), n, [])
  {
    var held := One(work, StampHeld, INSIDE, TAKEN, FREE, tables, next);
    var asked := One(work, DoorAsked, INSIDE, TAKEN, Mutex(None, [0]), tables, next);
    var inside := One(work, DoorHeld, INSIDE, TAKEN, TAKEN, tables, next);
    var begun := MidMirror(work, tables, 0, next);
    assert begun == One(work, Nulling(tables, false, 0), INSIDE, TAKEN, TAKEN, tables, next);
    hide Ran, MidMirror;
    assert AskDoor(held, 0).stages == [DoorAsked] && AskDoor(held, 0).door.queue == [0];
    assert TakeDoor(asked, 0).stages == [DoorHeld] && TakeDoor(asked, 0).door.queue == [];
    assert At(inside, 0, Nulling(tables, false, 0)).stages == [Nulling(tables, false, 0)];
    assert Step(FenceFirst, held, Move(0, [])) == Some(asked);
    assert Step(FenceFirst, asked, Move(0, [])) == Some(inside);
    assert Step(FenceFirst, inside, Move(0, [])) == Some(begun);
    MovesOn(held, asked, n + 3, []);
    MovesOn(asked, inside, n + 2, []);
    MovesOn(inside, begun, n + 1, []);
  }

  /** An ingestion by itself mirrors what it names and then writes its row; one that is
      refused or dropped leaves the tables as they are. */
  lemma AnIngestionMirrorsAndRecords(work: Work, tables: Tables, next: int)
    requires work.Ingest? && work.admitted
    ensures Ran(Start([work], tables, next), 16, []).tables ==
            if !work.recorded then tables
            else Record(if work.mirror.Some? then Mirrored(tables, work.conversation, work.mirror.value) else tables,
                        work.conversation, next, AMessage(work.row))
  {
    TakesTheStamp(work, tables, next, 12);
    var held := One(work, StampHeld, INSIDE, TAKEN, FREE, tables, next);
    if !work.recorded {
      var leaving := One(work, Leaving, INSIDE, FREE, FREE, tables, next);
      assert LeaveStamp(held, 0).stages == [Leaving];
      assert Step(FenceFirst, held, Move(0, [])) == Some(leaving);
      hide Ran, Start, Step;
      MovesOn(held, leaving, 12, []);
      Leaves(work, tables, next, 11, []);
    } else if work.mirror.None? {
      hide Ran, Start, Step, Record;
      WritesAndLeaves(work, StampHeld, tables, next, 10);
    } else {
      var c, named := work.conversation, work.mirror.value;
      var length := if Recorded(tables, c, named) then MIRROR else 2;
      hide Ran, Start, Step, Record, Recorded, Mirrored, MidMirror;
      MirrorsOnItsWay(work, tables, next, 9);
      NullingComesTo(work, tables, 0, next, 8 - length);
      WritesAndLeaves(work, MirrorDone, Mirrored(tables, c, named), next, 6 - length);
    }
  }

  // ─── A filing ──────────────────────────────────────────────────────────

  lemma ScanSteps(work: Work, tables: Tables, next: int)
    requires work.File?
    ensures var scan := Scan(tables, work.conversation, work.window, work.asked);
            var inside := One(work, FenceHeld, INSIDE, FREE, FREE, tables, next);
            var asked := One(work, DoorAsked, INSIDE, FREE, Mutex(None, [0]), tables, next);
            var held := One(work, DoorHeld, INSIDE, FREE, TAKEN, tables, next);
            var pending := if scan.Ok? then Some(scan.value) else None;
            && Step(FenceFirst, inside, Move(0, [])) == Some(asked)
            && Step(FenceFirst, asked, Move(0, [])) == Some(held)
            && Step(FenceFirst, held, Move(0, []))
               == Some(One(work, Scanned(pending), INSIDE, FREE, TAKEN, tables, next))
  {
    var inside := One(work, FenceHeld, INSIDE, FREE, FREE, tables, next);
    var asked := One(work, DoorAsked, INSIDE, FREE, Mutex(None, [0]), tables, next);
    var held := One(work, DoorHeld, INSIDE, FREE, TAKEN, tables, next);
    hide Scan;
    assert AskDoor(inside, 0).stages == [DoorAsked] && AskDoor(inside, 0).door.queue == [0];
    assert TakeDoor(asked, 0).stages == [DoorHeld] && TakeDoor(asked, 0).door.queue == [];
    assert |TakeScan(held, 0).stages| == 1 && TakeScan(held, 0).stages == [TakeScan(held, 0).stages[0]];
  }

  lemma ReachesItsScan(work: Work, tables: Tables, next: int, n: nat)
    requires work.File?
    ensures var scan := Scan(tables, work.conversation, work.window, work.asked);
            Ran(Start([work], tables, next), n + 5, [])
            == Ran(One(work, Scanned(if scan.Ok? then Some(scan.value) else None), INSIDE, FREE, TAKEN, tables, next),
                   n, [])
  {
    var scan := Scan(tables, work.conversation, work.window, work.asked);
    var inside := One(work, FenceHeld, INSIDE, FREE, FREE, tables, next);
    var asked := One(work, DoorAsked, INSIDE, FREE, Mutex(None, [0]), tables, next);
    var held := One(work, DoorHeld, INSIDE, FREE, TAKEN, tables, next);
    var scanned := One(work, Scanned(if scan.Ok? then Some(scan.value) else None), INSIDE, FREE, TAKEN, tables, next);
    Enters(work, tables, next, n + 3, []);
    ScanSteps(work, tables, next);
    hide Ran, Step, Start, Scan;
    MovesOn(inside, asked, n + 3, []);
    MovesOn(asked, held, n + 2, []);
    MovesOn(held, scanned, n + 1, []);
  }

  lemma LeavesTheDoor(work: Work, tables: Tables, next: int, n: nat)
    requires work.File?
    ensures Ran(One(work, Scanned(None), INSIDE, FREE, TAKEN, tables, next), n + 1, []).tables == tables
  {
    var scanned := One(work, Scanned(None), INSIDE, FREE, TAKEN, tables, next);
    var leaving := One(work, Leaving, INSIDE, FREE, FREE, tables, next);
    hide Ran;
    assert LeaveDoor(scanned, 0, Leaving).stages == [Leaving];
    assert Step(FenceFirst, scanned, Move(0, [])) == Some(leaving);
    MovesOn(scanned, leaving, n + 1, []);
    Leaves(work, tables, next, n, []);
  }

  lemma AppendsAndLeaves(work: Work, filed: Filed, tables: Tables, next: int, n: nat)
    requires work.File?
    ensures Ran(One(work, Scanned(Some(filed)), INSIDE, FREE, TAKEN, tables, next), n + 2, []).tables
            == Append(tables, work.conversation, next, filed)
  {
    var appended := Append(tables, work.conversation, next, filed);
    var pending := One(work, Scanned(Some(filed)), INSIDE, FREE, TAKEN, tables, next);
    var scanned := One(work, Scanned(None), INSIDE, FREE, TAKEN, appended, next + 1);
    hide Ran, Append;
    assert AppendFiled(pending, 0, filed).stages == [Scanned(None)];
    assert Step(FenceFirst, pending, Move(0, [])) == Some(scanned);
    MovesOn(pending, scanned, n + 2, []);
    LeavesTheDoor(work, appended, next + 1, n);
  }

  /** A filing by itself files exactly what its scan decides, and nothing where that is
      refused. */
  lemma AFilingFilesWhatItScans(conversation: int, window: Window, asked: Asked, tables: Tables, next: int)
    ensures var scan := Scan(tables, conversation, window, asked);
            Ran(Start([File(conversation, window, asked)], tables, next), 8, []).tables ==
            if scan.Ok? then Append(tables, conversation, next, scan.value) else tables
  {
    var work, scan := File(conversation, window, asked), Scan(tables, conversation, window, asked);
    ReachesItsScan(work, tables, next, 3);
    hide Ran, Start, Scan, Append;
    if scan.Ok? {
      AppendsAndLeaves(work, scan.value, tables, next, 1);
    } else {
      LeavesTheDoor(work, tables, next, 2);
    }
  }
}
