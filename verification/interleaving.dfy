/** The stored data under every interleaving: what the door and the fence make atomic,
    and why no filed target ever outlives the records behind it. */
module Interleaving {
  import opened Vocabulary
  import opened Kind
  import opened Tables
  import opened Erasure
  import opened Convergence
  import opened Effects
  import opened Filing
  import opened Protocol

  // ─── The two long passes, operation by operation ───────────────────────

  /** The tables after the first `k` operations of a mirror. */
  function MirrorPrefix(t: Tables, conversation: int, named: string, k: nat): Tables
    requires k <= MIRROR
  {
    if k == 0 then t else MirrorStep(MirrorPrefix(t, conversation, named, k - 1), conversation, named, k - 1)
  }

  /** What the row counts have found after `k` operations. */
  predicate Found(t: Tables, conversation: int, named: string, k: nat) {
    if k == 0 then false
    else if k == 1 then Reached(t, conversation, named, 0)
    else Recorded(t, conversation, named)
  }

  lemma MirrorComesTo(t: Tables, conversation: int, named: string)
    ensures Recorded(t, conversation, named) ==>
              MirrorPrefix(t, conversation, named, MIRROR) == Mirrored(t, conversation, named)
    ensures !Recorded(t, conversation, named) ==>
              MirrorPrefix(t, conversation, named, 2) == Mirrored(t, conversation, named)
  {
    var p1 := MirrorPrefix(t, conversation, named, 1);
    var p2 := MirrorPrefix(t, conversation, named, 2);
    var p3 := MirrorPrefix(t, conversation, named, 3);
    var p4 := MirrorPrefix(t, conversation, named, 4);
    assert p1 == MessageNamedEmptied(MirrorPrefix(t, conversation, named, 0), conversation, named);
    assert p2 == EventNamedEmptied(p1, conversation, named);
    assert p3 == ReplyReferencesNulled(p2, conversation, named);
    assert p4 == ReportReferencesNulled(p3, conversation, named);
  }

  lemma FoundGrows(t: Tables, conversation: int, named: string, k: nat)
    requires k < MIRROR
    ensures Found(t, conversation, named, k + 1) ==
            (|| Found(t, conversation, named, k)
             || Reached(MirrorPrefix(t, conversation, named, k), conversation, named, k))
  {
  }

  lemma {:induction false} RemovingByOps(t: Tables, conversations: seq<int>, n: nat)
    requires n < 2 * |conversations|
    ensures Removing(t, conversations, n + 1) ==
            var c := conversations[n / 2];
            if n % 2 == 0 then Unmapped(Removing(t, conversations, n), c)
            else ConversationDeleted(Removing(t, conversations, n), c)
    decreases |conversations|
  {
    if n >= 2 {
      var c, rest := conversations[0], conversations[1..];
      RemovingByOps(ConversationDeleted(Unmapped(t, c), c), rest, n - 2);
      assert rest[(n - 2) / 2] == conversations[n / 2];
    } else if n == 1 {
      assert Removing(ConversationDeleted(Unmapped(t, conversations[0]), conversations[0]), conversations[1..], 0)
             == ConversationDeleted(Unmapped(t, conversations[0]), conversations[0]);
    }
  }

  /** An attempt cut one operation later is the attempt, one operation on. */
  lemma AttemptByOps(t: Tables, person: int, conversations: seq<int>, k: nat)
    requires person in t.principals && k < Whole(conversations)
    ensures Attempt(t, person, conversations, k + 1) ==
            ErasureStep(Attempt(t, person, conversations, k), person, conversations, k)
  {
    var passed, m := Passes(t, person, PASSES), 2 * |conversations|;
    if k < PASSES {
    } else if k < PASSES + m {
      hide Passes, Pass;
      RemovingByOps(passed, conversations, k - PASSES);
      assert Removing(passed, conversations, 0) == passed;
    } else {
      hide Passes, Pass;
      RemovingStops(passed, conversations, k - PASSES);
      RemovingStops(passed, conversations, k + 1 - PASSES);
      assert Removing(passed, conversations, 0) == passed;
    }
  }

  // ─── The data invariant ────────────────────────────────────────────────

  /** An erasure under way has applied exactly its first operations to the tables it
      found. */
  ghost predicate ErasesFaithfully(s: State, i: nat)
    requires i < |s.stages| && s.stages[i].Erasing?
  {
    |s.stages| == |s.work| && s.work[i].Erase? &&
    var stage, person := s.stages[i], s.work[i].person;
    && Sound(stage.before, s.next) && person in stage.before.principals
    && Enumerates(stage.conversations, Plan(stage.before, person))
    && stage.done <= Whole(stage.conversations)
    && s.tables == Attempt(stage.before, person, stage.conversations, stage.done)
  }

  ghost predicate MirrorsFaithfully(s: State, i: nat)
    requires i < |s.stages| && s.stages[i].Nulling?
  {
    |s.stages| == |s.work| && s.work[i].Ingest? && s.work[i].mirror.Some? &&
    var stage, c, named := s.stages[i], s.work[i].conversation, s.work[i].mirror.value;
    && Sound(stage.before, s.next)
    && stage.done <= MIRROR && (stage.done > 2 ==> stage.found)
    && stage.found == Found(stage.before, c, named, stage.done)
    && s.tables == MirrorPrefix(stage.before, c, named, stage.done)
  }

  ghost predicate ScansFit(s: State, i: nat)
    requires i < |s.stages| && s.stages[i].Scanned?
  {
    |s.stages| == |s.work| && s.work[i].File? &&
    (s.stages[i].pending.Some? ==> Fits(s.tables, s.work[i].conversation, s.stages[i].pending.value))
  }

  /** No mirror and no erasure is midway. */
  ghost predicate Quiet(s: State) {
    forall i | 0 <= i < |s.stages| :: !s.stages[i].Nulling? && !s.stages[i].Erasing?
  }

  ghost predicate Kept(s: State) {
    && Locked(s)
    && (forall i: nat | i < |s.stages| && s.stages[i].Erasing? :: ErasesFaithfully(s, i))
    && (forall i: nat | i < |s.stages| && s.stages[i].Nulling? :: MirrorsFaithfully(s, i))
    && (forall i: nat | i < |s.stages| && s.stages[i].Scanned? :: ScansFit(s, i))
    && (Quiet(s) ==> Sound(s.tables, s.next))
  }

  // ─── Who excludes whom ─────────────────────────────────────────────────

  /** Whoever holds the fence to read, and the door or the stamp, finds the tables quiet
      but for a mirror of its own. */
  lemma HolderFindsQuiet(s: State, i: nat)
    requires Locked(s) && i < |s.stages| && !s.stages[i].Nulling? && !s.work[i].Erase?
    requires Holds(FenceLock, s.work[i], s.stages[i])
    requires Holds(StampLock, s.work[i], s.stages[i]) || Holds(DoorLock, s.work[i], s.stages[i])
    ensures Quiet(s)
  {
  }

  // ─── Steps that touch no table ─────────────────────────────────────────

  lemma ScanAccount(s: State, i: nat)
    requires Kept(s) && i < |s.stages| && s.stages[i].Scanned?
    ensures s.work[i].File? && ScansFit(s, i)
  {
    assert StageOf(s.work[i], s.stages[i]);
  }

  lemma MirrorAccount(s: State, i: nat)
    requires Kept(s) && i < |s.stages| && s.stages[i].Nulling?
    ensures |s.work| == |s.stages| && s.work[i].Ingest? && s.work[i].mirror.Some? && MirrorsFaithfully(s, i)
  {
  }

  lemma ErasureAccount(s: State, i: nat)
    requires Kept(s) && i < |s.stages| && s.stages[i].Erasing?
    ensures |s.work| == |s.stages| && s.work[i].Erase? && ErasesFaithfully(s, i)
  {
  }

  lemma KeptIsLocked(s: State)
    requires Kept(s)
    ensures Locked(s)
  {
  }

  lemma QuietIsSound(s: State)
    requires Kept(s) && Quiet(s)
    ensures Sound(s.tables, s.next)
  {
  }

  /** What one process's account says does not depend on where another one is. */
  lemma AccountsStand(s: State, t: State, i: nat, j: nat)
    requires Kept(s) && Moved(s, t, i) && t.tables == s.tables && t.next == s.next && j < |t.stages| && j != i
    ensures t.stages[j].Erasing? ==> ErasesFaithfully(t, j)
    ensures t.stages[j].Nulling? ==> MirrorsFaithfully(t, j)
    ensures t.stages[j].Scanned? ==> ScansFit(t, j)
  {
    assert t.stages[j] == s.stages[j];
    hide Kept, Sound, Fits, Attempt, MirrorPrefix, Found, Plan, Enumerates;
    if s.stages[j].Erasing? { ErasureAccount(s, j); }
    else if s.stages[j].Nulling? { MirrorAccount(s, j); }
    else if s.stages[j].Scanned? { ScanAccount(s, j); }
  }

  /** A step that moves no table, and neither enters nor leaves a long pass or a scan. */
  lemma LockStepKeeps(s: State, t: State, i: nat)
    requires Kept(s) && Locked(t) && Moved(s, t, i) && t.tables == s.tables && t.next == s.next
    requires !s.stages[i].Nulling? && !s.stages[i].Erasing?
    requires !t.stages[i].Nulling? && !t.stages[i].Erasing? && (t.stages[i].Scanned? ==> t.stages[i].pending.None?)
    ensures Kept(t)
  {
    hide Kept, Sound, Fits;
    KeptIsLocked(s);
    assert t.stages[i].Scanned? ==> t.work[i].File? by { assert StageOf(t.work[i], t.stages[i]); }
    forall j: nat | j < |t.stages| && j != i
      ensures t.stages[j].Erasing? ==> ErasesFaithfully(t, j)
      ensures t.stages[j].Nulling? ==> MirrorsFaithfully(t, j)
      ensures t.stages[j].Scanned? ==> ScansFit(t, j)
    {
      AccountsStand(s, t, i, j);
    }
    if Quiet(t) {
      assert Quiet(s) by { assert forall j | 0 <= j < |s.stages| && j != i :: s.stages[j] == t.stages[j]; }
      QuietIsSound(s);
    }
    assert t.stages[i].Scanned? ==> ScansFit(t, i);
    hide Locked, StageOf, ErasesFaithfully, MirrorsFaithfully, ScansFit;
    AccountsMakeKept(t);
  }

  lemma AccountsMakeKept(t: State)
    requires Locked(t)
    requires forall j: nat | j < |t.stages| && t.stages[j].Erasing? :: ErasesFaithfully(t, j)
    requires forall j: nat | j < |t.stages| && t.stages[j].Nulling? :: MirrorsFaithfully(t, j)
    requires forall j: nat | j < |t.stages| && t.stages[j].Scanned? :: ScansFit(t, j)
    requires Quiet(t) ==> Sound(t.tables, t.next)
    ensures Kept(t)
  {
  }

  // ─── Writing steps ─────────────────────────────────────────────────────

  /** What a quiet state that stays quiet must still show. */
  lemma QuietlyKept(t: State)
    requires Locked(t) && Quiet(t) && Sound(t.tables, t.next)
    requires forall j: nat | j < |t.stages| && t.stages[j].Scanned? :: ScansFit(t, j)
    ensures Kept(t)
  {
  }

  /** An ingestion past its mirror, or an observation, at its next row. */
  ghost predicate Writes(s: State, i: nat) {
    && i < |s.stages| == |s.work|
    && ((s.work[i].Ingest? && (s.stages[i].StampHeld? || s.stages[i].MirrorDone?))
        || (s.work[i].Observe? && s.stages[i].Joining? && |s.stages[i].left| > 0))
  }

  function RowOf(s: State, i: nat): Written
    requires Writes(s, i)
  {
    if s.work[i].Ingest? then AMessage(s.work[i].row) else AJoin(s.work[i].event.NoticeOf(s.stages[i].left[0]))
  }

  function WriteNext(s: State, i: nat): State
    requires Writes(s, i)
  {
    if s.work[i].Ingest? then WriteRow(s, i) else WriteJoiner(s, i)
  }

  lemma WriterFindsQuiet(s: State, i: nat)
    requires Kept(s) && Writes(s, i)
    ensures Quiet(s) && Sound(s.tables, s.next)
  {
    hide Kept, Sound;
    KeptIsLocked(s);
    HolderFindsQuiet(s, i);
    QuietIsSound(s);
  }

  lemma WritingWrites(s: State, i: nat)
    requires Writes(s, i)
    ensures var t := WriteNext(s, i);
            && Moved(s, t, i) && t.next == s.next + 1
            && t.tables == Record(s.tables, s.work[i].conversation, s.next, RowOf(s, i))
            && !t.stages[i].Scanned? && !t.stages[i].Nulling? && !t.stages[i].Erasing?
  {
  }

  /** Another process's scan still fits after a row is written. */
  lemma WritingKeepsScans(s: State, i: nat, j: nat)
    requires Kept(s) && Quiet(s) && Writes(s, i) && j < |s.stages| && j != i && s.stages[j].Scanned?
    ensures s.work[j].File? && ScansFit(WriteNext(s, i), j)
  {
    ScanAccount(s, j);
    QuietIsSound(s);
    WritingWrites(s, i);
    if s.stages[j].pending.Some? {
      hide Kept, Record, Fits, WriteNext;
      RecordKeepsFits(s.tables, s.next, s.work[i].conversation, RowOf(s, i),
                      s.work[j].conversation, s.stages[j].pending.value);
    }
  }

  lemma WritingKeeps(s: State, i: nat)
    requires Kept(s) && Writes(s, i) && Locked(WriteNext(s, i))
    ensures Kept(WriteNext(s, i))
  {
    hide Kept, Sound, Record, ScansFit, Locked, WriteNext;
    WriterFindsQuiet(s, i);
    WritingWrites(s, i);
    var t := WriteNext(s, i);
    RecordKeeps(s.tables, s.next, s.work[i].conversation, RowOf(s, i));
    forall j: nat | j < |t.stages| && t.stages[j].Scanned? ensures s.work[j].File? && ScansFit(t, j) {
      WritingKeepsScans(s, i, j);
    }
    QuietlyKept(t);
  }

  lemma ScanningKeeps(s: State, i: nat)
    requires Kept(s) && i < |s.stages| && s.work[i].File? && s.stages[i].DoorHeld?
    requires Locked(TakeScan(s, i))
    ensures Kept(TakeScan(s, i))
  {
    var t, w := TakeScan(s, i), s.work[i];
    hide Kept, Sound, Fits, Scan;
    if Scan(s.tables, w.conversation, w.window, w.asked).Ok? {
      ScanFits(s.tables, w.conversation, w.window, w.asked);
    }
    KeptIsLocked(s);
    HolderFindsQuiet(s, i);
    QuietIsSound(s);
    NobodyElseAtTheDoor(s, i);
    hide Locked, StageOf;
    QuietlyKept(t);
  }

  lemma AppendingKeeps(s: State, i: nat, filed: Filed)
    requires Kept(s) && i < |s.stages| && s.work[i].File? && s.stages[i] == Scanned(Some(filed))
    requires Locked(AppendFiled(s, i, filed))
    ensures Kept(AppendFiled(s, i, filed))
  {
    hide Kept, Sound, Fits, Append;
    var t := AppendFiled(s, i, filed);
    KeptIsLocked(s);
    HolderFindsQuiet(s, i);
    QuietIsSound(s);
    ScanAccount(s, i);
    NobodyElseAtTheDoor(s, i);
    hide Locked, StageOf;
    AppendKeeps(s.tables, s.next, s.work[i].conversation, filed);
    QuietlyKept(t);
  }

  /** A mirror is atomic whoever moved meanwhile: with no operation left, the tables are
      the whole mirror of the tables it found. */
  lemma MirrorIsThrough(s: State, i: nat)
    requires Kept(s) && i < |s.stages| && s.stages[i].Nulling?
    requires s.stages[i].done >= MirrorLength(s.stages[i].found, s.stages[i].done)
    ensures s.work[i].Ingest? && s.work[i].mirror.Some? && Sound(s.stages[i].before, s.next)
    ensures s.tables == Mirrored(s.stages[i].before, s.work[i].conversation, s.work[i].mirror.value)
  {
    hide Kept, Sound, MirrorPrefix, Mirrored, Recorded, Reached;
    MirrorAccount(s, i);
    MirrorComesTo(s.stages[i].before, s.work[i].conversation, s.work[i].mirror.value);
  }

  /** And so is an erasure. */
  lemma ErasureIsThrough(s: State, i: nat)
    requires Kept(s) && i < |s.stages| && s.stages[i].Erasing?
    requires s.stages[i].done >= Whole(s.stages[i].conversations)
    ensures s.work[i].Erase? && Sound(s.stages[i].before, s.next)
    ensures s.work[i].person in s.stages[i].before.principals
    ensures Enumerates(s.stages[i].conversations, Plan(s.stages[i].before, s.work[i].person))
    ensures s.tables == Erased(s.stages[i].before, s.work[i].person, s.stages[i].conversations)
  {
    hide Kept, Sound, Plan, Attempt;
    ErasureAccount(s, i);
  }

  // ─── A mirror's steps ──────────────────────────────────────────────────

  lemma NobodyElseAtTheDoor(s: State, i: nat)
    requires Locked(s) && i < |s.stages| && Holds(DoorLock, s.work[i], s.stages[i]) && !s.work[i].Erase?
    requires Holds(FenceLock, s.work[i], s.stages[i])
    ensures forall j: nat | j < |s.stages| && j != i ::
              !s.stages[j].Scanned? && !s.stages[j].Nulling? && !s.stages[j].Erasing?
  {
  }

  /** With one process in a long pass and nobody else in one or past a scan, its own
      account of the tables is the whole invariant. */
  lemma OnlyOne(t: State, i: nat)
    requires Locked(t) && i < |t.stages|
    requires forall j: nat | j < |t.stages| && j != i ::
               !t.stages[j].Scanned? && !t.stages[j].Nulling? && !t.stages[j].Erasing?
    requires t.stages[i].Nulling? ==> MirrorsFaithfully(t, i)
    requires t.stages[i].Erasing? ==> ErasesFaithfully(t, i)
    requires !t.stages[i].Scanned?
    requires !t.stages[i].Nulling? && !t.stages[i].Erasing? ==> Sound(t.tables, t.next)
    ensures Kept(t)
  {
  }

  lemma MirrorBegins(s: State, i: nat)
    requires Kept(s) && i < |s.stages| && s.work[i].Ingest? && s.stages[i].DoorHeld?
    requires Locked(At(s, i, Nulling(s.tables, false, 0)))
    ensures Kept(At(s, i, Nulling(s.tables, false, 0)))
  {
    hide Kept, Sound;
    KeptIsLocked(s);
    HolderFindsQuiet(s, i);
    QuietIsSound(s);
    NobodyElseAtTheDoor(s, i);
    hide Locked;
    OnlyOne(At(s, i, Nulling(s.tables, false, 0)), i);
  }

  lemma MirrorMoves(s: State, i: nat)
    requires Kept(s) && i < |s.stages| && s.work[i].Ingest? && s.stages[i].Nulling? && s.work[i].mirror.Some?
    requires s.stages[i].done < MirrorLength(s.stages[i].found, s.stages[i].done)
    requires Locked(NullNext(s, i))
    ensures Kept(NullNext(s, i))
  {
    var stage, c, named := s.stages[i], s.work[i].conversation, s.work[i].mirror.value;
    hide Kept, Sound, MirrorStep, Reached, Recorded;
    KeptIsLocked(s);
    MirrorAccount(s, i);
    NobodyElseAtTheDoor(s, i);
    FoundGrows(stage.before, c, named, stage.done);
    hide Locked;
    OnlyOne(NullNext(s, i), i);
  }

  /** The move ends a mirror that leaves some filing standing on nothing. */
  ghost predicate StrandsAFiling(s: State, m: Move) {
    && m.pid < |s.work| == |s.stages| && s.stages[m.pid].Nulling?
    && s.work[m.pid].Ingest? && s.work[m.pid].mirror.Some?
    && s.stages[m.pid].done >= MirrorLength(s.stages[m.pid].found, s.stages[m.pid].done)
    && !MirrorHarmless(s.stages[m.pid].before, s.work[m.pid].conversation, s.work[m.pid].mirror.value)
  }

  lemma MirrorLeavesQuiet(s: State, i: nat)
    requires Locked(s) && i < |s.stages| && s.stages[i].Nulling?
    ensures Quiet(LeaveDoor(s, i, MirrorDone))
  {
    NobodyElseAtTheDoor(s, i);
  }

  lemma MirrorEnds(s: State, i: nat)
    requires Kept(s) && i < |s.stages| && s.work[i].Ingest? && s.stages[i].Nulling? && s.work[i].mirror.Some?
    requires s.stages[i].done >= MirrorLength(s.stages[i].found, s.stages[i].done)
    requires Locked(LeaveDoor(s, i, MirrorDone))
    ensures var t := LeaveDoor(s, i, MirrorDone);
            && Quiet(t)
            && if MirrorHarmless(s.stages[i].before, s.work[i].conversation, s.work[i].mirror.value) then Kept(t)
               else !Grounded(t.tables)
  {
    var stage, c, named := s.stages[i], s.work[i].conversation, s.work[i].mirror.value;
    KeptIsLocked(s);
    MirrorLeavesQuiet(s, i);
    hide Kept, Locked, Mirrored, MirrorHarmless, Sound, Quiet;
    MirrorIsThrough(s, i);
    MirrorKeepsExactly(stage.before, s.next, c, named);
    if MirrorHarmless(stage.before, c, named) {
      NobodyElseAtTheDoor(s, i);
      OnlyOne(LeaveDoor(s, i, MirrorDone), i);
    } else {
      StrandedIsUngrounded(stage.before, s.next, c, named);
    }
  }

  lemma StrandedIsUngrounded(t: Tables, next: int, conversation: int, named: string)
    requires Sound(t, next) && !Sound(Mirrored(t, conversation, named), next)
    ensures !Grounded(Mirrored(t, conversation, named))
  {
    MirrorFades(t, conversation, named);
    hide Grounded, Mirrored;
    FadingKeeps(t, Mirrored(t, conversation, named), next);
  }

  // ─── An erasure's steps ────────────────────────────────────────────────

  lemma NobodyElseInside(s: State, i: nat)
    requires Locked(s) && i < |s.stages| && s.work[i].Erase? && Holds(FenceLock, s.work[i], s.stages[i])
    ensures forall j: nat | j < |s.stages| && j != i ::
              !s.stages[j].Scanned? && !s.stages[j].Nulling? && !s.stages[j].Erasing?
  {
  }

  lemma ErasureBegins(s: State, i: nat, plan: seq<int>)
    requires Kept(s) && i < |s.stages| && s.work[i].Erase? && s.stages[i].FenceHeld?
    requires s.work[i].person in s.tables.principals && Enumerates(plan, Plan(s.tables, s.work[i].person))
    requires Locked(At(s, i, Erasing(s.tables, plan, 0)))
    ensures Kept(At(s, i, Erasing(s.tables, plan, 0)))
  {
    hide Kept, Sound;
    KeptIsLocked(s);
    NobodyElseInside(s, i);
    assert Quiet(s);
    QuietIsSound(s);
    assert Attempt(s.tables, s.work[i].person, plan, 0) == s.tables;
    hide Locked, Sound, Plan, Attempt;
    OnlyOne(At(s, i, Erasing(s.tables, plan, 0)), i);
  }

  lemma ErasureMoves(s: State, i: nat)
    requires Kept(s) && i < |s.stages| && s.work[i].Erase? && s.stages[i].Erasing?
    requires s.stages[i].done < Whole(s.stages[i].conversations)
    requires Locked(EraseNext(s, i))
    ensures Kept(EraseNext(s, i))
  {
    hide Kept, Sound, Plan, Attempt, ErasureStep;
    var stage, person := s.stages[i], s.work[i].person;
    KeptIsLocked(s);
    ErasureAccount(s, i);
    NobodyElseInside(s, i);
    AttemptByOps(stage.before, person, stage.conversations, stage.done);
    hide Locked;
    OnlyOne(EraseNext(s, i), i);
  }

  lemma ErasureEnds(s: State, i: nat)
    requires Kept(s) && i < |s.stages| && s.work[i].Erase? && s.stages[i].Erasing?
    requires s.stages[i].done >= Whole(s.stages[i].conversations)
    requires Locked(At(s, i, Leaving))
    ensures Kept(At(s, i, Leaving))
  {
    var stage, person := s.stages[i], s.work[i].person;
    hide Kept, Locked, Sound, Plan, Erased, Enumerates;
    KeptIsLocked(s);
    ErasureIsThrough(s, i);
    NobodyElseInside(s, i);
    ErasureKeeps(stage.before, s.next, person, stage.conversations);
    OnlyOne(At(s, i, Leaving), i);
  }

  // ─── Every schedule ────────────────────────────────────────────────────

  lemma PassingStepKeeps(s: State, m: Move)
    requires Kept(s) && Enabled(FenceFirst, s, m) && Locked(Step(FenceFirst, s, m).value)
    requires var stage := s.stages[m.pid];
             || stage.Idle? || stage.FenceAsked? || stage.StampAsked?
             || stage.DoorAsked? || stage.RowWritten? || stage.Leaving?
    ensures Kept(Step(FenceFirst, s, m).value)
  {
    hide Locked, Kept, Sound;
    LockStepKeeps(s, Step(FenceFirst, s, m).value, m.pid);
  }

  lemma ErasureEntersKept(s: State, m: Move)
    requires Kept(s) && Enabled(FenceFirst, s, m) && Locked(Step(FenceFirst, s, m).value)
    requires s.stages[m.pid].FenceHeld? && s.work[m.pid].Erase? && s.work[m.pid].person in s.tables.principals
    ensures Kept(Step(FenceFirst, s, m).value)
  {
    hide Locked, Kept, Sound, Plan, Enumerates;
    ErasureBegins(s, m.pid, m.plan);
  }

  lemma FenceHeldStepKeeps(s: State, m: Move)
    requires Kept(s) && Enabled(FenceFirst, s, m) && Locked(Step(FenceFirst, s, m).value)
    requires s.stages[m.pid].FenceHeld?
    ensures Kept(Step(FenceFirst, s, m).value)
  {
    hide Locked, Kept, Sound, Plan, Enumerates, Scan, Append, Record, FenceGrantable, TakeFence, NullNext, EraseNext;
    var i := m.pid;
    if s.work[i].Erase? && s.work[i].person in s.tables.principals {
      ErasureEntersKept(s, m);
    } else {
      LockStepKeeps(s, Step(FenceFirst, s, m).value, i);
    }
  }

  lemma StampHeldStepKeeps(s: State, m: Move)
    requires Kept(s) && Enabled(FenceFirst, s, m) && Locked(Step(FenceFirst, s, m).value)
    requires s.stages[m.pid].StampHeld? || s.stages[m.pid].MirrorDone?
    ensures Kept(Step(FenceFirst, s, m).value)
  {
    var i, t := m.pid, Step(FenceFirst, s, m).value;
    hide Locked, Kept, Sound, Plan, Enumerates, Scan, Append, Record, EventRecorded;
    KeptIsStaged(s, i);
    if s.stages[i].MirrorDone? || (s.work[i].Ingest? && s.work[i].recorded && s.work[i].mirror.None?) {
      WritingKeeps(s, i);
    } else {
      LockStepKeeps(s, t, i);
    }
  }

  lemma KeptIsStaged(s: State, i: nat)
    requires Kept(s) && i < |s.stages|
    ensures |s.work| == |s.stages| && StageOf(s.work[i], s.stages[i])
  {
  }

  lemma JoiningStepKeeps(s: State, m: Move)
    requires Kept(s) && Enabled(FenceFirst, s, m) && Locked(Step(FenceFirst, s, m).value) && s.stages[m.pid].Joining?
    ensures Kept(Step(FenceFirst, s, m).value)
  {
    hide Locked, Kept, Sound, Plan, Enumerates, Scan, Append, Record;
    KeptIsStaged(s, m.pid);
    if |s.stages[m.pid].left| > 0 {
      WritingKeeps(s, m.pid);
    } else {
      LockStepKeeps(s, Step(FenceFirst, s, m).value, m.pid);
    }
  }

  lemma DoorStepKeeps(s: State, m: Move)
    requires Kept(s) && Enabled(FenceFirst, s, m) && Locked(Step(FenceFirst, s, m).value)
    requires s.stages[m.pid].DoorHeld? || s.stages[m.pid].Scanned?
    ensures Kept(Step(FenceFirst, s, m).value)
  {
    hide Kept;
    KeptIsLocked(s);
    DoorStep(s, m);
    var i := m.pid;
    hide Locked, Step, Enabled, TakeScan, AppendFiled;
    if s.stages[i].DoorHeld? && s.work[i].Ingest? {
      MirrorBegins(s, i);
    } else if s.stages[i].DoorHeld? {
      ScanningKeeps(s, i);
    } else if s.stages[i].pending.Some? {
      AppendingKeeps(s, i, s.stages[i].pending.value);
    } else {
      LockStepKeeps(s, LeaveDoor(s, i, Leaving), i);
    }
  }

  lemma MirrorStepKeeps(s: State, m: Move)
    requires Kept(s) && Enabled(FenceFirst, s, m) && Locked(Step(FenceFirst, s, m).value) && s.stages[m.pid].Nulling?
    ensures var t := Step(FenceFirst, s, m).value;
            if StrandsAFiling(s, m)
            then Quiet(t) && !Grounded(t.tables)
            else Kept(t)
  {
    hide Kept, MirrorHarmless, Grounded, Quiet;
    KeptIsLocked(s);
    NullingStep(s, m);
    var i, stage := m.pid, s.stages[m.pid];
    hide Locked, Step, Enabled, NullNext, LeaveDoor;
    if stage.done < MirrorLength(stage.found, stage.done) {
      MirrorMoves(s, i);
    } else {
      MirrorEnds(s, i);
    }
  }

  lemma ErasureStepKeeps(s: State, m: Move)
    requires Kept(s) && Enabled(FenceFirst, s, m) && Locked(Step(FenceFirst, s, m).value) && s.stages[m.pid].Erasing?
    ensures Kept(Step(FenceFirst, s, m).value)
  {
    hide Kept;
    KeptIsLocked(s);
    ErasingStep(s, m);
    var i, stage := m.pid, s.stages[m.pid];
    hide Locked, Step, Enabled, EraseNext;
    if stage.done < Whole(stage.conversations) {
      ErasureMoves(s, i);
    } else {
      ErasureEnds(s, i);
    }
  }

  lemma StepAccounts(s: State, m: Move)
    requires Kept(s) && Enabled(FenceFirst, s, m)
    ensures var t := Step(FenceFirst, s, m).value;
            if StrandsAFiling(s, m) then Quiet(t) && !Grounded(t.tables) else Kept(t)
  {
    KeptIsLocked(s);
    StepKeepsLocked(s, m);
    assert StageOf(s.work[m.pid], s.stages[m.pid]);
    assert !s.stages[m.pid].Finished?;
    hide Locked, Kept, Step, Enabled, StageOf, Quiet, Grounded;
    match s.stages[m.pid]
    case FenceHeld => FenceHeldStepKeeps(s, m);
    case StampHeld => StampHeldStepKeeps(s, m);
    case MirrorDone => StampHeldStepKeeps(s, m);
    case Joining(_) => JoiningStepKeeps(s, m);
    case DoorHeld => DoorStepKeeps(s, m);
    case Scanned(_) => DoorStepKeeps(s, m);
    case Nulling(_, _, _) => MirrorStepKeeps(s, m);
    case Erasing(_, _, _) => ErasureStepKeeps(s, m);
    case _ => PassingStepKeeps(s, m);
  }

  /** A step of any process keeps the data invariant exactly when it does not end a
      mirror that strands a filing. */
  lemma StepKeepsExactly(s: State, m: Move)
    requires Kept(s) && Enabled(FenceFirst, s, m)
    ensures Kept(Step(FenceFirst, s, m).value) <==> !StrandsAFiling(s, m)
  {
    StepAccounts(s, m);
    var t := Step(FenceFirst, s, m).value;
    hide Step, StrandsAFiling;
    if Kept(t) && Quiet(t) {
      QuietIsSound(t);
    }
  }

  // ─── Every schedule ────────────────────────────────────────────────────

  /** No move of the schedule strands a filing. */
  ghost predicate StrandsNothing(s: State, moves: seq<Move>)
    decreases |moves|
  {
    |moves| > 0 ==>
      !(Enabled(FenceFirst, s, moves[0]) && StrandsAFiling(s, moves[0]))
      && StrandsNothing(After(FenceFirst, s, moves[0]), moves[1..])
  }

  /** Whenever no mirror and no erasure is midway, every filed report and mark has a live
      record under its target in its own conversation. */
  ghost predicate GroundedThroughout(s: State, moves: seq<Move>)
    decreases |moves|
  {
    && (Quiet(s) ==> Grounded(s.tables))
    && (|moves| > 0 ==> GroundedThroughout(After(FenceFirst, s, moves[0]), moves[1..]))
  }

  lemma {:induction false} ScheduleKeepsExactly(s: State, moves: seq<Move>)
    requires Kept(s)
    ensures GroundedThroughout(s, moves) <==> StrandsNothing(s, moves)
    decreases |moves|
  {
    if Quiet(s) { QuietIsSound(s); }
    if |moves| > 0 {
      var m := moves[0];
      if Enabled(FenceFirst, s, m) {
        StepAccounts(s, m);
      }
      if !(Enabled(FenceFirst, s, m) && StrandsAFiling(s, m)) {
        ScheduleKeepsExactly(After(FenceFirst, s, m), moves[1..]);
      }
    }
  }

  lemma StartIsKept(work: seq<Work>, tables: Tables, next: int)
    requires Sound(tables, next)
    ensures Kept(Start(work, tables, next))
  {
  }

  /** Over every schedule of any number of ingestions, observations, filings and
      erasures, no filed target outlives its records exactly when no mirror of the
      schedule strands a filing as it ends. */
  lemma TargetsStayGroundedExactly(work: seq<Work>, tables: Tables, next: int, moves: seq<Move>)
    requires Sound(tables, next)
    ensures GroundedThroughout(Start(work, tables, next), moves) <==> StrandsNothing(Start(work, tables, next), moves)
  {
    StartIsKept(work, tables, next);
    ScheduleKeepsExactly(Start(work, tables, next), moves);
  }

  // ─── Where edits keep their id ─────────────────────────────────────────

  /** What a platform may owe: an edit keeps the id it edits. */
  ghost predicate WellNamed(work: seq<Work>) {
    forall i | 0 <= i < |work| && work[i].Ingest? && work[i].row.revises.Some? ::
      work[i].row.origin == work[i].row.revises
  }

  /** Messages whose edits keep their id, and every block one conversation's. */
  ghost predicate Tidy(t: Tables) {
    EditsKeepTheirId(t) && OneConversationEach(t)
  }

  ghost predicate IdsKept(s: State) {
    && WellNamed(s.work) && Tidy(s.tables) && Issued(s.tables, s.next)
    && forall i | 0 <= i < |s.stages| && s.stages[i].Nulling? :: Tidy(s.stages[i].before)
  }

  lemma FadingKeepsIds(t: Tables, v: Tables, next: int)
    requires Faded(t, v) && Tidy(t) && Issued(t, next)
    ensures Tidy(v) && Issued(v, next)
  {
    FadingKeeps(t, v, next);
  }

  lemma RecordKeepsIds(t: Tables, next: int, conversation: int, written: Written)
    requires Tidy(t) && Issued(t, next)
    requires written.AMessage? && written.row.revises.Some? ==> written.row.origin == written.row.revises
    ensures Tidy(Record(t, conversation, next, written)) && Issued(Record(t, conversation, next, written), next + 1)
  {
    FreshBlockKeeps(t, Record(t, conversation, next, written), next, conversation);
  }

  lemma FilingKeepsIds(t: Tables, next: int, conversation: int, filed: Filed)
    requires Tidy(t) && Issued(t, next)
    ensures Tidy(Append(t, conversation, next, filed)) && Issued(Append(t, conversation, next, filed), next + 1)
  {
    FreshBlockKeeps(t, Append(t, conversation, next, filed), next, conversation);
  }

  lemma MovingKeepsIds(s: State, t: State, i: nat)
    requires IdsKept(s) && Moved(s, t, i) && Tidy(t.tables) && Issued(t.tables, t.next)
    requires t.stages[i].Nulling? ==> Tidy(t.stages[i].before)
    ensures IdsKept(t)
  {
    hide Tidy;
    assert forall j | 0 <= j < |t.stages| && j != i :: t.stages[j] == s.stages[j];
  }

  lemma LongStepKeepsIds(s: State, m: Move)
    requires IdsKept(s) && Shaped(s) && Enabled(FenceFirst, s, m)
             && (s.stages[m.pid].Nulling? || s.stages[m.pid].Erasing?)
    ensures IdsKept(Step(FenceFirst, s, m).value)
  {
    var i, stage, work := m.pid, s.stages[m.pid], s.work[m.pid];
    StageDescends(s, m);
    if stage.Nulling? {
      NullingStep(s, m);
      hide Faded, Tidy, Issued, MirrorStep, Reached, Step, Enabled, Shaped;
      if stage.done < MIRROR {
        MirrorStepFades(s.tables, work.conversation, work.mirror.value, stage.done);
        FadingKeepsIds(s.tables, MirrorStep(s.tables, work.conversation, work.mirror.value, stage.done), s.next);
      }
    } else {
      ErasingStep(s, m);
      hide Faded, Tidy, Issued, ErasureStep, Step, Enabled, Shaped;
      if stage.done < Whole(stage.conversations) {
        ErasureStepFades(s.tables, work.person, stage.conversations, stage.done);
        FadingKeepsIds(s.tables, ErasureStep(s.tables, work.person, stage.conversations, stage.done), s.next);
      }
    }
    hide IdsKept;
    MovingKeepsIds(s, Step(FenceFirst, s, m).value, i);
  }

  lemma OtherStepKeepsIds(s: State, m: Move)
    requires IdsKept(s) && Shaped(s) && Enabled(FenceFirst, s, m)
             && !s.stages[m.pid].Nulling? && !s.stages[m.pid].Erasing?
    ensures IdsKept(Step(FenceFirst, s, m).value)
  {
    var i, stage, work := m.pid, s.stages[m.pid], s.work[m.pid];
    StageDescends(s, m);
    hide Tidy, Issued, Record, Append, Scan, Enumerates, Plan, FenceGrantable, Grantable, EventRecorded, Shaped;
    if work.Ingest? {
      RecordKeepsIds(s.tables, s.next, work.conversation, AMessage(work.row));
    } else if work.Observe? && stage.Joining? && |stage.left| > 0 {
      RecordKeepsIds(s.tables, s.next, work.conversation, AJoin(work.event.NoticeOf(stage.left[0])));
    } else if work.File? && stage.Scanned? && stage.pending.Some? {
      FilingKeepsIds(s.tables, s.next, work.conversation, stage.pending.value);
    }
    MovingKeepsIds(s, Step(FenceFirst, s, m).value, i);
  }

  lemma StepKeepsIds(s: State, m: Move)
    requires IdsKept(s) && Shaped(s) && Enabled(FenceFirst, s, m)
    ensures IdsKept(Step(FenceFirst, s, m).value)
  {
    hide IdsKept, Shaped;
    if s.stages[m.pid].Nulling? || s.stages[m.pid].Erasing? {
      LongStepKeepsIds(s, m);
    } else {
      OtherStepKeepsIds(s, m);
    }
  }

  lemma {:induction false} KeptIdsStrandNothing(s: State, moves: seq<Move>)
    requires Kept(s) && IdsKept(s)
    ensures StrandsNothing(s, moves)
    decreases |moves|
  {
    if |moves| > 0 {
      var m := moves[0];
      if Enabled(FenceFirst, s, m) {
        if StrandsAFiling(s, m) {
          MirrorAccount(s, m.pid);
          KeptIdsAreHarmless(s.stages[m.pid].before, s.work[m.pid].conversation, s.work[m.pid].mirror.value);
        }
        StepAccounts(s, m);
        StepKeepsIds(s, m);
      }
      KeptIdsStrandNothing(After(FenceFirst, s, m), moves[1..]);
    }
  }

  /** On a platform whose edits keep their id, whenever no mirror and no erasure is
      midway, every filed report and mark still has a live record under its target in
      its own conversation, over every schedule. */
  lemma NoTargetOutlivesItsRecords(work: seq<Work>, tables: Tables, next: int, moves: seq<Move>)
    requires Sound(tables, next) && OneConversationEach(tables) && EditsKeepTheirId(tables) && WellNamed(work)
    ensures GroundedThroughout(Start(work, tables, next), moves)
  {
    StartIsKept(work, tables, next);
    KeptIdsStrandNothing(Start(work, tables, next), moves);
    TargetsStayGroundedExactly(work, tables, next, moves);
  }
}
