/** What no schedule does twice: file a record under one origin; and exactly when it
    records one person's join twice under one event. */
module Once {
  import opened Vocabulary
  import opened Kind
  import opened Tables
  import opened Erasure
  import opened Convergence
  import opened Effects
  import opened Filing
  import opened Protocol

  /** Nobody's join stands twice under one event of a conversation. */
  ghost predicate JoinedOnce(t: Tables) {
    forall p, q | p in t.held && q in t.held && p.0 == q.0 && p.1 in t.joins && q.1 in t.joins
                  && t.joins[p.1].origin.Some? && t.joins[p.1].origin == t.joins[q.1].origin
                  && t.joins[p.1].principalId == t.joins[q.1].principalId :: p == q
  }

  /** The two things looked after, each over the same runs. */
  datatype Concern = Filings | Joins

  ghost predicate Single(concern: Concern, t: Tables, next: int) {
    && Issued(t, next)
    && match concern
       case Filings => FiledOnce(t)
       case Joins => JoinedOnce(t)
  }

  predicate StandsUnder(t: Tables, conversation: int, event: JoinEvent, a: int) {
    a in t.joins && (conversation, a) in t.held && t.joins[a].origin == Some(event.origin)
  }

  /** How many of its joiners an event has had written. */
  function Done(event: JoinEvent, left: seq<Joiner>): int {
    |event.joiners| - |left|
  }

  /** The person is one of an event's first `n` joiners. */
  predicate NamedAmong(event: JoinEvent, n: int, person: Option<int>) {
    exists k :: 0 <= k < n && k < |event.joiners| && person == Some(event.joiners[k].principalId)
  }

  ghost predicate HasRow(t: Tables, conversation: int, event: JoinEvent, person: int) {
    exists a :: StandsUnder(t, conversation, event, a) && t.joins[a].principalId == Some(person)
  }

  /** The rows under an event are those of the joiners no longer left to write. */
  ghost predicate WrittenSoFar(t: Tables, conversation: int, event: JoinEvent, left: seq<Joiner>) {
    && |left| <= |event.joiners| && left == event.joiners[Done(event, left)..]
    && (forall a | StandsUnder(t, conversation, event, a) ::
          NamedAmong(event, Done(event, left), t.joins[a].principalId))
    && (forall k | 0 <= k < Done(event, left) :: HasRow(t, conversation, event, event.joiners[k].principalId))
  }

  /** The next joiner was named by the event before. */
  predicate NamedBefore(event: JoinEvent, left: seq<Joiner>)
    requires 0 < |left| <= |event.joiners|
  {
    NamedAmong(event, Done(event, left), Some(left[0].principalId))
  }

  /** One event names nobody twice, from its n-th joiner on. */
  ghost predicate NamesOnceFrom(event: JoinEvent, n: int) {
    forall j, k | 0 <= j < k < |event.joiners| && n <= k :: event.joiners[j].principalId != event.joiners[k].principalId
  }

  ghost predicate NamesEachOnce(event: JoinEvent) {
    NamesOnceFrom(event, 0)
  }

  ghost predicate ScanStands(t: Tables, work: Work, stage: Stage) {
    stage.Scanned? && stage.pending.Some? ==> work.File? && Unfiled(t, work.conversation, stage.pending.value)
  }

  ghost predicate JoiningStands(t: Tables, work: Work, stage: Stage) {
    stage.Joining? ==> work.Observe? && WrittenSoFar(t, work.conversation, work.event, stage.left)
  }

  ghost predicate Accounted(concern: Concern, t: Tables, work: Work, stage: Stage) {
    match concern
    case Filings => ScanStands(t, work, stage)
    case Joins => JoiningStands(t, work, stage)
  }

  ghost predicate KeptOnce(concern: Concern, s: State) {
    && Locked(s) && Single(concern, s.tables, s.next)
    && forall i: nat | i < |s.stages| :: Accounted(concern, s.tables, s.work[i], s.stages[i])
  }

  // ─── What each write keeps ─────────────────────────────────────────────

  lemma FadingKeepsSingle(concern: Concern, t: Tables, v: Tables, next: int)
    requires Faded(t, v) && Single(concern, t, next)
    ensures Single(concern, v, next)
  {
    if concern.Filings? {
      FadingKeeps(t, v, next);
    }
  }

  lemma FadingKeepsScans(t: Tables, v: Tables, work: Work, stage: Stage)
    requires Faded(t, v) && ScanStands(t, work, stage)
    ensures ScanStands(v, work, stage)
  {
  }

  lemma MessageKeepsSingle(concern: Concern, t: Tables, next: int, conversation: int, row: ChatMessage)
    requires Single(concern, t, next)
    ensures Single(concern, Record(t, conversation, next, AMessage(row)), next + 1)
  {
    var u := Record(t, conversation, next, AMessage(row));
    FreshBlockKeeps(t, u, next, conversation);
    if concern.Filings? {
      RecordStaysFiledOnce(t, next, conversation, AMessage(row));
    }
    hide FiledOnce;
    assert forall p | p in u.held && p.1 in u.joins :: p in t.held;
  }

  lemma MessageKeepsAccounts(concern: Concern, t: Tables, next: int, conversation: int, row: ChatMessage,
                             work: Work, stage: Stage)
    requires Issued(t, next) && Accounted(concern, t, work, stage)
    ensures Accounted(concern, Record(t, conversation, next, AMessage(row)), work, stage)
  {
    if concern.Joins? && stage.Joining? {
      SameJoinsStand(t, Record(t, conversation, next, AMessage(row)), next, work.conversation, work.event, stage.left);
    }
  }

  /** A block that is no join's changes nothing of what stands under an event. */
  lemma SameJoinsStand(t: Tables, u: Tables, next: int, conversation: int, event: JoinEvent, left: seq<Joiner>)
    requires Issued(t, next) && u.joins == t.joins && t.held <= u.held
    requires forall pair | pair in u.held && pair !in t.held :: pair.1 == next
    requires WrittenSoFar(t, conversation, event, left)
    ensures WrittenSoFar(u, conversation, event, left)
  {
    assert forall a :: StandsUnder(u, conversation, event, a) <==> StandsUnder(t, conversation, event, a) by {
      assert forall a | (conversation, a) in u.held && (conversation, a) !in t.held :: (conversation, a).1 == next;
    }
    hide StandsUnder, NamedAmong;
    forall k | 0 <= k < Done(event, left) ensures HasRow(u, conversation, event, event.joiners[k].principalId) {
      assert HasRow(t, conversation, event, event.joiners[k].principalId);
    }
  }

  lemma FilingKeepsSingle(concern: Concern, t: Tables, next: int, conversation: int, filed: Filed)
    requires Single(concern, t, next) && (concern.Filings? ==> Unfiled(t, conversation, filed))
    ensures Single(concern, Append(t, conversation, next, filed), next + 1)
  {
    var u := Append(t, conversation, next, filed);
    FreshBlockKeeps(t, u, next, conversation);
    if concern.Filings? {
      AppendStaysFiledOnce(t, next, conversation, filed);
    }
    hide FiledOnce, Unfiled;
    assert forall p | p in u.held && p.1 in u.joins :: p in t.held;
  }

  lemma FilingKeepsJoining(t: Tables, next: int, conversation: int, filed: Filed, work: Work, stage: Stage)
    requires Issued(t, next) && JoiningStands(t, work, stage)
    ensures JoiningStands(Append(t, conversation, next, filed), work, stage)
  {
    if stage.Joining? {
      SameJoinsStand(t, Append(t, conversation, next, filed), next, work.conversation, work.event, stage.left);
    }
  }

  lemma ARepeatedRowShows(t: Tables, next: int, conversation: int, event: JoinEvent, joiner: Joiner)
    requires Issued(t, next) && HasRow(t, conversation, event, joiner.principalId)
    ensures !JoinedOnce(Record(t, conversation, next, AJoin(event.NoticeOf(joiner))))
  {
    var u := Record(t, conversation, next, AJoin(event.NoticeOf(joiner)));
    var a :| StandsUnder(t, conversation, event, a) && t.joins[a].principalId == Some(joiner.principalId);
    var p, q := (conversation, a), (conversation, next);
    assert p in u.held && q in u.held && p != q;
  }

  lemma AFirstRowKeeps(t: Tables, next: int, conversation: int, event: JoinEvent, joiner: Joiner)
    requires JoinedOnce(t) && Issued(t, next) && !HasRow(t, conversation, event, joiner.principalId)
    ensures JoinedOnce(Record(t, conversation, next, AJoin(event.NoticeOf(joiner))))
  {
    var u := Record(t, conversation, next, AJoin(event.NoticeOf(joiner)));
    assert u.held == t.held + {(conversation, next)};
    forall p | p in t.held && p.0 == conversation && p.1 in t.joins && t.joins[p.1].origin == Some(event.origin)
      ensures t.joins[p.1].principalId != Some(joiner.principalId)
    {
      assert p == (conversation, p.1) && StandsUnder(t, conversation, event, p.1);
    }
    hide HasRow, StandsUnder;
    assert forall p | p in u.held && p.1 in u.joins && p.1 != next :: p in t.held && u.joins[p.1] == t.joins[p.1];
  }

  /** The next joiner's row leaves everybody joined once exactly when the event did not
      name them before. */
  lemma NextJoinerExactly(t: Tables, next: int, conversation: int, event: JoinEvent, left: seq<Joiner>)
    requires JoinedOnce(t) && Issued(t, next) && |left| > 0 && WrittenSoFar(t, conversation, event, left)
    ensures JoinedOnce(Record(t, conversation, next, AJoin(event.NoticeOf(left[0])))) <==> !NamedBefore(event, left)
  {
    var n, person := Done(event, left), left[0].principalId;
    hide JoinedOnce, Issued, Record, StandsUnder;
    if NamedBefore(event, left) {
      var k :| 0 <= k < n && k < |event.joiners| && Some(person) == Some(event.joiners[k].principalId);
      assert HasRow(t, conversation, event, event.joiners[k].principalId);
      ARepeatedRowShows(t, next, conversation, event, left[0]);
    } else {
      AFirstRowKeeps(t, next, conversation, event, left[0]);
    }
  }

  lemma JoinKeepsSingle(concern: Concern, t: Tables, next: int, conversation: int, event: JoinEvent, left: seq<Joiner>)
    requires Single(concern, t, next) && |left| > 0
    requires concern.Joins? ==> WrittenSoFar(t, conversation, event, left) && !NamedBefore(event, left)
    ensures Single(concern, Record(t, conversation, next, AJoin(event.NoticeOf(left[0]))), next + 1)
  {
    var notice := event.NoticeOf(left[0]);
    FreshBlockKeeps(t, Record(t, conversation, next, AJoin(notice)), next, conversation);
    hide FiledOnce, Issued, JoinedOnce, WrittenSoFar;
    if concern.Filings? {
      RecordStaysFiledOnce(t, next, conversation, AJoin(notice));
    } else {
      NextJoinerExactly(t, next, conversation, event, left);
    }
  }

  lemma JoinKeepsWritten(t: Tables, next: int, conversation: int, event: JoinEvent, left: seq<Joiner>)
    requires Issued(t, next) && |left| > 0 && WrittenSoFar(t, conversation, event, left)
    ensures WrittenSoFar(Record(t, conversation, next, AJoin(event.NoticeOf(left[0]))), conversation, event, left[1..])
  {
    var n, u := Done(event, left), Record(t, conversation, next, AJoin(event.NoticeOf(left[0])));
    assert left[0] == event.joiners[n] && left[1..] == event.joiners[n + 1..] && Done(event, left[1..]) == n + 1;
    assert StandsUnder(u, conversation, event, next) && u.joins[next].principalId == Some(event.joiners[n].principalId);
    assert forall a | a != next :: StandsUnder(u, conversation, event, a) <==> StandsUnder(t, conversation, event, a);
    assert forall a | StandsUnder(t, conversation, event, a) :: a != next && u.joins[a] == t.joins[a];
    hide StandsUnder, Record, Issued;
    forall a | StandsUnder(u, conversation, event, a) ensures NamedAmong(event, n + 1, u.joins[a].principalId) {
      if a != next {
        assert NamedAmong(event, n, t.joins[a].principalId);
      }
    }
    forall k | 0 <= k < n + 1 ensures HasRow(u, conversation, event, event.joiners[k].principalId) {
      if k < n {
        assert HasRow(t, conversation, event, event.joiners[k].principalId);
      }
    }
  }

  lemma JoinKeepsScans(t: Tables, next: int, conversation: int, notice: JoinNotice, work: Work, stage: Stage)
    requires Issued(t, next) && ScanStands(t, work, stage)
    ensures ScanStands(Record(t, conversation, next, AJoin(notice)), work, stage)
  {
  }

  // ─── Every step ────────────────────────────────────────────────────────

  lemma KeptOnceParts(concern: Concern, s: State, j: nat)
    requires KeptOnce(concern, s) && j < |s.stages|
    ensures Locked(s) && |s.work| == |s.stages| && StageOf(s.work[j], s.stages[j])
    ensures Single(concern, s.tables, s.next) && Issued(s.tables, s.next)
    ensures Accounted(concern, s.tables, s.work[j], s.stages[j])
  {
  }

  /** The step's own account, and everybody else's over the tables it leaves. */
  lemma MakesKeptOnce(concern: Concern, s: State, t: State, i: nat)
    requires KeptOnce(concern, s) && Locked(t) && Moved(s, t, i) && Single(concern, t.tables, t.next)
    requires Accounted(concern, t.tables, t.work[i], t.stages[i])
    requires forall j: nat | j < |s.stages| && j != i :: Accounted(concern, t.tables, s.work[j], s.stages[j])
    ensures KeptOnce(concern, t)
  {
    hide Accounted, Single, Locked;
    assert forall j: nat | j < |t.stages| && j != i :: t.stages[j] == s.stages[j];
  }

  /** Whoever is in a long pass, nobody else is at an event's rows. */
  lemma NobodyElseJoins(s: State, i: nat, j: nat)
    requires Locked(s) && i < |s.stages| && j < |s.stages| && i != j && (s.stages[i].Nulling? || s.stages[i].Erasing?)
    ensures !s.stages[j].Joining?
  {
    assert StageOf(s.work[i], s.stages[i]) && StageOf(s.work[j], s.stages[j]);
    if s.stages[i].Nulling? {
      assert Holds(StampLock, s.work[i], s.stages[i]);
    } else {
      assert Holds(FenceLock, s.work[i], s.stages[i]);
    }
  }

  lemma FadingStepKeeps(concern: Concern, s: State, t: State, i: nat)
    requires KeptOnce(concern, s) && Locked(t) && Moved(s, t, i) && Faded(s.tables, t.tables) && t.next == s.next
    requires s.stages[i].Nulling? || s.stages[i].Erasing?
    requires Accounted(concern, t.tables, t.work[i], t.stages[i])
    ensures KeptOnce(concern, t)
  {
    hide Faded, Single, Locked, ScanStands, WrittenSoFar;
    KeptOnceParts(concern, s, i);
    FadingKeepsSingle(concern, s.tables, t.tables, s.next);
    forall j: nat | j < |s.stages| && j != i ensures Accounted(concern, t.tables, s.work[j], s.stages[j]) {
      KeptOnceParts(concern, s, j);
      NobodyElseJoins(s, i, j);
      if concern.Filings? {
        FadingKeepsScans(s.tables, t.tables, s.work[j], s.stages[j]);
      }
    }
    hide Accounted;
    MakesKeptOnce(concern, s, t, i);
  }

  /** A step that moves no table. */
  lemma IdleStepKeeps(concern: Concern, s: State, t: State, i: nat)
    requires KeptOnce(concern, s) && Locked(t) && Moved(s, t, i) && t.tables == s.tables && t.next == s.next
    requires Accounted(concern, t.tables, t.work[i], t.stages[i])
    ensures KeptOnce(concern, t)
  {
    hide Single, Locked, Accounted;
    forall j: nat | j < |s.stages| && j != i ensures Accounted(concern, t.tables, s.work[j], s.stages[j]) {
    }
    MakesKeptOnce(concern, s, t, i);
  }

  lemma MessageStepKeeps(concern: Concern, s: State, i: nat)
    requires KeptOnce(concern, s) && i < |s.stages| && s.work[i].Ingest? && Locked(WriteRow(s, i))
    ensures KeptOnce(concern, WriteRow(s, i))
  {
    var t, c, row := WriteRow(s, i), s.work[i].conversation, s.work[i].row;
    hide Record, Locked, Single, Issued, ScanStands, JoiningStands, Accounted;
    KeptOnceParts(concern, s, i);
    MessageKeepsSingle(concern, s.tables, s.next, c, row);
    forall j: nat | j < |s.stages| && j != i ensures Accounted(concern, t.tables, s.work[j], s.stages[j]) {
      MessageKeepsAccounts(concern, s.tables, s.next, c, row, s.work[j], s.stages[j]);
    }
    RowWrittenOwesNothing(concern, t.tables, t.work[i]);
    hide KeptOnce;
    MakesKeptOnce(concern, s, t, i);
  }

  lemma RowWrittenOwesNothing(concern: Concern, t: Tables, work: Work)
    ensures Accounted(concern, t, work, RowWritten)
  {
  }

  lemma OneAtATime(s: State, i: nat, j: nat)
    requires Locked(s) && i < |s.stages| && j < |s.stages| && i != j
    ensures s.stages[i].Joining? ==> !s.stages[j].Joining?
    ensures s.stages[i].Scanned? ==> !s.stages[j].Scanned?
  {
    assert s.stages[i].Joining? ==> Holds(StampLock, s.work[i], s.stages[i]);
    assert s.stages[i].Scanned? ==> Holds(DoorLock, s.work[i], s.stages[i]);
  }

  /** A move that writes a joiner the event named before. */
  ghost predicate JoinsAgain(s: State, m: Move) {
    && m.pid < |s.work| == |s.stages| && s.work[m.pid].Observe? && s.stages[m.pid].Joining?
    && 0 < |s.stages[m.pid].left| <= |s.work[m.pid].event.joiners|
    && NamedBefore(s.work[m.pid].event, s.stages[m.pid].left)
  }

  lemma JoinAccountAfter(concern: Concern, s: State, i: nat)
    requires KeptOnce(concern, s) && i < |s.stages| && s.work[i].Observe?
             && s.stages[i].Joining? && |s.stages[i].left| > 0
    ensures var t := WriteJoiner(s, i); Accounted(concern, t.tables, t.work[i], t.stages[i])
  {
    KeptOnceParts(concern, s, i);
    hide KeptOnce, Locked, Single, WrittenSoFar, Record;
    if concern.Joins? {
      JoinKeepsWritten(s.tables, s.next, s.work[i].conversation, s.work[i].event, s.stages[i].left);
    }
  }

  lemma JoinStepKeeps(concern: Concern, s: State, i: nat)
    requires KeptOnce(concern, s) && i < |s.stages| && s.work[i].Observe?
             && s.stages[i].Joining? && |s.stages[i].left| > 0
    requires Locked(WriteJoiner(s, i)) && (concern.Joins? ==> !JoinsAgain(s, Move(i, [])))
    ensures KeptOnce(concern, WriteJoiner(s, i))
  {
    var t, c, event, left := WriteJoiner(s, i), s.work[i].conversation, s.work[i].event, s.stages[i].left;
    KeptOnceParts(concern, s, i);
    assert concern.Joins? ==> |left| <= |event.joiners|;
    hide Record, Locked, Single, Issued, WrittenSoFar, ScanStands;
    JoinKeepsSingle(concern, s.tables, s.next, c, event, left);
    JoinAccountAfter(concern, s, i);
    forall j: nat | j < |s.stages| && j != i ensures Accounted(concern, t.tables, s.work[j], s.stages[j]) {
      KeptOnceParts(concern, s, j);
      OneAtATime(s, i, j);
      if concern.Filings? {
        JoinKeepsScans(s.tables, s.next, c, event.NoticeOf(left[0]), s.work[j], s.stages[j]);
      }
    }
    hide KeptOnce, Accounted;
    MakesKeptOnce(concern, s, t, i);
  }

  /** And one that does breaks it at once. */
  lemma JoiningAgainShows(s: State, i: nat)
    requires KeptOnce(Joins, s) && i < |s.stages| && JoinsAgain(s, Move(i, []))
    ensures !JoinedOnce(WriteJoiner(s, i).tables)
  {
    KeptOnceParts(Joins, s, i);
    hide Locked, Record, JoinedOnce, Issued, WrittenSoFar, NamedBefore;
    NextJoinerExactly(s.tables, s.next, s.work[i].conversation, s.work[i].event, s.stages[i].left);
  }

  lemma FilingStepKeeps(concern: Concern, s: State, i: nat, filed: Filed)
    requires KeptOnce(concern, s) && i < |s.stages| && s.work[i].File? && s.stages[i] == Scanned(Some(filed))
    requires Locked(AppendFiled(s, i, filed))
    ensures KeptOnce(concern, AppendFiled(s, i, filed))
  {
    var t, c := AppendFiled(s, i, filed), s.work[i].conversation;
    hide Append, Locked, Single, Issued, Unfiled, WrittenSoFar;
    KeptOnceParts(concern, s, i);
    FilingKeepsSingle(concern, s.tables, s.next, c, filed);
    forall j: nat | j < |s.stages| && j != i ensures Accounted(concern, t.tables, s.work[j], s.stages[j]) {
      KeptOnceParts(concern, s, j);
      OneAtATime(s, i, j);
      if concern.Joins? {
        FilingKeepsJoining(s.tables, s.next, c, filed, s.work[j], s.stages[j]);
      }
    }
    hide KeptOnce;
    MakesKeptOnce(concern, s, t, i);
  }

  lemma MirrorStepKeeps(concern: Concern, s: State, m: Move)
    requires KeptOnce(concern, s) && Enabled(FenceFirst, s, m) && Locked(Step(FenceFirst, s, m).value)
    requires s.stages[m.pid].Nulling?
    ensures KeptOnce(concern, Step(FenceFirst, s, m).value)
  {
    hide KeptOnce, Locked, Faded, MirrorStep, Reached;
    KeptOnceParts(concern, s, m.pid);
    assert Shaped(s) by { LockedIsShaped(s); }
    NullingStep(s, m);
    hide Step, Enabled;
    var i, stage := m.pid, s.stages[m.pid];
    if stage.done < MirrorLength(stage.found, stage.done) {
      MirrorStepFades(s.tables, s.work[i].conversation, s.work[i].mirror.value, stage.done);
      FadingStepKeeps(concern, s, NullNext(s, i), i);
    } else {
      IdleStepKeeps(concern, s, LeaveDoor(s, i, MirrorDone), i);
    }
  }

  lemma LockedIsShaped(s: State)
    requires Locked(s)
    ensures Shaped(s)
  {
  }

  lemma ErasureStepKeeps(concern: Concern, s: State, m: Move)
    requires KeptOnce(concern, s) && Enabled(FenceFirst, s, m) && Locked(Step(FenceFirst, s, m).value)
    requires s.stages[m.pid].Erasing?
    ensures KeptOnce(concern, Step(FenceFirst, s, m).value)
  {
    hide KeptOnce, Locked, Faded, ErasureStep;
    KeptOnceParts(concern, s, m.pid);
    assert Shaped(s) by { LockedIsShaped(s); }
    ErasingStep(s, m);
    hide Step, Enabled;
    var i, stage := m.pid, s.stages[m.pid];
    if stage.done < Whole(stage.conversations) {
      ErasureStepFades(s.tables, s.work[i].person, stage.conversations, stage.done);
      FadingStepKeeps(concern, s, EraseNext(s, i), i);
    } else {
      IdleStepKeeps(concern, s, At(s, i, Leaving), i);
    }
  }

  lemma ScanningKeeps(concern: Concern, s: State, i: nat)
    requires KeptOnce(concern, s) && i < |s.stages| && s.work[i].File?
             && s.stages[i].DoorHeld? && Locked(TakeScan(s, i))
    ensures KeptOnce(concern, TakeScan(s, i))
  {
    var w := s.work[i];
    hide KeptOnce, Locked, Scan;
    KeptOnceParts(concern, s, i);
    if Scan(s.tables, w.conversation, w.window, w.asked).Ok? {
      ScanFits(s.tables, w.conversation, w.window, w.asked);
    }
    IdleStepKeeps(concern, s, TakeScan(s, i), i);
  }

  lemma DoorStepKeeps(concern: Concern, s: State, m: Move)
    requires KeptOnce(concern, s) && Enabled(FenceFirst, s, m) && Locked(Step(FenceFirst, s, m).value)
    requires s.stages[m.pid].DoorHeld? || s.stages[m.pid].Scanned?
    ensures KeptOnce(concern, Step(FenceFirst, s, m).value)
  {
    hide KeptOnce, Locked;
    KeptOnceParts(concern, s, m.pid);
    assert Shaped(s) by { LockedIsShaped(s); }
    DoorStep(s, m);
    var i := m.pid;
    hide Step, Enabled, TakeScan, AppendFiled;
    if s.stages[i].DoorHeld? && s.work[i].Ingest? {
      IdleStepKeeps(concern, s, At(s, i, Nulling(s.tables, false, 0)), i);
    } else if s.stages[i].DoorHeld? {
      ScanningKeeps(concern, s, i);
    } else if s.stages[i].pending.Some? {
      FilingStepKeeps(concern, s, i, s.stages[i].pending.value);
    } else {
      IdleStepKeeps(concern, s, LeaveDoor(s, i, Leaving), i);
    }
  }

  lemma JoiningBegins(concern: Concern, s: State, i: nat)
    requires KeptOnce(concern, s) && i < |s.stages| && s.work[i].Observe? && s.stages[i].StampHeld?
    requires !EventRecorded(s.tables, s.work[i].conversation, s.work[i].event.origin)
    requires Locked(At(s, i, Joining(s.work[i].event.joiners)))
    ensures KeptOnce(concern, At(s, i, Joining(s.work[i].event.joiners)))
  {
    hide KeptOnce, Locked;
    KeptOnceParts(concern, s, i);
    IdleStepKeeps(concern, s, At(s, i, Joining(s.work[i].event.joiners)), i);
  }

  lemma StampStepKeeps(concern: Concern, s: State, m: Move)
    requires KeptOnce(concern, s) && Enabled(FenceFirst, s, m) && Locked(Step(FenceFirst, s, m).value)
    requires s.stages[m.pid].StampHeld? || s.stages[m.pid].MirrorDone? || s.stages[m.pid].Joining?
    requires concern.Joins? ==> !JoinsAgain(s, m)
    ensures KeptOnce(concern, Step(FenceFirst, s, m).value)
  {
    var i := m.pid;
    hide KeptOnce, Locked, Record, EventRecorded;
    KeptOnceParts(concern, s, i);
    if s.work[i].Observe? {
      if s.stages[i].StampHeld? && !EventRecorded(s.tables, s.work[i].conversation, s.work[i].event.origin) {
        JoiningBegins(concern, s, i);
      } else if s.stages[i].Joining? && |s.stages[i].left| > 0 {
        JoinStepKeeps(concern, s, i);
      } else {
        IdleStepKeeps(concern, s, LeaveStamp(s, i), i);
      }
    } else if s.stages[i].MirrorDone? || (s.work[i].recorded && s.work[i].mirror.None?) {
      MessageStepKeeps(concern, s, i);
    } else {
      IdleStepKeeps(concern, s, Step(FenceFirst, s, m).value, i);
    }
  }

  lemma PassingStepKeeps(concern: Concern, s: State, m: Move)
    requires KeptOnce(concern, s) && Enabled(FenceFirst, s, m) && Locked(Step(FenceFirst, s, m).value)
    requires var stage := s.stages[m.pid];
             stage.Idle? || stage.FenceAsked? || stage.FenceHeld? || stage.StampAsked? || stage.DoorAsked?
             || stage.RowWritten? || stage.Leaving?
    ensures KeptOnce(concern, Step(FenceFirst, s, m).value)
  {
    hide Locked, KeptOnce, Plan, Enumerates, Scan;
    KeptOnceParts(concern, s, m.pid);
    IdleStepKeeps(concern, s, Step(FenceFirst, s, m).value, m.pid);
  }

  lemma StepKeepsOnce(concern: Concern, s: State, m: Move)
    requires KeptOnce(concern, s) && Enabled(FenceFirst, s, m) && (concern.Joins? ==> !JoinsAgain(s, m))
    ensures KeptOnce(concern, Step(FenceFirst, s, m).value)
  {
    KeptOnceParts(concern, s, m.pid);
    StepKeepsLocked(s, m);
    assert !s.stages[m.pid].Finished?;
    hide Locked, KeptOnce, Step, Enabled, StageOf, JoinsAgain;
    match s.stages[m.pid]
    case StampHeld => StampStepKeeps(concern, s, m);
    case MirrorDone => StampStepKeeps(concern, s, m);
    case Joining(_) => StampStepKeeps(concern, s, m);
    case DoorHeld => DoorStepKeeps(concern, s, m);
    case Scanned(_) => DoorStepKeeps(concern, s, m);
    case Nulling(_, _, _) => MirrorStepKeeps(concern, s, m);
    case Erasing(_, _, _) => ErasureStepKeeps(concern, s, m);
    case _ => PassingStepKeeps(concern, s, m);
  }

  // ─── Every schedule ────────────────────────────────────────────────────

  lemma {:induction false} EveryScheduleKeepsFiled(s: State, moves: seq<Move>)
    requires KeptOnce(Filings, s)
    ensures KeptOnce(Filings, Run(FenceFirst, s, moves))
    decreases |moves|
  {
    if |moves| > 0 {
      if Enabled(FenceFirst, s, moves[0]) { StepKeepsOnce(Filings, s, moves[0]); }
      EveryScheduleKeepsFiled(After(FenceFirst, s, moves[0]), moves[1..]);
    }
  }

  /** Over every schedule, in every state of it, whatever ids edits carry: no record of
      a conversation is reported twice or reacted to twice. */
  lemma NothingIsFiledTwice(work: seq<Work>, tables: Tables, next: int, moves: seq<Move>)
    requires FiledOnce(tables) && Issued(tables, next)
    ensures FiledOnce(Run(FenceFirst, Start(work, tables, next), moves).tables)
  {
    assert KeptOnce(Filings, Start(work, tables, next));
    EveryScheduleKeepsFiled(Start(work, tables, next), moves);
  }

  /** In every state of the schedule nobody's join stands twice under one event. */
  ghost predicate JoinedOnceThroughout(s: State, moves: seq<Move>)
    decreases |moves|
  {
    JoinedOnce(s.tables) && (|moves| > 0 ==> JoinedOnceThroughout(After(FenceFirst, s, moves[0]), moves[1..]))
  }

  /** No move of the schedule writes a joiner its event named before. */
  ghost predicate JoinsNobodyAgain(s: State, moves: seq<Move>)
    decreases |moves|
  {
    |moves| > 0 ==>
      !(Enabled(FenceFirst, s, moves[0]) && JoinsAgain(s, moves[0]))
      && JoinsNobodyAgain(After(FenceFirst, s, moves[0]), moves[1..])
  }

  lemma JoinsAgainIsSeen(s: State, m: Move)
    requires KeptOnce(Joins, s) && Enabled(FenceFirst, s, m) && JoinsAgain(s, m)
    ensures !JoinedOnce(Step(FenceFirst, s, m).value.tables)
  {
    hide KeptOnce, JoinedOnce, NamedBefore, Record;
    assert Step(FenceFirst, s, m) == Some(WriteJoiner(s, m.pid));
    JoiningAgainShows(s, m.pid);
  }

  lemma {:induction false} ScheduleJoinsExactly(s: State, moves: seq<Move>)
    requires KeptOnce(Joins, s)
    ensures JoinedOnceThroughout(s, moves) <==> JoinsNobodyAgain(s, moves)
    decreases |moves|
  {
    if |moves| > 0 {
      var m := moves[0];
      if Enabled(FenceFirst, s, m) && JoinsAgain(s, m) {
        JoinsAgainIsSeen(s, m);
      } else {
        if Enabled(FenceFirst, s, m) { StepKeepsOnce(Joins, s, m); }
        ScheduleJoinsExactly(After(FenceFirst, s, m), moves[1..]);
      }
    }
  }

  /** Over every schedule, however often an event is delivered, nobody's join stands
      twice under one event in any state of it exactly when no move of it writes a joiner
      the same event named before. */
  lemma NobodyJoinsTwiceExactly(work: seq<Work>, tables: Tables, next: int, moves: seq<Move>)
    requires JoinedOnce(tables) && Issued(tables, next)
    ensures JoinedOnceThroughout(Start(work, tables, next), moves) <==>
              JoinsNobodyAgain(Start(work, tables, next), moves)
  {
    assert KeptOnce(Joins, Start(work, tables, next));
    ScheduleJoinsExactly(Start(work, tables, next), moves);
  }

  // ─── What an event's list decides ──────────────────────────────────────

  ghost predicate EventsNameEachOnce(work: seq<Work>) {
    forall i | 0 <= i < |work| && work[i].Observe? :: NamesEachOnce(work[i].event)
  }

  lemma NamedOnceIsNotNamedBefore(event: JoinEvent, left: seq<Joiner>)
    requires 0 < |left| <= |event.joiners| && left == event.joiners[Done(event, left)..]
    requires NamesOnceFrom(event, Done(event, left))
    ensures !NamedBefore(event, left)
  {
    assert left[0] == event.joiners[Done(event, left)];
  }

  lemma {:induction false} EachOnceJoinsNobodyAgain(s: State, moves: seq<Move>)
    requires KeptOnce(Joins, s) && EventsNameEachOnce(s.work)
    ensures JoinsNobodyAgain(s, moves)
    decreases |moves|
  {
    if |moves| > 0 {
      var m := moves[0];
      if Enabled(FenceFirst, s, m) {
        if JoinsAgain(s, m) {
          KeptOnceParts(Joins, s, m.pid);
          NamedOnceIsNotNamedBefore(s.work[m.pid].event, s.stages[m.pid].left);
        }
        StepKeepsOnce(Joins, s, m);
        SameWork(s, m);
      }
      EachOnceJoinsNobodyAgain(After(FenceFirst, s, m), moves[1..]);
    }
  }

  lemma SameWork(s: State, m: Move)
    requires Locked(s) && Enabled(FenceFirst, s, m)
    ensures Step(FenceFirst, s, m).value.work == s.work
  {
    LockedIsShaped(s);
    StageDescends(s, m);
  }

  /** Where no event names anybody twice, nobody's join ever stands twice, however often
      each is delivered: of two deliveries the second finds the first's rows. */
  lemma ListsWithoutRepeatsJoinOnce(work: seq<Work>, tables: Tables, next: int, moves: seq<Move>)
    requires JoinedOnce(tables) && Issued(tables, next) && EventsNameEachOnce(work)
    ensures JoinedOnceThroughout(Start(work, tables, next), moves)
  {
    assert KeptOnce(Joins, Start(work, tables, next));
    EachOnceJoinsNobodyAgain(Start(work, tables, next), moves);
    NobodyJoinsTwiceExactly(work, tables, next, moves);
  }

  /** Two rows of one person under one event stay two. */
  lemma TwiceStaysTwice(t: Tables, next: int, conversation: int, notice: JoinNotice)
    requires Issued(t, next) && !JoinedOnce(t)
    ensures !JoinedOnce(Record(t, conversation, next, AJoin(notice)))
  {
    var u := Record(t, conversation, next, AJoin(notice));
    var p, q :| p in t.held && q in t.held && p.0 == q.0 && p.1 in t.joins && q.1 in t.joins
                && t.joins[p.1].origin.Some? && t.joins[p.1].origin == t.joins[q.1].origin
                && t.joins[p.1].principalId == t.joins[q.1].principalId && p != q;
    assert p in u.held && q in u.held && u.joins[p.1] == t.joins[p.1] && u.joins[q.1] == t.joins[q.1];
  }

  lemma NextJoinerOnItsOwn(t: Tables, next: int, conversation: int, event: JoinEvent, left: seq<Joiner>)
    requires Issued(t, next) && |left| > 0 && WrittenSoFar(t, conversation, event, left)
    ensures var u := Record(t, conversation, next, AJoin(event.NoticeOf(left[0])));
            && Issued(u, next + 1) && WrittenSoFar(u, conversation, event, left[1..])
            && (JoinedOnce(u) <==> JoinedOnce(t) && !NamedBefore(event, left))
  {
    JoinKeepsWritten(t, next, conversation, event, left);
    var notice := event.NoticeOf(left[0]);
    JoinStaysIssued(t, next, conversation, notice);
    hide JoinedOnce, WrittenSoFar, Issued, Record, NamedBefore;
    if JoinedOnce(t) {
      NextJoinerExactly(t, next, conversation, event, left);
    } else {
      TwiceStaysTwice(t, next, conversation, notice);
    }
  }

  lemma JoinStaysIssued(t: Tables, next: int, conversation: int, notice: JoinNotice)
    requires Issued(t, next)
    ensures Issued(Record(t, conversation, next, AJoin(notice)), next + 1)
  {
  }

  lemma OnceFromByFirst(event: JoinEvent, left: seq<Joiner>)
    requires 0 < |left| <= |event.joiners| && left == event.joiners[Done(event, left)..]
    ensures NamesOnceFrom(event, Done(event, left)) <==>
            !NamedBefore(event, left) && NamesOnceFrom(event, Done(event, left) + 1)
  {
    assert left[0] == event.joiners[Done(event, left)];
  }

  /** The observation on its own, past its locks, with joiners left to write. */
  function AtItsRows(work: seq<Work>, left: seq<Joiner>, tables: Tables, next: int): State {
    State(work, [Joining(left)], Fence({0}, None, []), Mutex(Some(0), []), Mutex(None, []), tables, next)
  }

  lemma WritesTheNext(work: seq<Work>, left: seq<Joiner>, tables: Tables, next: int)
    requires |work| == 1 && work[0].Observe? && |left| > 0
    ensures var u := Record(tables, work[0].conversation, next, AJoin(work[0].event.NoticeOf(left[0])));
            Run(FenceFirst, AtItsRows(work, left, tables, next), Alone(|left|, []))
            == Run(FenceFirst, AtItsRows(work, left[1..], u, next + 1), Alone(|left| - 1, []))
  {
    var s := AtItsRows(work, left, tables, next);
    hide Run, Record;
    assert WriteJoiner(s, 0).stages == [Joining(left[1..])];
    AloneByFirst(s, WriteJoiner(s, 0), |left|, []);
  }

  lemma LeftIsARest(t: Tables, conversation: int, event: JoinEvent, left: seq<Joiner>)
    requires |left| > 0 && WrittenSoFar(t, conversation, event, left)
    ensures |left| <= |event.joiners| && left == event.joiners[Done(event, left)..]
    ensures Done(event, left[1..]) == Done(event, left) + 1
  {
  }

  lemma {:induction false} WritingOnItsOwn(work: seq<Work>, left: seq<Joiner>, tables: Tables, next: int)
    requires |work| == 1 && work[0].Observe? && Issued(tables, next)
    requires WrittenSoFar(tables, work[0].conversation, work[0].event, left)
    ensures JoinedOnce(Run(FenceFirst, AtItsRows(work, left, tables, next), Alone(|left|, [])).tables) <==>
            JoinedOnce(tables) && NamesOnceFrom(work[0].event, Done(work[0].event, left))
    ensures WrittenSoFar(Run(FenceFirst, AtItsRows(work, left, tables, next), Alone(|left|, [])).tables,
                         work[0].conversation, work[0].event, [])
    decreases |left|
  {
    hide Step, Enabled, After, Record, JoinedOnce;
    var c, event := work[0].conversation, work[0].event;
    if |left| == 0 {
      hide WrittenSoFar, Issued;
      assert left == [];
      assert NamesOnceFrom(event, Done(event, left));
    } else {
      hide NamesOnceFrom, Run, Issued, NamedBefore, WrittenSoFar, AtItsRows, Alone;
      LeftIsARest(tables, c, event, left);
      NextJoinerOnItsOwn(tables, next, c, event, left);
      OnceFromByFirst(event, left);
      WritesTheNext(work, left, tables, next);
      WritingOnItsOwn(work, left[1..], Record(tables, c, next, AJoin(event.NoticeOf(left[0]))), next + 1);
    }
  }

  /** The observation on its own, holding the fence. */
  function AtTheFence(work: seq<Work>, tables: Tables, next: int): State {
    State(work, [FenceHeld], Fence({0}, None, []), Mutex(None, []), Mutex(None, []), tables, next)
  }

  /** The observation on its own, holding the stamp lock. */
  function AtTheStamp(work: seq<Work>, tables: Tables, next: int): State {
    State(work, [StampHeld], Fence({0}, None, []), Mutex(Some(0), []), Mutex(None, []), tables, next)
  }

  lemma FenceSteps(work: seq<Work>, tables: Tables, next: int)
    requires |work| == 1 && work[0].Observe?
    ensures var s := Start(work, tables, next);
            && |s.stages| == 1
            && Step(FenceFirst, s, Move(0, [])) == Some(AskFence(s, 0))
            && Step(FenceFirst, AskFence(s, 0), Move(0, [])) == Some(AtTheFence(work, tables, next))
  {
    var s := Start(work, tables, next);
    assert s.stages == [Idle];
    assert AskFence(s, 0).fence.queue == [0];
    assert TakeFence(AskFence(s, 0), 0) == AtTheFence(work, tables, next);
  }

  lemma StampSteps(work: seq<Work>, tables: Tables, next: int)
    requires |work| == 1 && work[0].Observe? && work[0].admitted
    ensures var s := AtTheFence(work, tables, next);
            && Step(FenceFirst, s, Move(0, [])) == Some(AskStamp(s, 0))
            && Step(FenceFirst, AskStamp(s, 0), Move(0, [])) == Some(AtTheStamp(work, tables, next))
  {
    var s := AtTheFence(work, tables, next);
    assert AskStamp(s, 0).stages == [StampAsked] && AskStamp(s, 0).stamp.queue == [0];
    assert TakeStamp(AskStamp(s, 0), 0) == AtTheStamp(work, tables, next);
  }

  lemma ReachesTheStamp(work: seq<Work>, tables: Tables, next: int, n: nat)
    requires |work| == 1 && work[0].Observe? && work[0].admitted
    ensures Run(FenceFirst, Start(work, tables, next), Alone(n + 4, []))
            == Run(FenceFirst, AtTheStamp(work, tables, next), Alone(n, []))
  {
    FenceSteps(work, tables, next);
    StampSteps(work, tables, next);
    hide Run, Start, AtTheFence, AtTheStamp, Alone, Step;
    var s0, s2 := Start(work, tables, next), AtTheFence(work, tables, next);
    assert |s2.stages| == 1 by { FencedAlone(work, tables, next); }
    AloneByFirst(s0, AskFence(s0, 0), n + 4, []);
    AloneByFirst(AskFence(s0, 0), s2, n + 3, []);
    AloneByFirst(s2, AskStamp(s2, 0), n + 2, []);
    AloneByFirst(AskStamp(s2, 0), AtTheStamp(work, tables, next), n + 1, []);
  }

  lemma FencedAlone(work: seq<Work>, tables: Tables, next: int)
    ensures |AtTheFence(work, tables, next).stages| == 1
  {
  }

  lemma ReachesItsRows(work: seq<Work>, tables: Tables, next: int)
    requires |work| == 1 && work[0].Observe? && work[0].admitted
    requires !EventRecorded(tables, work[0].conversation, work[0].event.origin)
    ensures var joiners := work[0].event.joiners;
            Run(FenceFirst, Start(work, tables, next), Alone(|joiners| + 5, []))
            == Run(FenceFirst, AtItsRows(work, joiners, tables, next), Alone(|joiners|, []))
  {
    var n := |work[0].event.joiners|;
    BeginsItsRows(work, tables, next, n);
    hide Run, Start, AtItsRows, AtTheStamp, Alone, EventRecorded;
    ReachesTheStamp(work, tables, next, n + 1);
    assert n + 1 + 4 == n + 5;
  }

  lemma BeginsItsRows(work: seq<Work>, tables: Tables, next: int, n: nat)
    requires |work| == 1 && work[0].Observe?
    requires !EventRecorded(tables, work[0].conversation, work[0].event.origin)
    ensures Run(FenceFirst, AtTheStamp(work, tables, next), Alone(n + 1, []))
            == Run(FenceFirst, AtItsRows(work, work[0].event.joiners, tables, next), Alone(n, []))
  {
    var s := AtTheStamp(work, tables, next);
    var t := At(s, 0, Joining(work[0].event.joiners));
    assert t == AtItsRows(work, work[0].event.joiners, tables, next);
    hide Run, EventRecorded, Alone;
    AloneByFirst(s, t, n + 1, []);
  }

  /** Past its writes, the observation moves no table. */
  lemma {:induction false} LeavingMovesNoTable(s: State, n: nat)
    requires |s.work| == |s.stages| == 1 && (s.stages[0].Leaving? || s.stages[0].Finished?)
    ensures Run(FenceFirst, s, Alone(n, [])).tables == s.tables
    decreases n
  {
    if n > 0 {
      assert Alone(n, [])[1..] == Alone(n - 1, []) && Alone(n, [])[0] == Move(0, []);
      LeavingMovesNoTable(After(FenceFirst, s, Move(0, [])), n - 1);
    }
  }

  lemma ARecordedEventWritesNothing(work: seq<Work>, tables: Tables, next: int, n: nat)
    requires |work| == 1 && work[0].Observe? && work[0].admitted
    requires EventRecorded(tables, work[0].conversation, work[0].event.origin)
    ensures Run(FenceFirst, Start(work, tables, next), Alone(n + 5, [])).tables == tables
  {
    var s := AtTheStamp(work, tables, next);
    var t := LeaveStamp(s, 0);
    assert t.stages == [Leaving] && Step(FenceFirst, s, Move(0, [])) == Some(t);
    hide Run, Start, AtTheStamp, Alone, EventRecorded, Step;
    ReachesTheStamp(work, tables, next, n + 1);
    AloneByFirst(s, t, n + 1, []);
    LeavingMovesNoTable(t, n);
    assert n + 1 + 4 == n + 5;
  }

  lemma AnUnbegunEventIsWrittenWhole(work: seq<Work>, tables: Tables, next: int)
    requires |work| == 1 && work[0].Observe? && work[0].admitted && Issued(tables, next)
    requires !EventRecorded(tables, work[0].conversation, work[0].event.origin)
    requires WrittenSoFar(tables, work[0].conversation, work[0].event, work[0].event.joiners)
    ensures var event, n := work[0].event, |work[0].event.joiners|;
            var v := Run(FenceFirst, Start(work, tables, next), Alone(n + 5, [])).tables;
            && WrittenSoFar(v, work[0].conversation, event, [])
            && (JoinedOnce(v) <==> JoinedOnce(tables) && NamesEachOnce(event))
  {
    hide WrittenSoFar, Run, Start, EventRecorded, Issued, AtItsRows, Alone, JoinedOnce, NamesOnceFrom;
    ReachesItsRows(work, tables, next);
    WritingOnItsOwn(work, work[0].event.joiners, tables, next);
  }

  /** A delivery cut short with `left` still to write: the next one, to its end, leaves
      everybody the event names a row exactly when the first had written nobody or
      everybody. One row under the id reads as the whole event. */
  lemma ACutDeliveryIsMadeUpExactly(c: int, event: JoinEvent, left: seq<Joiner>, tables: Tables, next: int)
    requires Issued(tables, next) && WrittenSoFar(tables, c, event, left) && NamesEachOnce(event)
    ensures var n := |event.joiners|;
            var v := Run(FenceFirst, Start([Observe(c, true, event)], tables, next), Alone(n + 5, [])).tables;
            EveryJoinerHasARow(v, c, event) <==> Done(event, left) == 0 || left == []
  {
    var work, n := [Observe(c, true, event)], |event.joiners|;
    RecordedOnceBegun(tables, c, event, left);
    assert Done(event, left) == 0 ==> left == event.joiners;
    hide Run, Start, EventRecorded, Alone, Issued, WrittenSoFar, EveryJoinerHasARow, NamesOnceFrom;
    if Done(event, left) == 0 {
      AnUnbegunEventIsWrittenWhole(work, tables, next);
      WholeHasEveryRow(Run(FenceFirst, Start(work, tables, next), Alone(n + 5, [])).tables, c, event);
    } else {
      ARecordedEventWritesNothing(work, tables, next, n);
      if left == [] {
        WholeHasEveryRow(tables, c, event);
      } else {
        NextHasNoRow(tables, c, event, left);
      }
    }
  }

  ghost predicate EveryJoinerHasARow(t: Tables, conversation: int, event: JoinEvent) {
    forall k | 0 <= k < |event.joiners| :: HasRow(t, conversation, event, event.joiners[k].principalId)
  }

  lemma RecordedOnceBegun(t: Tables, conversation: int, event: JoinEvent, left: seq<Joiner>)
    requires WrittenSoFar(t, conversation, event, left)
    ensures EventRecorded(t, conversation, event.origin) <==> Done(event, left) > 0
  {
    if Done(event, left) > 0 {
      assert HasRow(t, conversation, event, event.joiners[0].principalId);
      var a :| StandsUnder(t, conversation, event, a) && t.joins[a].principalId == Some(event.joiners[0].principalId);
    } else if EventRecorded(t, conversation, event.origin) {
      var a :| a in t.joins && t.joins[a].origin == Some(event.origin) && (conversation, a) in t.held;
      assert StandsUnder(t, conversation, event, a);
      assert false;
    }
  }

  lemma WholeHasEveryRow(t: Tables, conversation: int, event: JoinEvent)
    requires WrittenSoFar(t, conversation, event, [])
    ensures EveryJoinerHasARow(t, conversation, event)
  {
  }

  lemma NextHasNoRow(t: Tables, conversation: int, event: JoinEvent, left: seq<Joiner>)
    requires |left| > 0 && WrittenSoFar(t, conversation, event, left) && NamesEachOnce(event)
    ensures !EveryJoinerHasARow(t, conversation, event)
  {
    var n := Done(event, left);
    assert left[0] == event.joiners[n];
    forall a | StandsUnder(t, conversation, event, a)
      ensures t.joins[a].principalId != Some(event.joiners[n].principalId)
    {
      assert NamedAmong(event, n, t.joins[a].principalId);
    }
  }

  /** One event not recorded yet, observed on its own to its last joiner: it leaves
      somebody's join standing twice exactly when it names somebody twice. */
  lemma AnEventStandsOnceExactly(c: int, event: JoinEvent, tables: Tables, next: int)
    requires JoinedOnce(tables) && Issued(tables, next) && !EventRecorded(tables, c, event.origin)
    ensures JoinedOnce(Run(FenceFirst, Start([Observe(c, true, event)], tables, next),
                           Alone(|event.joiners| + 5, [])).tables)
            <==> NamesEachOnce(event)
  {
    assert WrittenSoFar(tables, c, event, event.joiners) by {
      assert forall a :: !StandsUnder(tables, c, event, a);
    }
    hide JoinedOnce, WrittenSoFar, NamesOnceFrom, NamesEachOnce, Run, Start, EventRecorded, Issued, Alone;
    AnUnbegunEventIsWrittenWhole([Observe(c, true, event)], tables, next);
  }
}
