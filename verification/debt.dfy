/** The debt spine: what every run of ingestions, bookkeeping, settling blocks and
    erasures keeps, and why the walk may read through a row stamped false. */
module Debt {
  import opened Vocabulary
  import opened Kind
  import opened Ledger

  // ─── What is owed ──────────────────────────────────────────────────────

  ghost predicate Live(block: Block) {
    && block.Chat?
    && block.row.role == Some(User) && block.row.text.Some? && block.row.answerDue == Some(true)
  }

  /** No settling block strictly between two positions. */
  ghost predicate Unsettled(blocks: seq<Block>, lo: int, hi: int) {
    forall k | 0 <= k < |blocks| && lo < k < hi :: !Settling(blocks[k])
  }

  /** A live due row with no settling block after it. */
  ghost predicate StandsOwed(blocks: seq<Block>, i: nat) {
    i < |blocks| && Live(blocks[i]) && Unsettled(blocks, i, |blocks|)
  }

  ghost predicate StoredRows(blocks: seq<Block>) {
    forall i | 0 <= i < |blocks| && blocks[i].Chat? :: blocks[i].row.Stored()
  }

  /** A turn is owed exactly when a live due row stands after the last settling
      block, and the walk answers with the newest such row. */
  lemma {:induction false} OwedExactly(blocks: seq<Block>)
    requires StoredRows(blocks)
    ensures OwedTail(blocks).Some? <==> exists i: nat :: StandsOwed(blocks, i)
    ensures OwedTail(blocks).Some? ==> StandsOwed(blocks, OwedTail(blocks).value)
    ensures forall i: nat | StandsOwed(blocks, i) :: OwedTail(blocks).Some? && i <= OwedTail(blocks).value
  {
    if |blocks| > 0 {
      var front, newest := blocks[..|blocks| - 1], blocks[|blocks| - 1];
      OwedExactly(front);
      if Live(newest) {
        assert StandsOwed(blocks, |blocks| - 1);
      } else if Settling(newest) {
        forall i: nat ensures !StandsOwed(blocks, i) {
          assert Settling(blocks[|blocks| - 1]);
        }
      } else {
        forall i: nat ensures StandsOwed(blocks, i) <==> StandsOwed(front, i) {
          if StandsOwed(front, i) {
            forall k | 0 <= k < |blocks| && i < k < |blocks| ensures !Settling(blocks[k]) {
              assert k < |front| ==> blocks[k] == front[k];
            }
          }
        }
      }
    }
  }

  // ─── The run invariant ─────────────────────────────────────────────────

  /** Nothing stands owed behind a position. */
  ghost predicate Certified(blocks: seq<Block>, i: nat) {
    forall k | 0 <= k < i && k < |blocks| && Live(blocks[k]) :: !Unsettled(blocks, k, i)
  }

  /** No message landed between a stamp's read and its row: the stamp lock orders those. */
  ghost predicate Landed(blocks: seq<Block>, lo: int, hi: int) {
    lo <= hi && forall k | 0 <= k < |blocks| && lo <= k < hi :: blocks[k].Other?
  }

  /** What one row's stored stamp says about the moment it was taken. */
  ghost predicate StampFits(s: Spine, i: nat)
    requires i < |s.blocks| == |s.stampings|
  {
    match s.stampings[i]
    case NotARow => s.blocks[i].Other?
    case History => s.blocks[i].Chat? && s.blocks[i].row.Stored()
    case Withheld(_) =>
      && s.blocks[i].Chat?
      && var row := s.blocks[i].row;
      && row.Stored() && row.answerDue == Some(false) && row.debtAuthority.None? && !row.OwnDebtTaken()
    case Read(None, readAt, _) =>
      && s.blocks[i].Chat? && Landed(s.blocks, readAt, i)
      && var row := s.blocks[i].row;
      && row.Stored()
      && row.answerDue == Some(row.OwnDebtTaken())
      && row.debtAuthority == (if row.OwnDebtTaken() then row.authority else None)
      && Certified(s.blocks, i)
    case Read(Some(tail), readAt, _) =>
      && s.blocks[i].Chat? && tail < readAt <= i && s.blocks[tail].Chat? && Landed(s.blocks, readAt, i)
      && var row, carrier := s.blocks[i].row, s.blocks[tail].row;
      && row.Stored() && carrier.Stored()
      && carrier.answerDue == Some(true) && row.answerDue == Some(true)
      && Unsettled(s.blocks, tail, readAt)
      && row.debtAuthority == Some(Folded(carrier.CarriedDebtAuthority(), row.authority.value))
  }

  ghost predicate Inv(s: Spine) {
    && |s.blocks| == |s.stampings|
    && forall i | 0 <= i < |s.blocks| :: StampFits(s, i)
  }

  lemma InvStoresRows(s: Spine)
    requires Inv(s)
    ensures StoredRows(s.blocks)
  {
    forall i | 0 <= i < |s.blocks| && s.blocks[i].Chat? ensures s.blocks[i].row.Stored() {
      assert StampFits(s, i);
    }
  }

  /** A stamp speaks only of what stood behind it. */
  lemma StampFitsInEveryExtension(s: Spine, t: Spine, i: nat)
    requires i < |s.blocks| == |s.stampings| && |t.blocks| == |t.stampings|
    requires s.blocks <= t.blocks && s.stampings <= t.stampings
    ensures StampFits(s, i) <==> StampFits(t, i)
  {
  }

  lemma AppendedKeeps(s: Spine, kinds: seq<BlockType>)
    requires Inv(s)
    ensures Inv(Appended(s, kinds))
  {
    var t := Appended(s, kinds);
    forall i | 0 <= i < |t.blocks| ensures StampFits(t, i) {
      if i < |s.blocks| {
        StampFitsInEveryExtension(s, t, i);
      }
    }
  }

  lemma EmptiedFits(s: Spine, target: Target, i: nat)
    requires i < |s.blocks| == |s.stampings| && StampFits(s, i)
    ensures StampFits(Emptied(s, target), i)
  {
    var t := Emptied(s, target);
    assert forall k | 0 <= k < |s.blocks| :: Settling(t.blocks[k]) <==> Settling(s.blocks[k]);
    assert forall lo: int, hi: int :: Unsettled(s.blocks, lo, hi) <==> Unsettled(t.blocks, lo, hi);
    assert forall k | 0 <= k < |t.blocks| && Live(t.blocks[k]) :: Live(s.blocks[k]);
  }

  /** Emptying rows only removes live debts; every stamp stays. */
  lemma EmptiedKeeps(s: Spine, target: Target)
    requires Inv(s)
    ensures Inv(Emptied(s, target))
  {
    forall i | 0 <= i < |s.blocks| ensures StampFits(Emptied(s, target), i) {
      EmptiedFits(s, target, i);
    }
  }

  /** The ledger's front at the read, and everything behind it, as the row finds them. */
  lemma RidingIsFrontAndLanded(s: Spine, between: seq<BlockType>, after: seq<BlockType>)
    ensures var riding, at := Riding(s, between, after).blocks, ReadMoment(s.blocks, between);
            && |s.blocks| <= at <= |riding| && riding[..at] == Appended(s, between).blocks[..at]
            && s.blocks <= riding
            && riding == riding[..at] + OthersOf((between + after)[at - |s.blocks|..])
  {
    var riding, at := Riding(s, between, after).blocks, ReadMoment(s.blocks, between);
    assert riding == s.blocks + OthersOf(between + after);
  }

  lemma StampedAppendKeeps(s: Spine, message: Inbound, around: Surroundings, link: RevisionLink,
                           between: seq<BlockType>, after: seq<BlockType>)
    requires Inv(s) && around.Valid()
    ensures Inv(StampedAppend(s, message, around, link, between, after))
  {
    var riding, t := Riding(s, between, after), StampedAppend(s, message, around, link, between, after);
    AppendedKeeps(s, between);
    AppendedKeeps(Appended(s, between), after);
    forall i | 0 <= i < |riding.blocks| ensures StampFits(t, i) {
      StampFitsInEveryExtension(riding, t, i);
    }
    NewStampFits(s, message, around, link, between, after);
    hide StampFits;
  }

  /** A read that answered no tail certifies the row: nothing stands owed behind it. */
  lemma NoTailCertifies(s: Spine, between: seq<BlockType>, after: seq<BlockType>)
    requires StoredRows(Riding(s, between, after).blocks) && TailRead(s, between).None?
    ensures Certified(Riding(s, between, after).blocks, |Riding(s, between, after).blocks|)
  {
    var riding, at := Riding(s, between, after).blocks, ReadMoment(s.blocks, between);
    var front := riding[..at];
    RidingIsFrontAndLanded(s, between, after);
    OwedExactly(front);
    forall k | 0 <= k < |riding| && Live(riding[k]) ensures !Unsettled(riding, k, |riding|) {
      assert k < at && riding[k] == front[k] && !StandsOwed(front, k);
      var m :| k < m < at && Settling(front[m]);
      assert Settling(riding[m]);
    }
  }

  /** A read that answered a tail found it unsettled. */
  lemma TailStandsAtTheRead(s: Spine, between: seq<BlockType>, after: seq<BlockType>)
    requires StoredRows(Riding(s, between, after).blocks) && TailRead(s, between).Some?
    ensures var riding, tail := Riding(s, between, after).blocks, TailRead(s, between).value;
            && tail < ReadMoment(s.blocks, between) <= |riding| && Live(riding[tail])
            && riding[tail] == Appended(s, between).blocks[tail]
            && Unsettled(riding, tail, ReadMoment(s.blocks, between))
  {
    var riding, at := Riding(s, between, after).blocks, ReadMoment(s.blocks, between);
    RidingIsFrontAndLanded(s, between, after);
    OwedExactly(riding[..at]);
    assert forall k | 0 <= k < at :: riding[k] == riding[..at][k];
  }

  /** The row written carries the stamp composed against the tail read. */
  lemma NewRowStores(s: Spine, message: Inbound, around: Surroundings, link: RevisionLink, between: seq<BlockType>)
    requires around.Valid() && StoredRows(Appended(s, between).blocks)
    ensures var row := RecordedRow(message, around, link, StampOf(s, message, around, between));
            var tail := if TailWithheld(message, around) then None else TailRead(s, between);
            && row.Stored() && row.authority == Some(message.authority)
            && row.answerDue == Some(row.OwnDebtTaken() || tail.Some?)
            && row.debtAuthority == (
                 if tail.Some?
                 then Some(Folded(Appended(s, between).blocks[tail.value].row.CarriedDebtAuthority(),
                                  message.authority))
                 else if row.OwnDebtTaken() then row.authority else None)
            && (TailWithheld(message, around) ==> !row.OwnDebtTaken())
  {
    hide StoredRows, OwedTail, ReadMoment;
  }

  lemma TailStampFits(s: Spine, message: Inbound, around: Surroundings, link: RevisionLink,
                      between: seq<BlockType>, after: seq<BlockType>)
    requires around.Valid() && !TailWithheld(message, around) && TailRead(s, between).Some?
    requires StoredRows(Appended(s, between).blocks) && StoredRows(Riding(s, between, after).blocks)
    requires |s.blocks| == |s.stampings|
    ensures StampFits(StampedAppend(s, message, around, link, between, after), |Riding(s, between, after).blocks|)
  {
    var riding, t := Riding(s, between, after).blocks, StampedAppend(s, message, around, link, between, after).blocks;
    var tail, at, n := TailRead(s, between).value, ReadMoment(s.blocks, between), |riding|;
    NewRowStores(s, message, around, link, between);
    RidingIsFrontAndLanded(s, between, after);
    TailStandsAtTheRead(s, between, after);
    assert riding[tail].row.Stored();
    hide StoredRows, TailRead, StampOf, RecordedRow, ReadMoment, Live;
    assert t[..n] == riding;
    assert forall k | 0 <= k < n :: t[k] == riding[k];
    assert Unsettled(t, tail, at) && Landed(t, at, n);
  }

  lemma NoTailStampFits(s: Spine, message: Inbound, around: Surroundings, link: RevisionLink,
                        between: seq<BlockType>, after: seq<BlockType>)
    requires around.Valid() && !TailWithheld(message, around) && TailRead(s, between).None?
    requires StoredRows(Appended(s, between).blocks) && StoredRows(Riding(s, between, after).blocks)
    requires |s.blocks| == |s.stampings|
    ensures StampFits(StampedAppend(s, message, around, link, between, after), |Riding(s, between, after).blocks|)
  {
    var riding, t := Riding(s, between, after).blocks, StampedAppend(s, message, around, link, between, after).blocks;
    var at, n := ReadMoment(s.blocks, between), |riding|;
    NewRowStores(s, message, around, link, between);
    RidingIsFrontAndLanded(s, between, after);
    NoTailCertifies(s, between, after);
    assert t[..n] == riding;
    assert Landed(t, at, n);
    CertifiedInFront(riding, t);
    hide StoredRows, TailRead, StampOf, RecordedRow, ReadMoment, Certified, Landed;
  }

  lemma CertifiedInFront(front: seq<Block>, blocks: seq<Block>)
    requires front <= blocks && Certified(front, |front|)
    ensures Certified(blocks, |front|)
  {
    forall k | 0 <= k < |front| && Live(blocks[k]) ensures !Unsettled(blocks, k, |front|) {
      assert Live(front[k]) && !Unsettled(front, k, |front|);
      var m :| k < m < |front| && Settling(front[m]);
      assert Settling(blocks[m]);
    }
  }

  lemma NewStampFits(s: Spine, message: Inbound, around: Surroundings, link: RevisionLink,
                     between: seq<BlockType>, after: seq<BlockType>)
    requires Inv(s) && Inv(Riding(s, between, after)) && Inv(Appended(s, between)) && around.Valid()
    ensures StampFits(StampedAppend(s, message, around, link, between, after), |Riding(s, between, after).blocks|)
  {
    InvStoresRows(Riding(s, between, after));
    InvStoresRows(Appended(s, between));
    hide StoredRows, StampFits;
    if TailWithheld(message, around) {
      WithheldStampFits(s, message, around, link, between, after);
    } else if TailRead(s, between).Some? {
      TailStampFits(s, message, around, link, between, after);
    } else {
      NoTailStampFits(s, message, around, link, between, after);
    }
  }

  lemma WithheldStampFits(s: Spine, message: Inbound, around: Surroundings, link: RevisionLink,
                          between: seq<BlockType>, after: seq<BlockType>)
    requires around.Valid() && TailWithheld(message, around) && StoredRows(Appended(s, between).blocks)
    requires |s.blocks| == |s.stampings|
    ensures StampFits(StampedAppend(s, message, around, link, between, after), |Riding(s, between, after).blocks|)
  {
    NewRowStores(s, message, around, link, between);
    hide StoredRows, TailRead, StampOf, RecordedRow, ReadMoment;
  }

  lemma IngestedKeeps(s: Spine, message: Inbound, around: Surroundings, meanwhile: Meanwhile)
    requires Inv(s) && around.Valid()
    ensures Inv(Ingested(s, message, around, meanwhile))
  {
    if UnderLockReading(s.blocks, message, around).Recorded? {
      ReachedKeeps(s, message, around, meanwhile);
      StampedAppendKeeps(Reached(s, message, around, meanwhile), message, around,
                         UnderLockReading(s.blocks, message, around).link, meanwhile.between, meanwhile.after);
    }
  }

  lemma ReachedKeeps(s: Spine, message: Inbound, around: Surroundings, meanwhile: Meanwhile)
    requires Inv(s)
    ensures Inv(Reached(s, message, around, meanwhile))
  {
    var begun := Appended(s, meanwhile.opening);
    AppendedKeeps(s, meanwhile.opening);
    if message.revises.None? {
      match message.deletion {
        case Some(OfMessage(named)) => EmptiedKeeps(begun, Message(named));
        case Some(OfAssistant) => AppendedKeeps(begun, [Retraction]);
        case None =>
      }
    }
    AppendedKeeps(Deleted(begun, message, around), meanwhile.settled);
  }

  // ─── Runs ──────────────────────────────────────────────────────────────

  /** One whole ingestion with what landed in its gaps; appends of any other writer; a
      person-wide erasure; a mirror whose ingestion stopped before its row. */
  datatype Event =
    | Said(message: Inbound, around: Surroundings, meanwhile: Meanwhile)
    | Wrote(kinds: seq<BlockType>)
    | PersonErased(principalId: int)
    | MessageErased(named: string)
  {
    ghost predicate Valid() {
      Said? ==> message.Valid() && around.Valid()
    }
  }

  function Next(s: Spine, event: Event): Spine {
    match event
    case Said(message, around, meanwhile) => Ingested(s, message, around, meanwhile)
    case Wrote(kinds) => Appended(s, kinds)
    case PersonErased(principalId) => Emptied(s, Person(principalId))
    case MessageErased(named) => Emptied(s, Message(named))
  }

  function Run(s: Spine, events: seq<Event>): Spine
    decreases |events|
  {
    if |events| == 0 then s else Run(Next(s, events[0]), events[1..])
  }

  function Begin(history: seq<Block>): Spine {
    Spine(history, seq(|history|, i requires 0 <= i < |history| => if history[i].Chat? then History else NotARow))
  }

  /** Rows, their stamps and their order stay; only personal columns empty. */
  ghost predicate Grows(s: Spine, t: Spine) {
    && |s.blocks| == |s.stampings| <= |t.blocks| == |t.stampings|
    && s.stampings <= t.stampings
    && forall i | 0 <= i < |s.blocks| ::
      || t.blocks[i] == s.blocks[i]
      || (s.blocks[i].Chat? && t.blocks[i].Chat? && Stripped(s.blocks[i].row, t.blocks[i].row))
  }

  lemma NextKeeps(s: Spine, event: Event)
    requires Inv(s) && event.Valid()
    ensures Inv(Next(s, event)) && Grows(s, Next(s, event))
  {
    hide StampFits, Ingested;
    match event
    case Said(message, around, meanwhile) =>
      IngestedKeeps(s, message, around, meanwhile);
      IngestedGrows(s, message, around, meanwhile);
    case Wrote(kinds) => AppendedKeeps(s, kinds);
    case PersonErased(principalId) => EmptiedKeeps(s, Person(principalId));
    case MessageErased(named) => EmptiedKeeps(s, Message(named));
  }

  lemma IngestedGrows(s: Spine, message: Inbound, around: Surroundings, meanwhile: Meanwhile)
    requires |s.blocks| == |s.stampings|
    ensures Grows(s, Ingested(s, message, around, meanwhile))
  {
    hide RecordedRow, StampOf, TailRead, ReadMoment, UnderLockReading, TailWithheld;
    var begun := Appended(s, meanwhile.opening);
    assert Grows(s, Deleted(begun, message, around));
  }

  /** Every run keeps the invariant and never rewrites a stamp. */
  lemma {:induction false} EveryRunKeeps(s: Spine, events: seq<Event>)
    requires Inv(s)
    requires forall k | 0 <= k < |events| :: events[k].Valid()
    ensures Inv(Run(s, events)) && Grows(s, Run(s, events))
    decreases |events|
  {
    if |events| > 0 {
      NextKeeps(s, events[0]);
      EveryRunKeeps(Next(s, events[0]), events[1..]);
    }
  }

  /** From any stored history whatever, every run keeps the invariant. */
  lemma EveryLedgerIsSpined(history: seq<Block>, events: seq<Event>)
    requires StoredRows(history)
    requires forall k | 0 <= k < |events| :: events[k].Valid()
    ensures Inv(Run(Begin(history), events))
  {
    assert Inv(Begin(history));
    EveryRunKeeps(Begin(history), events);
  }

  // ─── A false stamp certifies a settled frontier ────────────────────────

  /** A row stamped against a tail that was read and owed nothing has nothing owed
      behind it, in that ledger and in every later one. */
  lemma FalseStampCertifiesForever(s: Spine, events: seq<Event>, i: nat)
    requires Inv(s) && i < |s.blocks|
    requires s.stampings[i].Read? && s.blocks[i].Chat? && s.blocks[i].row.answerDue == Some(false)
    requires forall k | 0 <= k < |events| :: events[k].Valid()
    ensures var later := Run(s, events).blocks;
            && i < |later| && later[i].Chat? && later[i].row.answerDue == Some(false)
            && (forall k | 0 <= k < i && Live(later[k]) :: exists m | k < m < i :: Settling(later[m]))
            && OwedTail(later[..i]).None?
  {
    EveryRunKeeps(s, events);
    var t := Run(s, events);
    assert StampFits(s, i) && StampFits(t, i);
    forall k | 0 <= k < i && Live(t.blocks[k]) ensures exists m | k < m < i :: Settling(t.blocks[m]) {
      assert !Unsettled(t.blocks, k, i);
    }
    CertifiedFrontOwesNothing(t, i);
  }

  lemma CertifiedFrontOwesNothing(s: Spine, i: nat)
    requires Inv(s) && i <= |s.blocks| && Certified(s.blocks, i)
    ensures OwedTail(s.blocks[..i]).None?
  {
    var front := s.blocks[..i];
    InvStoresRows(s);
    OwedExactly(front);
    if OwedTail(front).Some? {
      var k := OwedTail(front).value;
      assert StandsOwed(front, k) && Live(s.blocks[k]);
      assert Unsettled(s.blocks, k, i) by {
        forall m | 0 <= m < |s.blocks| && k < m < i ensures !Settling(s.blocks[m]) {
          assert s.blocks[m] == front[m];
        }
      }
      assert false;
    }
  }

  /** The walk that stops, settled, at every live row stamped false against a read
      tail, and reads through only what certifies nothing. */
  ghost function StoppingWalk(s: Spine, upTo: nat): Option<nat>
    requires upTo <= |s.blocks| == |s.stampings|
  {
    if upTo == 0 then None
    else
      var newest := upTo - 1;
      match s.blocks[newest]
      case Other(kind) =>
        if kind in DEBT_READ_THROUGH || kind in NEVER_ANSWERABLE then StoppingWalk(s, newest) else None
      case Chat(row) =>
        if row.OwesAnswer() then Some(newest)
        else if row.Erased() || !s.stampings[newest].Read? then StoppingWalk(s, newest)
        else None
  }

  /** Reading through a certified row reaches the frontier stopping at it names. */
  lemma {:induction false} ReadingThroughEqualsStopping(s: Spine, upTo: nat)
    requires Inv(s) && upTo <= |s.blocks|
    ensures OwedTail(s.blocks[..upTo]) == StoppingWalk(s, upTo)
  {
    if upTo > 0 {
      var newest := upTo - 1;
      var front := s.blocks[..upTo];
      assert front[..newest] == s.blocks[..newest] && front[newest] == s.blocks[newest];
      assert StampFits(s, newest);
      ReadingThroughEqualsStopping(s, newest);
      if s.blocks[newest].Chat? && s.stampings[newest].Read? && s.blocks[newest].row.answerDue == Some(false) {
        CertifiedFrontOwesNothing(s, newest);
      }
    }
  }

  /** The walk before the widening: only erased rows are read through. */
  function NarrowWalk(blocks: seq<Block>): Option<nat> {
    if |blocks| == 0 then None
    else
      var newest := |blocks| - 1;
      match blocks[newest]
      case Other(kind) =>
        if kind in DEBT_READ_THROUGH || kind in NEVER_ANSWERABLE then NarrowWalk(blocks[..newest]) else None
      case Chat(row) =>
        if row.OwesAnswer() then Some(newest)
        else if row.Erased() then NarrowWalk(blocks[..newest])
        else None
  }

  /** Behind a debt standing when the row is written, stopping at the row just written
      loses the debt for exactly one kind of row: the unsummoned bot's, composed against
      no tail. */
  lemma OnlyTheUnsummonedBotNeedsReadingThrough(s: Spine, message: Inbound, around: Surroundings, link: RevisionLink,
                                                between: seq<BlockType>, after: seq<BlockType>)
    requires Inv(s) && around.Valid() && OwedTail(Riding(s, between, after).blocks).Some?
    ensures var written := StampedAppend(s, message, around, link, between, after).blocks;
            (NarrowWalk(written) == OwedTail(written) <==> !TailWithheld(message, around))
  {
    AppendOwes(s, message, around, link, between, after);
    LandedOwes(s, between, after);
    var written := StampedAppend(s, message, around, link, between, after).blocks;
    assert written[..|written| - 1] == Riding(s, between, after).blocks;
    assert written[|written| - 1].Chat?;
  }

  // ─── No debt is cancelled and none is invented ─────────────────────────

  ghost predicate OneSettles(kinds: seq<BlockType>) {
    exists k :: 0 <= k < |kinds| && kinds[k].Framework?
  }

  lemma OneSettlesByLast(kinds: seq<BlockType>)
    requires |kinds| > 0
    ensures OneSettles(kinds) <==> OneSettles(kinds[..|kinds| - 1]) || kinds[|kinds| - 1].Framework?
  {
    var front := kinds[..|kinds| - 1];
    assert forall k | 0 <= k < |front| :: front[k] == kinds[k];
  }

  lemma OwedPastAKind(blocks: seq<Block>, kind: BlockType)
    ensures OwedTail(blocks + [Other(kind)]) == if kind.Framework? then None else OwedTail(blocks)
  {
    assert (blocks + [Other(kind)])[..|blocks|] == blocks;
  }

  /** Landed kinds settle everything exactly when one of them settles. */
  lemma {:induction false} LandedSettlesExactly(blocks: seq<Block>, kinds: seq<BlockType>)
    ensures OwedTail(blocks + OthersOf(kinds)) == if OneSettles(kinds) then None else OwedTail(blocks)
  {
    hide OwedTail;
    if |kinds| == 0 {
      assert blocks + OthersOf(kinds) == blocks;
    } else {
      var front, last := kinds[..|kinds| - 1], kinds[|kinds| - 1];
      LandedSettlesExactly(blocks, front);
      OneSettlesByLast(kinds);
      OwedPastAKind(blocks + OthersOf(front), last);
      assert blocks + OthersOf(kinds) == blocks + OthersOf(front) + [Other(last)];
    }
  }

  /** What landed behind the read: the tail it answered stands on exactly when none of
      that settles. */
  lemma LandedOwes(s: Spine, between: seq<BlockType>, after: seq<BlockType>)
    ensures OwedTail(Riding(s, between, after).blocks) ==
            if OneSettles(LandedBehind(s, between, after)) then None else TailRead(s, between)
  {
    var riding, at := Riding(s, between, after).blocks, ReadMoment(s.blocks, between);
    RidingIsFrontAndLanded(s, between, after);
    LandedSettlesExactly(riding[..at], LandedBehind(s, between, after));
  }

  function LandedBehind(s: Spine, between: seq<BlockType>, after: seq<BlockType>): seq<BlockType> {
    (between + after)[ReadMoment(s.blocks, between) - |s.blocks|..]
  }

  predicate OwnDebt(message: Inbound, around: Surroundings) {
    && (message.addressed || (around.helpful && !message.bot))
    && !message.command && message.deletion.None? && around.refusing.None?
  }

  /** After the stamped append a turn is owed exactly when the message took its own debt
      or the tail read owed one. The withheld row leaves the tail where it was; every
      other row carries the debt read on, at the lower standing. A limited row, a command
      and an unsummoned bot cancel nothing. */
  lemma AppendOwes(s: Spine, message: Inbound, around: Surroundings, link: RevisionLink,
                   between: seq<BlockType>, after: seq<BlockType>)
    requires Inv(s) && around.Valid()
    ensures var read := Appended(s, between).blocks;
            var tail := TailRead(s, between);
            var riding := Riding(s, between, after).blocks;
            var written := StampedAppend(s, message, around, link, between, after).blocks;
            && (TailWithheld(message, around) ==> !OwnDebt(message, around) && OwedTail(written) == OwedTail(riding))
            && (!TailWithheld(message, around) ==>
                  && (OwedTail(written).Some? <==> tail.Some? || OwnDebt(message, around))
                  && (OwedTail(written).Some? ==>
                        && OwedTail(written) == Some(|written| - 1)
                        && (tail.Some? ==> tail.value < |read| && read[tail.value].Chat?)
                        && written[|written| - 1].row.debtAuthority == Some(
                             if tail.Some? then Folded(read[tail.value].row.CarriedDebtAuthority(), message.authority)
                             else message.authority)))
            && (OwedTail(riding).Some? ==> OwedTail(written).Some?)
  {
    LandedOwes(s, between, after);
    var riding := Riding(s, between, after).blocks;
    var written := StampedAppend(s, message, around, link, between, after).blocks;
    assert written[..|written| - 1] == riding;
    hide LandedBehind, OneSettles;
    var read, tail := Appended(s, between).blocks, TailRead(s, between);
    if tail.Some? {
      assert read[..ReadMoment(s.blocks, between)][tail.value] == read[tail.value];
    }
  }

  /** The one turn too many: a row comes due over an answered tail, with no debt of its
      own, exactly when the tail read owed one and a settling block landed between that
      read and the row. */
  lemma OnlyALateAnswerSummonsAgain(s: Spine, message: Inbound, around: Surroundings, link: RevisionLink,
                                    between: seq<BlockType>, after: seq<BlockType>)
    requires Inv(s) && around.Valid() && !OwnDebt(message, around)
    ensures OwedTail(Riding(s, between, after).blocks).None?
            && OwedTail(StampedAppend(s, message, around, link, between, after).blocks).Some?
            <==>
            && !TailWithheld(message, around) && TailRead(s, between).Some?
            && OneSettles(LandedBehind(s, between, after))
  {
    AppendOwes(s, message, around, link, between, after);
    LandedOwes(s, between, after);
  }

  /** It happens: behind any standing debt, an answer that commits between the read and
      the row of a command leaves a turn owed that nobody's debt begun. */
  lemma ALateAnswerSummonsAgain(s: Spine, message: Inbound, around: Surroundings, link: RevisionLink)
    requires Inv(s) && around.Valid() && OwedTail(s.blocks).Some?
    requires message.command && !TailWithheld(message, around)
    ensures var answer := [Framework("text")];
            var written := StampedAppend(s, message, around, link, [], answer).blocks;
            && OwedTail(Riding(s, [], answer).blocks).None?
            && OwedTail(written) == Some(|written| - 1) && !written[|written| - 1].row.OwnDebtTaken()
  {
    var answer := [Framework("text")];
    assert Appended(s, []).blocks[..ReadMoment(s.blocks, [])] == s.blocks;
    assert LandedBehind(s, [], answer) == answer && Settling(Other(answer[0]));
    AppendOwes(s, message, around, link, [], answer);
    LandedOwes(s, [], answer);
  }

  /** Erasing rows cancels their own debts and no others: a debt an erased row only
      carried reads through to the live ask behind it. */
  lemma EmptiedOwesExactly(s: Spine, target: Target)
    requires Inv(s)
    ensures OwedTail(Emptied(s, target).blocks).Some? <==>
            exists i: nat :: StandsOwed(s.blocks, i) && !Hits(target, s.blocks[i].row)
  {
    var t := Emptied(s, target);
    EmptiedKeeps(s, target);
    InvStoresRows(t);
    OwedExactly(t.blocks);
    assert forall lo: int, hi: int :: Unsettled(s.blocks, lo, hi) <==> Unsettled(t.blocks, lo, hi);
    forall i: nat ensures StandsOwed(t.blocks, i) <==> StandsOwed(s.blocks, i) && !Hits(target, s.blocks[i].row) {
      if i < |s.blocks| {
        assert t.blocks[i] == EmptiedBlock(s.blocks[i], target);
      }
    }
  }

  /** The message the mirror empties on this write, if it runs. */
  function Mirrored(message: Inbound): Option<string> {
    if message.revises.None? && message.deletion.Some? && message.deletion.value.OfMessage?
    then Some(message.deletion.value.named) else None
  }

  /** The whole ingestion: a turn is owed afterwards exactly when the message took its
      own debt, or a row standing owed before is not the one the mirror emptied and
      nothing that settles landed before the tail was read; for a row composed against no
      tail, before the row was written. */
  lemma IngestionOwesExactly(s: Spine, message: Inbound, around: Surroundings, meanwhile: Meanwhile)
    requires Inv(s) && message.Valid() && around.Valid() && UnderLockReading(s.blocks, message, around).Recorded?
    ensures OwedTail(Ingested(s, message, around, meanwhile).blocks).Some? <==>
            || OwnDebt(message, around)
            || (&& !OneSettles(LandedBefore(s, message, around, meanwhile))
                && exists i: nat ::
                  && StandsOwed(s.blocks, i)
                  && !(Mirrored(message).Some? && s.blocks[i].row.AnswersTo(Mirrored(message).value)))
  {
    hide Inv, StampFits, OwedTail, Compose, RecordedRow, Unsettled, Live, OneSettles, LandedAtTheRead;
    var link := UnderLockReading(s.blocks, message, around).link;
    var reached := Reached(s, message, around, meanwhile);
    ReachedKeeps(s, message, around, meanwhile);
    ReachedOwesExactly(s, message, around, meanwhile);
    AppendOwes(reached, message, around, link, meanwhile.between, meanwhile.after);
    ReadOwes(s, message, around, meanwhile);
    LandedBeforeSettles(s, message, around, meanwhile);
    assert Ingested(s, message, around, meanwhile)
           == StampedAppend(reached, message, around, link, meanwhile.between, meanwhile.after);
  }

  /** What landed between the ledger the deletion reached and the decision: before the
      read, or, where no tail is read, before the row. */
  function LandedAtTheRead(s: Spine, message: Inbound, around: Surroundings, meanwhile: Meanwhile): seq<BlockType> {
    var reached := Reached(s, message, around, meanwhile);
    if TailWithheld(message, around) then meanwhile.between + meanwhile.after
    else meanwhile.between[..ReadMoment(reached.blocks, meanwhile.between) - |reached.blocks|]
  }

  /** Everything that landed before the debts were decided. */
  function LandedBefore(s: Spine, message: Inbound, around: Surroundings, meanwhile: Meanwhile): seq<BlockType> {
    meanwhile.opening + meanwhile.settled + LandedAtTheRead(s, message, around, meanwhile)
  }

  lemma OneSettlesOfTwo(a: seq<BlockType>, b: seq<BlockType>)
    ensures OneSettles(a + b) <==> OneSettles(a) || OneSettles(b)
  {
    if OneSettles(b) {
      var k :| 0 <= k < |b| && b[k].Framework?;
      assert (a + b)[|a| + k] == b[k];
    }
    if OneSettles(a) {
      var k :| 0 <= k < |a| && a[k].Framework?;
      assert (a + b)[k] == a[k];
    }
  }

  lemma LandedBeforeSettles(s: Spine, message: Inbound, around: Surroundings, meanwhile: Meanwhile)
    ensures OneSettles(LandedBefore(s, message, around, meanwhile)) <==>
            || OneSettles(meanwhile.opening) || OneSettles(meanwhile.settled)
            || OneSettles(LandedAtTheRead(s, message, around, meanwhile))
  {
    hide OneSettles, LandedAtTheRead;
    OneSettlesOfTwo(meanwhile.opening + meanwhile.settled, LandedAtTheRead(s, message, around, meanwhile));
    OneSettlesOfTwo(meanwhile.opening, meanwhile.settled);
  }

  /** The tail the decision rests on, against the ledger the deletion reached. */
  lemma ReadOwes(s: Spine, message: Inbound, around: Surroundings, meanwhile: Meanwhile)
    ensures var reached := Reached(s, message, around, meanwhile);
            (if TailWithheld(message, around) then OwedTail(Riding(reached, meanwhile.between, meanwhile.after).blocks)
             else TailRead(reached, meanwhile.between))
            == if OneSettles(LandedAtTheRead(s, message, around, meanwhile)) then None else OwedTail(reached.blocks)
  {
    var reached, read := Reached(s, message, around, meanwhile), LandedAtTheRead(s, message, around, meanwhile);
    hide OwedTail, OneSettles, Reached;
    LandedSettlesExactly(reached.blocks, read);
    if TailWithheld(message, around) {
      assert Riding(reached, meanwhile.between, meanwhile.after).blocks == reached.blocks + OthersOf(read);
    } else {
      var at := ReadMoment(reached.blocks, meanwhile.between);
      assert Appended(reached, meanwhile.between).blocks[..at] == reached.blocks + OthersOf(read);
    }
  }

  /** Up to the tail read: the deletion cancels exactly the debts of the rows it empties,
      and what landed settles everything exactly when one of it settles. */
  lemma ReachedOwesExactly(s: Spine, message: Inbound, around: Surroundings, meanwhile: Meanwhile)
    requires Inv(s)
    ensures OwedTail(Reached(s, message, around, meanwhile).blocks).Some? <==>
            && !OneSettles(meanwhile.opening) && !OneSettles(meanwhile.settled)
            && exists i: nat ::
              && StandsOwed(s.blocks, i)
              && !(Mirrored(message).Some? && s.blocks[i].row.AnswersTo(Mirrored(message).value))
  {
    hide Inv, StampFits, OwedTail, Unsettled, Live, OneSettles;
    DeletionOwesExactly(s, message, around, meanwhile.opening);
    LandedSettlesExactly(Deleted(Appended(s, meanwhile.opening), message, around).blocks, meanwhile.settled);
  }

  /** The recognized deletion cancels exactly the debts of the rows it empties. */
  lemma DeletionOwesExactly(s: Spine, message: Inbound, around: Surroundings, opening: seq<BlockType>)
    requires Inv(s)
    ensures OwedTail(Deleted(Appended(s, opening), message, around).blocks).Some? <==>
            && !OneSettles(opening)
            && exists i: nat ::
              && StandsOwed(s.blocks, i)
              && !(Mirrored(message).Some? && s.blocks[i].row.AnswersTo(Mirrored(message).value))
  {
    hide Inv, StampFits, OwedTail, Unsettled, Live, OneSettles;
    var begun := Appended(s, opening);
    var deleted := Deleted(begun, message, around);
    LandedSettlesExactly(s.blocks, opening);
    InvStoresRows(s);
    OwedExactly(s.blocks);
    if Mirrored(message).Some? {
      var target := Message(Mirrored(message).value);
      EmptiedOwesExactly(s, target);
      LandedSettlesExactly(Emptied(s, target).blocks, opening);
      assert deleted.blocks == Emptied(s, target).blocks + OthersOf(opening);
    } else if deleted != begun {
      LandedSettlesExactly(begun.blocks, [Retraction]);
      RetractionSettlesNothing();
    }
  }

  lemma RetractionSettlesNothing()
    ensures !OneSettles([Retraction])
  {
  }

  // ─── Where a debt comes from ───────────────────────────────────────────

  /** The rows one debt passed through: each composed against the next. */
  ghost function Chain(s: Spine, i: nat): (chain: seq<nat>)
    ensures |chain| > 0 && chain[0] == i
  {
    if i < |s.stampings| && s.stampings[i].Read? && s.stampings[i].tail.Some? && s.stampings[i].tail.value < i
    then [i] + Chain(s, s.stampings[i].tail.value)
    else [i]
  }

  /** What one chain row contributes: its sender's standing, or what a row of an
      earlier build carries. */
  ghost function Contribution(s: Spine, i: nat): Authority
    requires i < |s.blocks| == |s.stampings| && s.blocks[i].Chat? && s.blocks[i].row.authority.Some?
  {
    if s.stampings[i].History? then s.blocks[i].row.CarriedDebtAuthority().value else s.blocks[i].row.authority.value
  }

  ghost predicate ChainOfRows(s: Spine, chain: seq<nat>) {
    && |s.blocks| == |s.stampings|
    && forall k | 0 <= k < |chain| ::
      chain[k] < |s.blocks| && s.blocks[chain[k]].Chat? && s.blocks[chain[k]].row.authority.Some?
  }

  ghost function LowestAlong(s: Spine, chain: seq<nat>): (lowest: Authority)
    requires |chain| > 0 && ChainOfRows(s, chain)
    ensures exists k | 0 <= k < |chain| :: lowest == Contribution(s, chain[k])
    ensures forall k | 0 <= k < |chain| :: Rank(lowest) <= Rank(Contribution(s, chain[k]))
  {
    if |chain| == 1 then Contribution(s, chain[0])
    else
      var rest := LowestAlong(s, chain[1..]);
      var first := Contribution(s, chain[0]);
      assert forall k | 1 <= k < |chain| :: chain[k] == chain[1..][k - 1];
      Lower(rest, first)
  }

  /** No settling block landed between the read a row's stamp was taken at and the row. */
  ghost predicate QuietLink(s: Spine, i: nat)
    requires i < |s.blocks| == |s.stampings|
  {
    s.stampings[i].Read? ==> Unsettled(s.blocks, s.stampings[i].readAt as int - 1, i)
  }

  /** At the read a later row's stamp was taken at, nothing had settled an earlier row. */
  ghost predicate OwedAtTheRead(s: Spine, later: nat, earlier: nat)
    requires later < |s.blocks| == |s.stampings|
  {
    && s.stampings[later].Read? && earlier < s.stampings[later].readAt <= later
    && Unsettled(s.blocks, earlier, s.stampings[later].readAt)
  }

  /** Every due row traces back, through due rows each owed when the next was composed
      against it, to one that took its own debt or that an earlier build left. A settling
      block stands between the row and its origin exactly where one landed between some
      link's read and its row. */
  lemma {:induction false} EveryDebtHasAnOrigin(s: Spine, i: nat)
    requires Inv(s) && i < |s.blocks| && s.blocks[i].Chat? && s.blocks[i].row.answerDue == Some(true)
    ensures ChainOfRows(s, Chain(s, i))
    ensures var chain := Chain(s, i);
            var origin := chain[|chain| - 1];
            && (forall k | 0 <= k < |chain| :: s.blocks[chain[k]].row.answerDue == Some(true))
            && (forall k | 0 <= k < |chain| - 1 :: OwedAtTheRead(s, chain[k], chain[k + 1]))
            && origin <= i
            && (s.stampings[origin].History? || s.blocks[origin].row.OwnDebtTaken())
            && (Unsettled(s.blocks, origin, i) <==> forall k | 0 <= k < |chain| - 1 :: QuietLink(s, chain[k]))
  {
    assert StampFits(s, i);
    if s.stampings[i].Read? && s.stampings[i].tail.Some? {
      var tail, readAt := s.stampings[i].tail.value, s.stampings[i].readAt;
      EveryDebtHasAnOrigin(s, tail);
      var chain, rest := Chain(s, i), Chain(s, tail);
      var origin := rest[|rest| - 1];
      assert chain == [i] + rest;
      UnsettledByStretches(s.blocks, origin, tail, readAt, i);
      hide StampFits, Unsettled;
      assert forall k | 0 < k < |chain| :: chain[k] == rest[k - 1];
      QuietLinksByFirst(s, i, rest);
    }
  }

  lemma UnsettledByStretches(blocks: seq<Block>, origin: nat, tail: nat, readAt: nat, i: nat)
    requires origin <= tail < readAt <= i <= |blocks| && blocks[tail].Chat? && Unsettled(blocks, tail, readAt)
    ensures Unsettled(blocks, origin, i) <==> Unsettled(blocks, origin, tail) && Unsettled(blocks, readAt as int - 1, i)
  {
    assert !Settling(blocks[tail]);
  }

  lemma QuietLinksByFirst(s: Spine, i: nat, rest: seq<nat>)
    requires |rest| > 0 && i < |s.blocks| == |s.stampings| && forall k | 0 <= k < |rest| :: rest[k] < |s.blocks|
    ensures (forall k | 0 <= k < |rest| :: QuietLink(s, ([i] + rest)[k])) <==>
            QuietLink(s, i) && forall k | 0 <= k < |rest| - 1 :: QuietLink(s, rest[k])
  {
    var chain := [i] + rest;
    assert chain[0] == i && forall k | 0 < k <= |rest| :: chain[k] == rest[k - 1];
    if forall k | 0 <= k < |rest| :: QuietLink(s, chain[k]) {
      forall k | 0 <= k < |rest| - 1 ensures QuietLink(s, rest[k]) { assert QuietLink(s, chain[k + 1]); }
    }
  }

  /** The lowest of a chain is a plain member's wherever one contributes to it, and an
      administrator's only where nobody else does. */
  lemma LowestSpeaks(s: Spine, chain: seq<nat>)
    requires |chain| > 0 && ChainOfRows(s, chain)
    ensures LowestAlong(s, chain) == Member <==> exists k | 0 <= k < |chain| :: Contribution(s, chain[k]) == Member
    ensures LowestAlong(s, chain) == Admin <==> forall k | 0 <= k < |chain| :: Contribution(s, chain[k]) == Admin
  {
    var lowest := LowestAlong(s, chain);
    var k :| 0 <= k < |chain| && lowest == Contribution(s, chain[k]);
    hide Contribution;
  }

  /** A due row's authority is the lowest contribution along its whole chain: a plain
      member's wherever one stands in it, an administrator's only where nobody else does. */
  lemma {:induction false} AuthorityIsTheLowestAlongTheChain(s: Spine, i: nat)
    requires Inv(s) && i < |s.blocks| && s.blocks[i].Chat? && s.blocks[i].row.answerDue == Some(true)
    ensures ChainOfRows(s, Chain(s, i))
    ensures var chain, carried := Chain(s, i), s.blocks[i].row.CarriedDebtAuthority();
            && carried == Some(LowestAlong(s, chain))
            && (carried == Some(Member) <==> exists k | 0 <= k < |chain| :: Contribution(s, chain[k]) == Member)
            && (carried == Some(Admin) <==> forall k | 0 <= k < |chain| :: Contribution(s, chain[k]) == Admin)
  {
    CarriesTheLowest(s, i);
    LowestSpeaks(s, Chain(s, i));
    hide Inv, ChainOfRows, Chain, LowestAlong, Contribution;
  }

  lemma {:induction false} CarriesTheLowest(s: Spine, i: nat)
    requires Inv(s) && i < |s.blocks| && s.blocks[i].Chat? && s.blocks[i].row.answerDue == Some(true)
    ensures ChainOfRows(s, Chain(s, i))
    ensures s.blocks[i].row.CarriedDebtAuthority() == Some(LowestAlong(s, Chain(s, i)))
  {
    EveryDebtHasAnOrigin(s, i);
    assert StampFits(s, i);
    if s.stampings[i].Read? && s.stampings[i].tail.Some? {
      var tail := s.stampings[i].tail.value;
      CarriesTheLowest(s, tail);
      assert Chain(s, i)[1..] == Chain(s, tail);
    }
  }

  /** No later write and no erasure, of a chain row included, moves a debt's chain
      or raises its authority. */
  lemma {:induction false} ChainsAreForever(s: Spine, events: seq<Event>, i: nat)
    requires Inv(s) && i < |s.blocks| && s.blocks[i].Chat? && s.blocks[i].row.answerDue == Some(true)
    requires forall k | 0 <= k < |events| :: events[k].Valid()
    ensures var t := Run(s, events);
            && Chain(t, i) == Chain(s, i)
            && i < |t.blocks| && t.blocks[i].Chat?
            && t.blocks[i].row.CarriedDebtAuthority() == s.blocks[i].row.CarriedDebtAuthority()
            && ChainOfRows(s, Chain(s, i))
            && t.blocks[i].row.CarriedDebtAuthority() == Some(LowestAlong(s, Chain(s, i)))
  {
    EveryRunKeeps(s, events);
    SameChain(s, Run(s, events), i);
    AuthorityIsTheLowestAlongTheChain(s, i);
  }

  lemma {:induction false} SameChain(s: Spine, t: Spine, i: nat)
    requires Grows(s, t) && i < |s.blocks|
    ensures Chain(t, i) == Chain(s, i)
  {
    if s.stampings[i].Read? && s.stampings[i].tail.Some? && s.stampings[i].tail.value < i {
      SameChain(s, t, s.stampings[i].tail.value);
    }
  }

  // ─── Handles ───────────────────────────────────────────────────────────

  ghost predicate HandlesAreStorable(blocks: seq<Block>) {
    forall i | 0 <= i < |blocks| && blocks[i].Chat? && blocks[i].row.speaker.Some? ::
      !Blurs(blocks[i].row.speaker.value)
  }

  lemma EmptyingStoresStorableHandles(s: Spine, target: Target)
    requires HandlesAreStorable(s.blocks)
    ensures HandlesAreStorable(Emptied(s, target).blocks)
  {
  }

  lemma IngestionStoresStorableHandles(s: Spine, message: Inbound, around: Surroundings, meanwhile: Meanwhile)
    requires HandlesAreStorable(s.blocks)
    ensures HandlesAreStorable(Ingested(s, message, around, meanwhile).blocks)
  {
    var begun := Appended(s, meanwhile.opening);
    assert HandlesAreStorable(begun.blocks);
    if Mirrored(message).Some? {
      EmptyingStoresStorableHandles(begun, Message(Mirrored(message).value));
    }
    assert HandlesAreStorable(Reached(s, message, around, meanwhile).blocks) by { hide Emptied; }
    if message.speaker.Some? {
      BlursExactly(message.speaker.value);
    }
    hide Reached, UnderLockReading, StampOf, StorableSpeaker, Blurs, TailRead, ReadMoment;
  }

  lemma NextStoresStorableHandles(s: Spine, event: Event)
    requires HandlesAreStorable(s.blocks)
    ensures HandlesAreStorable(Next(s, event).blocks)
  {
    hide Ingested, Emptied;
    match event
    case Said(message, around, meanwhile) => IngestionStoresStorableHandles(s, message, around, meanwhile);
    case Wrote(kinds) =>
    case PersonErased(principalId) => EmptyingStoresStorableHandles(s, Person(principalId));
    case MessageErased(named) => EmptyingStoresStorableHandles(s, Message(named));
  }

  /** No run ever stores a handle that could blur the projected prefix. */
  lemma {:induction false} EveryRunStoresStorableHandles(s: Spine, events: seq<Event>)
    requires HandlesAreStorable(s.blocks)
    ensures HandlesAreStorable(Run(s, events).blocks)
    decreases |events|
  {
    if |events| > 0 {
      NextStoresStorableHandles(s, events[0]);
      hide Next, HandlesAreStorable;
      EveryRunStoresStorableHandles(Next(s, events[0]), events[1..]);
    }
  }
}
