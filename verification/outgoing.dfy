/** Filed sends and their one settlement: the tool body's idempotence, the receipt door,
    the startup sweep and the retirement, over the framework's resolve-once door. */
module Outgoing {
  import opened Vocabulary

  /** A ledger block as this reading needs it. An outcome names the call it answers. */
  datatype Body = Call | Outcome(call: int, success: bool) | OutgoingMessage(callBlock: Option<int>) | AnythingElse

  datatype Block = Block(id: int, body: Body)

  /** One conversation's blocks, and the id the store issues next. */
  datatype Books = Books(blocks: seq<Block>, next: int)

  // ─── The readings ──────────────────────────────────────────────────────

  /** The first block under an id, when it is a recorded call. */
  predicate HoldsCall(blocks: seq<Block>, call: int) {
    |blocks| > 0 && if blocks[0].id == call then blocks[0].body.Call? else HoldsCall(blocks[1..], call)
  }

  /** The framework's pairing: the first outcome recorded for the call's block. */
  function OutcomeOf(blocks: seq<Block>, call: int): Option<bool> {
    if |blocks| == 0 then None
    else if blocks[0].body.Outcome? && blocks[0].body.call == call then Some(blocks[0].body.success)
    else OutcomeOf(blocks[1..], call)
  }

  datatype SendState = Pending | Delivered | Failed

  /** What became of the send one call filed; a call the ledger no longer holds reads
      pending. */
  function SendStateOf(blocks: seq<Block>, call: int): SendState {
    if !HoldsCall(blocks, call) then Pending
    else match OutcomeOf(blocks, call)
      case Some(true) => Delivered
      case Some(false) => Failed
      case None => Pending
  }

  /** The calls of every filed send, oldest first; a row naming no call is skipped. */
  function FiledSends(blocks: seq<Block>): seq<int> {
    if |blocks| == 0 then []
    else match blocks[0].body
      case OutgoingMessage(Some(call)) => [call] + FiledSends(blocks[1..])
      case _ => FiledSends(blocks[1..])
  }

  predicate SendOfCall(blocks: seq<Block>, call: int) {
    call in FiledSends(blocks)
  }

  function PendingAmong(blocks: seq<Block>, calls: seq<int>): seq<int> {
    if |calls| == 0 then []
    else if SendStateOf(blocks, calls[0]).Pending? then [calls[0]] + PendingAmong(blocks, calls[1..])
    else PendingAmong(blocks, calls[1..])
  }

  /** The filed sends whose call the ledger does not hold: no pass ever settles them. */
  function UnheldAmong(blocks: seq<Block>, calls: seq<int>): seq<int> {
    if |calls| == 0 then []
    else if HoldsCall(blocks, calls[0]) then UnheldAmong(blocks, calls[1..])
    else [calls[0]] + UnheldAmong(blocks, calls[1..])
  }

  function BlocksOf(ledgers: map<int, seq<Block>>, conversation: int): seq<Block> {
    if conversation in ledgers then ledgers[conversation] else []
  }

  /** What the startup sweep counts, read off the ledgers as it found them: each mapped
      conversation's pending sends the first time it comes up, and those no pass settles
      every further time. */
  function SweepCount(ledgers: map<int, seq<Block>>, mapped: seq<int>): nat {
    if |mapped| == 0 then 0
    else
      var earlier, blocks := mapped[..|mapped| - 1], BlocksOf(ledgers, mapped[|mapped| - 1]);
      SweepCount(ledgers, earlier)
      + if mapped[|mapped| - 1] in earlier then |UnheldAmong(blocks, FiledSends(blocks))|
        else |PendingAmong(blocks, FiledSends(blocks))|
  }

  // ─── The readings, by position ─────────────────────────────────────────

  /** The first block under the id is at this position, and is a recorded call. */
  ghost predicate CallAt(blocks: seq<Block>, call: int, i: nat) {
    && i < |blocks| && blocks[i].id == call && blocks[i].body.Call?
    && forall j | 0 <= j < i :: blocks[j].id != call
  }

  ghost predicate CallStands(blocks: seq<Block>, call: int) {
    exists i: nat :: CallAt(blocks, call, i)
  }

  ghost predicate OutcomeAt(blocks: seq<Block>, call: int, i: nat) {
    i < |blocks| && blocks[i].body.Outcome? && blocks[i].body.call == call
  }

  ghost predicate FirstOutcomeAt(blocks: seq<Block>, call: int, i: nat) {
    OutcomeAt(blocks, call, i) && forall j: nat | j < i :: !OutcomeAt(blocks, call, j)
  }

  ghost predicate Answered(blocks: seq<Block>, call: int) {
    exists i: nat :: OutcomeAt(blocks, call, i)
  }

  ghost predicate SendAt(blocks: seq<Block>, call: int, i: nat) {
    i < |blocks| && blocks[i].body == OutgoingMessage(Some(call))
  }

  ghost predicate SendStands(blocks: seq<Block>, call: int) {
    exists i: nat :: SendAt(blocks, call, i)
  }

  /** A filed send whose call is gone, or stands with no outcome. */
  ghost predicate PendingAt(blocks: seq<Block>, i: nat) {
    && i < |blocks| && blocks[i].body.OutgoingMessage? && blocks[i].body.callBlock.Some?
    && var call := blocks[i].body.callBlock.value;
    !(CallStands(blocks, call) && Answered(blocks, call))
  }

  ghost function PendingPositions(blocks: seq<Block>): set<nat> {
    set i: nat | i < |blocks| && PendingAt(blocks, i)
  }

  lemma {:induction false} HeldExactly(blocks: seq<Block>, call: int)
    ensures HoldsCall(blocks, call) <==> CallStands(blocks, call)
  {
    if |blocks| > 0 {
      HeldExactly(blocks[1..], call);
      if blocks[0].id == call {
        assert blocks[0].body.Call? ==> CallAt(blocks, call, 0);
      } else {
        if i: nat :| CallAt(blocks[1..], call, i) {
          assert forall j | 0 < j <= i :: blocks[j] == blocks[1..][j - 1];
          assert CallAt(blocks, call, i + 1);
        }
        if i: nat :| CallAt(blocks, call, i) {
          assert forall j | 0 < j <= i :: blocks[j] == blocks[1..][j - 1];
          assert CallAt(blocks[1..], call, i - 1);
        }
      }
    }
  }

  lemma {:induction false} AnsweredExactly(blocks: seq<Block>, call: int)
    ensures OutcomeOf(blocks, call).Some? <==> Answered(blocks, call)
    ensures forall i: nat | FirstOutcomeAt(blocks, call, i) :: OutcomeOf(blocks, call) == Some(blocks[i].body.success)
  {
    if |blocks| > 0 {
      var rest := blocks[1..];
      AnsweredExactly(rest, call);
      assert forall i: nat :: OutcomeAt(rest, call, i) <==> OutcomeAt(blocks, call, i + 1);
      assert forall i: nat | OutcomeAt(blocks, call, i) && i > 0 :: OutcomeAt(rest, call, i - 1);
      assert blocks[0].body.Outcome? && blocks[0].body.call == call <==> OutcomeAt(blocks, call, 0);
      forall i: nat | FirstOutcomeAt(blocks, call, i)
        ensures OutcomeOf(blocks, call) == Some(blocks[i].body.success)
      {
        if i > 0 {
          assert !OutcomeAt(blocks, call, 0) && OutcomeAt(rest, call, i - 1);
          forall j: nat | j < i - 1 ensures !OutcomeAt(rest, call, j) {
            assert !OutcomeAt(blocks, call, j + 1);
          }
        }
      }
    }
  }

  /** A send reads pending while its call is gone or has no outcome, and then for good what
      the first outcome says. */
  lemma SendStateExactly(blocks: seq<Block>, call: int)
    ensures SendStateOf(blocks, call).Pending? <==> !(CallStands(blocks, call) && Answered(blocks, call))
    ensures forall i: nat | CallStands(blocks, call) && FirstOutcomeAt(blocks, call, i) ::
              SendStateOf(blocks, call) == if blocks[i].body.success then Delivered else Failed
  {
    HeldExactly(blocks, call);
    AnsweredExactly(blocks, call);
    hide HoldsCall, OutcomeOf, CallStands;
  }

  lemma {:induction false} FiledExactly(blocks: seq<Block>, call: int)
    ensures call in FiledSends(blocks) <==> SendStands(blocks, call)
  {
    if |blocks| > 0 {
      var rest := blocks[1..];
      FiledExactly(rest, call);
      assert forall i: nat :: SendAt(rest, call, i) <==> SendAt(blocks, call, i + 1);
      assert forall i: nat | SendAt(blocks, call, i) && i > 0 :: SendAt(rest, call, i - 1);
      assert blocks[0].body == OutgoingMessage(Some(call)) <==> SendAt(blocks, call, 0);
    }
  }

  // ─── The writes ────────────────────────────────────────────────────────

  function Appended(books: Books, body: Body): Books {
    Books(books.blocks + [Block(books.next, body)], books.next + 1)
  }

  /** The framework's one door: it appends an outcome for a call it holds that has none,
      and nothing otherwise. */
  datatype Resolution = Resolved | AlreadySettled | NoSuchToolCall

  function Resolve(books: Books, call: int, success: bool): (Books, Resolution) {
    if !HoldsCall(books.blocks, call) then (books, NoSuchToolCall)
    else if OutcomeOf(books.blocks, call).Some? then (books, AlreadySettled)
    else (Appended(books, Outcome(call, success)), Resolved)
  }

  function Settled(books: Books, call: int, success: bool): Books {
    Resolve(books, call, success).0
  }

  /** The tool body's filing: a call re-run finds its own block and files no second. */
  function Filed(books: Books, call: int): Books {
    if SendOfCall(books.blocks, call) then books else Appended(books, OutgoingMessage(Some(call)))
  }

  function AllFailed(books: Books, calls: seq<int>): Books
    decreases |calls|
  {
    if |calls| == 0 then books else AllFailed(Settled(books, calls[0], false), calls[1..])
  }

  /** The settling pass over one conversation, decided on the ledger it loaded once. */
  function Swept(books: Books): Books {
    AllFailed(books, PendingAmong(books.blocks, FiledSends(books.blocks)))
  }

  // ─── The store, updated in place ───────────────────────────────────────

  datatype SendOutcome = WholeSend | FailedSend

  class SendStore {
    var ledgers: map<int, seq<Block>>
    var next: int
    var stops: seq<int>

    function BooksOf(conversation: int): Books
      reads this
    {
      Books(BlocksOf(ledgers, conversation), next)
    }

    method Append(conversation: int, body: Body)
      modifies this`ledgers, this`next
      ensures BooksOf(conversation) == Appended(old(BooksOf(conversation)), body)
      ensures forall c | c != conversation :: BooksOf(c).blocks == old(BooksOf(c).blocks)
    {
      ledgers := ledgers[conversation := BooksOf(conversation).blocks + [Block(next, body)]];
      next := next + 1;
    }

    method ResolveToolCall(conversation: int, call: int, success: bool) returns (resolution: Resolution)
      modifies this`ledgers, this`next
      ensures (BooksOf(conversation), resolution) == Resolve(old(BooksOf(conversation)), call, success)
      ensures var was := old(BooksOf(conversation));
              && (resolution == NoSuchToolCall <==> !CallStands(was.blocks, call))
              && (resolution == AlreadySettled <==> CallStands(was.blocks, call) && Answered(was.blocks, call))
              && BooksOf(conversation) ==
                 if resolution.Resolved?
                 then Books(was.blocks + [Block(was.next, Outcome(call, success))], was.next + 1) else was
      ensures forall c | c != conversation :: BooksOf(c).blocks == old(BooksOf(c).blocks)
    {
      var blocks := BooksOf(conversation).blocks;
      HeldExactly(blocks, call);
      AnsweredExactly(blocks, call);
      if !HoldsCall(blocks, call) {
        return NoSuchToolCall;
      }
      if OutcomeOf(blocks, call).Some? {
        return AlreadySettled;
      }
      Append(conversation, Outcome(call, success));
      resolution := Resolved;
    }

    method Settle(conversation: int, call: int, success: bool)
      modifies this`ledgers, this`next
      ensures BooksOf(conversation) == Settled(old(BooksOf(conversation)), call, success)
      ensures forall c | c != conversation :: BooksOf(c).blocks == old(BooksOf(c).blocks)
    {
      var _ := ResolveToolCall(conversation, call, success);
    }

    /** The receipt door's settlement: one stop for the cue, then the call's outcome. */
    method ReportDelivery(conversation: int, call: Option<int>, outcome: SendOutcome)
      modifies this
      ensures call.None? ==> BooksOf(conversation) == old(BooksOf(conversation)) && stops == old(stops)
      ensures call.Some? ==>
                && BooksOf(conversation) == Settled(old(BooksOf(conversation)), call.value, outcome.WholeSend?)
                && stops == old(stops) + [conversation]
      ensures forall c | c != conversation :: BooksOf(c).blocks == old(BooksOf(c).blocks)
    {
      if call.None? {
        return;
      }
      stops := stops + [conversation];
      Settle(conversation, call.value, outcome.WholeSend?);
    }

    /** Fail every send whose call is unresolved, counting the sends it decided on. */
    method FailPendingSends(conversation: int) returns (settled: nat)
      modifies this`ledgers, this`next
      ensures BooksOf(conversation) == Swept(old(BooksOf(conversation)))
      ensures settled == |PendingAmong(old(BooksOf(conversation).blocks),
                                       FiledSends(old(BooksOf(conversation).blocks)))|
                      == |PendingPositions(old(BooksOf(conversation).blocks))|
      ensures forall c | c != conversation :: BooksOf(c).blocks == old(BooksOf(c).blocks)
    {
      var ledger := BooksOf(conversation).blocks;
      ghost var was := BooksOf(conversation);
      var sends := FiledSends(ledger);
      ghost var pending := PendingAmong(ledger, sends);
      PendingCounted(ledger);
      settled := 0;
      for i := 0 to |sends|
        invariant |pending| == settled + |PendingAmong(ledger, sends[i..])|
        invariant Swept(was) == AllFailed(BooksOf(conversation), PendingAmong(ledger, sends[i..]))
        invariant forall c | c != conversation :: BooksOf(c).blocks == old(BooksOf(c).blocks)
      {
        assert sends[i..][1..] == sends[i + 1..];
        if SendStateOf(ledger, sends[i]) != Pending {
          continue;
        }
        assert PendingAmong(ledger, sends[i..])[1..] == PendingAmong(ledger, sends[i + 1..]);
        Settle(conversation, sends[i], false);
        settled := settled + 1;
      }
    }

    /** The startup sweep, over every mapped conversation, a conversation two channels
        are mapped to included, and the total its passes counted. */
    method FailUnfinishedSends(mapped: seq<int>) returns (settled: nat)
      modifies this`ledgers, this`next
      ensures forall c | c in mapped :: SweptTo(old(BooksOf(c).blocks), BooksOf(c).blocks)
      ensures forall c | c !in mapped :: BooksOf(c).blocks == old(BooksOf(c).blocks)
      ensures settled == SweepCount(old(ledgers), mapped)
    {
      hide SweptTo, Swept, FiledSends, PendingAmong, UnheldAmong;
      settled := 0;
      for i := 0 to |mapped|
        invariant forall c | c in mapped[..i] :: SweptTo(old(BooksOf(c).blocks), BooksOf(c).blocks)
        invariant forall c | c !in mapped[..i] :: BooksOf(c).blocks == old(BooksOf(c).blocks)
        invariant settled == SweepCount(old(ledgers), mapped[..i])
      {
        var conversation := mapped[i];
        ghost var before := BooksOf(conversation);
        var failed := FailPendingSends(conversation);
        settled := settled + failed;
        assert mapped[..i + 1] == mapped[..i] + [conversation];
        assert mapped[..i + 1][..i] == mapped[..i];
        if conversation in mapped[..i] {
          CountedOnceMore(old(BooksOf(conversation).blocks), before.blocks);
          SweptOnceMore(old(BooksOf(conversation).blocks), before);
        } else {
          OnePass(before);
        }
      }
      assert mapped[..|mapped|] == mapped;
    }
  }

  /** One pass over a ledger, whatever ids the store issued by then. */
  ghost predicate SweptTo(before: seq<Block>, after: seq<Block>) {
    exists next :: Swept(Books(before, next)).blocks == after
  }

  lemma OnePass(books: Books)
    ensures SweptTo(books.blocks, Swept(books).blocks)
  {
  }

  lemma {:induction false} PendingAreUnheld(before: seq<Block>, after: seq<Block>, calls: seq<int>)
    requires forall k | 0 <= k < |calls| :: SendStateOf(after, calls[k]).Pending? <==> !HoldsCall(before, calls[k])
    ensures PendingAmong(after, calls) == UnheldAmong(before, calls)
  {
    if |calls| > 0 {
      PendingAreUnheld(before, after, calls[1..]);
    }
  }

  /** A further pass counts exactly the sends whose call was never held. */
  lemma CountedOnceMore(before: seq<Block>, after: seq<Block>)
    requires SweptTo(before, after)
    ensures |PendingAmong(after, FiledSends(after))| == |UnheldAmong(before, FiledSends(before))|
  {
    var next :| Swept(Books(before, next)).blocks == after;
    SweptReads(Books(before, next));
    FailingAllReads(Books(before, next), PendingAmong(before, FiledSends(before)), 0);
    var sends := FiledSends(before);
    assert FiledSends(after) == sends;
    forall k | 0 <= k < |sends| ensures SendStateOf(after, sends[k]).Pending? <==> !HoldsCall(before, sends[k]) {
      FailingAllReads(Books(before, next), PendingAmong(before, sends), sends[k]);
      assert sends[k] in FiledSends(after);
    }
    PendingAreUnheld(before, after, sends);
  }

  lemma SweptOnceMore(before: seq<Block>, books: Books)
    requires SweptTo(before, books.blocks)
    ensures Swept(books) == books
  {
    var next :| Swept(Books(before, next)).blocks == books.blocks;
    SweptReads(Books(before, next));
    NothingPendingIsIdle(books);
  }

  /** So after the sweep no mapped conversation has a pending send whose call it holds,
      what was recorded stands, and a conversation with nothing pending is untouched. */
  lemma SweptToLeaves(before: seq<Block>, after: seq<Block>)
    requires SweptTo(before, after)
    ensures NothingPending(after) && before <= after
    ensures NothingPending(before) ==> after == before
    ensures forall later | SweptTo(after, later) :: later == after
  {
    var next :| Swept(Books(before, next)).blocks == after;
    SweptReads(Books(before, next));
    if NothingPending(before) {
      NothingPendingIsIdle(Books(before, next));
    }
    forall later | SweptTo(after, later) ensures later == after {
      var n :| Swept(Books(after, n)).blocks == later;
      NothingPendingIsIdle(Books(after, n));
    }
  }

  // ─── What a tool body files ────────────────────────────────────────────

  /** A body files its call's send exactly once: the first run appends it, and any re-run
      finds it and appends nothing. */
  lemma ACallFilesOnce(books: Books, call: int)
    ensures var after := Filed(books, call);
            && after == (if SendStands(books.blocks, call) then books
                         else Books(books.blocks + [Block(books.next, OutgoingMessage(Some(call)))], books.next + 1))
            && SendStands(after.blocks, call) && Filed(after, call) == after
  {
    var after := Filed(books, call);
    FiledExactly(books.blocks, call);
    FiledExactly(after.blocks, call);
    if !SendStands(books.blocks, call) {
      assert SendAt(after.blocks, call, |books.blocks|);
    }
    hide FiledSends;
  }

  // ─── What a settlement leaves ──────────────────────────────────────────

  /** No send is pending whose call the ledger holds. */
  ghost predicate NothingPending(blocks: seq<Block>) {
    forall call | call in FiledSends(blocks) && HoldsCall(blocks, call) :: OutcomeOf(blocks, call).Some?
  }

  lemma {:induction false} AppendReadings(blocks: seq<Block>, block: Block, call: int)
    ensures OutcomeOf(blocks + [block], call) ==
            if OutcomeOf(blocks, call).Some? then OutcomeOf(blocks, call)
            else if block.body.Outcome? && block.body.call == call then Some(block.body.success) else None
    ensures HoldsCall(blocks, call) ==> HoldsCall(blocks + [block], call)
    ensures !block.body.Call? || block.id != call ==> HoldsCall(blocks + [block], call) == HoldsCall(blocks, call)
    ensures FiledSends(blocks + [block]) ==
            FiledSends(blocks)
            + (if block.body.OutgoingMessage? && block.body.callBlock.Some? then [block.body.callBlock.value] else [])
  {
    if |blocks| > 0 {
      assert (blocks + [block])[1..] == blocks[1..] + [block];
      AppendReadings(blocks[1..], block, call);
    } else {
      assert (blocks + [block])[1..] == [];
    }
  }

  lemma SettlingMoves(books: Books, call: int, success: bool, other: int)
    ensures var after := Settled(books, call, success).blocks;
            && FiledSends(after) == FiledSends(books.blocks)
            && HoldsCall(after, other) == HoldsCall(books.blocks, other)
            && OutcomeOf(after, other) ==
               (if other == call && HoldsCall(books.blocks, call) && OutcomeOf(books.blocks, call).None?
                then Some(success)
                else OutcomeOf(books.blocks, other))
            && books.blocks <= after
  {
    AppendReadings(books.blocks, Block(books.next, Outcome(call, success)), other);
  }

  /** A settlement appends its call's outcome exactly where the call stands with none, and
      changes the reading of no other. */
  lemma SettlingReads(books: Books, call: int, success: bool, other: int)
    ensures var after := Settled(books, call, success);
            && after == (if CallStands(books.blocks, call) && !Answered(books.blocks, call)
                         then Books(books.blocks + [Block(books.next, Outcome(call, success))], books.next + 1)
                         else books)
            && (CallStands(after.blocks, other) <==> CallStands(books.blocks, other))
            && (SendStands(after.blocks, other) <==> SendStands(books.blocks, other))
            && (Answered(after.blocks, other) <==>
                  Answered(books.blocks, other) || (other == call && CallStands(books.blocks, call)))
  {
    var after := Settled(books, call, success);
    SettlingMoves(books, call, success, other);
    HeldExactly(books.blocks, call);
    AnsweredExactly(books.blocks, call);
    ReadingsExactly(books.blocks, other);
    ReadingsExactly(after.blocks, other);
    hide HoldsCall, OutcomeOf, FiledSends, CallStands, Answered, SendStands;
  }

  lemma ReadingsExactly(blocks: seq<Block>, call: int)
    ensures HoldsCall(blocks, call) <==> CallStands(blocks, call)
    ensures OutcomeOf(blocks, call).Some? <==> Answered(blocks, call)
    ensures call in FiledSends(blocks) <==> SendStands(blocks, call)
  {
    HeldExactly(blocks, call);
    AnsweredExactly(blocks, call);
    FiledExactly(blocks, call);
  }

  lemma {:induction false} FailingAllReads(books: Books, calls: seq<int>, other: int)
    ensures var after := AllFailed(books, calls).blocks;
            && FiledSends(after) == FiledSends(books.blocks)
            && HoldsCall(after, other) == HoldsCall(books.blocks, other)
            && OutcomeOf(after, other) ==
               (if other in calls && HoldsCall(books.blocks, other) && OutcomeOf(books.blocks, other).None?
                then Some(false)
                else OutcomeOf(books.blocks, other))
            && books.blocks <= after
    decreases |calls|
  {
    if |calls| > 0 {
      SettlingMoves(books, calls[0], false, other);
      FailingAllReads(Settled(books, calls[0], false), calls[1..], other);
      assert calls == [calls[0]] + calls[1..];
    }
  }

  lemma {:induction false} PendingAmongExactly(blocks: seq<Block>, calls: seq<int>, call: int)
    ensures call in PendingAmong(blocks, calls) <==> call in calls && SendStateOf(blocks, call).Pending?
  {
    if |calls| > 0 {
      PendingAmongExactly(blocks, calls[1..], call);
    }
  }

  lemma SweptReads(books: Books)
    ensures var after := Swept(books).blocks;
            && NothingPending(after) && books.blocks <= after
            && forall call :: OutcomeOf(after, call) ==
                 if && call in FiledSends(books.blocks) && HoldsCall(books.blocks, call)
                    && OutcomeOf(books.blocks, call).None?
                 then Some(false) else OutcomeOf(books.blocks, call)
  {
    var pending := PendingAmong(books.blocks, FiledSends(books.blocks));
    forall call ensures
      && (call in FiledSends(Swept(books).blocks) <==> call in FiledSends(books.blocks))
      && HoldsCall(Swept(books).blocks, call) == HoldsCall(books.blocks, call)
      && OutcomeOf(Swept(books).blocks, call) ==
         if call in FiledSends(books.blocks) && HoldsCall(books.blocks, call) && OutcomeOf(books.blocks, call).None?
         then Some(false) else OutcomeOf(books.blocks, call)
    {
      FailingAllReads(books, pending, call);
      PendingAmongExactly(books.blocks, FiledSends(books.blocks), call);
    }
    FailingAllReads(books, pending, 0);
  }

  /** After the pass every filed send whose call stands has an outcome: a failure where it
      had none, whatever was recorded where it had one; and nobody else's call is answered
      by it. */
  lemma SweepLeavesNothingPending(books: Books, call: int)
    ensures var before, after := books.blocks, Swept(books).blocks;
            && before <= after
            && (Answered(after, call) <==>
                  Answered(before, call) || (SendStands(before, call) && CallStands(before, call)))
            && (forall i: nat | FirstOutcomeAt(after, call, i) ::
                  if Answered(before, call) then FirstOutcomeAt(before, call, i) && after[i] == before[i]
                  else i >= |before| && !after[i].body.success)
  {
    var before, after := books.blocks, Swept(books).blocks;
    SweptReads(books);
    ReadingsExactly(before, call);
    ReadingsExactly(after, call);
    AnsweredExactly(after, call);
    hide HoldsCall, OutcomeOf, FiledSends, CallStands, SendStands, Swept, NothingPending;
    forall i: nat | FirstOutcomeAt(after, call, i)
      ensures if Answered(before, call) then FirstOutcomeAt(before, call, i) && after[i] == before[i]
              else i >= |before| && !after[i].body.success
    {
      assert forall j: nat | j < |before| :: OutcomeAt(before, call, j) <==> OutcomeAt(after, call, j);
      if Answered(before, call) {
        var j: nat :| OutcomeAt(before, call, j);
        assert OutcomeAt(after, call, j) && i <= j;
      }
    }
  }

  /** A pass over a ledger with nothing pending appends nothing. */
  lemma NothingPendingIsIdle(books: Books)
    requires NothingPending(books.blocks)
    ensures Swept(books) == books
  {
    var sends := FiledSends(books.blocks);
    var pending := PendingAmong(books.blocks, sends);
    forall k | 0 <= k < |pending|
      ensures HoldsCall(books.blocks, pending[k]) ==> OutcomeOf(books.blocks, pending[k]).Some?
    {
      PendingAmongExactly(books.blocks, sends, pending[k]);
    }
    SettledCallsAreLeftAlone(books, pending);
  }

  lemma {:induction false} SettledCallsAreLeftAlone(books: Books, calls: seq<int>)
    requires forall k | 0 <= k < |calls| ::
               HoldsCall(books.blocks, calls[k]) ==> OutcomeOf(books.blocks, calls[k]).Some?
    ensures AllFailed(books, calls) == books
    decreases |calls|
  {
    if |calls| > 0 {
      SettledCallsAreLeftAlone(books, calls[1..]);
    }
  }

  // ─── The count the pass answers ────────────────────────────────────────

  /** How many distinct calls of a list the ledger holds unsettled. */
  function Settleable(books: Books, calls: seq<int>): set<int> {
    set call | call in calls && HoldsCall(books.blocks, call) && OutcomeOf(books.blocks, call).None?
  }

  lemma {:induction false} FailingAllAppends(books: Books, calls: seq<int>)
    ensures |AllFailed(books, calls).blocks| == |books.blocks| + |Settleable(books, calls)|
    decreases |calls|
  {
    if |calls| > 0 {
      var call, after := calls[0], Settled(books, calls[0], false);
      FailingAllAppends(after, calls[1..]);
      assert calls == [call] + calls[1..];
      forall other
        ensures other in Settleable(after, calls[1..]) <==> other in Settleable(books, calls) && other != call
      {
        SettlingMoves(books, call, false, other);
      }
      if call in Settleable(books, calls) {
        assert Settleable(books, calls) == Settleable(after, calls[1..]) + {call};
      } else {
        assert Settleable(books, calls) == Settleable(after, calls[1..]);
      }
    }
  }

  ghost predicate Distinct(calls: seq<int>) {
    forall i, j | 0 <= i < j < |calls| :: calls[i] != calls[j]
  }

  lemma DistinctByFirst(calls: seq<int>)
    requires |calls| > 0
    ensures Distinct(calls) <==> calls[0] !in calls[1..] && Distinct(calls[1..])
  {
  }

  lemma {:induction false} PendingOfTwo(blocks: seq<Block>, a: seq<int>, b: seq<int>)
    ensures PendingAmong(blocks, a + b) == PendingAmong(blocks, a) + PendingAmong(blocks, b)
  {
    if |a| > 0 {
      PendingOfTwo(blocks, a[1..], b);
      assert (a + b)[1..] == a[1..] + b;
    } else {
      assert a + b == b;
    }
  }

  lemma {:induction false} PendingCountedTo(blocks: seq<Block>, n: nat)
    requires n <= |blocks|
    ensures |PendingAmong(blocks, FiledSends(blocks[..n]))| == |set i: nat | i < n && PendingAt(blocks, i)|
  {
    if n == 0 {
      assert (set i: nat | i < n && PendingAt(blocks, i)) == {};
    } else {
      var last, front := blocks[n - 1], set i: nat | i < n - 1 && PendingAt(blocks, i);
      PendingCountedTo(blocks, n - 1);
      PendingByLast(blocks, n);
      hide FiledSends, PendingAmong, PendingAt;
      assert (set i: nat | i < n && PendingAt(blocks, i)) == front + if PendingAt(blocks, n - 1) then {n - 1} else {};
    }
  }

  lemma PendingByLast(blocks: seq<Block>, n: nat)
    requires 0 < n <= |blocks|
    ensures |PendingAmong(blocks, FiledSends(blocks[..n]))| ==
            |PendingAmong(blocks, FiledSends(blocks[..n - 1]))| + if PendingAt(blocks, n - 1) then 1 else 0
  {
    var last := blocks[n - 1];
    assert blocks[..n] == blocks[..n - 1] + [last];
    AppendReadings(blocks[..n - 1], last, 0);
    if last.body.OutgoingMessage? && last.body.callBlock.Some? {
      var call := last.body.callBlock.value;
      ReadingsExactly(blocks, call);
      PendingOfTwo(blocks, FiledSends(blocks[..n - 1]), [call]);
      assert PendingAmong(blocks, [call]) == if PendingAt(blocks, n - 1) then [call] else [] by {
        assert [call][1..] == [];
      }
    } else {
      assert FiledSends(blocks[..n - 1]) + [] == FiledSends(blocks[..n - 1]);
    }
    hide HoldsCall, OutcomeOf, FiledSends, CallStands, Answered;
  }

  lemma PendingCounted(blocks: seq<Block>)
    ensures |PendingAmong(blocks, FiledSends(blocks))| == |PendingPositions(blocks)|
  {
    PendingCountedTo(blocks, |blocks|);
    assert blocks[..|blocks|] == blocks;
  }

  lemma SettleableByFirst(books: Books, calls: seq<int>)
    requires |calls| > 0 && SendStateOf(books.blocks, calls[0]).Pending?
    ensures Settleable(books, calls) ==
            Settleable(books, calls[1..]) + (if HoldsCall(books.blocks, calls[0]) then {calls[0]} else {})
  {
  }

  lemma {:induction false} CountedExactly(books: Books, calls: seq<int>)
    requires forall k | 0 <= k < |calls| :: SendStateOf(books.blocks, calls[k]).Pending?
    ensures |Settleable(books, calls)| <= |calls|
    ensures |Settleable(books, calls)| == |calls| <==>
            Distinct(calls) && forall k | 0 <= k < |calls| :: HoldsCall(books.blocks, calls[k])
  {
    if |calls| == 0 {
      assert Settleable(books, calls) == {};
    } else {
      var call, rest := calls[0], calls[1..];
      CountedExactly(books, rest);
      DistinctByFirst(calls);
      assert call in Settleable(books, rest) <==> call in rest && HoldsCall(books.blocks, call);
      assert forall k | 0 < k < |calls| :: calls[k] == rest[k - 1];
      SettleableByFirst(books, calls);
    }
  }

  /** The count answered is how many outcomes were appended, exactly when every pending
      send's call is held and no two pending sends share one. */
  lemma SweepCountsExactly(books: Books)
    ensures var pending := PendingAmong(books.blocks, FiledSends(books.blocks));
            |pending| == |Swept(books).blocks| - |books.blocks| <==>
            Distinct(pending) && forall k | 0 <= k < |pending| :: HoldsCall(books.blocks, pending[k])
  {
    var pending := PendingAmong(books.blocks, FiledSends(books.blocks));
    forall k | 0 <= k < |pending| ensures SendStateOf(books.blocks, pending[k]).Pending? {
      PendingAmongExactly(books.blocks, FiledSends(books.blocks), pending[k]);
    }
    FailingAllAppends(books, pending);
    CountedExactly(books, pending);
  }

  // ─── Every run of one conversation ─────────────────────────────────────

  datatype Step =
    | CallRecorded
    | SendFiled(call: int)
    | Reported(named: Option<int>, outcome: SendOutcome)
    | PassRun
    | SomethingElse
    | IdsIssued(n: nat)

  function Next(books: Books, step: Step): Books {
    match step
    case CallRecorded => Appended(books, Call)
    case SendFiled(call) => Filed(books, call)
    case Reported(Some(call), outcome) => Settled(books, call, outcome.WholeSend?)
    case Reported(None, _) => books
    case PassRun => Swept(books)
    case SomethingElse => Appended(books, AnythingElse)
    case IdsIssued(n) => books.(next := books.next + n)
  }

  function Run(books: Books, steps: seq<Step>): Books
    decreases |steps|
  {
    if |steps| == 0 then books else Run(Next(books, steps[0]), steps[1..])
  }

  lemma {:induction false} RunGrows(books: Books, steps: seq<Step>)
    ensures books.blocks <= Run(books, steps).blocks
    decreases |steps|
  {
    if |steps| > 0 {
      if steps[0].PassRun? {
        FailingAllReads(books, PendingAmong(books.blocks, FiledSends(books.blocks)), 0);
      }
      RunGrows(Next(books, steps[0]), steps[1..]);
    }
  }

  /** A call recorded under an id no block had yet stands for good. Reported at any later
      time with no outcome of its own yet, it gets exactly the reported one; a send it
      filed that is still pending is failed by the next pass. */
  lemma ARecordedCallSettles(books: Books, steps: seq<Step>, outcome: SendOutcome)
    requires forall i | 0 <= i < |books.blocks| :: books.blocks[i].id != books.next
    ensures var call, later := books.next, Run(Next(books, CallRecorded), steps);
            && CallStands(later.blocks, call)
            && (!Answered(later.blocks, call) ==>
                  && Next(later, Reported(Some(call), outcome)).blocks
                     == later.blocks + [Block(later.next, Outcome(call, outcome == WholeSend))]
                  && (SendStands(later.blocks, call) ==>
                        exists i: nat :: FirstOutcomeAt(Swept(later).blocks, call, i)
                                         && !Swept(later).blocks[i].body.success))
  {
    var call, begun := books.next, Next(books, CallRecorded);
    var later := Run(begun, steps);
    RunGrows(begun, steps);
    assert CallAt(later.blocks, call, |books.blocks|) by {
      assert forall j | 0 <= j <= |books.blocks| :: later.blocks[j] == begun.blocks[j];
    }
    SettlingReads(later, call, outcome == WholeSend, call);
    SweepLeavesNothingPending(later, call);
    hide Run, Swept, Settled, CallStands, SendStands;
    if Answered(Swept(later).blocks, call) {
      var k: nat :| OutcomeAt(Swept(later).blocks, call, k);
      var i := FirstOutcome(Swept(later).blocks, call, k);
      assert FirstOutcomeAt(Swept(later).blocks, call, i);
    }
  }

  lemma {:induction false} FirstOutcome(blocks: seq<Block>, call: int, k: nat) returns (i: nat)
    requires OutcomeAt(blocks, call, k)
    ensures FirstOutcomeAt(blocks, call, i)
    decreases k
  {
    if j: nat :| j < k && OutcomeAt(blocks, call, j) {
      i := FirstOutcome(blocks, call, j);
    } else {
      i := k;
    }
  }

  /** No call has two outcomes. */
  ghost predicate OneOutcomeEach(blocks: seq<Block>) {
    forall i, j | 0 <= i < j < |blocks| && blocks[i].body.Outcome? && blocks[j].body.Outcome? ::
      blocks[i].body.call != blocks[j].body.call
  }

  lemma {:induction false} UnsettledHasNone(blocks: seq<Block>, call: int)
    requires OutcomeOf(blocks, call).None?
    ensures forall i | 0 <= i < |blocks| && blocks[i].body.Outcome? :: blocks[i].body.call != call
  {
    if |blocks| > 0 {
      UnsettledHasNone(blocks[1..], call);
      assert forall i | 0 < i < |blocks| :: blocks[i] == blocks[1..][i - 1];
    }
  }

  lemma SettlingKeepsOneOutcome(books: Books, call: int, success: bool)
    requires OneOutcomeEach(books.blocks)
    ensures OneOutcomeEach(Settled(books, call, success).blocks)
  {
    if OutcomeOf(books.blocks, call).None? {
      UnsettledHasNone(books.blocks, call);
    }
  }

  lemma {:induction false} FailingKeepsOneOutcome(books: Books, calls: seq<int>)
    requires OneOutcomeEach(books.blocks)
    ensures OneOutcomeEach(AllFailed(books, calls).blocks)
    decreases |calls|
  {
    if |calls| > 0 {
      SettlingKeepsOneOutcome(books, calls[0], false);
      FailingKeepsOneOutcome(Settled(books, calls[0], false), calls[1..]);
    }
  }

  lemma NextKeepsOneOutcome(books: Books, step: Step, call: int)
    requires OneOutcomeEach(books.blocks)
    ensures OneOutcomeEach(Next(books, step).blocks)
    ensures OutcomeOf(books.blocks, call).Some? ==>
              OutcomeOf(Next(books, step).blocks, call) == OutcomeOf(books.blocks, call)
  {
    match step
    case CallRecorded => AppendReadings(books.blocks, Block(books.next, Call), call);
    case SendFiled(sent) => AppendReadings(books.blocks, Block(books.next, OutgoingMessage(Some(sent))), call);
    case SomethingElse => AppendReadings(books.blocks, Block(books.next, AnythingElse), call);
    case Reported(Some(reported), outcome) =>
      SettlingKeepsOneOutcome(books, reported, outcome.WholeSend?);
      SettlingMoves(books, reported, outcome.WholeSend?, call);
    case PassRun =>
      FailingKeepsOneOutcome(books, PendingAmong(books.blocks, FiledSends(books.blocks)));
      SweptReads(books);
    case _ =>
  }

  /** Whatever order reports, repeats, retirements and sweeps run in, no call ever has a
      second outcome, and the one it has never changes. */
  lemma {:induction false} NoSecondOutcome(books: Books, steps: seq<Step>, call: int)
    requires OneOutcomeEach(books.blocks)
    ensures OneOutcomeEach(Run(books, steps).blocks)
    ensures OutcomeOf(books.blocks, call).Some? ==>
              OutcomeOf(Run(books, steps).blocks, call) == OutcomeOf(books.blocks, call)
    decreases |steps|
  {
    if |steps| > 0 {
      NextKeepsOneOutcome(books, steps[0], call);
      NoSecondOutcome(Next(books, steps[0]), steps[1..], call);
    }
  }

  /** Every send was filed by a call the ledger holds, and no call filed two. */
  ghost predicate FiledByCalls(books: Books) {
    && Distinct(FiledSends(books.blocks))
    && (forall call | call in FiledSends(books.blocks) :: HoldsCall(books.blocks, call))
  }

  /** A tool body runs for a call the ledger holds. */
  ghost predicate RunsForItsCall(books: Books, step: Step) {
    step.SendFiled? ==> HoldsCall(books.blocks, step.call)
  }

  ghost predicate BodiesRunForTheirCalls(books: Books, steps: seq<Step>)
    decreases |steps|
  {
    |steps| == 0 || (RunsForItsCall(books, steps[0]) && BodiesRunForTheirCalls(Next(books, steps[0]), steps[1..]))
  }

  lemma AppendingKeepsFiled(books: Books, body: Body)
    requires FiledByCalls(books)
    requires body.OutgoingMessage? && body.callBlock.Some? ==>
               HoldsCall(books.blocks, body.callBlock.value) && body.callBlock.value !in FiledSends(books.blocks)
    ensures FiledByCalls(Appended(books, body))
  {
    forall call ensures call in FiledSends(books.blocks) ==> HoldsCall(Appended(books, body).blocks, call) {
      AppendReadings(books.blocks, Block(books.next, body), call);
    }
    AppendReadings(books.blocks, Block(books.next, body),
                   if body.OutgoingMessage? && body.callBlock.Some? then body.callBlock.value else 0);
  }

  lemma NextKeepsFiled(books: Books, step: Step)
    requires FiledByCalls(books) && RunsForItsCall(books, step)
    ensures FiledByCalls(Next(books, step))
  {
    match step
    case CallRecorded => AppendingKeepsFiled(books, Call);
    case SendFiled(call) =>
      if !SendOfCall(books.blocks, call) {
        AppendingKeepsFiled(books, OutgoingMessage(Some(call)));
      }
    case SomethingElse => AppendingKeepsFiled(books, AnythingElse);
    case Reported(Some(call), outcome) =>
      AppendingKeepsFiled(books, Outcome(call, outcome.WholeSend?));
    case PassRun =>
      forall call ensures FiledSends(Swept(books).blocks) == FiledSends(books.blocks)
                          && HoldsCall(Swept(books).blocks, call) == HoldsCall(books.blocks, call)
      {
        FailingAllReads(books, PendingAmong(books.blocks, FiledSends(books.blocks)), call);
      }
    case _ =>
  }

  lemma {:induction false} PendingStaysDistinct(blocks: seq<Block>, calls: seq<int>)
    requires Distinct(calls)
    ensures Distinct(PendingAmong(blocks, calls))
  {
    if |calls| > 0 {
      var rest := PendingAmong(blocks, calls[1..]);
      PendingStaysDistinct(blocks, calls[1..]);
      PendingAmongExactly(blocks, calls[1..], calls[0]);
      assert calls[0] !in calls[1..];
      assert forall k | 0 <= k < |rest| :: rest[k] in rest;
    }
  }

  /** In every ledger these bodies can reach, a re-run call files nothing more and the
      pass counts exactly what it appends. */
  lemma {:induction false} EveryRunCountsExactly(books: Books, steps: seq<Step>)
    requires FiledByCalls(books) && BodiesRunForTheirCalls(books, steps)
    ensures var after := Run(books, steps);
            && FiledByCalls(after)
            && |PendingAmong(after.blocks, FiledSends(after.blocks))| == |Swept(after).blocks| - |after.blocks|
    decreases |steps|
  {
    if |steps| > 0 {
      NextKeepsFiled(books, steps[0]);
      EveryRunCountsExactly(Next(books, steps[0]), steps[1..]);
    } else {
      var pending := PendingAmong(books.blocks, FiledSends(books.blocks));
      PendingStaysDistinct(books.blocks, FiledSends(books.blocks));
      forall k | 0 <= k < |pending| ensures HoldsCall(books.blocks, pending[k]) {
        PendingAmongExactly(books.blocks, FiledSends(books.blocks), pending[k]);
      }
      SweepCountsExactly(books);
    }
  }
}
