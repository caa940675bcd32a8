/** One conversation's ledger and the entry point's writes into it: the owing-tail
    read, the revision reading, the deletion mirror and the stamped append. */
module Ledger {
  import opened Vocabulary
  import opened Kind

  /** Every stored type string but the chat message's own. `Framework` holds the
      kinds neither list below names: text, tool calls, statuses and the rest. */
  datatype BlockType =
    | ContextNote | ToolChoice | ContractNotice | OutgoingMessage | ToolPalette | Report
    | JoinNotice | Delivered | MessageMark | Retraction
    | DateMarker | Quote
    | Framework(name: string)

  datatype Block = Chat(row: ChatMessage) | Other(kind: BlockType)

  /** The consumer's own mid-history kinds, appended at arbitrary moments. */
  const DEBT_READ_THROUGH: set<BlockType> := {
    ContextNote, ToolChoice, ContractNotice, OutgoingMessage, ToolPalette, Report,
    JoinNotice, Delivered, MessageMark, Retraction
  }

  /** The framework records that are never an answerable block. */
  const NEVER_ANSWERABLE: set<BlockType> := {DateMarker, Quote}

  /** A block that settles whatever was owed behind it, for good: any framework record
      but a date marker and a quote, and none of the consumer's own. */
  predicate Settling(block: Block) {
    block.Other? && block.kind.Framework?
  }

  // ─── The owing-tail walk ───────────────────────────────────────────────

  /** The owing tail as one walk from the newest block: the row whose debt the
      next write is composed against. */
  function OwedTail(blocks: seq<Block>): (tail: Option<nat>)
    ensures tail.Some? ==> tail.value < |blocks| && blocks[tail.value].Chat? && blocks[tail.value].row.OwesAnswer()
  {
    if |blocks| == 0 then None
    else
      var newest := |blocks| - 1;
      match blocks[newest]
      case Other(kind) =>
        if kind in DEBT_READ_THROUGH || kind in NEVER_ANSWERABLE then OwedTail(blocks[..newest]) else None
      case Chat(row) =>
        if row.OwesAnswer() then Some(newest)
        else if row.TransparentToTheWalk() then OwedTail(blocks[..newest])
        else None
  }

  /** The debt a tail hands on, if there is a tail. */
  function DebtOf(blocks: seq<Block>, tail: Option<nat>): Option<TailDebt>
    requires tail.Some? ==> tail.value < |blocks| && blocks[tail.value].Chat?
  {
    match tail
    case Some(at) => Some(TailDebt(blocks[at].row.CarriedDebtAuthority()))
    case None => None
  }

  /** The debt one block read as the tail hands on. */
  function DebtRead(read: Option<Block>): Option<TailDebt> {
    if read.Some? && read.value.Chat? && read.value.row.OwesAnswer()
    then Some(TailDebt(read.value.row.CarriedDebtAuthority())) else None
  }

  /** The newest block a reading wants. */
  function Newest(blocks: seq<Block>, wanted: Block -> bool): (at: Option<nat>)
    ensures at.Some? ==> at.value < |blocks| && wanted(blocks[at.value])
    ensures at.Some? ==> forall k | at.value < k < |blocks| :: !wanted(blocks[k])
    ensures at.None? ==> forall k | 0 <= k < |blocks| :: !wanted(blocks[k])
  {
    if |blocks| == 0 then None
    else if wanted(blocks[|blocks| - 1]) then Some(|blocks| - 1)
    else Newest(blocks[..|blocks| - 1], wanted)
  }

  /** What the one bounded query behind the walk leaves in: its row condition is
      spelled over the stored columns, not through the row's own predicate. */
  predicate LeftIn(block: Block, readThrough: set<BlockType>) {
    match block
    case Other(kind) => kind !in readThrough + NEVER_ANSWERABLE
    case Chat(row) => !(row.text.None? || row.answerDue == Some(false))
  }

  /** The newest block past a whole transparent run. */
  function NewestPastTransparent(blocks: seq<Block>, readThrough: set<BlockType>): (at: Option<nat>)
    ensures at.Some? ==> at.value < |blocks| && LeftIn(blocks[at.value], readThrough)
    ensures at.Some? ==> forall k | at.value < k < |blocks| :: !LeftIn(blocks[k], readThrough)
    ensures at.None? ==> forall k | 0 <= k < |blocks| :: !LeftIn(blocks[k], readThrough)
  {
    Newest(blocks, (block: Block) => LeftIn(block, readThrough))
  }

  // ─── Emptying rows ─────────────────────────────────────────────────────

  /** Which rows an erasing pass reaches: one person's, or every version of one
      named message. */
  datatype Target = Person(principalId: int) | Message(named: string)

  predicate Hits(target: Target, row: ChatMessage) {
    match target
    case Person(principalId) => row.principalId == Some(principalId)
    case Message(named) => row.AnswersTo(named)
  }

  function EmptiedBlock(block: Block, target: Target): Block {
    if block.Chat? && Hits(target, block.row) then Chat(block.row.Emptied()) else block
  }

  function EmptiedBlocks(blocks: seq<Block>, target: Target): (emptied: seq<Block>)
    ensures |emptied| == |blocks|
    ensures forall i | 0 <= i < |blocks| :: emptied[i] == EmptiedBlock(blocks[i], target)
  {
    seq(|blocks|, i requires 0 <= i < |blocks| => EmptiedBlock(blocks[i], target))
  }

  // ─── Revisions ─────────────────────────────────────────────────────────

  /** The newest recorded version of one named message. */
  function NewestVersion(blocks: seq<Block>, named: string): Option<nat> {
    Newest(blocks, (block: Block) => block.Chat? && block.row.AnswersTo(named) && block.row.text.Some?)
  }

  datatype RevisionLink = Kept | Dropped

  datatype UnderLock = Disregarded | Recorded(link: RevisionLink)

  /** What one revision's one store read decides: the two drops and the link. */
  function RevisionReading(blocks: seq<Block>, message: Inbound): UnderLock {
    match message.revises
    case None => Recorded(Kept)
    case Some(named) =>
      match NewestVersion(blocks, named)
      case None => if message.family then Recorded(Kept) else Disregarded
      case Some(at) =>
        if blocks[at].row.principalId != Some(message.principalId) then Recorded(Dropped)
        else if !message.family && blocks[at].row.text == Some(message.text) then Disregarded
        else Recorded(Kept)
  }

  // ─── One ingested message ──────────────────────────────────────────────

  datatype ReplyTarget = ToMessage(origin: string) | ToAssistant

  /** What an administrator's recognized deletion command names. */
  datatype DeletionAsk = OfMessage(named: string) | OfAssistant

  /** One admitted message with its sender resolved. `command` is any catalogue
      command; `family` is the privacy family among them. */
  datatype Inbound = Inbound(
    principalId: int,
    bot: bool,
    authority: Authority,
    speaker: Option<string>,
    addressed: bool,
    command: bool,
    family: bool,
    deletion: Option<DeletionAsk>,
    text: string,
    origin: Option<string>,
    revises: Option<string>,
    sentAt: string,
    replyTarget: Option<ReplyTarget>)
  {
    ghost predicate Valid() {
      family ==> command
    }
  }

  /** What the rest of the store and the configuration answer while one message is
      written: the two suppression readings, the answering mode, the first budget
      refusing, and whether the retraction asked for is a new one. */
  datatype Surroundings = Surroundings(
    standingFlag: bool,
    standingFlagUnderLock: bool,
    helpful: bool,
    refusing: Option<LimitedBy>,
    retractionRecorded: bool)
  {
    ghost predicate Valid() {
      refusing != Some(LimitedBy.Command)
    }
  }

  /** What lands in the conversation between the store operations of one ingestion. The
      stamp lock orders ingestions alone: the runtime commits its answers and the tools
      their filings outside it, so any kinds can land in any gap, the ingestion's own
      choice, notice, quote and calendar record among them. `opening` lands before the
      deletion, `settled` before the tail row is read, `between` between that read and
      the query past the transparent run, `after` before the row. */
  datatype Meanwhile = Meanwhile(
    opening: seq<BlockType>,
    settled: seq<BlockType>,
    between: seq<BlockType>,
    after: seq<BlockType>)

  function ResolvedSummons(message: Inbound, around: Surroundings): Summons {
    Summons(message.addressed || (around.helpful && !message.bot), message.addressed)
  }

  /** An unsummoned bot's row is composed against no tail at all. */
  predicate TailWithheld(message: Inbound, around: Surroundings) {
    message.bot && !message.addressed
  }

  function LimitingFact(message: Inbound, around: Surroundings): Option<LimitedBy> {
    if message.command || message.deletion.Some? then Some(LimitedBy.Command)
    else if ResolvedSummons(message, around).summoned then around.refusing
    else None
  }

  function RecordedRow(message: Inbound, around: Surroundings, link: RevisionLink, stamp: Stamp): ChatMessage {
    ChatMessage(
      role := Some(User),
      text := Some(message.text),
      principalId := Some(message.principalId),
      authority := Some(message.authority),
      speaker := if !around.standingFlag && message.speaker.Some? && StorableSpeaker(message.speaker.value)
                 then message.speaker else None,
      origin := message.origin,
      revises := if link.Kept? then message.revises else None,
      sentAt := Some(message.sentAt),
      addressed := Some(stamp.addressed),
      literalAddressed := Some(stamp.literalAddressed),
      answerDue := Some(stamp.answerDue),
      limited := stamp.limited,
      debtAuthority := stamp.debtAuthority,
      replyTarget := if message.replyTarget.Some? && message.replyTarget.value.ToMessage?
                     then Some(message.replyTarget.value.origin) else None,
      replyToAssistant := if message.replyTarget == Some(ToAssistant) then Some(true) else None)
  }

  function OthersOf(kinds: seq<BlockType>): (blocks: seq<Block>)
    ensures |blocks| == |kinds|
    ensures forall i | 0 <= i < |kinds| :: blocks[i] == Other(kinds[i])
  {
    seq(|kinds|, i requires 0 <= i < |kinds| => Other(kinds[i]))
  }

  // ─── The specification machine ─────────────────────────────────────────

  /** How a row's stamp was taken: before this build, against no tail, or against the
      tail the walk answered over the first `readAt` blocks. History the ledger itself
      does not store. */
  datatype Stamping = NotARow | History | Withheld(exempt: bool) | Read(tail: Option<nat>, readAt: nat, exempt: bool)

  datatype Spine = Spine(blocks: seq<Block>, stampings: seq<Stamping>)

  /** Whether a write is dropped, and which link it stores when it is not. */
  function UnderLockReading(blocks: seq<Block>, message: Inbound, around: Surroundings): UnderLock {
    if !message.family && (around.standingFlag || around.standingFlagUnderLock) then Disregarded
    else RevisionReading(blocks, message)
  }

  function Appended(s: Spine, kinds: seq<BlockType>): Spine {
    Spine(s.blocks + OthersOf(kinds), s.stampings + seq(|kinds|, _ => NotARow))
  }

  function Emptied(s: Spine, target: Target): Spine {
    s.(blocks := EmptiedBlocks(s.blocks, target))
  }

  /** What the recognized deletion does; one arriving as a revision does nothing. */
  function Deleted(s: Spine, message: Inbound, around: Surroundings): Spine {
    if message.revises.Some? then s
    else match message.deletion
      case Some(OfMessage(named)) => Emptied(s, Message(named))
      case Some(OfAssistant) => if around.retractionRecorded then Appended(s, [Retraction]) else s
      case None => s
  }

  /** Whether the tail row sends the read on to the query behind it: any kind but a
      framework record, and a row erased or stamped false. */
  predicate TailTransparent(blocks: seq<Block>) {
    |blocks| > 0 &&
    match blocks[|blocks| - 1]
    case Other(kind) => !kind.Framework?
    case Chat(row) => row.text.None? || row.answerDue == Some(false)
  }

  /** The moment the two-step read answers for: the tail row's own, or the query's. */
  function ReadMoment(blocks: seq<Block>, between: seq<BlockType>): (at: nat)
    ensures |blocks| <= at <= |blocks| + |between|
  {
    if TailTransparent(blocks) then |blocks| + |between| else |blocks|
  }

  /** The tail an ingestion's stamp is composed against. */
  function TailRead(s: Spine, between: seq<BlockType>): Option<nat> {
    OwedTail(Appended(s, between).blocks[..ReadMoment(s.blocks, between)])
  }

  /** The ledger as the row finds it. */
  function Riding(s: Spine, between: seq<BlockType>, after: seq<BlockType>): Spine {
    Appended(Appended(s, between), after)
  }

  function StampOf(s: Spine, message: Inbound, around: Surroundings, between: seq<BlockType>): Stamp {
    var tail := if TailWithheld(message, around) then None else TailRead(s, between);
    Compose(ResolvedSummons(message, around), message.authority, LimitingFact(message, around),
            DebtOf(Appended(s, between).blocks, tail))
  }

  /** The stamped append: the two-step tail read, the composition, what lands behind it,
      and the row. */
  function StampedAppend(s: Spine, message: Inbound, around: Surroundings, link: RevisionLink,
                         between: seq<BlockType>, after: seq<BlockType>): Spine
  {
    var riding := Riding(s, between, after);
    var stamping :=
      if TailWithheld(message, around) then Withheld(message.family)
      else Read(TailRead(s, between), ReadMoment(s.blocks, between), message.family);
    Spine(riding.blocks + [Chat(RecordedRow(message, around, link, StampOf(s, message, around, between)))],
          riding.stampings + [stamping])
  }

  /** The ledger past the deletion, as the tail read finds it. */
  function Reached(s: Spine, message: Inbound, around: Surroundings, meanwhile: Meanwhile): Spine {
    Appended(Deleted(Appended(s, meanwhile.opening), message, around), meanwhile.settled)
  }

  /** One whole ingestion, from the under-lock drops to the append. */
  function Ingested(s: Spine, message: Inbound, around: Surroundings, meanwhile: Meanwhile): Spine {
    match UnderLockReading(s.blocks, message, around)
    case Disregarded => s
    case Recorded(link) =>
      StampedAppend(Reached(s, message, around, meanwhile), message, around, link, meanwhile.between, meanwhile.after)
  }

  // ─── The ledger as the store holds it ──────────────────────────────────

  /** One conversation's blocks in junction order, with the ghost record of how
      each row was stamped. A block's id is its position. */
  class ConversationLedger {
    var blocks: seq<Block>
    ghost var stampings: seq<Stamping>

    ghost function State(): Spine
      reads this
    {
      Spine(blocks, stampings)
    }

    /** A conversation as an earlier build left it. */
    constructor (history: seq<Block>)
      ensures State() == Spine(history,
                seq(|history|, i requires 0 <= i < |history| => if history[i].Chat? then History else NotARow))
    {
      blocks := history;
      stampings := seq(|history|, i requires 0 <= i < |history| => if history[i].Chat? then History else NotARow);
    }

    /** The two-step read behind the stamp: the tail row, then at most one query past the
        whole transparent run, with whatever lands between the two. It answers what the
        one-pass walk answers at one moment from the first read to the last. */
    method OwingTailDebt(between: seq<BlockType>) returns (debt: Option<TailDebt>)
      modifies this
      ensures State() == Appended(old(State()), between)
      ensures var at := ReadMoment(old(blocks), between);
                |old(blocks)| <= at <= |blocks| && debt == DebtOf(blocks[..at], OwedTail(blocks[..at]))
      ensures debt == if TailTransparent(old(blocks)) then DebtOf(blocks, OwedTail(blocks))
                      else DebtOf(old(blocks), OwedTail(old(blocks)))
    {
      ghost var found := blocks;
      if |blocks| == 0 {
        AppendKinds(between);
        return None;
      }
      var first := blocks[|blocks| - 1];
      AppendKinds(between);
      hide OwedTail, NewestPastTransparent;
      assert blocks[..|found|] == found && blocks[..|blocks|] == blocks;
      var transparent := match first
        case Other(kind) => kind in DEBT_READ_THROUGH || kind in NEVER_ANSWERABLE
        case Chat(row) => row.TransparentToTheWalk();
      assert transparent == TailTransparent(found) && transparent == !LeftIn(first, DEBT_READ_THROUGH) by {
        TransparencyExactly(found);
      }
      hide TailTransparent, LeftIn;
      if transparent {
        var at := NewestPastTransparent(blocks, DEBT_READ_THROUGH);
        TheReadIsTheWalks(blocks, at);
        debt := DebtRead(if at.Some? then Some(blocks[at.value]) else None);
      } else {
        TheReadIsTheWalks(found, Some(|found| - 1));
        debt := DebtRead(Some(first));
      }
    }

    /** Null every reached row's personal columns, answering how many were reached. */
    method EmptyRows(target: Target) returns (count: nat)
      modifies this`blocks
      ensures State() == Emptied(old(State()), target)
      ensures count == |set i | 0 <= i < |old(blocks)| && old(blocks)[i].Chat? && Hits(target, old(blocks)[i].row)|
    {
      var reached := set i | 0 <= i < |blocks| && blocks[i].Chat? && Hits(target, blocks[i].row);
      count := |reached|;
      blocks := EmptiedBlocks(blocks, target);
    }

    method AppendKinds(kinds: seq<BlockType>)
      modifies this
      ensures State() == Appended(old(State()), kinds)
    {
      blocks := blocks + OthersOf(kinds);
      stampings := stampings + seq(|kinds|, _ => NotARow);
    }

    /** What the recognized deletion does. */
    method PerformDeletion(message: Inbound, around: Surroundings)
      modifies this
      ensures State() == Deleted(old(State()), message, around)
    {
      if message.revises.None? {
        match message.deletion {
          case Some(OfMessage(named)) =>
            var _ := EmptyRows(Message(named));
          case Some(OfAssistant) =>
            if around.retractionRecorded {
              AppendKinds([Retraction]);
            }
          case None =>
        }
      }
    }

    /** The tail read, the composition and the append, with what lands between them. */
    method AppendStamped(message: Inbound, around: Surroundings, link: RevisionLink,
                         between: seq<BlockType>, after: seq<BlockType>)
      modifies this
      ensures State() == StampedAppend(old(State()), message, around, link, between, after)
    {
      ghost var found := State();
      var summons := ResolvedSummons(message, around);
      var debt: Option<TailDebt> := None;
      if message.bot && !summons.summoned {
        AppendKinds(between);
      } else {
        debt := OwingTailDebt(between);
        ReadMomentIsEnough(blocks, ReadMoment(found.blocks, between));
      }
      var stamp := Compose(summons, message.authority, LimitingFact(message, around), debt);
      assert stamp == StampOf(found, message, around, between);
      AppendKinds(after);
      blocks := blocks + [Chat(RecordedRow(message, around, link, stamp))];
      ghost var stamping :=
        if TailWithheld(message, around) then Withheld(message.family)
        else Read(TailRead(found, between), ReadMoment(found.blocks, between), message.family);
      stampings := stampings + [stamping];
    }

    /** The ingestion's stretch under the stamp lock. */
    method Ingest(message: Inbound, around: Surroundings, meanwhile: Meanwhile) returns (recorded: bool)
      modifies this
      ensures State() == Ingested(old(State()), message, around, meanwhile)
      ensures recorded == UnderLockReading(old(blocks), message, around).Recorded?
    {
      if !message.family && (around.standingFlag || around.standingFlagUnderLock) {
        return false;
      }
      var reading := RevisionReading(blocks, message);
      if reading.Disregarded? {
        return false;
      }
      AppendKinds(meanwhile.opening);
      PerformDeletion(message, around);
      AppendKinds(meanwhile.settled);
      AppendStamped(message, around, reading.link, meanwhile.between, meanwhile.after);
      recorded := true;
    }
  }

  /** The tail row sends the read on exactly when the query would not leave it in. */
  lemma TransparencyExactly(blocks: seq<Block>)
    requires |blocks| > 0
    ensures TailTransparent(blocks) <==> !LeftIn(blocks[|blocks| - 1], DEBT_READ_THROUGH)
  {
  }

  /** The newest block the query leaves in hands on what the walk's tail hands on. */
  lemma TheReadIsTheWalks(blocks: seq<Block>, at: Option<nat>)
    requires at.Some? ==> at.value < |blocks| && LeftIn(blocks[at.value], DEBT_READ_THROUGH)
    requires at.Some? ==> forall k | at.value < k < |blocks| :: !LeftIn(blocks[k], DEBT_READ_THROUGH)
    requires at.None? ==> forall k | 0 <= k < |blocks| :: !LeftIn(blocks[k], DEBT_READ_THROUGH)
    ensures DebtOf(blocks, OwedTail(blocks)) == DebtRead(if at.Some? then Some(blocks[at.value]) else None)
  {
    WalkStopsAtTheNewestLeftIn(blocks, at);
  }

  /** A tail found in a ledger's front carries the same debt in the whole of it. */
  lemma ReadMomentIsEnough(blocks: seq<Block>, at: nat)
    requires at <= |blocks|
    ensures DebtOf(blocks[..at], OwedTail(blocks[..at])) == DebtOf(blocks, OwedTail(blocks[..at]))
  {
  }

  /** The one-pass walk settles exactly on the newest block the query leaves in. */
  lemma {:induction false} WalkStopsAtTheNewestLeftIn(blocks: seq<Block>, at: Option<nat>)
    requires at.Some? ==> at.value < |blocks| && LeftIn(blocks[at.value], DEBT_READ_THROUGH)
    requires at.Some? ==> forall k | at.value < k < |blocks| :: !LeftIn(blocks[k], DEBT_READ_THROUGH)
    requires at.None? ==> forall k | 0 <= k < |blocks| :: !LeftIn(blocks[k], DEBT_READ_THROUGH)
    ensures OwedTail(blocks) ==
            if at.Some? && blocks[at.value].Chat? && blocks[at.value].row.OwesAnswer() then at else None
  {
    if |blocks| > 0 && !LeftIn(blocks[|blocks| - 1], DEBT_READ_THROUGH) {
      WalkStopsAtTheNewestLeftIn(blocks[..|blocks| - 1], at);
    }
  }
}
