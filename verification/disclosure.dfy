/** The first-interaction disclosure: the line the first answer to each person opens
    with, and the stored receipt that decides who has met it. */
module Disclosure {
  import opened Vocabulary

  // ─── The line and the prose ────────────────────────────────────────────

  function Prefix(line: string): string {
    line + "\n\n"
  }

  predicate Opens(text: string, line: string) {
    Prefix(line) <= text
  }

  function Disclosed(line: string, answer: string): string {
    Prefix(line) + answer
  }

  function ProseOf(line: string, content: string): string {
    if Opens(content, line) then content[|Prefix(line)|..] else content
  }

  /** The one idempotent statement that writes the line into a stored text. */
  function Prepended(line: string, text: string): string {
    if Opens(text, line) then text else Disclosed(line, text)
  }

  /** The line goes in once, comes off whole, and goes back in front of the very text it
      came off. */
  lemma TheLineComesOffWhole(line: string, text: string)
    ensures ProseOf(line, Disclosed(line, text)) == text
    ensures Prepended(line, Prepended(line, text)) == Prepended(line, text)
    ensures ProseOf(line, Prepended(line, text)) == ProseOf(line, text)
    ensures Opens(text, line) <==> Disclosed(line, ProseOf(line, text)) == text
  {
  }

  // ─── The store ─────────────────────────────────────────────────────────

  /** A message of the assistant's own: filed by a call, or an answer of the old relay. */
  datatype Body = Outgoing(text: Option<string>, callBlock: Option<int>) | RelayedAnswer(answer: string) | AnythingElse

  datatype Block = Block(id: int, body: Body)

  /** One conversation: its blocks, and the co-summoners the provenance walk reads for
      each summoning key, fixed when the key is recorded. */
  datatype Conversation = Conversation(blocks: seq<Block>, summoners: map<int, seq<Option<int>>>)

  /** Every conversation, and the conversations each person spoke in. */
  datatype Store = Store(conversations: map<int, Conversation>, spoke: map<int, seq<int>>)

  function CoSummoners(c: Conversation, key: int): seq<Option<int>> {
    if key in c.summoners then c.summoners[key] else []
  }

  function SpokeIn(s: Store, principal: int): seq<int> {
    if principal in s.spoke then s.spoke[principal] else []
  }

  /** The stored receipt of a delivered introduction, in both its shapes. */
  predicate LinedMessage(line: string, block: Block) {
    match block.body
    case Outgoing(text, _) => text.Some? && Opens(text.value, line)
    case RelayedAnswer(answer) => Opens(answer, line)
    case AnythingElse => false
  }

  function SummoningKey(block: Block): Option<int> {
    match block.body
    case Outgoing(_, callBlock) => callBlock
    case _ => Some(block.id)
  }

  function ContentOf(block: Block): string {
    if block.body.Outgoing? && block.body.text.Some? then block.body.text.value else ""
  }

  // ─── Who was introduced ────────────────────────────────────────────────

  /** An earlier lined message the person co-summoned. */
  predicate Introduces(line: string, c: Conversation, block: Block, principal: int, before: int) {
    && block.id < before && LinedMessage(line, block)
    && SummoningKey(block).Some? && Some(principal) in CoSummoners(c, SummoningKey(block).value)
  }

  predicate IntroductionIn(line: string, c: Conversation, principal: int, before: int) {
    exists k | 0 <= k < |c.blocks| :: Introduces(line, c, c.blocks[k], principal, before)
  }

  predicate IntroducedElsewhere(line: string, s: Store, conversation: int,
                                spokeIn: seq<int>, principal: int, before: int) {
    exists k | 0 <= k < |spokeIn| ::
      spokeIn[k] != conversation && spokeIn[k] in s.conversations
      && IntroductionIn(line, s.conversations[spokeIn[k]], principal, before)
  }

  predicate MetBefore(line: string, s: Store, conversation: int, principal: int, before: int)
    requires conversation in s.conversations
  {
    || IntroductionIn(line, s.conversations[conversation], principal, before)
    || IntroducedElsewhere(line, s, conversation, SpokeIn(s, principal), principal, before)
  }

  predicate Known(line: string, s: Store, conversation: int, summoner: Option<int>, key: int)
    requires conversation in s.conversations
  {
    summoner.Some? && MetBefore(line, s, conversation, summoner.value, key)
  }

  /** Somebody the message speaks to is new; nobody readable folds toward the line. */
  predicate FirstToSomeone(line: string, s: Store, conversation: int, key: int)
    requires conversation in s.conversations
  {
    var summoners := CoSummoners(s.conversations[conversation], key);
    |summoners| == 0 || exists k | 0 <= k < |summoners| :: !Known(line, s, conversation, summoners[k], key)
  }

  function KeyOf(block: Block): int {
    if SummoningKey(block).Some? then SummoningKey(block).value else block.id
  }

  datatype Introduction = Lined | Bare

  /** The opening one undelivered message goes out under. */
  function OpeningOf(line: string, s: Store, conversation: int, block: Block): Introduction
    requires conversation in s.conversations
  {
    if Opens(ContentOf(block), line) || FirstToSomeone(line, s, conversation, KeyOf(block)) then Lined else Bare
  }

  function LinedBlock(line: string, block: Block): Block {
    if block.body.Outgoing? && block.body.text.Some?
    then block.(body := block.body.(text := Some(Prepended(line, block.body.text.value)))) else block
  }

  function WithText(block: Block, text: string): Block
    requires block.body.Outgoing?
  {
    block.(body := block.body.(text := Some(text)))
  }

  /** One stored block opens with the line, and nothing else moved. */
  function LineStored(line: string, s: Store, conversation: int, at: nat): Store
    requires conversation in s.conversations && at < |s.conversations[conversation].blocks|
  {
    var c := s.conversations[conversation];
    s.(conversations := s.conversations[conversation := c.(blocks := c.blocks[at := LinedBlock(line, c.blocks[at])])])
  }

  /** The store after one delivery resolved its opening: the line is in the block it goes
      out under. */
  function Resolved(line: string, s: Store, conversation: int, at: nat): Store
    requires conversation in s.conversations && at < |s.conversations[conversation].blocks|
  {
    if OpeningOf(line, s, conversation, s.conversations[conversation].blocks[at]).Bare? then s
    else LineStored(line, s, conversation, at)
  }

  /** A message that opens with the line already leaves the store as it is. */
  lemma OpenIsResolved(line: string, s: Store, conversation: int, at: nat)
    requires conversation in s.conversations && at < |s.conversations[conversation].blocks|
    ensures Opens(ContentOf(s.conversations[conversation].blocks[at]), line) ==>
              Resolved(line, s, conversation, at) == s
  {
    var c := s.conversations[conversation];
    if Opens(ContentOf(c.blocks[at]), line) {
      assert c.blocks[at := LinedBlock(line, c.blocks[at])] == c.blocks;
      assert s.conversations[conversation := c] == s.conversations;
    }
  }

  // ─── Who was introduced, off the stored columns ────────────────────────

  /** A block opens with the line and a blank line behind it. */
  ghost predicate CarriesTheLine(line: string, block: Block) {
    || (block.body.Outgoing? && block.body.text.Some? && line + "\n\n" <= block.body.text.value)
    || (block.body.RelayedAnswer? && line + "\n\n" <= block.body.answer)
  }

  /** Whom the conversation's provenance names for a block: for a filed message those of
      the call it answers, for anything else its own. */
  ghost predicate Summoned(c: Conversation, block: Block, person: Option<int>) {
    var key := if block.body.Outgoing? then block.body.callBlock else Some(block.id);
    key.Some? && key.value in c.summoners && person in c.summoners[key.value]
  }

  /** The key a message is summoned by: the call it answers, or its own. */
  function SummonedBy(block: Block): int {
    if block.body.Outgoing? && block.body.callBlock.Some? then block.body.callBlock.value else block.id
  }

  /** A message carrying the line, of before the key, that the person co-summoned. */
  ghost predicate Receipt(line: string, c: Conversation, person: int, before: int, k: nat) {
    && k < |c.blocks| && c.blocks[k].id < before
    && CarriesTheLine(line, c.blocks[k]) && Summoned(c, c.blocks[k], Some(person))
  }

  /** Such a message stands in the conversation itself or in another the person spoke in. */
  ghost predicate Introduced(line: string, s: Store, conversation: int, person: int, before: int) {
    exists c: int, k: nat ::
      && c in s.conversations && Receipt(line, s.conversations[c], person, before, k)
      && (c == conversation || (person in s.spoke && c in s.spoke[person]))
  }

  /** The key names somebody, and everybody it names is known and was introduced. */
  ghost predicate EachIntroduced(line: string, s: Store, conversation: int, key: int) {
    && conversation in s.conversations && key in s.conversations[conversation].summoners
    && var summoners := s.conversations[conversation].summoners[key];
    && |summoners| > 0
    && forall k | 0 <= k < |summoners| ::
      summoners[k].Some? && Introduced(line, s, conversation, summoners[k].value, key)
  }

  lemma ReceiptExactly(line: string, c: Conversation, principal: int, before: int)
    ensures IntroductionIn(line, c, principal, before) <==> exists k: nat :: Receipt(line, c, principal, before, k)
  {
    forall k: nat | k < |c.blocks|
      ensures Introduces(line, c, c.blocks[k], principal, before) <==> Receipt(line, c, principal, before, k)
    {
    }
    hide Introduces;
    if k: nat :| Receipt(line, c, principal, before, k) {
      assert Introduces(line, c, c.blocks[k], principal, before);
    }
  }

  lemma IntroducedExactly(line: string, s: Store, conversation: int, principal: int, before: int)
    requires conversation in s.conversations
    ensures MetBefore(line, s, conversation, principal, before) <==>
            Introduced(line, s, conversation, principal, before)
  {
    forall c | c in s.conversations {
      ReceiptExactly(line, s.conversations[c], principal, before);
    }
    hide IntroductionIn, Receipt;
    if IntroducedElsewhere(line, s, conversation, SpokeIn(s, principal), principal, before) {
      var spokeIn := SpokeIn(s, principal);
      var i :| 0 <= i < |spokeIn| && spokeIn[i] != conversation && spokeIn[i] in s.conversations
               && IntroductionIn(line, s.conversations[spokeIn[i]], principal, before);
      var k: nat :| Receipt(line, s.conversations[spokeIn[i]], principal, before, k);
      assert spokeIn[i] in s.spoke[principal];
    }
  }

  lemma FirstExactly(line: string, s: Store, conversation: int, key: int)
    requires conversation in s.conversations
    ensures FirstToSomeone(line, s, conversation, key) <==> !EachIntroduced(line, s, conversation, key)
  {
    var summoners := CoSummoners(s.conversations[conversation], key);
    forall k | 0 <= k < |summoners| && summoners[k].Some? {
      IntroducedExactly(line, s, conversation, summoners[k].value, key);
    }
    hide MetBefore, Introduced;
  }

  /** A message goes out bare exactly when it does not open with the line itself and
      everybody it answers was introduced before. */
  lemma BareExactly(line: string, s: Store, conversation: int, block: Block)
    requires conversation in s.conversations && block.body.Outgoing?
    ensures OpeningOf(line, s, conversation, block).Bare? <==>
            && !CarriesTheLine(line, block)
            && EachIntroduced(line, s, conversation, SummonedBy(block))
  {
    FirstExactly(line, s, conversation, KeyOf(block));
    hide FirstToSomeone, EachIntroduced;
  }

  // ─── The edge, updated in place ────────────────────────────────────────

  class Introductions {
    const line: string
    var conversations: map<int, Conversation>
    var spoke: map<int, seq<int>>

    constructor (line: string, conversations: map<int, Conversation>, spoke: map<int, seq<int>>)
      ensures this.line == line && State() == Store(conversations, spoke)
    {
      this.line := line;
      this.conversations := conversations;
      this.spoke := spoke;
    }

    function State(): Store
      reads this
    {
      Store(conversations, spoke)
    }

    /** What a delivery reads: its own conversation as loaded, every other as stored. */
    function Read(conversation: int, loaded: seq<Block>): (s: Store)
      requires conversation in conversations
      reads this
    {
      Store(conversations[conversation := conversations[conversation].(blocks := loaded)], spoke)
    }

    /** This conversation first, then every other one the person spoke in. */
    method IntroducedBefore(conversation: int, loaded: seq<Block>, principal: int, before: int)
      returns (introduced: bool)
      requires conversation in conversations
      ensures introduced == MetBefore(line, Read(conversation, loaded), conversation, principal, before)
    {
      if IntroductionIn(line, conversations[conversation].(blocks := loaded), principal, before) {
        return true;
      }
      var spokeIn := SpokeIn(State(), principal);
      for i := 0 to |spokeIn|
        invariant !IntroducedElsewhere(line, Read(conversation, loaded), conversation, spokeIn[..i], principal, before)
      {
        assert spokeIn[..i + 1] == spokeIn[..i] + [spokeIn[i]];
        if spokeIn[i] == conversation || spokeIn[i] !in conversations {
          continue;
        }
        if IntroductionIn(line, conversations[spokeIn[i]], principal, before) {
          return true;
        }
      }
      assert spokeIn[..|spokeIn|] == spokeIn;
      introduced := false;
    }

    /** Each person is asked about once, over a growing list of those already asked. */
    method FirstMessageToSomeone(conversation: int, loaded: seq<Block>, key: int) returns (first: bool)
      requires conversation in conversations
      ensures first == FirstToSomeone(line, Read(conversation, loaded), conversation, key)
    {
      var summoners := CoSummoners(conversations[conversation], key);
      if |summoners| == 0 {
        return true;
      }
      ghost var read := Read(conversation, loaded);
      var checked: seq<int> := [];
      for i := 0 to |summoners|
        invariant forall p | p in checked :: MetBefore(line, read, conversation, p, key)
        invariant forall k | 0 <= k < i :: Known(line, read, conversation, summoners[k], key)
      {
        if summoners[i].None? {
          assert !Known(line, read, conversation, summoners[i], key);
          return true;
        }
        var principal := summoners[i].value;
        if principal in checked {
          continue;
        }
        checked := checked + [principal];
        var introduced := IntroducedBefore(conversation, loaded, principal, key);
        if !introduced {
          assert !Known(line, read, conversation, summoners[i], key);
          return true;
        }
      }
      first := false;
    }

    /** Write the line into one stored block, once; a row without text has nothing to
        write it in front of. */
    method StoreLine(conversation: int, at: nat)
      requires conversation in conversations && at < |conversations[conversation].blocks|
      modifies this`conversations
      ensures State() == LineStored(line, old(State()), conversation, at)
    {
      var c := conversations[conversation];
      var body := c.blocks[at].body;
      if body.Outgoing? && body.text.Some? && !Opens(body.text.value, line) {
        body := body.(text := Some(Disclosed(line, body.text.value)));
      }
      assert c.blocks[at := LinedBlock(line, c.blocks[at])] == c.blocks[at := c.blocks[at].(body := body)];
      conversations := conversations[conversation := c.(blocks := c.blocks[at := c.blocks[at].(body := body)])];
    }

    /** Resolve the opening of one undelivered message over the conversation as loaded,
        whatever was appended to it since, writing the line into the stored block and the
        loaded one before the message goes out under it; a message that opens with the
        line already is repeated. */
    method IntroductionFor(conversation: int, loaded: seq<Block>, at: nat)
      returns (opening: Introduction, after: seq<Block>)
      requires conversation in conversations && at < |loaded| <= |conversations[conversation].blocks|
      requires loaded[at].body.Outgoing?
      modifies this`conversations
      ensures opening == OpeningOf(line, old(Read(conversation, loaded)), conversation, loaded[at])
      ensures opening.Bare? <==>
              && !CarriesTheLine(line, loaded[at])
              && var here := Conversation(loaded, old(conversations)[conversation].summoners);
              EachIntroduced(line, Store(old(conversations)[conversation := here], old(spoke)), conversation,
                             SummonedBy(loaded[at]))
      ensures opening.Lined? && !CarriesTheLine(line, loaded[at]) ==>
                var text := loaded[at].body.text;
                after == loaded[at := Block(loaded[at].id,
                                            Outgoing(Some(line + "\n\n" + if text.Some? then text.value else ""),
                                                     loaded[at].body.callBlock))]
      ensures after == if opening.Bare? || Opens(ContentOf(loaded[at]), line) then loaded
                       else loaded[at := WithText(loaded[at], Disclosed(line, ContentOf(loaded[at])))]
      ensures State() == if opening.Lined? && !Opens(ContentOf(loaded[at]), line)
                         then LineStored(line, old(State()), conversation, at) else old(State())
      ensures loaded == old(conversations)[conversation].blocks && loaded[at].body.text.Some? ==>
                State() == Resolved(line, old(State()), conversation, at)
                && conversation in conversations && after == conversations[conversation].blocks
    {
      var content := ContentOf(loaded[at]);
      BareExactly(line, Read(conversation, loaded), conversation, loaded[at]);
      if Opens(content, line) {
        OpenIsResolved(line, State(), conversation, at);
        return Lined, loaded;
      }
      var first := FirstMessageToSomeone(conversation, loaded, KeyOf(loaded[at]));
      if !first {
        return Bare, loaded;
      }
      StoreLine(conversation, at);
      after := loaded[at := WithText(loaded[at], Disclosed(line, content))];
      opening := Lined;
    }
  }

  // ─── Every run of deliveries and redeliveries ──────────────────────────

  datatype Step =
    | KeyRecorded(conversation: int, key: int, summoners: seq<Option<int>>)
    | PersonSpoke(principal: int, spokeIn: int)
    | MessageFiled(filedIn: int, text: string, callBlock: int)
    | Delivered(deliveredIn: int, at: nat)

  /** One delivery: the message it sent and the opening it sent it under. */
  datatype Delivery = Delivery(conversation: int, at: nat, opening: Introduction)

  /** The store, the id it issues next, every delivery made, and which messages were
      filed already opening with the line. */
  datatype Edge = Edge(store: Store, next: int, log: seq<Delivery>, filedLined: set<int>)

  predicate IsMessage(s: Store, conversation: int, at: nat) {
    && conversation in s.conversations && at < |s.conversations[conversation].blocks|
    && var body := s.conversations[conversation].blocks[at].body; body.Outgoing? && body.text.Some?
  }

  function Next(line: string, e: Edge, step: Step): Edge {
    match step
    case KeyRecorded(c, key, summoners) =>
      if c in e.store.conversations && key !in e.store.conversations[c].summoners then
        var conversation := e.store.conversations[c];
        e.(store := e.store.(conversations :=
          e.store.conversations[c := conversation.(summoners := conversation.summoners[key := summoners])]))
      else e
    case PersonSpoke(principal, c) =>
      e.(store := e.store.(spoke := e.store.spoke[principal := SpokeIn(e.store, principal) + [c]]))
    case MessageFiled(c, text, callBlock) =>
      if c in e.store.conversations then
        var conversation := e.store.conversations[c];
        e.(store := e.store.(conversations := e.store.conversations[c :=
             conversation.(blocks := conversation.blocks + [Block(e.next, Outgoing(Some(text), Some(callBlock)))])]),
           next := e.next + 1,
           filedLined := if Opens(text, line) then e.filedLined + {e.next} else e.filedLined)
      else e
    case Delivered(c, at) =>
      if IsMessage(e.store, c, at) then
        e.(store := Resolved(line, e.store, c, at),
           log := e.log + [Delivery(c, at, OpeningOf(line, e.store, c, e.store.conversations[c].blocks[at]))])
      else e
  }

  function Run(line: string, e: Edge, steps: seq<Step>): Edge
    decreases |steps|
  {
    if |steps| == 0 then e else Run(line, Next(line, e, steps[0]), steps[1..])
  }

  lemma {:induction false} RunByLast(line: string, e: Edge, steps: seq<Step>, step: Step)
    ensures Run(line, e, steps + [step]) == Next(line, Run(line, e, steps), step)
    decreases |steps|
  {
    if |steps| == 0 {
      assert steps + [step] == [step] && [step][1..] == [];
    } else {
      assert (steps + [step])[1..] == steps[1..] + [step];
      RunByLast(line, Next(line, e, steps[0]), steps[1..], step);
    }
  }

  /** What one step leaves: a key names its co-summoners once and for all, a person is known
      to have spoken where they did, a message stands at the end of its conversation under
      an id of its own, and a delivery is on record. */
  ghost predicate Taken(line: string, was: Edge, step: Step, now: Edge) {
    match step
    case KeyRecorded(c, key, summoners) =>
      c in was.store.conversations ==>
        && c in now.store.conversations && key in now.store.conversations[c].summoners
        && now.store.conversations[c].summoners[key] ==
           if key in was.store.conversations[c].summoners then was.store.conversations[c].summoners[key]
           else summoners
    case PersonSpoke(principal, c) =>
      principal in now.store.spoke && c in now.store.spoke[principal]
    case MessageFiled(c, text, callBlock) =>
      c in was.store.conversations ==>
        && c in now.store.conversations && now.next == was.next + 1
        && now.store.conversations[c].blocks ==
           was.store.conversations[c].blocks + [Block(was.next, Outgoing(Some(text), Some(callBlock)))]
        && (was.next in now.filedLined <==> was.next in was.filedLined || line + "\n\n" <= text)
    case Delivered(c, at) =>
      IsMessage(was.store, c, at) ==>
        |now.log| == |was.log| + 1 && now.log[|was.log|].conversation == c && now.log[|was.log|].at == at
  }

  /** Every step of every run is taken. */
  lemma EveryStepIsTaken(line: string, e: Edge, steps: seq<Step>, step: Step)
    ensures Taken(line, Run(line, e, steps), step, Run(line, e, steps + [step]))
  {
    RunByLast(line, e, steps, step);
    hide Run, Resolved, OpeningOf;
  }

  /** What one delivery still shows: a lined message carries its line; a bare one names
      somebody, and each of them is named by an earlier message opening with the line. */
  ghost predicate Stands(line: string, s: Store, delivery: Delivery) {
    && IsMessage(s, delivery.conversation, delivery.at)
    && var block := s.conversations[delivery.conversation].blocks[delivery.at];
    && (delivery.opening.Lined? ==> CarriesTheLine(line, block))
    && (delivery.opening.Bare? ==>
          !CarriesTheLine(line, block) && EachIntroduced(line, s, delivery.conversation, SummonedBy(block)))
  }

  /** A line standing in the store was filed there or went out with its message. */
  ghost predicate ReceiptIsHonest(line: string, e: Edge, conversation: int, at: nat) {
    IsMessage(e.store, conversation, at) ==>
      var block := e.store.conversations[conversation].blocks[at];
      CarriesTheLine(line, block) ==> block.id in e.filedLined || Delivery(conversation, at, Lined) in e.log
  }

  ghost predicate Honest(line: string, e: Edge) {
    && (forall k | 0 <= k < |e.log| :: Stands(line, e.store, e.log[k]))
    && (forall c: int, at: nat :: ReceiptIsHonest(line, e, c, at))
  }

  /** Nothing a reading rests on is ever taken back. */
  ghost predicate ConversationGrows(line: string, c: Conversation, d: Conversation) {
    && |c.blocks| <= |d.blocks|
    && (forall k | 0 <= k < |c.blocks| :: d.blocks[k] == c.blocks[k] || d.blocks[k] == LinedBlock(line, c.blocks[k]))
    && (forall key | key in c.summoners :: key in d.summoners && d.summoners[key] == c.summoners[key])
  }

  ghost predicate Grows(line: string, s: Store, t: Store) {
    && (forall c | c in s.conversations ::
          c in t.conversations && ConversationGrows(line, s.conversations[c], t.conversations[c]))
    && (forall p :: SpokeIn(s, p) <= SpokeIn(t, p))
  }

  lemma LinedBlockIsLined(line: string, block: Block)
    ensures LinedMessage(line, block) ==> LinedMessage(line, LinedBlock(line, block))
    ensures block.body.Outgoing? && block.body.text.Some? ==> LinedMessage(line, LinedBlock(line, block))
    ensures LinedBlock(line, block).id == block.id && SummoningKey(LinedBlock(line, block)) == SummoningKey(block)
    ensures LinedMessage(line, block) ==> LinedBlock(line, block) == block
  {
  }

  lemma NextGrows(line: string, e: Edge, step: Step)
    ensures Grows(line, e.store, Next(line, e, step).store)
  {
  }

  lemma IntroducedStays(line: string, s: Store, t: Store, conversation: int, key: int)
    requires Grows(line, s, t) && EachIntroduced(line, s, conversation, key)
    ensures EachIntroduced(line, t, conversation, key)
  {
    assert conversation in t.conversations;
    FirstExactly(line, s, conversation, key);
    FirstExactly(line, t, conversation, key);
    hide EachIntroduced;
  }

  /** One delivery leaves every earlier one standing, and stands itself. */
  lemma DeliveryStands(line: string, s: Store, t: Store, delivery: Delivery)
    requires Stands(line, s, delivery) && Grows(line, s, t)
    requires delivery.opening.Bare? ==>
               t.conversations[delivery.conversation].blocks[delivery.at]
               == s.conversations[delivery.conversation].blocks[delivery.at]
    ensures Stands(line, t, delivery)
  {
    var was := s.conversations[delivery.conversation].blocks[delivery.at];
    if delivery.opening.Bare? {
      IntroducedStays(line, s, t, delivery.conversation, SummonedBy(was));
    }
    hide EachIntroduced;
  }

  /** A message that went out bare is resolved bare again. */
  lemma BareStaysBare(line: string, e: Edge, step: Step, delivery: Delivery)
    requires Stands(line, e.store, delivery) && delivery.opening.Bare?
    ensures var t := Next(line, e, step).store;
            && delivery.conversation in t.conversations && delivery.at < |t.conversations[delivery.conversation].blocks|
            && t.conversations[delivery.conversation].blocks[delivery.at]
               == e.store.conversations[delivery.conversation].blocks[delivery.at]
  {
  }

  lemma NewDeliveryStands(line: string, e: Edge, c: int, at: nat)
    requires IsMessage(e.store, c, at)
    ensures Stands(line, Resolved(line, e.store, c, at),
                   Delivery(c, at, OpeningOf(line, e.store, c, e.store.conversations[c].blocks[at])))
  {
    BareExactly(line, e.store, c, e.store.conversations[c].blocks[at]);
    hide EachIntroduced, FirstToSomeone;
  }

  lemma NextStaysHonest(line: string, e: Edge, step: Step)
    requires Honest(line, e)
    ensures Honest(line, Next(line, e, step))
  {
    var f := Next(line, e, step);
    NextGrows(line, e, step);
    forall k | 0 <= k < |f.log| ensures Stands(line, f.store, f.log[k]) {
      if k < |e.log| {
        assert Stands(line, e.store, e.log[k]);
        if e.log[k].opening.Bare? { BareStaysBare(line, e, step, e.log[k]); }
        DeliveryStands(line, e.store, f.store, e.log[k]);
      } else {
        NewDeliveryStands(line, e, step.deliveredIn, step.at);
      }
    }
    forall c: int, at: nat ensures ReceiptIsHonest(line, f, c, at) {
      ReceiptStaysHonest(line, e, step, c, at);
    }
  }

  lemma ReceiptStaysHonest(line: string, e: Edge, step: Step, c: int, at: nat)
    requires Honest(line, e)
    ensures ReceiptIsHonest(line, Next(line, e, step), c, at)
  {
    assert ReceiptIsHonest(line, e, c, at);
    if step.Delivered? && IsMessage(e.store, step.deliveredIn, step.at) {
      var f := Next(line, e, step);
      assert f.log == e.log + [f.log[|e.log|]];
      if step.deliveredIn == c && step.at == at {
        assert f.log[|e.log|] in f.log;
      }
    }
  }

  /** Over every run of filings, deliveries and redeliveries: whatever went out bare
      speaks to somebody, and each of them is named by an earlier stored message opening
      with the line; whatever went out lined carries the line ever after; and every line
      standing in the store was filed or delivered there. */
  lemma {:induction false} EveryRunIsHonest(line: string, e: Edge, steps: seq<Step>)
    requires Honest(line, e)
    ensures Honest(line, Run(line, e, steps))
    decreases |steps|
  {
    if |steps| > 0 {
      NextStaysHonest(line, e, steps[0]);
      EveryRunIsHonest(line, Next(line, e, steps[0]), steps[1..]);
    }
  }

  /** A redelivery repeats the opening its message went out under, and stores nothing
      more: the receipt is never dropped and the line never stacked. */
  lemma RedeliveryRepeats(line: string, e: Edge, k: nat)
    requires Honest(line, e) && k < |e.log|
    ensures var delivery := e.log[k];
            var again := Next(line, e, Delivered(delivery.conversation, delivery.at));
            && again.log == e.log + [delivery]
            && again.store == e.store
  {
    var delivery := e.log[k];
    assert Stands(line, e.store, delivery);
    var c := e.store.conversations[delivery.conversation];
    LinedBlockIsLined(line, c.blocks[delivery.at]);
    if delivery.opening.Lined? {
      assert c.blocks[delivery.at := LinedBlock(line, c.blocks[delivery.at])] == c.blocks;
      assert e.store.conversations[delivery.conversation := c] == e.store.conversations;
    }
  }
}
