/** The person-wide erasure: its plan, its passes in their one order, and what any
    number of interrupted attempts come to. */
module Erasure {
  import opened Vocabulary
  import opened Kind
  import opened Tables

  const PASSES: nat := 6

  /** The passes in the order the composition runs them: the copies before the
      origins they are matched through. */
  function Pass(t: Tables, person: int, k: nat): Tables
    requires k < PASSES
  {
    match k
    case 0 => ReplyTargetsNulled(t, person)
    case 1 => ReportTargetsNulled(t, person)
    case 2 => ContentEmptied(t, person)
    case 3 => JoinsEmptied(t, person)
    case 4 => ReportedOriginsNulled(t, person)
    case 5 => MarkedOriginsNulled(t, person)
  }

  function Passes(t: Tables, person: int, n: nat): Tables
    requires n <= PASSES
  {
    if n == 0 then t else Pass(Passes(t, person, n - 1), person, n - 1)
  }

  /** The direct conversations that carry the person's messages. */
  function Plan(t: Tables, person: int): set<int> {
    set k | k in t.channels && t.channels[k].kind == Direct && CarriesPerson(t, person, t.channels[k].conversationId)
      :: t.channels[k].conversationId
  }

  predicate CarriesPerson(t: Tables, person: int, conversation: int) {
    exists b | b in t.messages :: (conversation, b) in t.held && t.messages[b].principalId == Some(person)
  }

  /** A channel record maps the conversation as a direct one, and it holds a message of the
      person's. */
  ghost predicate TheirDirect(t: Tables, person: int, conversation: int) {
    && (exists k | k in t.channels :: t.channels[k] == ChannelRecord(Direct, conversation))
    && (exists b | b in t.messages :: (conversation, b) in t.held && t.messages[b].principalId == Some(person))
  }

  lemma PlannedExactly(t: Tables, person: int, conversation: int)
    ensures conversation in Plan(t, person) <==> TheirDirect(t, person, conversation)
  {
    if TheirDirect(t, person, conversation) {
      var k :| k in t.channels && t.channels[k] == ChannelRecord(Direct, conversation);
      assert t.channels[k].conversationId == conversation && t.channels[k].kind == Direct;
    }
  }

  /** A row of one of the four families, its block, and the person it names. */
  ghost predicate NamedIn(t: Tables, person: int, b: int) {
    || (b in t.messages && t.messages[b].principalId == Some(person))
    || (b in t.joins && t.joins[b].principalId == Some(person))
    || (b in t.reports && t.reports[b].reportedPrincipalId == Some(person))
    || (b in t.marks && t.marks[b].markedPrincipalId == person)
  }

  ghost predicate NamedSomewhere(t: Tables, person: int) {
    exists b :: NamedIn(t, person, b)
  }

  lemma NamedExactly(t: Tables, person: int)
    ensures Named(t, person) <==> NamedSomewhere(t, person)
  {
    assert forall b | b in t.messages && t.messages[b].principalId == Some(person) :: NamedIn(t, person, b);
    assert forall b | b in t.joins && t.joins[b].principalId == Some(person) :: NamedIn(t, person, b);
    assert forall b | b in t.reports && t.reports[b].reportedPrincipalId == Some(person) :: NamedIn(t, person, b);
    assert forall b | b in t.marks && t.marks[b].markedPrincipalId == person :: NamedIn(t, person, b);
  }

  ghost predicate Enumerates(conversations: seq<int>, planned: set<int>) {
    forall c :: c in conversations <==> c in planned
  }

  /** The first `n` store operations of the removal loop: each conversation is
      unmapped, then deleted. */
  function Removing(t: Tables, conversations: seq<int>, n: nat): Tables
    decreases |conversations|
  {
    if n == 0 || |conversations| == 0 then t
    else if n == 1 then Unmapped(t, conversations[0])
    else Removing(ConversationDeleted(Unmapped(t, conversations[0]), conversations[0]), conversations[1..], n - 2)
  }

  /** How many store operations one whole attempt takes. */
  function Whole(conversations: seq<int>): nat {
    PASSES + 2 * |conversations| + 2
  }

  /** One attempt cut after `cut` store operations, over one order of its plan. A
      person no identity row names is not found, and nothing is touched. */
  function Attempt(t: Tables, person: int, conversations: seq<int>, cut: nat): Tables {
    if person !in t.principals then t
    else if cut <= PASSES then Passes(t, person, cut)
    else
      var removed := Removing(Passes(t, person, PASSES), conversations, cut - PASSES);
      if cut <= PASSES + 2 * |conversations| then removed
      else if cut == Whole(conversations) - 1 then OrphansCollected(removed)
      else IdentityConcluded(OrphansCollected(removed), person)
  }

  function Erased(t: Tables, person: int, conversations: seq<int>): Tables {
    Attempt(t, person, conversations, Whole(conversations))
  }

  // ─── The store, updated in place ───────────────────────────────────────

  class Store {
    var held: set<(int, int)>
    var headers: map<int, string>
    var messages: map<int, ChatMessage>
    var joins: map<int, JoinNotice>
    var reports: map<int, Report>
    var marks: map<int, MessageMark>
    var sends: map<int, FiledSend>
    var channels: map<ChannelKey, ChannelRecord>
    var principals: map<int, Identity>

    function State(): Tables
      reads this
    {
      Tables(held, headers, messages, joins, reports, marks, sends, channels, principals)
    }

    method EraseReplyTargetsNaming(person: int)
      modifies this`messages
      ensures State() == ReplyTargetsNulled(old(State()), person)
    {
      messages := ReplyTargetsNulled(State(), person).messages;
    }

    method EraseReportTargetsNaming(person: int)
      modifies this`reports
      ensures State() == ReportTargetsNulled(old(State()), person)
    {
      reports := ReportTargetsNulled(State(), person).reports;
    }

    method ErasePrincipalContent(person: int)
      modifies this`messages
      ensures State() == ContentEmptied(old(State()), person)
    {
      messages := ContentEmptied(State(), person).messages;
    }

    method ErasePrincipalJoins(person: int)
      modifies this`joins
      ensures State() == JoinsEmptied(old(State()), person)
    {
      joins := JoinsEmptied(State(), person).joins;
    }

    method EraseReportedOrigin(person: int)
      modifies this`reports
      ensures State() == ReportedOriginsNulled(old(State()), person)
    {
      reports := ReportedOriginsNulled(State(), person).reports;
    }

    method EraseMarkedOrigin(person: int)
      modifies this`marks
      ensures State() == MarkedOriginsNulled(old(State()), person)
    {
      marks := MarkedOriginsNulled(State(), person).marks;
    }

    /** Every direct conversation the person's messages reach, read off the mapping
        one channel at a time; `None` when no identity row matches. */
    method PlanFor(person: int) returns (plan: Option<seq<int>>)
      ensures plan.Some? <==> person in principals
      ensures plan.Some? ==> Enumerates(plan.value, Plan(State(), person))
      ensures plan.Some? ==> forall c :: c in plan.value <==> TheirDirect(State(), person, c)
    {
      if person !in principals {
        return None;
      }
      var affected: seq<int> := [];
      var unread := channels.Keys;
      while unread != {}
        invariant unread <= channels.Keys
        invariant forall c :: c in affected <==>
                    exists k | k in channels.Keys - unread ::
                      channels[k].kind == Direct && channels[k].conversationId == c && CarriesPerson(State(), person, c)
        decreases unread
      {
        var key :| key in unread;
        unread := unread - {key};
        if channels[key].kind == Direct && CarriesPerson(State(), person, channels[key].conversationId) {
          affected := affected + [channels[key].conversationId];
        }
      }
      plan := Some(affected);
      forall c {
        PlannedExactly(State(), person, c);
      }
    }

    /** The six nulling passes, in their order. */
    method EmptyPerson(person: int)
      modifies this`messages, this`joins, this`reports, this`marks
      ensures State() == Passes(old(State()), person, PASSES)
    {
      PassesInOrder(State(), person);
      EraseReplyTargetsNaming(person);
      EraseReportTargetsNaming(person);
      ErasePrincipalContent(person);
      ErasePrincipalJoins(person);
      EraseReportedOrigin(person);
      EraseMarkedOrigin(person);
    }

    /** Unmap each conversation, then delete it. */
    method RemoveConversations(conversations: seq<int>)
      modifies this`channels, this`held
      ensures State() == Removing(old(State()), conversations, 2 * |conversations|)
    {
      ghost var was := State();
      for i := 0 to |conversations|
        invariant Removing(was, conversations, 2 * |conversations|)
               == Removing(State(), conversations[i..], 2 * (|conversations| - i))
      {
        assert conversations[i..][1..] == conversations[i + 1..];
        channels := Unmapped(State(), conversations[i]).channels;
        held := ConversationDeleted(State(), conversations[i]).held;
      }
    }

    method CollectOrphanBlocks()
      modifies this`headers, this`messages, this`joins, this`reports, this`marks, this`sends
      ensures State() == OrphansCollected(old(State()))
    {
      var collected := OrphansCollected(State());
      headers, messages, joins, reports, marks, sends :=
        collected.headers, collected.messages, collected.joins, collected.reports, collected.marks, collected.sends;
    }

    method ConcludeErasure(person: int)
      modifies this`principals
      ensures State() == IdentityConcluded(old(State()), person)
    {
      principals := IdentityConcluded(State(), person).principals;
    }

    /** Run one planned erasure to its end. */
    method Execute(person: int, conversations: seq<int>)
      requires person in principals
      modifies this
      ensures State() == Erased(old(State()), person, conversations)
    {
      EmptyPerson(person);
      RemovingStops(State(), conversations, 2 * |conversations| + 2);
      RemoveConversations(conversations);
      CollectOrphanBlocks();
      ConcludeErasure(person);
    }

    /** The deletion mirror, copies nulled exactly when a record was there. */
    method MirrorNamedDeletion(conversation: int, named: string)
      modifies this`messages, this`joins, this`reports, this`marks
      ensures State() == Mirrored(old(State()), conversation, named)
    {
      var found := Recorded(State(), conversation, named);
      messages := MessageNamedEmptied(State(), conversation, named).messages;
      joins := EventNamedEmptied(State(), conversation, named).joins;
      if found {
        messages := ReplyReferencesNulled(State(), conversation, named).messages;
        reports := ReportReferencesNulled(State(), conversation, named).reports;
        marks := MarkReferencesNulled(State(), conversation, named).marks;
      }
    }

    /** Delete every unflagged identity no surviving row names, answering how many: an
        identity stays, as it is, exactly while a row names it or its objection stands. */
    method CollectUnnamedPrincipals() returns (gone: nat)
      modifies this`principals
      ensures forall p :: p in principals <==>
                p in old(principals) && (NamedSomewhere(old(State()), p) || old(principals)[p].optedOut)
      ensures forall p | p in principals :: principals[p] == old(principals)[p]
      ensures |principals| + gone == |old(principals)|
      ensures State() == UnnamedDeleted(old(State()))
    {
      forall p {
        NamedExactly(State(), p);
      }
      hide Named, NamedSomewhere;
      var unnamed := set p | p in principals && !principals[p].optedOut && !Named(State(), p);
      gone := |unnamed|;
      LeavingCounts(principals, unnamed);
      var kept := principals - unnamed;
      assert kept == UnnamedDeleted(State()).principals;
      principals := kept;
    }
  }

  lemma LeavingCounts<K, V>(all: map<K, V>, leaving: set<K>)
    requires leaving <= all.Keys
    ensures |all - leaving| + |leaving| == |all|
  {
    assert all.Keys == (all - leaving).Keys + leaving;
    assert |all| == |all.Keys| && |all - leaving| == |(all - leaving).Keys|;
  }

  lemma PassesInOrder(t: Tables, person: int)
    ensures Passes(t, person, PASSES) ==
            MarkedOriginsNulled(
              ReportedOriginsNulled(
                JoinsEmptied(
                  ContentEmptied(
                    ReportTargetsNulled(ReplyTargetsNulled(t, person), person), person), person), person), person)
  {
    assert Passes(t, person, 1) == ReplyTargetsNulled(t, person);
    assert Passes(t, person, 2) == ReportTargetsNulled(Passes(t, person, 1), person);
    assert Passes(t, person, 3) == ContentEmptied(Passes(t, person, 2), person);
    assert Passes(t, person, 4) == JoinsEmptied(Passes(t, person, 3), person);
    assert Passes(t, person, 5) == ReportedOriginsNulled(Passes(t, person, 4), person);
  }

  /** The removal loop has nothing left past its last conversation. */
  lemma {:induction false} RemovingStops(t: Tables, conversations: seq<int>, n: nat)
    requires n >= 2 * |conversations|
    ensures Removing(t, conversations, n) == Removing(t, conversations, 2 * |conversations|)
    decreases |conversations|
  {
    if |conversations| > 0 {
      RemovingStops(ConversationDeleted(Unmapped(t, conversations[0]), conversations[0]), conversations[1..], n - 2);
    }
  }
}
