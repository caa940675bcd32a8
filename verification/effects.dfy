/** What a finished erasure, an interrupted one and the deletion mirror leave of every
    table, row by row. */
module Effects {
  import opened Vocabulary
  import opened Kind
  import opened Tables
  import opened Erasure
  import opened Convergence

  // ─── A finished erasure, row by row ────────────────────────────────────

  /** One conversation holds the block and a record of the person under the id. */
  ghost predicate TheirsThere(t: Tables, person: int, origin: string, b: int) {
    exists c: int, a: int ::
      && (c, a) in t.held && (c, b) in t.held
      && ((a in t.messages && t.messages[a].principalId == Some(person) && t.messages[a].origin == Some(origin))
          || (a in t.joins && t.joins[a].principalId == Some(person) && t.joins[a].origin == Some(origin)))
  }

  lemma TheirsExactly(t: Tables, person: int, origin: string, b: int)
    ensures Carries(t, person, origin, b) <==> TheirsThere(t, person, origin, b)
  {
    if TheirsThere(t, person, origin, b) {
      var c: int, a: int :|
        && (c, a) in t.held && (c, b) in t.held
        && ((a in t.messages && t.messages[a].principalId == Some(person) && t.messages[a].origin == Some(origin))
            || (a in t.joins && t.joins[a].principalId == Some(person) && t.joins[a].origin == Some(origin)));
      assert (c, a).1 == a && Share(t.held, a, b);
    }
    forall a: int | Share(t.held, a, b) && (a in t.messages || a in t.joins)
      ensures exists c: int :: (c, a) in t.held && (c, b) in t.held
    {
      SharedSomewhere(t.held, a, b);
    }
  }

  lemma SharedSomewhere(held: set<(int, int)>, a: int, b: int)
    requires Share(held, a, b)
    ensures exists c: int :: (c, a) in held && (c, b) in held
  {
    var pair :| pair in held && pair.1 == a && (pair.0, b) in held;
    var c := pair.0;
    assert pair == (c, a);
    assert (c, a) in held && (c, b) in held;
  }

  /** A copy in one block of an id the person carried in a conversation shared with it. */
  ghost predicate CopyOfTheirs(t: Tables, person: int, copy: Option<string>, b: int) {
    copy.Some? && TheirsThere(t, person, copy.value, b)
  }

  /** What one surviving message row becomes, read off the table as it stood before
      anything was touched. */
  ghost predicate MessageBecomes(t: Tables, person: int, b: int, now: ChatMessage)
    requires b in t.messages
  {
    var row := t.messages[b];
    if row.principalId == Some(person) then Stripped(row, now)
    else if CopyOfTheirs(t, person, row.replyTarget, b) then now == row.(replyTarget := None)
    else now == row
  }

  /** What an erasing pass owes a join row it reaches. */
  ghost predicate JoinStripped(was: JoinNotice, now: JoinNotice) {
    now.Bare() && now.principalId == was.principalId
  }

  ghost function ReportAfter(t: Tables, person: int, b: int): Report
    requires b in t.reports
  {
    var row := t.reports[b];
    if row.reportedPrincipalId == Some(person)
       || CopyOfTheirs(t, person, row.targetOrigin, b)
    then row.(targetOrigin := None) else row
  }

  ghost predicate RowsAfter(t: Tables, v: Tables, person: int) {
    && (forall b | b in v.headers :: b in t.headers && v.headers[b] == t.headers[b])
    && (forall b | b in v.messages :: b in t.messages && MessageBecomes(t, person, b, v.messages[b]))
    && (forall b | b in v.joins :: b in t.joins
          && if t.joins[b].principalId == Some(person) then JoinStripped(t.joins[b], v.joins[b])
             else v.joins[b] == t.joins[b])
    && (forall b | b in v.reports :: b in t.reports && v.reports[b] == ReportAfter(t, person, b))
    && (forall b | b in v.marks :: b in t.marks
          && v.marks[b] == if t.marks[b].markedPrincipalId == person
                           then t.marks[b].(targetOrigin := None) else t.marks[b])
    && (forall b | b in v.sends :: b in t.sends && v.sends[b] == t.sends[b])
  }

  /** A block's rows stay exactly while some conversation holds it. */
  ghost predicate RowsStayWhileHeld(t: Tables, v: Tables) {
    && (forall b | b in t.headers :: b in v.headers <==> HeldAnywhere(v.held, b))
    && (forall b | b in t.messages :: b in v.messages <==> HeldAnywhere(v.held, b))
    && (forall b | b in t.joins :: b in v.joins <==> HeldAnywhere(v.held, b))
    && (forall b | b in t.reports :: b in v.reports <==> HeldAnywhere(v.held, b))
    && (forall b | b in t.marks :: b in v.marks <==> HeldAnywhere(v.held, b))
    && (forall b | b in t.sends :: b in v.sends <==> HeldAnywhere(v.held, b))
  }

  /** The two copy passes read the same origins: the first nulls none. */
  lemma CopiesReadTheSameOrigins(t: Tables, person: int)
    ensures forall o: string, b: int ::
              Carries(ReplyTargetsNulled(t, person), person, o, b) <==> Carries(t, person, o, b)
  {
  }

  lemma PassedMessages(t: Tables, person: int)
    ensures var n := Passes(t, person, PASSES);
            && n.messages.Keys == t.messages.Keys
            && forall b | b in t.messages :: MessageBecomes(t, person, b, n.messages[b])
  {
    PassesInOrder(t, person);
    var n := Passes(t, person, PASSES);
    assert n.messages == ContentEmptied(ReplyTargetsNulled(t, person), person).messages;
    hide Passes, MessageBecomes, ContentEmptied, ReplyTargetsNulled;
    forall b | b in t.messages ensures b in n.messages && MessageBecomes(t, person, b, n.messages[b]) {
      PassedMessage(t, person, b);
    }
    assert n.messages.Keys == t.messages.Keys by {
      PassedKeys(t, person);
    }
  }

  lemma PassedKeys(t: Tables, person: int)
    ensures ContentEmptied(ReplyTargetsNulled(t, person), person).messages.Keys == t.messages.Keys
  {
    hide Carries;
  }

  lemma PassedMessage(t: Tables, person: int, b: int)
    requires b in t.messages
    ensures var messages := ContentEmptied(ReplyTargetsNulled(t, person), person).messages;
            b in messages && MessageBecomes(t, person, b, messages[b])
  {
    var row, named := t.messages[b], ReplyTargetsNulled(t, person);
    var left := if CopyOfTheirs(t, person, row.replyTarget, b) then row.(replyTarget := None) else row;
    ReplyPassed(t, person, b);
    ContentPassed(named, person, b);
    hide ReplyTargetsNulled, ContentEmptied, CopyOfTheirs;
    assert left.principalId == row.principalId;
    var now := ContentEmptied(named, person).messages[b];
    assert now == if row.principalId == Some(person) then left.Emptied() else left;
    EmptiedIsStripped(row, left);
    hide Stripped;
  }

  lemma EmptiedIsStripped(row: ChatMessage, left: ChatMessage)
    requires left == row || left == row.(replyTarget := None)
    ensures Stripped(row, left.Emptied())
  {
  }

  lemma ReplyPassed(t: Tables, person: int, b: int)
    requires b in t.messages
    ensures var messages, row := ReplyTargetsNulled(t, person).messages, t.messages[b];
            b in messages && messages[b] ==
            if CopyOfTheirs(t, person, row.replyTarget, b) then row.(replyTarget := None) else row
  {
    if t.messages[b].replyTarget.Some? {
      TheirsExactly(t, person, t.messages[b].replyTarget.value, b);
    }
    hide TheirsThere, Carries;
  }

  lemma ContentPassed(t: Tables, person: int, b: int)
    requires b in t.messages
    ensures var messages, row := ContentEmptied(t, person).messages, t.messages[b];
            b in messages && messages[b] == if row.principalId == Some(person) then row.Emptied() else row
  {
  }

  lemma PassedReports(t: Tables, person: int)
    ensures var n := Passes(t, person, PASSES);
            n.reports.Keys == t.reports.Keys && forall b | b in t.reports :: n.reports[b] == ReportAfter(t, person, b)
  {
    PassesInOrder(t, person);
    CopiesReadTheSameOrigins(t, person);
    assert Passes(t, person, PASSES).reports ==
           ReportedOriginsNulled(ReportTargetsNulled(ReplyTargetsNulled(t, person), person), person).reports;
    forall b | b in t.reports && t.reports[b].targetOrigin.Some? {
      TheirsExactly(t, person, t.reports[b].targetOrigin.value, b);
    }
    hide TheirsThere, Carries;
  }

  lemma PassedOthers(t: Tables, person: int)
    ensures var n := Passes(t, person, PASSES);
            && n.headers == t.headers && n.sends == t.sends
            && n.joins == JoinsEmptied(t, person).joins && n.marks == MarkedOriginsNulled(t, person).marks
  {
    PassesInOrder(t, person);
  }

  /** A completed erasure, exactly: every surviving row is the row it was but for the
      person's own personal columns and the copies of an origin they had in a shared
      conversation; co-joiners keep theirs; nothing leaves but the planned direct
      conversations, their mappings, and the blocks nothing else holds; the identity is
      a bare stub if it was flagged, and gone if not. */
  lemma ErasedExactly(t: Tables, person: int, conversations: seq<int>)
    requires person in t.principals && Enumerates(conversations, Plan(t, person))
    ensures var v := Erased(t, person, conversations);
            && (forall c :: c in Plan(t, person) <==> TheirDirect(t, person, c))
            && RowsAfter(t, v, person) && RowsStayWhileHeld(t, v)
            && v.held == (set pair | pair in t.held && pair.0 !in Plan(t, person))
            && v.channels == (map k | k in t.channels && t.channels[k].conversationId !in Plan(t, person) ::
                                t.channels[k])
            && v.principals == if t.principals[person].optedOut
                               then t.principals[person := t.principals[person].(username := None)]
                               else t.principals - {person}
  {
    var n, v := Passes(t, person, PASSES), Erased(t, person, conversations);
    FinishedIsPartway(t, person, conversations);
    WholeHoldsOnlyTheRest(t, person, conversations);
    PassedRowsStay(t, person, v);
    forall c {
      PlannedExactly(t, person, c);
    }
    hide RowsAfter, RowsStayWhileHeld, Passes, Erased, Clean, TheirDirect;
    NothingPlannedFixesTheRest(n, v, person);
  }

  /** The rows left are the passed ones of the blocks something still holds. */
  lemma PassedRowsStay(t: Tables, person: int, v: Tables)
    requires AllRowsOf(Passes(t, person, PASSES), v) && NoOrphans(v)
    ensures RowsAfter(t, v, person) && RowsStayWhileHeld(t, v)
  {
    hide Passes, RowsAfter, RowsStayWhileHeld;
    PassedRowsAfter(t, person, v);
    PassedRowsHeld(t, person, v);
  }

  lemma PassedRowsAfter(t: Tables, person: int, v: Tables)
    requires AllRowsOf(Passes(t, person, PASSES), v)
    ensures RowsAfter(t, v, person)
  {
    PassedMessages(t, person);
    PassedReports(t, person);
    PassedOthers(t, person);
    hide MessageBecomes, ReportAfter, Passes, HeldAnywhere;
  }

  lemma PassedRowsHeld(t: Tables, person: int, v: Tables)
    requires AllRowsOf(Passes(t, person, PASSES), v) && NoOrphans(v)
    ensures RowsStayWhileHeld(t, v)
  {
    PassedMessages(t, person);
    PassedReports(t, person);
    PassedOthers(t, person);
    hide MessageBecomes, ReportAfter, Passes, HeldAnywhere;
  }

  lemma FinishedIsPartway(t: Tables, person: int, conversations: seq<int>)
    requires person in t.principals && Enumerates(conversations, Plan(t, person))
    ensures var n, v := Passes(t, person, PASSES), Erased(t, person, conversations);
            && Partway(n, v, person) && Plan(v, person) == {} && NoOrphans(v)
            && v.principals == IdentityConcluded(n, person).principals
            && n.principals == t.principals && n.channels == t.channels && n.held == t.held
            && Plan(n, person) == Plan(t, person)
  {
    AttemptStaysUnderWay(t, t, person, conversations, Whole(conversations));
    PassesKeepThePlan(t, person, PASSES);
  }

  /** No row left holds a copy of an id the person carried in a shared conversation. */
  ghost predicate NoCopyIsLeft(t: Tables, v: Tables, person: int) {
    && (forall b | b in v.messages :: !CopyOfTheirs(t, person, v.messages[b].replyTarget, b))
    && (forall b | b in v.reports :: !CopyOfTheirs(t, person, v.reports[b].targetOrigin, b))
    && (forall b | b in v.marks :: !CopyOfTheirs(t, person, v.marks[b].targetOrigin, b))
    && (forall b | b in v.sends :: !CopyOfTheirs(t, person, v.sends[b].replyTo, b))
  }

  /** Some conversation that is not planned to go holds the block. */
  ghost predicate OutlivesThePlan(t: Tables, person: int, b: int) {
    exists pair | pair in t.held :: pair.1 == b && pair.0 !in Plan(t, person)
  }

  /** The copies no pass reaches: a send's reply target, which no pass reads, and a mark
      of somebody else under the same id, which none matches by that id. */
  ghost predicate UnreachedCopy(t: Tables, person: int) {
    || (exists b | b in t.sends :: OutlivesThePlan(t, person, b) && CopyOfTheirs(t, person, t.sends[b].replyTo, b))
    || (exists b | b in t.marks ::
          OutlivesThePlan(t, person, b) && t.marks[b].markedPrincipalId != person
          && CopyOfTheirs(t, person, t.marks[b].targetOrigin, b))
  }

  /** Nothing personal of theirs is left in their own rows; and no copy of an id they
      carried is left in anybody's, exactly when no surviving send replies to one and no
      surviving mark of somebody else sits on one. */
  lemma NothingPersonalIsLeft(t: Tables, person: int, conversations: seq<int>)
    requires person in t.principals && Enumerates(conversations, Plan(t, person))
    ensures var v := Erased(t, person, conversations);
            && Clean(v, person)
            && (NoCopyIsLeft(t, v, person) <==> !UnreachedCopy(t, person))
  {
    ErasedExactly(t, person, conversations);
    FinishedIsPartway(t, person, conversations);
    var v := Erased(t, person, conversations);
    hide Erased, Partway, NoOrphans, Clean, Plan, Carries, TheirsThere;
    assert forall b :: HeldAnywhere(v.held, b) <==> OutlivesThePlan(t, person, b);
    RowsAfterLeaveCopies(t, v, person);
  }

  lemma RowsAfterLeaveCopies(t: Tables, v: Tables, person: int)
    requires RowsAfter(t, v, person) && RowsStayWhileHeld(t, v)
    requires forall b :: HeldAnywhere(v.held, b) <==> OutlivesThePlan(t, person, b)
    ensures NoCopyIsLeft(t, v, person) <==> !UnreachedCopy(t, person)
  {
    hide TheirsThere, OutlivesThePlan, HeldAnywhere;
    if !UnreachedCopy(t, person) {
      forall b | b in v.messages ensures !CopyOfTheirs(t, person, v.messages[b].replyTarget, b) {
      }
      assert NoCopyIsLeft(t, v, person);
    } else if b :| b in t.sends && OutlivesThePlan(t, person, b) && CopyOfTheirs(t, person, t.sends[b].replyTo, b) {
      assert b in v.sends;
    } else {
      var b :| b in t.marks && OutlivesThePlan(t, person, b) && t.marks[b].markedPrincipalId != person
               && CopyOfTheirs(t, person, t.marks[b].targetOrigin, b);
      assert b in v.marks;
    }
  }

  // ─── Concluded last ────────────────────────────────────────────────────

  /** The identity goes last because it is what an attempt is keyed on: concluded
      first, an unflagged person is never found again, and every later attempt leaves
      every table as it stands. */
  lemma {:induction false} ConcludedFirstIsNeverRetried(t: Tables, person: int, tries: seq<Try>)
    requires person in t.principals && !t.principals[person].optedOut
    ensures var u := IdentityConcluded(t, person);
            Attempts(u, person, tries) == u && u.messages == t.messages && u.joins == t.joins
    decreases |tries|
  {
    if |tries| > 0 {
      var u := IdentityConcluded(t, person);
      ConcludedFirstIsNeverRetried(t, person, tries[1..]);
      assert Attempt(u, person, tries[0].conversations, tries[0].cut) == u;
    }
  }

  // ─── The one stop a retry does not make up for ─────────────────────────

  /** A planned conversation stands unmapped and still holds a block. */
  ghost predicate Stranded(t: Tables, u: Tables, person: int) {
    exists pair | pair in u.held :: pair.0 in Plan(t, person) && !Mapped(u, pair.0)
  }

  /** After any attempts, a whole one ends in the very tables one uninterrupted attempt
      ends in, exactly unless an earlier stop left a planned conversation stranded. */
  lemma RetriesAgreeUnlessStranded(t: Tables, person: int, tries: seq<Try>, last: seq<int>, whole: seq<int>)
    requires person in t.principals && Planned(t, person, tries)
    requires Enumerates(last, Plan(Attempts(t, person, tries), person)) && Enumerates(whole, Plan(t, person))
    ensures Erased(Attempts(t, person, tries), person, last) == Erased(t, person, whole)
            <==> !Stranded(t, Attempts(t, person, tries), person)
  {
    hide Attempts, Planned, Passes, Erased, Attempt, Plan, Mapped;
    hide Clean, RowsAgree, UnderWay, Partway, NoOrphans, IdentityConcluded;
    var u := Attempts(t, person, tries);
    var n, e, v := Passes(t, person, PASSES), Erased(t, person, whole), Erased(u, person, last);
    RetriesConverge(t, person, tries, last, whole);
    FinishedIsPartway(t, person, whole);
    WholeHoldsOnlyTheRest(t, person, whole);
    AttemptsStayUnderWay(t, t, person, tries);
    PlanOfTheUnderWay(t, u, person);
    LastIsPartway(t, u, person, last);
    if Stranded(t, u, person) {
      var pair :| pair in u.held && pair.0 in Plan(t, person) && !Mapped(u, pair.0);
      assert pair in v.held && pair !in e.held;
    } else {
      forall pair ensures pair in v.held <==> pair in e.held {
        if pair in u.held && pair.0 in Plan(t, person) { assert Mapped(u, pair.0); }
      }
      SameHeldSameRows(n, e, v, person);
    }
  }

  /** The last attempt, over whatever the earlier ones left: it ends finished, and holds
      what was not planned when it began. */
  lemma LastIsPartway(t: Tables, u: Tables, person: int, last: seq<int>)
    requires person in t.principals && UnderWay(t, u, person) && Enumerates(last, Plan(u, person))
    ensures var v := Erased(u, person, last);
            && Partway(Passes(t, person, PASSES), v, person) && NoOrphans(v)
            && v.held == set pair | pair in u.held && pair.0 !in Plan(u, person)
  {
    hide Passes, Plan, Mapped, Clean, UnderWay, Partway, NoOrphans, IdentityConcluded;
    if person in u.principals {
      AttemptStaysUnderWay(t, u, person, last, Whole(last));
      WholeHoldsOnlyTheRest(u, person, last);
    } else {
      ConcludedIsPartway(t, u, person);
      assert Erased(u, person, last) == u;
    }
  }

  lemma ConcludedIsPartway(t: Tables, u: Tables, person: int)
    requires UnderWay(t, u, person) && person in t.principals && person !in u.principals
    ensures Partway(Passes(t, person, PASSES), u, person) && Plan(u, person) == {} && NoOrphans(u)
  {
    PassesKeepThePlan(t, person, PASSES);
    PassesKeepThePlan(u, person, PASSES);
  }

  lemma PlanOfTheUnderWay(t: Tables, u: Tables, person: int)
    requires UnderWay(t, u, person)
    ensures forall c :: c in Plan(u, person) <==> c in Plan(t, person) && Mapped(u, c)
    ensures u.held <= t.held
    ensures forall pair | pair in t.held && pair.0 !in Plan(t, person) :: pair in u.held
  {
    var n := Passes(t, person, PASSES);
    PassesKeepThePlan(t, person, PASSES);
    if Partway(n, u, person) {
      PlanIsWhatIsStillMapped(n, u, person);
    } else {
      PassesKeepThePlan(u, person, PASSES);
      forall c | c in Plan(u, person) ensures Mapped(u, c) {
        var k :| k in u.channels && u.channels[k].conversationId == c;
      }
    }
  }

  lemma SameRows<Row(!new)>(all: map<int, Row>, a: map<int, Row>, b: map<int, Row>, held: set<(int, int)>)
    requires RowsOf(all, a, held) && RowsOf(all, b, held)
    requires forall k | k in a || k in b :: HeldAnywhere(held, k)
    ensures a == b
  {
    forall k ensures k in a <==> k in b {
    }
    assert a.Keys == b.Keys;
    assert forall k | k in a :: a[k] == all[k] && b[k] == all[k];
  }

  lemma SameHeldSameRows(n: Tables, e: Tables, v: Tables, person: int)
    requires Partway(n, e, person) && Partway(n, v, person) && NoOrphans(e) && NoOrphans(v)
    requires v.held == e.held && v.channels == e.channels && v.principals == e.principals
    ensures v == e
  {
    SameRows(n.headers, v.headers, e.headers, e.held);
    SameRows(n.messages, v.messages, e.messages, e.held);
    SameRows(n.joins, v.joins, e.joins, e.held);
    SameRows(n.reports, v.reports, e.reports, e.held);
    SameRows(n.marks, v.marks, e.marks, e.held);
    SameRows(n.sends, v.sends, e.sends, e.held);
  }

  ghost predicate Distinct(conversations: seq<int>) {
    forall i, j | 0 <= i < j < |conversations| :: conversations[i] != conversations[j]
  }

  /** The stop lies between one conversation's unmapping and its deletion. */
  predicate CutsBetween(conversations: seq<int>, cut: nat) {
    PASSES < cut < PASSES + 2 * |conversations| && (cut - PASSES) % 2 == 1
  }

  /** One stopped attempt and one retry end where one uninterrupted attempt ends,
      exactly unless the stop fell between a conversation's unmapping and its
      deletion: that conversation is no longer planned and keeps its blocks. */
  lemma OneStopAgreesExactly(t: Tables, person: int, conversations: seq<int>, cut: nat, last: seq<int>)
    requires person in t.principals && Enumerates(conversations, Plan(t, person)) && Distinct(conversations)
    requires Enumerates(last, Plan(Attempt(t, person, conversations, cut), person))
    ensures Erased(Attempt(t, person, conversations, cut), person, last) == Erased(t, person, conversations)
            <==> !CutsBetween(conversations, cut)
  {
    var tries := [Try(conversations, cut)];
    var u := Attempt(t, person, conversations, cut);
    assert Attempts(u, person, tries[1..]) == u && Planned(u, person, tries[1..]);
    assert Attempts(t, person, tries) == u;
    RetriesAgreeUnlessStranded(t, person, tries, last, conversations);
    if cut <= PASSES {
      PassesKeepThePlan(t, person, cut);
      PlannedIsMapped(u, person);
    } else if cut < PASSES + 2 * |conversations| {
      CutInTheLoop(t, person, conversations, cut);
    } else {
      PastTheLoopNothingIsStranded(t, person, conversations, cut);
    }
  }

  lemma PlannedIsMapped(u: Tables, person: int)
    ensures forall c | c in Plan(u, person) :: Mapped(u, c)
  {
  }

  lemma CutInTheLoop(t: Tables, person: int, conversations: seq<int>, cut: nat)
    requires person in t.principals && Enumerates(conversations, Plan(t, person)) && Distinct(conversations)
    requires PASSES < cut < PASSES + 2 * |conversations|
    ensures Stranded(t, Attempt(t, person, conversations, cut), person) <==> CutsBetween(conversations, cut)
  {
    var n, m := Passes(t, person, PASSES), cut - PASSES;
    var u := Attempt(t, person, conversations, cut);
    PassesKeepThePlan(t, person, PASSES);
    RemovingExactly(n, conversations, m);
    PlannedIsMapped(n, person);
    if m % 2 == 1 {
      var c := conversations[m / 2];
      assert conversations[..(m + 1) / 2][m / 2] == c;
      assert c in conversations && c in Plan(t, person);
      var k :| k in t.channels && t.channels[k].conversationId == c && CarriesPerson(t, person, c);
      var b :| b in t.messages && (c, b) in t.held;
      assert (c, b) in u.held && !Mapped(u, (c, b).0);
    } else {
      forall pair | pair in u.held && pair.0 in Plan(t, person) ensures Mapped(u, pair.0) {
      }
    }
  }

  lemma PastTheLoopHeld(t: Tables, person: int, conversations: seq<int>, cut: nat)
    requires person in t.principals && cut > PASSES && cut >= PASSES + 2 * |conversations|
    ensures forall pair | pair in Attempt(t, person, conversations, cut).held :: pair.0 !in conversations
  {
    hide Passes, Removing;
    PastTheLoop(Passes(t, person, PASSES), conversations, cut - PASSES);
  }

  lemma PastTheLoopNothingIsStranded(t: Tables, person: int, conversations: seq<int>, cut: nat)
    requires person in t.principals && Enumerates(conversations, Plan(t, person))
    requires cut > PASSES && cut >= PASSES + 2 * |conversations|
    ensures !Stranded(t, Attempt(t, person, conversations, cut), person)
  {
    hide Attempt, Plan, Mapped;
    PastTheLoopHeld(t, person, conversations, cut);
  }

  // ─── The deletion mirror, row by row ───────────────────────────────────

  /** What the mirror of a recorded id leaves of one message row, and of one join. */
  ghost predicate MessageMirrored(t: Tables, conversation: int, named: string, b: int, now: ChatMessage)
    requires b in t.messages
  {
    var row := t.messages[b];
    if (conversation, b) !in t.held then now == row
    else if row.origin == Some(named) || row.revises == Some(named) then Stripped(row, now)
    else now == if row.replyTarget == Some(named) then row.(replyTarget := None) else row
  }

  ghost predicate JoinMirrored(t: Tables, conversation: int, named: string, b: int, now: JoinNotice)
    requires b in t.joins
  {
    if (conversation, b) in t.held && t.joins[b].origin == Some(named) then JoinStripped(t.joins[b], now)
    else now == t.joins[b]
  }

  /** The mirror, exactly: an id the conversation never recorded changes nothing; a
      recorded one is emptied out of every version and every join under it, and nulled
      out of every reply, report and mark the conversation holds. Rows the conversation
      does not hold, and rows that never named it, are untouched. */
  lemma MirroredExactly(t: Tables, conversation: int, named: string)
    ensures var v := Mirrored(t, conversation, named);
            if !Recorded(t, conversation, named) then v == t
            else
              && v.(messages := t.messages, joins := t.joins, reports := t.reports, marks := t.marks) == t
              && v.messages.Keys == t.messages.Keys && v.joins.Keys == t.joins.Keys
              && (forall b | b in t.messages :: MessageMirrored(t, conversation, named, b, v.messages[b]))
              && (forall b | b in t.joins :: JoinMirrored(t, conversation, named, b, v.joins[b]))
              && v.reports == (map b | b in t.reports ::
                   if (conversation, b) in t.held && t.reports[b].targetOrigin == Some(named)
                   then t.reports[b].(targetOrigin := None) else t.reports[b])
              && v.marks == (map b | b in t.marks ::
                   if (conversation, b) in t.held && t.marks[b].targetOrigin == Some(named)
                   then t.marks[b].(targetOrigin := None) else t.marks[b])
  {
    if !Recorded(t, conversation, named) {
      UnrecordedMirrorIsIdle(t, conversation, named);
    } else {
      MirroredRows(t, conversation, named);
      hide Recorded, MessageMirrored, JoinMirrored;
    }
  }

  lemma MirroredRows(t: Tables, conversation: int, named: string)
    requires Recorded(t, conversation, named)
    ensures var v := Mirrored(t, conversation, named);
            && v.messages.Keys == t.messages.Keys && v.joins.Keys == t.joins.Keys
            && (forall b | b in t.messages :: MessageMirrored(t, conversation, named, b, v.messages[b]))
            && (forall b | b in t.joins :: JoinMirrored(t, conversation, named, b, v.joins[b]))
  {
    var v := Mirrored(t, conversation, named);
    var emptied := EventNamedEmptied(MessageNamedEmptied(t, conversation, named), conversation, named);
    assert v.messages == ReplyReferencesNulled(emptied, conversation, named).messages;
    hide Recorded, Mirrored;
  }

  lemma UnrecordedMirrorIsIdle(t: Tables, conversation: int, named: string)
    requires !Recorded(t, conversation, named)
    ensures Mirrored(t, conversation, named) == t
  {
    var emptied := EventNamedEmptied(MessageNamedEmptied(t, conversation, named), conversation, named);
    forall b | b in t.messages ensures !(t.messages[b].AnswersTo(named) && (conversation, b) in t.held) {
    }
    forall b | b in t.joins ensures !(t.joins[b].origin == Some(named) && (conversation, b) in t.held) {
    }
    assert emptied.messages == t.messages && emptied.joins == t.joins;
  }

  ghost predicate NamedNowhere(t: Tables, conversation: int, named: string) {
    && !Recorded(t, conversation, named)
    && (forall b | b in t.messages && (conversation, b) in t.held :: t.messages[b].replyTarget != Some(named))
    && (forall b | b in t.reports && (conversation, b) in t.held :: t.reports[b].targetOrigin != Some(named))
    && (forall b | b in t.marks && (conversation, b) in t.held :: t.marks[b].targetOrigin != Some(named))
    && !RepliedTo(t, conversation, named)
  }

  /** A send of the conversation threads onto the id. */
  predicate RepliedTo(t: Tables, conversation: int, named: string) {
    exists b | b in t.sends :: (conversation, b) in t.held && t.sends[b].replyTo == Some(named)
  }

  /** A mirrored deletion leaves the id recorded nowhere in its conversation, and a second
      run of it finds nothing. Of a recorded id it leaves no copy either, exactly when no
      send of the conversation replies to it; an id that was never recorded keeps its
      copies. */
  lemma MirrorLeavesTheIdNowhere(t: Tables, conversation: int, named: string)
    ensures var v := Mirrored(t, conversation, named);
            && !Recorded(v, conversation, named) && Mirrored(v, conversation, named) == v
            && (Recorded(t, conversation, named) ==>
                  (NamedNowhere(v, conversation, named) <==> !RepliedTo(t, conversation, named)))
  {
    MirrorUnrecords(t, conversation, named);
    MirroredExactly(Mirrored(t, conversation, named), conversation, named);
    if Recorded(t, conversation, named) {
      MirroredExactly(t, conversation, named);
      hide Mirrored, Recorded;
    }
  }

  lemma MirrorUnrecords(t: Tables, conversation: int, named: string)
    ensures !Recorded(Mirrored(t, conversation, named), conversation, named)
  {
    MirroredExactly(t, conversation, named);
    hide Mirrored;
  }

  /** A reply the assistant sends to any recorded id outlives that id's deletion: the
      mirror leaves it in the send, row and all. */
  lemma AReplyOutlivesTheDeletion(t: Tables, conversation: int, block: int,
                                  send: FiledSend, own: set<string>, named: string)
    requires Recorded(t, conversation, named) && send.replyTo == Some(named)
    requires !CallHasSend(t, conversation, send.callBlock)
    ensures var u := SendFiled(t, conversation, block, send, own).0;
            var v := Mirrored(u, conversation, named);
            && Recorded(u, conversation, named) && !Recorded(v, conversation, named)
            && block in v.sends && v.sends[block] == send && (conversation, block) in v.held
            && !NamedNowhere(v, conversation, named)
  {
    var u := SendFiled(t, conversation, block, send, own).0;
    RecordedStays(t, conversation, block, send, own, named);
    hide Mirrored, Recorded, SendFiled;
    MirroredExactly(u, conversation, named);
    MirrorLeavesTheIdNowhere(u, conversation, named);
    FiledSendReplies(t, conversation, block, send, own, named);
  }

  lemma RecordedStays(t: Tables, conversation: int, block: int, send: FiledSend, own: set<string>, named: string)
    requires Recorded(t, conversation, named)
    ensures Recorded(SendFiled(t, conversation, block, send, own).0, conversation, named)
  {
  }

  lemma FiledSendReplies(t: Tables, conversation: int, block: int, send: FiledSend, own: set<string>, named: string)
    requires Recorded(t, conversation, named) && send.replyTo == Some(named)
    requires !CallHasSend(t, conversation, send.callBlock)
    ensures var u := SendFiled(t, conversation, block, send, own).0;
            && RepliedTo(u, conversation, named) && (conversation, block) in u.held
            && block in u.sends && u.sends[block] == send
  {
    hide Recorded;
    assert (conversation, block) in SendFiled(t, conversation, block, send, own).0.held;
  }

  /** And its author's erasure, in any conversation that is not removed with them. */
  lemma AReplyOutlivesItsAuthor(t: Tables, person: int, conversations: seq<int>,
                                conversation: int, block: int, send: FiledSend, own: set<string>, a: int)
    requires a in t.messages && (conversation, a) in t.held && t.messages[a].principalId == Some(person)
    requires t.messages[a].origin.Some? && send.replyTo == t.messages[a].origin
    requires !CallHasSend(t, conversation, send.callBlock)
    requires var u := SendFiled(t, conversation, block, send, own).0;
             person in u.principals && Enumerates(conversations, Plan(u, person)) && conversation !in Plan(u, person)
    ensures var u := SendFiled(t, conversation, block, send, own).0;
            var v := Erased(u, person, conversations);
            block in v.sends && v.sends[block] == send && !NoCopyIsLeft(u, v, person)
  {
    var u := SendFiled(t, conversation, block, send, own).0;
    var named := send.replyTo.value;
    assert Recorded(t, conversation, named);
    FiledSendReplies(t, conversation, block, send, own, named);
    assert a in u.messages && u.messages[a] == t.messages[a] && (conversation, a) in u.held;
    assert Share(u.held, a, block) by { assert (conversation, a).1 == a && (conversation, block) in u.held; }
    assert CopyOfTheirs(u, person, send.replyTo, block);
    hide SendFiled, Recorded, RepliedTo, Share, Plan, TheirsThere, CopyOfTheirs;
    ErasedExactly(u, person, conversations);
    var v := Erased(u, person, conversations);
    assert (conversation, block) in v.held && HeldAnywhere(v.held, block) by {
      assert (conversation, block).1 == block;
    }
    hide Erased;
  }

  // ─── Identities nothing names ──────────────────────────────────────────

  /** Nobody a surviving row names ever loses their identity row, and no objection is
      ever forgotten; everybody else goes, and a second sweep takes nobody. Rows of
      somebody already deleted bring nobody back. */
  lemma UnnamedGoExactly(t: Tables)
    ensures var v := UnnamedDeleted(t);
            && v.(principals := t.principals) == t
            && (forall p :: p in v.principals <==>
                  p in t.principals && (NamedSomewhere(t, p) || t.principals[p].optedOut))
            && (forall p | p in v.principals :: v.principals[p] == t.principals[p])
            && UnnamedDeleted(v) == v
  {
    forall p {
      NamedExactly(t, p);
    }
    hide NamedSomewhere;
  }
}
