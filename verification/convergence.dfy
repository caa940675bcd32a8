/** Interrupted erasures: why any number of attempts cut anywhere, followed by a whole
    one, come to what one uninterrupted attempt comes to. */
module Convergence {
  import opened Vocabulary
  import opened Kind
  import opened Tables
  import opened Erasure

  // ─── The six passes resume ─────────────────────────────────────────────

  /** One pass has nothing left to reach. */
  ghost predicate Settled(t: Tables, person: int, k: nat)
    requires k < PASSES
  {
    match k
    case 0 => forall b | b in t.messages && t.messages[b].replyTarget.Some? ::
      !Carries(t, person, t.messages[b].replyTarget.value, b)
    case 1 => forall b | b in t.reports && t.reports[b].targetOrigin.Some? ::
      !Carries(t, person, t.reports[b].targetOrigin.value, b)
    case 2 => forall b | b in t.messages && t.messages[b].principalId == Some(person) ::
      t.messages[b].Bare()
    case 3 => forall b | b in t.joins && t.joins[b].principalId == Some(person) ::
      t.joins[b].Bare()
    case 4 => forall b | b in t.reports && t.reports[b].reportedPrincipalId == Some(person) ::
      t.reports[b].targetOrigin.None?
    case 5 => forall b | b in t.marks && t.marks[b].markedPrincipalId == person ::
      t.marks[b].targetOrigin.None?
  }

  ghost predicate Clean(t: Tables, person: int) {
    forall k: nat | k < PASSES :: Settled(t, person, k)
  }

  predicate MessageFades(was: ChatMessage, row: ChatMessage) {
    && row.principalId == was.principalId
    && (row.origin == was.origin || row.origin.None?)
    && (row.replyTarget == was.replyTarget || row.replyTarget.None?)
    && (row.revises.None? || (row.revises == was.revises && row.origin == was.origin))
    && (was.Bare() ==> row.Bare())
  }

  predicate JoinFades(was: JoinNotice, row: JoinNotice) {
    && row.principalId == was.principalId
    && (row.origin == was.origin || row.origin.None?)
    && (was.Bare() ==> row.Bare())
  }

  predicate ReportFades(was: Report, row: Report) {
    && row.reportedPrincipalId == was.reportedPrincipalId
    && (row.targetOrigin == was.targetOrigin || row.targetOrigin.None?)
  }

  predicate MarkFades(was: MessageMark, row: MessageMark) {
    && row.markedPrincipalId == was.markedPrincipalId
    && (row.targetOrigin == was.targetOrigin || row.targetOrigin.None?)
  }

  /** Rows may leave and personal columns may empty; nothing is written. */
  ghost predicate Faded(t: Tables, u: Tables) {
    && u.held <= t.held
    && (forall b | b in u.messages :: b in t.messages && MessageFades(t.messages[b], u.messages[b]))
    && (forall b | b in u.joins :: b in t.joins && JoinFades(t.joins[b], u.joins[b]))
    && (forall b | b in u.reports :: b in t.reports && ReportFades(t.reports[b], u.reports[b]))
    && (forall b | b in u.marks :: b in t.marks && MarkFades(t.marks[b], u.marks[b]))
    && (forall b | b in u.sends :: b in t.sends && u.sends[b] == t.sends[b])
  }

  /** Nothing but the junction, the headers, the mapping and the identities differ,
      and no block is held anew. */
  ghost predicate OnlyReleases(t: Tables, u: Tables) {
    && u.held <= t.held
    && u.messages == t.messages && u.joins == t.joins && u.reports == t.reports && u.marks == t.marks
    && u.sends == t.sends
  }

  lemma CarriesFades(t: Tables, u: Tables, person: int, origin: string, b: int)
    requires Faded(t, u) && Carries(u, person, origin, b)
    ensures Carries(t, person, origin, b)
  {
  }

  lemma FadedStaysSettled(t: Tables, u: Tables, person: int, k: nat)
    requires k < PASSES && Faded(t, u) && Settled(t, person, k)
    ensures Settled(u, person, k)
  {
    if k == 0 {
      forall b | b in u.messages && u.messages[b].replyTarget.Some?
        ensures !Carries(u, person, u.messages[b].replyTarget.value, b)
      {
        if Carries(u, person, u.messages[b].replyTarget.value, b) {
          CarriesFades(t, u, person, u.messages[b].replyTarget.value, b);
        }
      }
    } else if k == 1 {
      forall b | b in u.reports && u.reports[b].targetOrigin.Some?
        ensures !Carries(u, person, u.reports[b].targetOrigin.value, b)
      {
        if Carries(u, person, u.reports[b].targetOrigin.value, b) {
          CarriesFades(t, u, person, u.reports[b].targetOrigin.value, b);
        }
      }
    }
  }

  lemma CleanFades(t: Tables, u: Tables, person: int)
    requires Clean(t, person) && Faded(t, u)
    ensures Clean(u, person)
  {
    forall k: nat | k < PASSES ensures Settled(u, person, k) {
      FadedStaysSettled(t, u, person, k);
    }
  }

  /** What every pass has in common: columns fade, and everything else stands. */
  ghost predicate Stepped(t: Tables, u: Tables) {
    && Faded(t, u)
    && u.held == t.held && u.headers == t.headers && u.channels == t.channels && u.principals == t.principals
    && u.sends == t.sends && u.messages.Keys == t.messages.Keys
  }

  lemma ReplyTargetsStep(t: Tables, person: int)
    ensures Stepped(t, ReplyTargetsNulled(t, person))
    ensures Settled(t, person, 0) ==> ReplyTargetsNulled(t, person) == t
  {
  }

  lemma ReportTargetsStep(t: Tables, person: int)
    ensures Stepped(t, ReportTargetsNulled(t, person))
    ensures Settled(t, person, 1) ==> ReportTargetsNulled(t, person) == t
  {
  }

  lemma ContentStep(t: Tables, person: int)
    ensures Stepped(t, ContentEmptied(t, person))
    ensures Settled(t, person, 2) ==> ContentEmptied(t, person) == t
  {
    var u := ContentEmptied(t, person);
    if Settled(t, person, 2) {
      forall b | b in t.messages ensures u.messages[b] == t.messages[b] {
        if t.messages[b].principalId == Some(person) {
          assert t.messages[b].Bare();
        }
      }
      assert u.messages == t.messages;
    }
  }

  lemma JoinsStep(t: Tables, person: int)
    ensures Stepped(t, JoinsEmptied(t, person))
    ensures Settled(t, person, 3) ==> JoinsEmptied(t, person) == t
  {
    var u := JoinsEmptied(t, person);
    if Settled(t, person, 3) {
      forall b | b in t.joins ensures u.joins[b] == t.joins[b] {
        if t.joins[b].principalId == Some(person) {
          assert t.joins[b].Bare();
        }
      }
      assert u.joins == t.joins;
    }
  }

  lemma ReportedOriginsStep(t: Tables, person: int)
    ensures Stepped(t, ReportedOriginsNulled(t, person))
    ensures Settled(t, person, 4) ==> ReportedOriginsNulled(t, person) == t
  {
    var u := ReportedOriginsNulled(t, person);
    if Settled(t, person, 4) {
      forall b | b in t.reports ensures u.reports[b] == t.reports[b] {
        if t.reports[b].reportedPrincipalId == Some(person) {
          assert t.reports[b].targetOrigin.None?;
        }
      }
      assert u.reports == t.reports;
    }
  }

  lemma MarkedOriginsStep(t: Tables, person: int)
    ensures Stepped(t, MarkedOriginsNulled(t, person))
    ensures Settled(t, person, 5) ==> MarkedOriginsNulled(t, person) == t
  {
    var u := MarkedOriginsNulled(t, person);
    if Settled(t, person, 5) {
      forall b | b in t.marks ensures u.marks[b] == t.marks[b] {
        if t.marks[b].markedPrincipalId == person {
          assert t.marks[b].targetOrigin.None?;
        }
      }
      assert u.marks == t.marks;
    }
  }

  lemma PassSteps(t: Tables, person: int, k: nat)
    requires k < PASSES
    ensures Stepped(t, Pass(t, person, k))
    ensures Settled(t, person, k) ==> Pass(t, person, k) == t
  {
    match k
    case 0 => ReplyTargetsStep(t, person);
    case 1 => ReportTargetsStep(t, person);
    case 2 => ContentStep(t, person);
    case 3 => JoinsStep(t, person);
    case 4 => ReportedOriginsStep(t, person);
    case 5 => MarkedOriginsStep(t, person);
  }

  lemma ReplyTargetsSettle(t: Tables, person: int)
    ensures Settled(ReplyTargetsNulled(t, person), person, 0)
  {
  }

  lemma ReportTargetsSettle(t: Tables, person: int)
    ensures Settled(ReportTargetsNulled(t, person), person, 1)
  {
  }

  lemma OwnColumnsSettle(t: Tables, person: int)
    ensures Settled(ContentEmptied(t, person), person, 2)
    ensures Settled(JoinsEmptied(t, person), person, 3)
    ensures Settled(ReportedOriginsNulled(t, person), person, 4)
    ensures Settled(MarkedOriginsNulled(t, person), person, 5)
  {
  }

  lemma PassSettles(t: Tables, person: int, k: nat)
    requires k < PASSES
    ensures Settled(Pass(t, person, k), person, k)
  {
    match k
    case 0 => ReplyTargetsSettle(t, person);
    case 1 => ReportTargetsSettle(t, person);
    case 2 => OwnColumnsSettle(t, person);
    case 3 => OwnColumnsSettle(t, person);
    case 4 => OwnColumnsSettle(t, person);
    case 5 => OwnColumnsSettle(t, person);
  }

  lemma PassKeepsSettled(t: Tables, person: int, n: nat)
    requires n < PASSES
    ensures Settled(Pass(t, person, n), person, n)
    ensures forall k: nat | k < PASSES && Settled(t, person, k) :: Settled(Pass(t, person, n), person, k)
  {
    PassSteps(t, person, n);
    PassSettles(t, person, n);
    hide Settled, Pass, Faded;
    forall k: nat | k < PASSES && Settled(t, person, k) ensures Settled(Pass(t, person, n), person, k) {
      FadedStaysSettled(t, Pass(t, person, n), person, k);
    }
  }

  lemma {:induction false} PassesSettle(t: Tables, person: int, n: nat)
    requires n <= PASSES
    ensures forall k: nat | k < n :: Settled(Passes(t, person, n), person, k)
    ensures forall k: nat | k < PASSES && Settled(t, person, k) :: Settled(Passes(t, person, n), person, k)
  {
    if n > 0 {
      assert Passes(t, person, n) == Pass(Passes(t, person, n - 1), person, n - 1);
      hide Settled, Pass, Passes;
      PassesSettle(t, person, n - 1);
      PassKeepsSettled(Passes(t, person, n - 1), person, n - 1);
      forall k: nat | k < n ensures Settled(Passes(t, person, n), person, k) {
        assert k < n - 1 ==> Settled(Passes(t, person, n - 1), person, k);
      }
    }
  }

  /** The passes of a settled table change nothing. */
  lemma {:induction false} SettledPassesAreIdle(t: Tables, person: int, n: nat)
    requires n <= PASSES && forall k: nat | k < n :: Settled(t, person, k)
    ensures Passes(t, person, n) == t
  {
    if n > 0 {
      SettledPassesAreIdle(t, person, n - 1);
      PassSteps(t, person, n - 1);
    }
  }

  /** Starting the passes over after any of them picks up exactly where they were:
      the copies went before the origins they are matched through. */
  lemma {:induction false} PassesResume(t: Tables, person: int, done: nat, n: nat)
    requires done <= n <= PASSES
    ensures Passes(Passes(t, person, done), person, n) == Passes(t, person, n)
  {
    if n == done {
      PassesSettle(t, person, done);
      SettledPassesAreIdle(Passes(t, person, done), person, done);
    } else {
      PassesResume(t, person, done, n - 1);
    }
  }

  /** The order is what carries this: with the origins nulled first, a copy held by
      somebody else's row survives every attempt there will ever be. */
  lemma OriginsFirstStrandsEveryCopy(t: Tables, person: int, b: int)
    requires b in t.messages && t.messages[b].replyTarget.Some? && t.messages[b].principalId != Some(person)
    ensures var stranded := JoinsEmptied(ContentEmptied(t, person), person);
            var retried := Passes(stranded, person, PASSES);
            b in retried.messages && retried.messages[b].replyTarget == t.messages[b].replyTarget
  {
    var stranded := JoinsEmptied(ContentEmptied(t, person), person);
    forall k: nat | k < 4 ensures Settled(stranded, person, k) {
      assert forall o: string, a: int :: !Carries(stranded, person, o, a);
    }
    SettledPassesAreIdle(stranded, person, 4);
    assert Passes(stranded, person, 5) == ReportedOriginsNulled(stranded, person);
    assert Passes(stranded, person, 6) == MarkedOriginsNulled(Passes(stranded, person, 5), person);
  }

  // ─── What an attempt leaves on its way ─────────────────────────────────

  ghost predicate Mapped(t: Tables, conversation: int) {
    exists k | k in t.channels :: t.channels[k].conversationId == conversation
  }

  ghost predicate NoOrphans(t: Tables) {
    && (forall b | b in t.headers :: HeldAnywhere(t.held, b))
    && (forall b | b in t.messages :: HeldAnywhere(t.held, b))
    && (forall b | b in t.joins :: HeldAnywhere(t.held, b))
    && (forall b | b in t.reports :: HeldAnywhere(t.held, b))
    && (forall b | b in t.marks :: HeldAnywhere(t.held, b))
    && (forall b | b in t.sends :: HeldAnywhere(t.held, b))
  }

  /** Rows only leave, and only once nothing holds them. */
  ghost predicate RowsOf<Row(!new)>(all: map<int, Row>, left: map<int, Row>, held: set<(int, int)>) {
    && (forall b | b in left :: b in all && left[b] == all[b])
    && (forall b | b in all && b !in left :: !HeldAnywhere(held, b))
  }

  ghost predicate AllRowsOf(n: Tables, u: Tables) {
    && RowsOf(n.headers, u.headers, u.held) && RowsOf(n.messages, u.messages, u.held)
    && RowsOf(n.joins, u.joins, u.held) && RowsOf(n.reports, u.reports, u.held) && RowsOf(n.marks, u.marks, u.held)
    && RowsOf(n.sends, u.sends, u.held)
  }

  /** Only planned conversations lose anything: the mapping first, the blocks after. */
  ghost predicate OnlyPlannedGo(n: Tables, u: Tables, plan: set<int>) {
    && u.held <= n.held
    && (forall pair | pair in n.held && pair !in u.held :: pair.0 in plan && !Mapped(u, pair.0))
    && (forall k | k in u.channels :: k in n.channels && u.channels[k] == n.channels[k])
    && (forall k | k in n.channels && k !in u.channels ::
          n.channels[k].conversationId in plan && !Mapped(u, n.channels[k].conversationId))
  }

  /** `u` is the passed table `n` with some of the planned conversations gone. */
  ghost predicate Partway(n: Tables, u: Tables, person: int) {
    && Clean(u, person)
    && AllRowsOf(n, u)
    && OnlyPlannedGo(n, u, Plan(n, person))
    && (u.principals == n.principals
        || (u.principals == IdentityConcluded(n, person).principals && Plan(u, person) == {} && NoOrphans(u)))
  }

  /** A planned conversation is planned again exactly while its mapping stands. */
  lemma PlanIsWhatIsStillMapped(n: Tables, u: Tables, person: int)
    requires Partway(n, u, person)
    ensures forall c :: c in Plan(u, person) <==> c in Plan(n, person) && Mapped(u, c)
  {
  }

  lemma FewerHold(held: set<(int, int)>, fewer: set<(int, int)>)
    requires fewer <= held
    ensures forall b | HeldAnywhere(fewer, b) :: HeldAnywhere(held, b)
  {
  }

  lemma ReleasingFades(t: Tables, u: Tables)
    requires OnlyReleases(t, u)
    ensures Faded(t, u)
  {
  }

  /** One conversation unmapped, and unmapped then deleted. */
  lemma RemovingOneStaysPartway(n: Tables, u: Tables, person: int, c: int)
    requires Partway(n, u, person) && u.principals == n.principals && c in Plan(n, person)
    ensures Partway(n, Unmapped(u, c), person)
    ensures Partway(n, ConversationDeleted(Unmapped(u, c), c), person)
  {
    var v := Unmapped(u, c);
    var w := ConversationDeleted(v, c);
    ReleasingFades(u, v);
    ReleasingFades(u, w);
    CleanFades(u, v, person);
    CleanFades(u, w, person);
    FewerHold(u.held, w.held);
    UnmappingGoesByPlan(n, u, Plan(n, person), c);
  }

  lemma UnmappingGoesByPlan(n: Tables, u: Tables, plan: set<int>, c: int)
    requires OnlyPlannedGo(n, u, plan) && c in plan
    ensures OnlyPlannedGo(n, Unmapped(u, c), plan)
    ensures OnlyPlannedGo(n, ConversationDeleted(Unmapped(u, c), c), plan)
  {
  }

  /** How far the removal loop is after so many store operations. */
  lemma {:induction false} RemovingExactly(t: Tables, conversations: seq<int>, n: nat)
    requires n <= 2 * |conversations|
    ensures var v := Removing(t, conversations, n);
            && v.held == (set pair | pair in t.held && pair.0 !in conversations[..n / 2])
            && (forall c :: Mapped(v, c) <==> Mapped(t, c) && c !in conversations[..(n + 1) / 2])
    decreases |conversations|
  {
    if n == 0 || |conversations| == 0 {
      assert n == 0;
    } else {
      var c, rest := conversations[0], conversations[1..];
      UnmappingIsExact(t, c);
      if n == 1 {
        assert conversations[..1] == [c];
      } else {
        var u := ConversationDeleted(Unmapped(t, c), c);
        assert u.held == set pair | pair in t.held && pair.0 != c;
        assert Removing(t, conversations, n) == Removing(u, rest, n - 2);
        hide Mapped, Removing, Unmapped, ConversationDeleted;
        RemovingExactly(u, rest, n - 2);
        assert conversations[..n / 2] == [c] + rest[..(n - 2) / 2];
        assert conversations[..(n + 1) / 2] == [c] + rest[..(n - 1) / 2];
      }
    }
  }

  lemma UnmappingIsExact(t: Tables, c: int)
    ensures var v := Unmapped(t, c);
            && (forall d :: Mapped(v, d) <==> Mapped(t, d) && d != c)
            && (forall d :: Mapped(ConversationDeleted(v, c), d) <==> Mapped(v, d))
  {
    var v := Unmapped(t, c);
    forall d ensures Mapped(v, d) <==> Mapped(t, d) && d != c {
      if Mapped(t, d) && d != c {
        var k :| k in t.channels && t.channels[k].conversationId == d;
        assert k in v.channels;
      }
    }
  }

  lemma PastTheLoop(t: Tables, conversations: seq<int>, cut: nat)
    requires cut >= 2 * |conversations|
    ensures var v := Removing(t, conversations, cut);
            && v.held == (set pair | pair in t.held && pair.0 !in conversations)
            && (forall c :: Mapped(v, c) <==> Mapped(t, c) && c !in conversations)
  {
    hide Removing, Mapped;
    RemovingStops(t, conversations, cut);
    RemovingExactly(t, conversations, 2 * |conversations|);
    assert conversations[..|conversations|] == conversations;
  }

  lemma {:induction false} RemovingStaysPartway(n: Tables, u: Tables, person: int, conversations: seq<int>, cut: nat)
    requires Partway(n, u, person) && u.principals == n.principals
    requires forall c | c in conversations :: c in Plan(n, person)
    ensures Partway(n, Removing(u, conversations, cut), person)
    ensures Removing(u, conversations, cut).principals == n.principals
    decreases |conversations|
  {
    hide Partway, Plan;
    if cut > 0 && |conversations| > 0 {
      var c := conversations[0];
      assert c in conversations;
      RemovingOneStaysPartway(n, u, person, c);
      if cut > 1 {
        RemovingStaysPartway(n, ConversationDeleted(Unmapped(u, c), c), person, conversations[1..], cut - 2);
      }
    }
  }

  lemma CollectedStay(u: Tables)
    ensures AllRowsOf(u, OrphansCollected(u))
  {
    hide HeldAnywhere;
  }

  lemma CollectedRows(u: Tables)
    ensures NoOrphans(OrphansCollected(u)) && AllRowsOf(u, OrphansCollected(u))
    ensures NoOrphans(u) ==> OrphansCollected(u) == u
  {
    var v := OrphansCollected(u);
    CollectedStay(u);
    hide HeldAnywhere, AllRowsOf;
    if NoOrphans(u) {
      assert v.headers == u.headers && v.messages == u.messages && v.joins == u.joins;
      assert v.reports == u.reports && v.marks == u.marks && v.sends == u.sends;
    }
  }

  lemma CollectingFades(u: Tables)
    ensures Faded(u, OrphansCollected(u))
  {
  }

  lemma CollectingStaysPartway(n: Tables, u: Tables, person: int)
    requires Partway(n, u, person)
    ensures Partway(n, OrphansCollected(u), person) && NoOrphans(OrphansCollected(u))
    ensures NoOrphans(u) ==> OrphansCollected(u) == u
  {
    var v := OrphansCollected(u);
    CollectedRows(u);
    CollectingFades(u);
    CleanFades(u, v, person);
    assert forall c :: Mapped(v, c) <==> Mapped(u, c);
    assert OnlyPlannedGo(n, v, Plan(n, person));
    assert AllRowsOf(n, v);
  }

  lemma SamePlan(t: Tables, u: Tables, person: int)
    requires Stepped(t, u)
    ensures Plan(u, person) == Plan(t, person)
  {
  }

  lemma PassKeepsThePlan(t: Tables, person: int, k: nat)
    requires k < PASSES
    ensures var u := Pass(t, person, k);
            && Plan(u, person) == Plan(t, person) && u.principals == t.principals && u.channels == t.channels
            && u.held == t.held && u.headers == t.headers && u.sends == t.sends
  {
    PassSteps(t, person, k);
    hide Pass, Plan, Faded;
    SamePlan(t, Pass(t, person, k), person);
  }

  lemma {:induction false} PassesKeepThePlan(t: Tables, person: int, n: nat)
    requires n <= PASSES
    ensures var u := Passes(t, person, n);
            && Plan(u, person) == Plan(t, person) && u.principals == t.principals && u.channels == t.channels
            && u.held == t.held && u.headers == t.headers && u.sends == t.sends
  {
    if n > 0 {
      hide Pass, Plan;
      PassesKeepThePlan(t, person, n - 1);
      PassKeepsThePlan(Passes(t, person, n - 1), person, n - 1);
    }
  }

  // ─── Retries ───────────────────────────────────────────────────────────

  /** Where a table stands after attempts on it: its passes still to finish, or past
      them with some planned conversations gone. */
  ghost predicate UnderWay(t: Tables, u: Tables, person: int) {
    || Passes(u, person, PASSES) == Passes(t, person, PASSES)
    || Partway(Passes(t, person, PASSES), u, person)
  }

  lemma PassedIsPartway(t: Tables, u: Tables, person: int)
    requires UnderWay(t, u, person)
    ensures Partway(Passes(t, person, PASSES), Passes(u, person, PASSES), person)
    ensures Partway(Passes(t, person, PASSES), u, person) ==> Passes(u, person, PASSES) == u
  {
    var n := Passes(t, person, PASSES);
    PassesSettle(t, person, PASSES);
    if Partway(n, u, person) {
      SettledPassesAreIdle(u, person, PASSES);
    }
  }

  /** Only the identities differ. */
  ghost predicate SameButIdentities(u: Tables, v: Tables) {
    && v.held == u.held && v.headers == u.headers && v.messages == u.messages && v.joins == u.joins
    && v.reports == u.reports && v.marks == u.marks && v.sends == u.sends && v.channels == u.channels
  }

  lemma IdentitiesChangeNoReading(n: Tables, u: Tables, v: Tables, person: int, plan: set<int>)
    requires SameButIdentities(u, v)
    ensures Plan(v, person) == Plan(u, person)
    ensures NoOrphans(u) ==> NoOrphans(v)
    ensures AllRowsOf(n, u) ==> AllRowsOf(n, v)
    ensures OnlyPlannedGo(n, u, plan) ==> OnlyPlannedGo(n, v, plan)
  {
  }

  lemma ConcludingReadsOnlyIdentities(n: Tables, u: Tables, person: int)
    requires u.principals == n.principals || u.principals == IdentityConcluded(n, person).principals
    ensures IdentityConcluded(u, person).principals == IdentityConcluded(n, person).principals
  {
  }

  lemma OtherIdentitiesStayPartway(n: Tables, u: Tables, v: Tables, person: int)
    requires Partway(n, u, person) && Plan(u, person) == {} && NoOrphans(u) && SameButIdentities(u, v)
    requires v.principals == IdentityConcluded(n, person).principals
    ensures Partway(n, v, person) && Plan(v, person) == {} && NoOrphans(v)
  {
    hide AllRowsOf, OnlyPlannedGo, Plan, NoOrphans, IdentityConcluded;
    assert Clean(v, person) by {
      ReleasingFades(u, v);
      CleanFades(u, v, person);
    }
    IdentitiesChangeNoReading(n, u, v, person, Plan(n, person));
  }

  /** The identity is concluded only over a table with nothing planned and no orphan. */
  lemma ConcludingStaysPartway(n: Tables, u: Tables, person: int)
    requires Partway(n, u, person) && Plan(u, person) == {} && NoOrphans(u)
    ensures var v := IdentityConcluded(u, person);
            && Partway(n, v, person) && Plan(v, person) == {} && NoOrphans(v)
            && v.principals == IdentityConcluded(n, person).principals
  {
    hide Clean, AllRowsOf, OnlyPlannedGo, Plan, NoOrphans;
    ConcludingReadsOnlyIdentities(n, u, person);
    OtherIdentitiesStayPartway(n, u, IdentityConcluded(u, person), person);
  }

  lemma ListedIsPlanned(conversations: seq<int>, planned: set<int>)
    requires Enumerates(conversations, planned) && |conversations| > 0
    ensures planned != {}
  {
    var c := conversations[0];
    assert c in conversations;
    assert c in planned;
  }

  /** The removal stretch of an attempt leaves nothing planned once it is through. */
  lemma RemovedStaysPartway(n: Tables, u: Tables, person: int, conversations: seq<int>, cut: nat)
    requires Partway(n, u, person) && Enumerates(conversations, Plan(u, person))
    ensures var removed := Removing(u, conversations, cut);
            && Partway(n, removed, person)
            && (cut >= 2 * |conversations| ==> Plan(removed, person) == {})
  {
    PlanIsWhatIsStillMapped(n, u, person);
    if u.principals == n.principals {
      RemovingStaysPartway(n, u, person, conversations, cut);
      PlanIsWhatIsStillMapped(n, Removing(u, conversations, cut), person);
      if cut >= 2 * |conversations| { PastTheLoop(u, conversations, cut); }
    } else if |conversations| > 0 {
      ListedIsPlanned(conversations, Plan(u, person));
    }
  }

  /** Collecting the orphans and concluding the identity, once nothing is planned. */
  lemma ClosingStaysPartway(n: Tables, u: Tables, person: int)
    requires Partway(n, u, person) && Plan(u, person) == {}
    ensures Partway(n, OrphansCollected(u), person)
    ensures var v := IdentityConcluded(OrphansCollected(u), person);
            && Partway(n, v, person) && Plan(v, person) == {} && NoOrphans(v)
            && v.principals == IdentityConcluded(n, person).principals
  {
    var collected := OrphansCollected(u);
    CollectingStaysPartway(n, u, person);
    PlanIsWhatIsStillMapped(n, u, person);
    PlanIsWhatIsStillMapped(n, collected, person);
    assert forall c | Mapped(collected, c) :: Mapped(u, c);
    assert Plan(collected, person) == {};
    ConcludingStaysPartway(n, collected, person);
  }

  /** The stretch of an attempt past its passes. */
  lemma RemovalStaysUnderWay(n: Tables, u: Tables, person: int, conversations: seq<int>, cut: nat)
    requires Partway(n, u, person) && person in u.principals && cut > PASSES
    requires Enumerates(conversations, Plan(u, person)) && Passes(u, person, PASSES) == u
    ensures var v := Attempt(u, person, conversations, cut);
            && Partway(n, v, person)
            && (cut >= Whole(conversations) ==>
                  Plan(v, person) == {} && NoOrphans(v) && v.principals == IdentityConcluded(n, person).principals)
  {
    hide Partway, Plan, NoOrphans, Passes, Removing, OrphansCollected, IdentityConcluded;
    RemovedStaysPartway(n, u, person, conversations, cut - PASSES);
    if cut > PASSES + 2 * |conversations| {
      ClosingStaysPartway(n, Removing(u, conversations, cut - PASSES), person);
    }
  }

  /** Whatever was already done and wherever this attempt stops, the table stays under
      way; a whole attempt over a standing identity ends concluded. */
  lemma AttemptStaysUnderWay(t: Tables, u: Tables, person: int, conversations: seq<int>, cut: nat)
    requires UnderWay(t, u, person) && Enumerates(conversations, Plan(u, person))
    ensures UnderWay(t, Attempt(u, person, conversations, cut), person)
    ensures person in u.principals && cut >= Whole(conversations) ==>
              var n, v := Passes(t, person, PASSES), Attempt(u, person, conversations, cut);
              && Partway(n, v, person) && Plan(v, person) == {} && NoOrphans(v)
              && v.principals == IdentityConcluded(n, person).principals
  {
    if person in u.principals {
      var n := Passes(t, person, PASSES);
      PassedIsPartway(t, u, person);
      if cut <= PASSES {
        PassesResume(u, person, cut, PASSES);
        if Partway(n, u, person) {
          PassesSettle(t, person, PASSES);
          SettledPassesAreIdle(u, person, cut);
        }
      } else {
        var passed := Passes(u, person, PASSES);
        PassesKeepThePlan(u, person, PASSES);
        PassesResume(u, person, PASSES, PASSES);
        RemovalStaysUnderWay(n, passed, person, conversations, cut);
        assert Attempt(passed, person, conversations, cut) == Attempt(u, person, conversations, cut);
      }
    }
  }

  datatype Try = Try(conversations: seq<int>, cut: nat)

  function Attempts(t: Tables, person: int, tries: seq<Try>): Tables
    decreases |tries|
  {
    if |tries| == 0 then t
    else Attempts(Attempt(t, person, tries[0].conversations, tries[0].cut), person, tries[1..])
  }

  /** Each attempt ran over its own freshly read plan. */
  ghost predicate Planned(t: Tables, person: int, tries: seq<Try>)
    decreases |tries|
  {
    |tries| == 0
    || (&& Enumerates(tries[0].conversations, Plan(t, person))
        && Planned(Attempt(t, person, tries[0].conversations, tries[0].cut), person, tries[1..]))
  }

  lemma {:induction false} AttemptsStayUnderWay(t: Tables, u: Tables, person: int, tries: seq<Try>)
    requires UnderWay(t, u, person) && Planned(u, person, tries)
    ensures UnderWay(t, Attempts(u, person, tries), person)
    decreases |tries|
  {
    if |tries| > 0 {
      AttemptStaysUnderWay(t, u, person, tries[0].conversations, tries[0].cut);
      AttemptsStayUnderWay(t, Attempt(u, person, tries[0].conversations, tries[0].cut), person, tries[1..]);
    }
  }

  ghost predicate RowsAgree<Row(!new)>(whole: map<int, Row>, retried: map<int, Row>) {
    forall b | b in whole :: b in retried && retried[b] == whole[b]
  }

  /** With no ingestion in between, any number of attempts, each cut after any store
      operation, then one whole attempt, agree with one uninterrupted attempt on every
      surviving row, the channel mapping and the identity row; and whatever else still
      stands holds nothing personal of theirs. */
  lemma RetriesConverge(t: Tables, person: int, tries: seq<Try>, last: seq<int>, whole: seq<int>)
    requires person in t.principals && Planned(t, person, tries)
    requires Enumerates(last, Plan(Attempts(t, person, tries), person)) && Enumerates(whole, Plan(t, person))
    ensures var e, v := Erased(t, person, whole), Erased(Attempts(t, person, tries), person, last);
            && v.channels == e.channels && v.principals == e.principals
            && RowsAgree(e.headers, v.headers) && RowsAgree(e.messages, v.messages) && RowsAgree(e.joins, v.joins)
            && RowsAgree(e.reports, v.reports) && RowsAgree(e.marks, v.marks) && RowsAgree(e.sends, v.sends)
            && e.held <= v.held && Clean(v, person)
  {
    var n := Passes(t, person, PASSES);
    var u := Attempts(t, person, tries);
    var e, v := Erased(t, person, whole), Erased(u, person, last);
    AttemptsStayUnderWay(t, t, person, tries);
    AttemptStaysUnderWay(t, t, person, whole, Whole(whole));
    AttemptStaysUnderWay(t, u, person, last, Whole(last));
    PassesKeepThePlan(t, person, PASSES);
    if person !in u.principals {
      assert Partway(n, u, person) && u.principals != n.principals by {
        PassesKeepThePlan(u, person, PASSES);
      }
    }
    WholeHoldsOnlyTheRest(t, person, whole);
    NothingPlannedFixesTheRest(n, e, person);
    NothingPlannedFixesTheRest(n, v, person);
    WhatIsHeldSurvives(n, e, v, person);
  }

  /** An uninterrupted erasure holds exactly what the planned conversations did not. */
  lemma WholeHoldsOnlyTheRest(t: Tables, person: int, whole: seq<int>)
    requires person in t.principals && Enumerates(whole, Plan(t, person))
    ensures Erased(t, person, whole).held == set pair | pair in t.held && pair.0 !in Plan(t, person)
  {
    var n := Passes(t, person, PASSES);
    PassesKeepThePlan(t, person, PASSES);
    PassedIsPartway(t, t, person);
    PastTheLoop(n, whole, 2 * |whole| + 2);
    hide Passes, Removing, Plan;
    assert Erased(t, person, whole).held == Removing(n, whole, 2 * |whole| + 2).held;
    forall pair | pair in t.held ensures pair.0 in whole <==> pair.0 in Plan(t, person) {
      var c := pair.0;
      assert c in whole <==> c in Plan(t, person);
    }
  }

  lemma NothingPlannedFixesTheRest(n: Tables, u: Tables, person: int)
    requires Partway(n, u, person) && Plan(u, person) == {}
    ensures u.channels == map k | k in n.channels && n.channels[k].conversationId !in Plan(n, person) :: n.channels[k]
    ensures (set pair | pair in n.held && pair.0 !in Plan(n, person)) <= u.held
  {
    PlanIsWhatIsStillMapped(n, u, person);
    forall k | k in u.channels ensures n.channels[k].conversationId !in Plan(n, person) {
      assert Mapped(u, u.channels[k].conversationId);
    }
  }

  lemma WhatIsHeldSurvives(n: Tables, e: Tables, v: Tables, person: int)
    requires Partway(n, e, person) && Partway(n, v, person) && NoOrphans(e) && e.held <= v.held
    ensures RowsAgree(e.headers, v.headers) && RowsAgree(e.messages, v.messages) && RowsAgree(e.joins, v.joins)
    ensures RowsAgree(e.reports, v.reports) && RowsAgree(e.marks, v.marks) && RowsAgree(e.sends, v.sends)
  {
  }
}
