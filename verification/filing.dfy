/** What files a block against another record's origin: the two resolutions over the
    loaded ledger, and what every filed target must keep standing behind it. */
module Filing {
  import opened Vocabulary
  import opened Kind
  import opened Tables
  import opened Erasure
  import opened Convergence
  import opened Effects

  datatype Decline = GroupOnly | NotAssessed | OwnWords | Unrecorded | AlreadyReported | AlreadyMarked

  datatype Asked = AskReport(named: string, line: string) | AskMark(named: string, emoji: string)

  datatype Filed = FiledReport(report: Report) | FiledMark(mark: MessageMark)

  /** The blocks one turn assesses: the co-summoning messages and the joins of the same
      window, each in turn order. */
  datatype Window = Window(messages: seq<int>, joins: seq<int>)

  datatype Voiced = One(principalId: int) | Several | Nobody

  datatype Reportable = Reportable(origin: string, revises: Option<string>, person: Voiced, role: Option<Role>)
  {
    predicate AnswersTo(named: string) {
      origin == named || revises == Some(named)
    }
  }

  function VoiceOf(principalId: Option<int>): Voiced {
    if principalId.Some? then One(principalId.value) else Nobody
  }

  // ─── The assessment set ────────────────────────────────────────────────

  ghost predicate HoldsMessage(t: Tables, conversation: int, row: ChatMessage) {
    exists a | a in t.messages :: (conversation, a) in t.held && t.messages[a] == row
  }

  ghost predicate HoldsJoin(t: Tables, conversation: int, row: JoinNotice) {
    exists a | a in t.joins :: (conversation, a) in t.held && t.joins[a] == row
  }

  /** The window's message rows the conversation holds. */
  function MessageRows(t: Tables, conversation: int, ids: seq<int>): (rows: seq<ChatMessage>)
    ensures forall k | 0 <= k < |rows| :: HoldsMessage(t, conversation, rows[k])
  {
    if |ids| == 0 then []
    else
      var first, rest := ids[0], MessageRows(t, conversation, ids[1..]);
      if first in t.messages && (conversation, first) in t.held then [t.messages[first]] + rest else rest
  }

  function JoinRows(t: Tables, conversation: int, ids: seq<int>): (rows: seq<JoinNotice>)
    ensures forall k | 0 <= k < |rows| :: HoldsJoin(t, conversation, rows[k])
  {
    if |ids| == 0 then []
    else
      var first, rest := ids[0], JoinRows(t, conversation, ids[1..]);
      if first in t.joins && (conversation, first) in t.held then [t.joins[first]] + rest else rest
  }

  function Messages(rows: seq<ChatMessage>): (reportables: seq<Reportable>)
    ensures forall k | 0 <= k < |reportables| ::
              exists i | 0 <= i < |rows| ::
                && rows[i].origin == Some(reportables[k].origin) && rows[i].revises == reportables[k].revises
                && reportables[k].person == VoiceOf(rows[i].principalId)
  {
    if |rows| == 0 then []
    else
      var rest := Messages(rows[1..]);
      if rows[0].origin.Some?
      then [Reportable(rows[0].origin.value, rows[0].revises, VoiceOf(rows[0].principalId), rows[0].role)] + rest
      else rest
  }

  function Sharing(rows: seq<JoinNotice>, origin: string): (sharing: seq<JoinNotice>)
    ensures forall j | 0 <= j < |sharing| :: sharing[j].origin == Some(origin) && sharing[j] in rows
  {
    if |rows| == 0 then []
    else if rows[0].origin == Some(origin) then [rows[0]] + Sharing(rows[1..], origin)
    else Sharing(rows[1..], origin)
  }

  /** One event: its sharers' one person, or several. */
  function EventOf(rows: seq<JoinNotice>, origin: string): Reportable {
    var sharing := Sharing(rows, origin);
    Reportable(origin, None, if |sharing| == 1 then VoiceOf(sharing[0].principalId) else Several, None)
  }

  /** One reportable per join event, however many people share it. */
  function Events(rows: seq<JoinNotice>, n: nat): (events: seq<Reportable>)
    requires n <= |rows|
    ensures forall k | 0 <= k < |events| ::
              && events[k].revises.None?
              && exists j | 0 <= j < n :: rows[j].origin == Some(events[k].origin)
    ensures forall k | 0 <= k < |events| && events[k].person.One? ::
              exists j | 0 <= j < |rows| ::
                rows[j].origin == Some(events[k].origin) && rows[j].principalId == Some(events[k].person.principalId)
  {
    if n == 0 then []
    else
      var before := Events(rows, n - 1);
      match rows[n - 1].origin
      case None => before
      case Some(origin) =>
        if HasEvent(before, origin) then before
        else
          assert Sharing(rows, origin) != [] ==> Sharing(rows, origin)[0] in rows;
          before + [EventOf(rows, origin)]
  }

  function AssessmentSet(t: Tables, conversation: int, window: Window): seq<Reportable> {
    var joins := JoinRows(t, conversation, window.joins);
    Messages(MessageRows(t, conversation, window.messages)) + Events(joins, |joins|)
  }

  function FirstAnswering(reportables: seq<Reportable>, named: string): (first: Option<Reportable>)
    ensures first.Some? ==> first.value in reportables && first.value.AnswersTo(named)
  {
    if |reportables| == 0 then None
    else if reportables[0].AnswersTo(named) then Some(reportables[0])
    else FirstAnswering(reportables[1..], named)
  }

  function FirstUnder(rows: seq<ChatMessage>, named: string): (first: Option<ChatMessage>)
    ensures first.Some? ==> first.value in rows && first.value.origin == Some(named)
  {
    if |rows| == 0 then None
    else if rows[0].origin == Some(named) then Some(rows[0])
    else FirstUnder(rows[1..], named)
  }

  // ─── The two resolutions ───────────────────────────────────────────────

  predicate GroupMapped(t: Tables, conversation: int) {
    exists k | k in t.channels :: t.channels[k].conversationId == conversation && t.channels[k].kind == Group
  }

  predicate ReportStands(t: Tables, conversation: int, named: string) {
    exists b | b in t.reports :: (conversation, b) in t.held && t.reports[b].targetOrigin == Some(named)
  }

  predicate MarkStands(t: Tables, conversation: int, named: string) {
    exists b | b in t.marks :: (conversation, b) in t.held && t.marks[b].targetOrigin == Some(named)
  }

  /** A mark of the origin stands with no report of it in front. */
  predicate MarkStandsFirst(t: Tables, conversation: int, named: string) {
    exists b | b in t.marks ::
      && (conversation, b) in t.held && t.marks[b].targetOrigin == Some(named)
      && forall r | r in t.reports && (conversation, r) in t.held && t.reports[r].targetOrigin == Some(named) :: b < r
  }

  function ResolveReport(t: Tables, conversation: int, window: Window, named: string): Result<Option<int>, Decline> {
    if !GroupMapped(t, conversation) then Err(GroupOnly)
    else match FirstAnswering(AssessmentSet(t, conversation, window), named)
      case None => Err(NotAssessed)
      case Some(target) =>
        if target.role == Some(Assistant) then Err(OwnWords)
        else if target.person.Nobody? then Err(Unrecorded)
        else if ReportStands(t, conversation, named) then Err(AlreadyReported)
        else Ok(if target.person.One? then Some(target.person.principalId) else None)
  }

  function ResolveMark(t: Tables, conversation: int, window: Window, named: string): Result<int, Decline> {
    match FirstUnder(MessageRows(t, conversation, window.messages), named)
    case None => Err(NotAssessed)
    case Some(target) =>
      if target.principalId.None? then Err(Unrecorded)
      else if MarkStandsFirst(t, conversation, named) then Err(AlreadyMarked)
      else if ReportStands(t, conversation, named) then Err(AlreadyReported)
      else Ok(target.principalId.value)
  }

  /** A filing's whole scan. */
  function Scan(t: Tables, conversation: int, window: Window, asked: Asked): Result<Filed, Decline> {
    match asked
    case AskReport(named, line) =>
      (match ResolveReport(t, conversation, window, named)
       case Ok(reported) => Ok(FiledReport(Report(Some(named), reported, line)))
       case Err(decline) => Err(decline))
    case AskMark(named, emoji) =>
      (match ResolveMark(t, conversation, window, named)
       case Ok(marked) => Ok(FiledMark(MessageMark(Some(named), marked, emoji)))
       case Err(decline) => Err(decline))
  }

  // ─── The writes ────────────────────────────────────────────────────────

  /** A filing's append: one fresh block in the conversation scanned. */
  function Append(t: Tables, conversation: int, block: int, filed: Filed): Tables {
    match filed
    case FiledReport(report) =>
      t.(held := t.held + {(conversation, block)},
         headers := t.headers[block := "report"],
         reports := t.reports[block := report])
    case FiledMark(mark) =>
      t.(held := t.held + {(conversation, block)},
         headers := t.headers[block := "message_mark"],
         marks := t.marks[block := mark])
  }

  /** What the platform's events write: a message, or one joiner of a join event. */
  datatype Written = AMessage(row: ChatMessage) | AJoin(notice: JoinNotice)

  /** An ingestion's append, or an observation's. */
  function Record(t: Tables, conversation: int, block: int, written: Written): Tables {
    match written
    case AMessage(row) =>
      t.(held := t.held + {(conversation, block)},
         headers := t.headers[block := "chat_message"],
         messages := t.messages[block := row])
    case AJoin(notice) =>
      t.(held := t.held + {(conversation, block)},
         headers := t.headers[block := "join_notice"],
         joins := t.joins[block := notice])
  }

  // ─── What stands behind a filed target ─────────────────────────────────

  /** A live record of the person a report names, or of anybody for an event several
      people share, stands under the origin in the report's conversation. */
  ghost predicate ReportGrounded(t: Tables, conversation: int, named: string, reported: Option<int>) {
    || (reported.Some? && exists a | a in t.messages ::
          (conversation, a) in t.held && t.messages[a].AnswersTo(named) && t.messages[a].principalId == reported)
    || (exists a | a in t.joins ::
          (conversation, a) in t.held && t.joins[a].origin == Some(named)
          && (reported.Some? ==> t.joins[a].principalId == reported))
  }

  ghost predicate MarkGrounded(t: Tables, conversation: int, named: string, marked: int) {
    exists a | a in t.messages ::
      (conversation, a) in t.held && t.messages[a].origin == Some(named) && t.messages[a].principalId == Some(marked)
  }

  /** No filed target outlives every live record under it in its conversation. */
  ghost predicate Grounded(t: Tables) {
    && (forall pair | pair in t.held && pair.1 in t.reports && t.reports[pair.1].targetOrigin.Some? ::
          ReportGrounded(t, pair.0, t.reports[pair.1].targetOrigin.value, t.reports[pair.1].reportedPrincipalId))
    && (forall pair | pair in t.held && pair.1 in t.marks && t.marks[pair.1].targetOrigin.Some? ::
          MarkGrounded(t, pair.0, t.marks[pair.1].targetOrigin.value, t.marks[pair.1].markedPrincipalId))
  }

  /** One report and one mark per origin in a conversation. */
  ghost predicate FiledOnce(t: Tables) {
    && (forall p, q | p in t.held && q in t.held && p.0 == q.0 && p.1 in t.reports && q.1 in t.reports
                      && t.reports[p.1].targetOrigin.Some?
                      && t.reports[p.1].targetOrigin == t.reports[q.1].targetOrigin :: p == q)
    && (forall p, q | p in t.held && q in t.held && p.0 == q.0 && p.1 in t.marks && q.1 in t.marks
                      && t.marks[p.1].targetOrigin.Some?
                      && t.marks[p.1].targetOrigin == t.marks[q.1].targetOrigin :: p == q)
  }

  /** The platform keeps an edited message's id: a version carries the id it revises. */
  ghost predicate EditsKeepTheirId(t: Tables) {
    forall a | a in t.messages && t.messages[a].revises.Some? :: t.messages[a].origin == t.messages[a].revises
  }

  ghost predicate OneConversationEach(t: Tables) {
    forall p, q | p in t.held && q in t.held && p.1 == q.1 :: p == q
  }

  /** Block ids are issued upward and never again. */
  ghost predicate Issued(t: Tables, next: int) {
    && (forall pair | pair in t.held :: pair.1 < next)
    && (forall b | b in t.messages :: b < next) && (forall b | b in t.joins :: b < next)
    && (forall b | b in t.reports :: b < next) && (forall b | b in t.marks :: b < next)
  }

  ghost predicate Sound(t: Tables, next: int) {
    Grounded(t) && FiledOnce(t) && Issued(t, next)
  }

  /** No filing stands of the origin a scan decided on. */
  ghost predicate Unfiled(t: Tables, conversation: int, filed: Filed) {
    match filed
    case FiledReport(report) => report.targetOrigin.Some? && !ReportStands(t, conversation, report.targetOrigin.value)
    case FiledMark(mark) =>
      && mark.targetOrigin.Some?
      && !MarkStands(t, conversation, mark.targetOrigin.value)
      && !ReportStands(t, conversation, mark.targetOrigin.value)
  }

  /** What one scan decided still holds of the table it is about to be appended to. */
  ghost predicate Fits(t: Tables, conversation: int, filed: Filed) {
    && Unfiled(t, conversation, filed)
    && match filed
       case FiledReport(report) =>
         ReportGrounded(t, conversation, report.targetOrigin.value, report.reportedPrincipalId)
       case FiledMark(mark) => MarkGrounded(t, conversation, mark.targetOrigin.value, mark.markedPrincipalId)
  }

  // ─── Scans ─────────────────────────────────────────────────────────────

  lemma AnsweringIsGrounded(t: Tables, conversation: int, window: Window, named: string, target: Reportable)
    requires target in AssessmentSet(t, conversation, window) && target.AnswersTo(named) && !target.person.Nobody?
    ensures ReportGrounded(t, conversation, named, if target.person.One? then Some(target.person.principalId) else None)
  {
  }

  /** Nothing is filed but over a live record of the turn, of the person filed
      against, under the id named; and never twice. */
  lemma ScanFits(t: Tables, conversation: int, window: Window, asked: Asked)
    requires Scan(t, conversation, window, asked).Ok?
    ensures Fits(t, conversation, Scan(t, conversation, window, asked).value)
  {
    match asked
    case AskReport(named, line) =>
      var target := FirstAnswering(AssessmentSet(t, conversation, window), named).value;
      AnsweringIsGrounded(t, conversation, window, named, target);
    case AskMark(named, emoji) =>
      var rows := MessageRows(t, conversation, window.messages);
      var target := FirstUnder(rows, named).value;
      assert HoldsMessage(t, conversation, target);
      forall b | b in t.marks && (conversation, b) in t.held ensures t.marks[b].targetOrigin != Some(named) {
      }
  }

  // ─── Exactly what is filed ─────────────────────────────────────────────

  /** A window message the conversation holds. */
  predicate InWindow(t: Tables, conversation: int, a: int) {
    a in t.messages && (conversation, a) in t.held
  }

  /** How a tool looks a message up: under its own id, or under either id it answers to
      when it can be named at all. */
  datatype Lookup = OwnId(named: string) | EitherId(named: string)
  {
    predicate Wants(row: ChatMessage) {
      if OwnId? then row.origin == Some(named) else row.origin.Some? && row.AnswersTo(named)
    }
  }

  /** The channel records map the conversation as a group. */
  ghost predicate MappedAsGroup(t: Tables, conversation: int) {
    exists k | k in t.channels :: t.channels[k] == ChannelRecord(Group, conversation)
  }

  /** The conversation holds a report of the id, and a reaction to it. */
  ghost predicate ReportOf(t: Tables, conversation: int, named: string, b: int) {
    (conversation, b) in t.held && b in t.reports && t.reports[b].targetOrigin == Some(named)
  }

  ghost predicate MarkOf(t: Tables, conversation: int, named: string, b: int) {
    (conversation, b) in t.held && b in t.marks && t.marks[b].targetOrigin == Some(named)
  }

  ghost predicate Reported(t: Tables, conversation: int, named: string) {
    exists b :: ReportOf(t, conversation, named, b)
  }

  ghost predicate ReactedTo(t: Tables, conversation: int, named: string) {
    exists b :: MarkOf(t, conversation, named, b)
  }

  /** A window join under the id that the conversation holds. */
  ghost predicate JoinUnder(t: Tables, conversation: int, ids: seq<int>, named: string, k: nat) {
    k < |ids| && ids[k] in t.joins && (conversation, ids[k]) in t.held && t.joins[ids[k]].origin == Some(named)
  }

  ghost predicate OnlyJoinUnder(t: Tables, conversation: int, ids: seq<int>, named: string, k: nat) {
    && JoinUnder(t, conversation, ids, named, k)
    && forall j: nat | JoinUnder(t, conversation, ids, named, j) :: j == k
  }

  ghost predicate SeveralJoinsUnder(t: Tables, conversation: int, ids: seq<int>, named: string) {
    exists j: nat, k: nat | j < k ::
      JoinUnder(t, conversation, ids, named, j) && JoinUnder(t, conversation, ids, named, k)
  }

  /** The first of the window's messages a lookup finds, in turn order. */
  ghost predicate FirstOf(t: Tables, conversation: int, ids: seq<int>, k: nat, lookup: Lookup) {
    && k < |ids| && InWindow(t, conversation, ids[k]) && lookup.Wants(t.messages[ids[k]])
    && forall j | 0 <= j < k && InWindow(t, conversation, ids[j]) :: !lookup.Wants(t.messages[ids[j]])
  }

  lemma FirstOfShifts(t: Tables, conversation: int, ids: seq<int>, k: nat, lookup: Lookup)
    requires |ids| > 0 && !(InWindow(t, conversation, ids[0]) && lookup.Wants(t.messages[ids[0]]))
    ensures FirstOf(t, conversation, ids[1..], k, lookup) <==> FirstOf(t, conversation, ids, k + 1, lookup)
    ensures !FirstOf(t, conversation, ids, 0, lookup)
  {
  }

  lemma FirstOfSkips(t: Tables, conversation: int, ids: seq<int>, lookup: Lookup)
    requires |ids| > 0 && !(InWindow(t, conversation, ids[0]) && lookup.Wants(t.messages[ids[0]]))
    ensures forall k: nat | FirstOf(t, conversation, ids[1..], k, lookup) ::
              FirstOf(t, conversation, ids, k + 1, lookup)
    ensures forall k: nat | FirstOf(t, conversation, ids, k, lookup) ::
              k > 0 && FirstOf(t, conversation, ids[1..], k - 1, lookup) && ids[k] == ids[1..][k - 1]
  {
    forall k: nat | FirstOf(t, conversation, ids[1..], k, lookup) ensures FirstOf(t, conversation, ids, k + 1, lookup) {
      FirstOfShifts(t, conversation, ids, k, lookup);
    }
    forall k: nat | FirstOf(t, conversation, ids, k, lookup)
      ensures k > 0 && FirstOf(t, conversation, ids[1..], k - 1, lookup)
    {
      FirstOfShifts(t, conversation, ids, 0, lookup);
      assert k > 0;
      FirstOfShifts(t, conversation, ids, k - 1, lookup);
    }
  }

  lemma {:induction false} FirstUnderExactly(t: Tables, conversation: int, ids: seq<int>, named: string)
    ensures var first := FirstUnder(MessageRows(t, conversation, ids), named);
            var lookup := OwnId(named);
            && (first.Some? <==> exists k: nat :: FirstOf(t, conversation, ids, k, lookup))
            && (forall k: nat | FirstOf(t, conversation, ids, k, lookup) :: first == Some(t.messages[ids[k]]))
  {
    var lookup := OwnId(named);
    if |ids| > 0 {
      FirstUnderExactly(t, conversation, ids[1..], named);
      if InWindow(t, conversation, ids[0]) && lookup.Wants(t.messages[ids[0]]) {
        assert FirstOf(t, conversation, ids, 0, lookup);
        assert forall k: nat | FirstOf(t, conversation, ids, k, lookup) :: k == 0;
      } else {
        FirstOfSkips(t, conversation, ids, lookup);
      }
    }
  }

  /** A reaction is filed exactly when the first of the turn's messages under the named
      id records its author, and neither a reaction nor a report of it stands; and it is
      filed against that author. */
  lemma MarkIsFiledExactly(t: Tables, conversation: int, window: Window, named: string, emoji: string)
    ensures var scan := Scan(t, conversation, window, AskMark(named, emoji));
            var lookup := OwnId(named);
            && (scan.Ok? <==>
                  && (exists k: nat :: FirstOf(t, conversation, window.messages, k, lookup)
                                       && t.messages[window.messages[k]].principalId.Some?)
                  && !ReactedTo(t, conversation, named) && !Reported(t, conversation, named))
            && (forall k: nat | scan.Ok? && FirstOf(t, conversation, window.messages, k, lookup) ::
                  t.messages[window.messages[k]].principalId.Some?
                  && scan.value == FiledMark(
                       MessageMark(Some(named), t.messages[window.messages[k]].principalId.value, emoji)))
  {
    FirstUnderExactly(t, conversation, window.messages, named);
    StandingExactly(t, conversation, named);
    if !ReportStands(t, conversation, named) {
      assert MarkStandsFirst(t, conversation, named) <==> MarkStands(t, conversation, named);
    }
    hide ReactedTo, Reported;
  }

  /** A reaction to the id stands with no report of it in front. */
  ghost predicate ReactedFirst(t: Tables, conversation: int, named: string) {
    exists b :: MarkOf(t, conversation, named, b) && forall r | ReportOf(t, conversation, named, r) :: b < r
  }

  /** What a reaction answers in every case: for the first message under the id, the
      refusal that stands first, or the filing; and not assessed where there is none. */
  lemma MarkAnswersExactly(t: Tables, conversation: int, window: Window, named: string, emoji: string)
    ensures var scan := Scan(t, conversation, window, AskMark(named, emoji));
            && ((forall k: nat :: !FirstOf(t, conversation, window.messages, k, OwnId(named))) ==>
                  scan == Err(NotAssessed))
            && (forall k: nat | FirstOf(t, conversation, window.messages, k, OwnId(named)) ::
                  var author := t.messages[window.messages[k]].principalId;
                  scan == if author.None? then Err(Unrecorded)
                          else if ReactedFirst(t, conversation, named) then Err(AlreadyMarked)
                          else if Reported(t, conversation, named) then Err(AlreadyReported)
                          else Ok(FiledMark(MessageMark(Some(named), author.value, emoji))))
  {
    FirstUnderExactly(t, conversation, window.messages, named);
    StandingExactly(t, conversation, named);
    ReactedFirstExactly(t, conversation, named);
    hide FirstOf, FirstUnder, MessageRows, ReactedFirst, Reported, ReportStands, MarkStandsFirst;
  }

  lemma ReactedFirstExactly(t: Tables, conversation: int, named: string)
    ensures MarkStandsFirst(t, conversation, named) <==> ReactedFirst(t, conversation, named)
  {
    assert forall r :: ReportOf(t, conversation, named, r) <==>
        r in t.reports && (conversation, r) in t.held && t.reports[r].targetOrigin == Some(named);
    if MarkStandsFirst(t, conversation, named) {
      var b :| b in t.marks && (conversation, b) in t.held && t.marks[b].targetOrigin == Some(named)
               && forall r | r in t.reports && (conversation, r) in t.held
                             && t.reports[r].targetOrigin == Some(named) :: b < r;
      assert MarkOf(t, conversation, named, b);
    }
  }

  lemma StandingExactly(t: Tables, conversation: int, named: string)
    ensures ReportStands(t, conversation, named) <==> Reported(t, conversation, named)
    ensures MarkStands(t, conversation, named) <==> ReactedTo(t, conversation, named)
  {
    if ReportStands(t, conversation, named) {
      var b :| b in t.reports && (conversation, b) in t.held && t.reports[b].targetOrigin == Some(named);
      assert ReportOf(t, conversation, named, b);
    }
    if MarkStands(t, conversation, named) {
      var b :| b in t.marks && (conversation, b) in t.held && t.marks[b].targetOrigin == Some(named);
      assert MarkOf(t, conversation, named, b);
    }
  }

  lemma {:induction false} FirstOfTwo(a: seq<Reportable>, b: seq<Reportable>, named: string)
    ensures FirstAnswering(a + b, named) ==
            if FirstAnswering(a, named).Some? then FirstAnswering(a, named) else FirstAnswering(b, named)
  {
    if |a| > 0 {
      FirstOfTwo(a[1..], b, named);
      assert (a + b)[1..] == a[1..] + b;
    } else {
      assert a + b == b;
    }
  }

  predicate HasJoin(rows: seq<JoinNotice>, n: nat, origin: string)
    requires n <= |rows|
  {
    exists j :: 0 <= j < n && rows[j].origin == Some(origin)
  }

  predicate HasEvent(events: seq<Reportable>, origin: string) {
    exists e | e in events :: e.origin == origin
  }

  lemma {:induction false} EveryJoinHasItsEvent(rows: seq<JoinNotice>, n: nat, origin: string)
    requires n <= |rows|
    ensures HasEvent(Events(rows, n), origin) <==> HasJoin(rows, n, origin)
  {
    if n > 0 {
      EveryJoinHasItsEvent(rows, n - 1, origin);
      if rows[n - 1].origin == Some(origin) {
        if !HasEvent(Events(rows, n - 1), origin) {
          assert EventOf(rows, origin) in Events(rows, n);
        }
      }
      if HasJoin(rows, n, origin) && rows[n - 1].origin != Some(origin) {
        assert HasJoin(rows, n - 1, origin);
      }
      assert forall e | e in Events(rows, n - 1) :: e in Events(rows, n);
    }
  }

  lemma JoinByLast(rows: seq<JoinNotice>, n: nat, named: string)
    requires 0 < n <= |rows|
    ensures HasJoin(rows, n, named) <==> HasJoin(rows, n - 1, named) || rows[n - 1].origin == Some(named)
  {
  }

  /** The first of the events that answers. */
  ghost function EventFound(rows: seq<JoinNotice>, n: nat, named: string): Option<Reportable>
    requires n <= |rows|
  {
    FirstAnswering(Events(rows, n), named)
  }

  lemma EventsByLast(rows: seq<JoinNotice>, n: nat, named: string)
    requires 0 < n <= |rows|
    ensures var before, joined := EventFound(rows, n - 1, named), rows[n - 1].origin;
            EventFound(rows, n, named) ==
            if before.None? && joined == Some(named) && !HasJoin(rows, n - 1, named)
            then Some(EventOf(rows, named)) else before
  {
    var before, joined := Events(rows, n - 1), rows[n - 1].origin;
    EveryJoinHasItsEvent(rows, n - 1, named);
    if joined.Some? && !HasEvent(before, joined.value) {
      var event := EventOf(rows, joined.value);
      FirstOfTwo(before, [event], named);
      assert [event][1..] == [];
      assert FirstAnswering([event], named) == if joined == Some(named) then Some(event) else None;
    }
    hide Sharing, HasEvent, HasJoin;
  }

  lemma NoEvents(rows: seq<JoinNotice>, named: string)
    ensures EventFound(rows, 0, named) == None && !HasJoin(rows, 0, named)
  {
  }

  lemma {:induction false} EventFoundExactly(rows: seq<JoinNotice>, n: nat, named: string)
    requires n <= |rows|
    ensures EventFound(rows, n, named) == if HasJoin(rows, n, named) then Some(EventOf(rows, named)) else None
  {
    hide EventFound, HasJoin, EventOf;
    if n == 0 {
      NoEvents(rows, named);
    } else {
      EventFoundExactly(rows, n - 1, named);
      JoinByLast(rows, n, named);
      EventsByLast(rows, n, named);
    }
  }

  lemma EventsExactly(rows: seq<JoinNotice>, n: nat, named: string)
    requires n <= |rows|
    ensures FirstAnswering(Events(rows, n), named) ==
            if HasJoin(rows, n, named) then Some(EventOf(rows, named)) else None
  {
    EventFoundExactly(rows, n, named);
    hide HasJoin, EventOf;
  }

  function ReportableOf(row: ChatMessage): Reportable
    requires row.origin.Some?
  {
    Reportable(row.origin.value, row.revises, VoiceOf(row.principalId), row.role)
  }

  lemma MessagesByFirst(t: Tables, conversation: int, ids: seq<int>, named: string)
    requires |ids| > 0
    ensures FirstAnswering(Messages(MessageRows(t, conversation, ids)), named) ==
            if InWindow(t, conversation, ids[0]) && EitherId(named).Wants(t.messages[ids[0]])
            then Some(ReportableOf(t.messages[ids[0]]))
            else FirstAnswering(Messages(MessageRows(t, conversation, ids[1..])), named)
  {
    var rows := MessageRows(t, conversation, ids);
    if InWindow(t, conversation, ids[0]) {
      assert rows[1..] == MessageRows(t, conversation, ids[1..]);
      if t.messages[ids[0]].origin.Some? {
        assert Messages(rows)[1..] == Messages(rows[1..]);
      }
    }
  }

  lemma {:induction false} MessagesExactly(t: Tables, conversation: int, ids: seq<int>, named: string)
    ensures var first := FirstAnswering(Messages(MessageRows(t, conversation, ids)), named);
            var lookup := EitherId(named);
            && (first.Some? <==> exists k: nat :: FirstOf(t, conversation, ids, k, lookup))
            && (forall k: nat | FirstOf(t, conversation, ids, k, lookup) ::
                  first == Some(ReportableOf(t.messages[ids[k]])))
  {
    var lookup := EitherId(named);
    if |ids| > 0 {
      hide FirstAnswering, Messages, MessageRows;
      MessagesExactly(t, conversation, ids[1..], named);
      MessagesByFirst(t, conversation, ids, named);
      if InWindow(t, conversation, ids[0]) && lookup.Wants(t.messages[ids[0]]) {
        assert FirstOf(t, conversation, ids, 0, lookup);
        assert forall k: nat | FirstOf(t, conversation, ids, k, lookup) :: k == 0;
      } else {
        FirstOfSkips(t, conversation, ids, lookup);
        hide FirstOf;
      }
    }
  }

  lemma {:induction false} JoinsExactly(t: Tables, conversation: int, ids: seq<int>, named: string)
    ensures var rows := JoinRows(t, conversation, ids);
            var sharing := Sharing(rows, named);
            && (HasJoin(rows, |rows|, named) <==> |sharing| > 0)
            && (|sharing| == 0 <==> forall k: nat :: !JoinUnder(t, conversation, ids, named, k))
            && (|sharing| == 1 <==> exists k: nat :: OnlyJoinUnder(t, conversation, ids, named, k))
            && (|sharing| > 1 <==> SeveralJoinsUnder(t, conversation, ids, named))
            && (forall k: nat | OnlyJoinUnder(t, conversation, ids, named, k) :: sharing == [t.joins[ids[k]]])
  {
    SharingExactly(JoinRows(t, conversation, ids), named);
    if |ids| > 0 {
      JoinsExactly(t, conversation, ids[1..], named);
      SharingByFirst(t, conversation, ids, named);
      JoinsByFirst(t, conversation, ids, named);
      hide Sharing, HasJoin, JoinRows, OnlyJoinUnder, SeveralJoinsUnder;
      if JoinUnder(t, conversation, ids, named, 0) {
        assert (forall k: nat :: !JoinUnder(t, conversation, ids[1..], named, k)) <==>
               OnlyJoinUnder(t, conversation, ids, named, 0);
      } else {
        hide JoinUnder;
        if k: nat :| OnlyJoinUnder(t, conversation, ids[1..], named, k) {
          assert OnlyJoinUnder(t, conversation, ids, named, k + 1);
        }
      }
    }
  }

  /** The joins under an id, by whether the first is one. */
  lemma JoinsByFirst(t: Tables, conversation: int, ids: seq<int>, named: string)
    requires |ids| > 0
    ensures var rest, first := ids[1..], JoinUnder(t, conversation, ids, named, 0);
            var none := forall k: nat :: !JoinUnder(t, conversation, rest, named, k);
            && ((forall k: nat :: !JoinUnder(t, conversation, ids, named, k)) <==> !first && none)
            && (forall k: nat :: OnlyJoinUnder(t, conversation, ids, named, k) <==>
                  if k == 0 then first && none else !first && OnlyJoinUnder(t, conversation, rest, named, k - 1))
            && (SeveralJoinsUnder(t, conversation, ids, named) <==>
                  if first then !none else SeveralJoinsUnder(t, conversation, rest, named))
  {
    forall k: nat
      ensures JoinUnder(t, conversation, ids[1..], named, k) <==> JoinUnder(t, conversation, ids, named, k + 1)
    {
    }
    hide JoinUnder, OnlyJoinUnder, SeveralJoinsUnder;
    assert forall k: nat | JoinUnder(t, conversation, ids, named, k) && k > 0 ::
        JoinUnder(t, conversation, ids[1..], named, k - 1);
    forall k: nat {
      OnlyByFirst(t, conversation, ids, named, k);
    }
    SeveralByFirst(t, conversation, ids, named);
  }

  lemma OnlyByFirst(t: Tables, conversation: int, ids: seq<int>, named: string, k: nat)
    requires |ids| > 0
    ensures OnlyJoinUnder(t, conversation, ids, named, k) <==>
            if k == 0 then JoinUnder(t, conversation, ids, named, 0)
                           && forall j: nat :: !JoinUnder(t, conversation, ids[1..], named, j)
            else !JoinUnder(t, conversation, ids, named, 0) && OnlyJoinUnder(t, conversation, ids[1..], named, k - 1)
  {
    forall j: nat
      ensures JoinUnder(t, conversation, ids[1..], named, j) <==> JoinUnder(t, conversation, ids, named, j + 1)
    {
    }
    hide JoinUnder;
    forall j: nat | JoinUnder(t, conversation, ids, named, j) && j > 0
      ensures JoinUnder(t, conversation, ids[1..], named, j - 1)
    {
    }
  }

  lemma SeveralByFirst(t: Tables, conversation: int, ids: seq<int>, named: string)
    requires |ids| > 0
    ensures SeveralJoinsUnder(t, conversation, ids, named) <==>
            if JoinUnder(t, conversation, ids, named, 0)
            then exists j: nat :: JoinUnder(t, conversation, ids[1..], named, j)
            else SeveralJoinsUnder(t, conversation, ids[1..], named)
  {
    forall j: nat
      ensures JoinUnder(t, conversation, ids[1..], named, j) <==> JoinUnder(t, conversation, ids, named, j + 1)
    {
    }
    hide JoinUnder;
    if j: nat, k: nat :|
      j < k && JoinUnder(t, conversation, ids, named, j) && JoinUnder(t, conversation, ids, named, k)
    {
      assert JoinUnder(t, conversation, ids[1..], named, k - 1);
      if j > 0 {
        assert JoinUnder(t, conversation, ids[1..], named, j - 1);
      }
    }
  }

  lemma {:induction false} SharingExactly(rows: seq<JoinNotice>, named: string)
    ensures HasJoin(rows, |rows|, named) <==> |Sharing(rows, named)| > 0
  {
    if |rows| > 0 {
      SharingExactly(rows[1..], named);
      if HasJoin(rows[1..], |rows| - 1, named) {
        var j :| 0 <= j < |rows| - 1 && rows[1..][j].origin == Some(named);
        assert rows[j + 1].origin == Some(named);
      }
      if j :| 0 < j < |rows| && rows[j].origin == Some(named) {
        assert rows[1..][j - 1].origin == Some(named);
      }
    }
  }

  lemma SharingByFirst(t: Tables, conversation: int, ids: seq<int>, named: string)
    requires |ids| > 0
    ensures Sharing(JoinRows(t, conversation, ids), named) ==
            (if JoinUnder(t, conversation, ids, named, 0) then [t.joins[ids[0]]] else [])
            + Sharing(JoinRows(t, conversation, ids[1..]), named)
  {
    var rows, rest := JoinRows(t, conversation, ids), JoinRows(t, conversation, ids[1..]);
    if ids[0] in t.joins && (conversation, ids[0]) in t.held {
      assert rows[1..] == rest;
    }
  }

  lemma TargetExactly(t: Tables, conversation: int, window: Window, named: string)
    ensures var first := FirstAnswering(AssessmentSet(t, conversation, window), named);
            var lookup := EitherId(named);
            var joins := JoinRows(t, conversation, window.joins);
            && (forall k: nat | FirstOf(t, conversation, window.messages, k, lookup) ::
                  first == Some(ReportableOf(t.messages[window.messages[k]])))
            && ((forall k: nat :: !FirstOf(t, conversation, window.messages, k, lookup)) ==>
                  first == if HasJoin(joins, |joins|, named) then Some(EventOf(joins, named)) else None)
  {
    var joins := JoinRows(t, conversation, window.joins);
    FirstOfTwo(Messages(MessageRows(t, conversation, window.messages)), Events(joins, |joins|), named);
    MessagesExactly(t, conversation, window.messages, named);
    EventsExactly(joins, |joins|, named);
  }

  /** How a report answers over a record that names this person, or openly several. */
  function Answer(named: string, line: string, reported: bool, person: Voiced): Result<Filed, Decline> {
    match person
    case Nobody => Err(Unrecorded)
    case One(principalId) =>
      if reported then Err(AlreadyReported) else Ok(FiledReport(Report(Some(named), Some(principalId), line)))
    case Several => if reported then Err(AlreadyReported) else Ok(FiledReport(Report(Some(named), None, line)))
  }

  /** What a report answers in a mapped group, by what stands first under the id: a message
      of the turn, a join event one person has, one that several share, or nothing. */
  ghost predicate ReportAnswers(t: Tables, conversation: int, window: Window, named: string, line: string,
                                scan: Result<Filed, Decline>)
  {
    var lookup, reported := EitherId(named), Reported(t, conversation, named);
    var noMessage := forall k: nat :: !FirstOf(t, conversation, window.messages, k, lookup);
    && (forall k: nat | FirstOf(t, conversation, window.messages, k, lookup) ::
          var row := t.messages[window.messages[k]];
          scan == if row.role == Some(Assistant) then Err(OwnWords)
                  else Answer(named, line, reported, VoiceOf(row.principalId)))
    && (forall k: nat | noMessage && OnlyJoinUnder(t, conversation, window.joins, named, k) ::
          scan == Answer(named, line, reported, VoiceOf(t.joins[window.joins[k]].principalId)))
    && (noMessage && SeveralJoinsUnder(t, conversation, window.joins, named) ==>
          scan == Answer(named, line, reported, Several))
    && (noMessage && (forall k: nat :: !JoinUnder(t, conversation, window.joins, named, k)) ==>
          scan == Err(NotAssessed))
  }

  /** A report is refused outside a mapped group; in one it answers for the first message
      of the turn that answers to the named id, or else for the join event under it: it
      is filed against whom the record names, unless the record is the assistant's own,
      names nobody, or is reported already. */
  lemma ReportIsFiledExactly(t: Tables, conversation: int, window: Window, named: string, line: string)
    ensures var scan := Scan(t, conversation, window, AskReport(named, line));
            if !MappedAsGroup(t, conversation) then scan == Err(GroupOnly)
            else ReportAnswers(t, conversation, window, named, line, scan)
  {
    ResolvesWhatStandsFirst(t, conversation, window, named, line);
    TargetIsFirst(t, conversation, window, named);
    hide AssessmentSet, MappedAsGroup, Reported, FirstOf, FirstAnswering, Scan, Answer;
    hide OnlyJoinUnder, SeveralJoinsUnder, JoinUnder;
  }

  lemma ResolvesWhatStandsFirst(t: Tables, conversation: int, window: Window, named: string, line: string)
    ensures Scan(t, conversation, window, AskReport(named, line)) ==
            if !MappedAsGroup(t, conversation) then Err(GroupOnly)
            else match FirstAnswering(AssessmentSet(t, conversation, window), named)
              case None => Err(NotAssessed)
              case Some(target) =>
                if target.role == Some(Assistant) then Err(OwnWords)
                else Answer(named, line, Reported(t, conversation, named), target.person)
  {
    StandingExactly(t, conversation, named);
    assert GroupMapped(t, conversation) <==> MappedAsGroup(t, conversation);
    hide AssessmentSet, GroupMapped, MappedAsGroup, ReportStands, Reported, FirstAnswering;
  }

  /** What stands first under the id: the turn's message, or else the join event. */
  lemma TargetIsFirst(t: Tables, conversation: int, window: Window, named: string)
    ensures var first := FirstAnswering(AssessmentSet(t, conversation, window), named);
            var noMessage := forall k: nat :: !FirstOf(t, conversation, window.messages, k, EitherId(named));
            && (forall k: nat | FirstOf(t, conversation, window.messages, k, EitherId(named)) ::
                  first == Some(ReportableOf(t.messages[window.messages[k]])))
            && (forall k: nat | noMessage && OnlyJoinUnder(t, conversation, window.joins, named, k) ::
                  first == Some(Reportable(named, None, VoiceOf(t.joins[window.joins[k]].principalId), None)))
            && (noMessage && SeveralJoinsUnder(t, conversation, window.joins, named) ==>
                  first == Some(Reportable(named, None, Several, None)))
            && (noMessage && (forall k: nat :: !JoinUnder(t, conversation, window.joins, named, k)) ==> first == None)
  {
    TargetExactly(t, conversation, window, named);
    JoinsExactly(t, conversation, window.joins, named);
    hide AssessmentSet, FirstOf, FirstAnswering, JoinRows, Sharing, HasJoin;
    hide JoinUnder, OnlyJoinUnder, SeveralJoinsUnder;
  }

  // ─── What each write keeps ─────────────────────────────────────────────

  /** A fresh block in one conversation disturbs no id, and no block's one holding. */
  lemma FreshBlockKeeps(t: Tables, u: Tables, next: int, conversation: int)
    requires Issued(t, next)
    requires u.held == t.held + {(conversation, next)}
    requires u.messages.Keys <= t.messages.Keys + {next} && u.joins.Keys <= t.joins.Keys + {next}
    requires u.reports.Keys <= t.reports.Keys + {next} && u.marks.Keys <= t.marks.Keys + {next}
    ensures Issued(u, next + 1)
    ensures OneConversationEach(t) ==> OneConversationEach(u)
  {
  }

  /** A filing's append over a table its scan still fits. */
  lemma AppendKeeps(t: Tables, next: int, conversation: int, filed: Filed)
    requires Sound(t, next) && Fits(t, conversation, filed)
    ensures Sound(Append(t, conversation, next, filed), next + 1)
  {
    AppendStaysGrounded(t, next, conversation, filed);
    AppendStaysFiledOnce(t, next, conversation, filed);
    hide Grounded, FiledOnce, ReportGrounded, MarkGrounded, ReportStands, MarkStands;
    FreshBlockKeeps(t, Append(t, conversation, next, filed), next, conversation);
  }

  /** A filing stands as soon as it is appended: the same thing asked again, of whatever
      window, is refused; the collection of what nothing holds does not take it; and no
      other row moves. */
  lemma AFilingStands(t: Tables, conversation: int, block: int, window: Window, asked: Asked, again: Window)
    requires Scan(t, conversation, window, asked).Ok?
    ensures var u := Append(t, conversation, block, Scan(t, conversation, window, asked).value);
            && Scan(u, conversation, again, asked).Err?
            && u.reports - {block} == t.reports - {block} && u.marks - {block} == t.marks - {block}
            && u.(held := t.held, headers := t.headers, reports := t.reports, marks := t.marks) == t
            && (asked.AskReport? ==> block in OrphansCollected(u).reports && block in OrphansCollected(u).headers)
            && (asked.AskMark? ==> block in OrphansCollected(u).marks && block in OrphansCollected(u).headers)
  {
    var filed := Scan(t, conversation, window, asked).value;
    var u := Append(t, conversation, block, filed);
    ScanNames(t, conversation, window, asked);
    AppendMovesNothingElse(t, conversation, block, filed);
    hide Scan, Append, OrphansCollected, ReportStands, MarkStands, MarkStandsFirst;
    if asked.AskReport? {
      AppendedReportStands(t, conversation, block, filed.report, asked.named);
    } else {
      AppendedMarkStands(t, conversation, block, filed.mark, asked.named);
    }
    ScanRefusesAStanding(u, conversation, again, asked);
  }

  lemma ScanNames(t: Tables, conversation: int, window: Window, asked: Asked)
    requires Scan(t, conversation, window, asked).Ok?
    ensures match Scan(t, conversation, window, asked).value
            case FiledReport(report) => asked.AskReport? && report.targetOrigin == Some(asked.named)
            case FiledMark(mark) => asked.AskMark? && mark.targetOrigin == Some(asked.named)
  {
  }

  lemma ScanRefusesAStanding(t: Tables, conversation: int, window: Window, asked: Asked)
    requires || ReportStands(t, conversation, asked.named)
             || (asked.AskMark? && MarkStandsFirst(t, conversation, asked.named))
    ensures Scan(t, conversation, window, asked).Err?
  {
    hide AssessmentSet, FirstAnswering, FirstUnder, MessageRows, GroupMapped, ReportStands, MarkStandsFirst;
  }

  lemma AppendMovesNothingElse(t: Tables, conversation: int, block: int, filed: Filed)
    ensures var u := Append(t, conversation, block, filed);
            && u.reports - {block} == t.reports - {block} && u.marks - {block} == t.marks - {block}
            && u.(held := t.held, headers := t.headers, reports := t.reports, marks := t.marks) == t
  {
  }

  lemma AppendedReportStands(t: Tables, conversation: int, block: int, report: Report, named: string)
    requires report.targetOrigin == Some(named)
    ensures var u := Append(t, conversation, block, FiledReport(report));
            && ReportStands(u, conversation, named)
            && block in OrphansCollected(u).reports && block in OrphansCollected(u).headers
  {
    var u := Append(t, conversation, block, FiledReport(report));
    assert block in u.reports && (conversation, block) in u.held;
  }

  lemma AppendedMarkStands(t: Tables, conversation: int, block: int, mark: MessageMark, named: string)
    requires mark.targetOrigin == Some(named)
    ensures var u := Append(t, conversation, block, FiledMark(mark));
            && (MarkStandsFirst(u, conversation, named) || ReportStands(u, conversation, named))
            && block in OrphansCollected(u).marks && block in OrphansCollected(u).headers
  {
    var u := Append(t, conversation, block, FiledMark(mark));
    assert block in u.marks && (conversation, block) in u.held;
    if !ReportStands(u, conversation, named) {
      assert forall r | r in u.reports && (conversation, r) in u.held :: u.reports[r].targetOrigin != Some(named);
      assert MarkStandsFirst(u, conversation, named);
    }
  }

  lemma AppendStaysFiledOnce(t: Tables, next: int, conversation: int, filed: Filed)
    requires FiledOnce(t) && Issued(t, next) && Unfiled(t, conversation, filed)
    ensures FiledOnce(Append(t, conversation, next, filed))
  {
    var u := Append(t, conversation, next, filed);
    forall p | p in t.held && p.0 == conversation ensures p == (conversation, p.1) && p.1 != next {
    }
  }

  lemma AppendStaysGrounded(t: Tables, next: int, conversation: int, filed: Filed)
    requires Grounded(t) && Issued(t, next) && Fits(t, conversation, filed)
    ensures Grounded(Append(t, conversation, next, filed))
  {
    var u := Append(t, conversation, next, filed);
    assert forall d: int, o: string, p: Option<int> | ReportGrounded(t, d, o, p) :: ReportGrounded(u, d, o, p);
    assert forall d: int, o: string, p: int | MarkGrounded(t, d, o, p) :: MarkGrounded(u, d, o, p);
  }

  /** A platform event's append, and what it leaves of a scan not yet appended. */
  lemma RecordKeeps(t: Tables, next: int, conversation: int, written: Written)
    requires Sound(t, next)
    ensures Sound(Record(t, conversation, next, written), next + 1)
  {
    RecordStaysGrounded(t, next, conversation, written);
    RecordStaysFiledOnce(t, next, conversation, written);
    hide Grounded, FiledOnce;
    FreshBlockKeeps(t, Record(t, conversation, next, written), next, conversation);
  }

  lemma RecordStaysGrounded(t: Tables, next: int, conversation: int, written: Written)
    requires Grounded(t) && Issued(t, next)
    ensures Grounded(Record(t, conversation, next, written))
  {
    RecordKeepsGrounds(t, next, conversation, written);
    hide ReportGrounded, MarkGrounded;
  }

  /** What the platform's event leaves: its row under one fresh block, which the
      conversation answers to from then on and the collection does not take; and every
      other row as it was. */
  lemma ARecordStands(t: Tables, conversation: int, block: int, written: Written)
    ensures var u := Record(t, conversation, block, written);
            && u.held == t.held + {(conversation, block)} && u.headers - {block} == t.headers - {block}
            && u.reports == t.reports && u.marks == t.marks && u.sends == t.sends
            && u.channels == t.channels && u.principals == t.principals
            && block in OrphansCollected(u).headers
            && (written.AMessage? ==>
                  && block in OrphansCollected(u).messages && u.messages[block] == written.row
                  && u.messages - {block} == t.messages - {block} && u.joins == t.joins
                  && (written.row.origin.Some? ==> Recorded(u, conversation, written.row.origin.value)))
            && (written.AJoin? ==>
                  && block in OrphansCollected(u).joins && u.joins[block] == written.notice
                  && u.joins - {block} == t.joins - {block} && u.messages == t.messages
                  && (written.notice.origin.Some? ==> Recorded(u, conversation, written.notice.origin.value)))
  {
    assert (conversation, block) in Record(t, conversation, block, written).held;
  }

  lemma RecordStaysFiledOnce(t: Tables, next: int, conversation: int, written: Written)
    requires FiledOnce(t) && Issued(t, next)
    ensures FiledOnce(Record(t, conversation, next, written))
  {
    var u := Record(t, conversation, next, written);
    assert forall p | p in u.held && (p.1 in u.reports || p.1 in u.marks) :: p in t.held;
  }

  lemma RecordKeepsGrounds(t: Tables, next: int, conversation: int, written: Written)
    requires Issued(t, next)
    ensures var u := Record(t, conversation, next, written);
            && (forall d: int, o: string, p: Option<int> | ReportGrounded(t, d, o, p) :: ReportGrounded(u, d, o, p))
            && (forall d: int, o: string, p: int | MarkGrounded(t, d, o, p) :: MarkGrounded(u, d, o, p))
  {
  }

  lemma RecordKeepsFits(t: Tables, next: int, conversation: int, written: Written, at: int, filed: Filed)
    requires Issued(t, next) && Fits(t, at, filed)
    ensures Fits(Record(t, conversation, next, written), at, filed)
  {
  }

  lemma FadingKeeps(t: Tables, v: Tables, next: int)
    requires Faded(t, v) && Issued(t, next)
    ensures Issued(v, next)
    ensures FiledOnce(t) ==> FiledOnce(v)
    ensures OneConversationEach(t) ==> OneConversationEach(v)
  {
  }

  lemma MirrorFades(t: Tables, conversation: int, named: string)
    ensures Faded(t, Mirrored(t, conversation, named))
  {
    MirroredExactly(t, conversation, named);
    hide Mirrored, Recorded;
  }

  /** A finished person-wide erasure keeps every filed target grounded. */
  lemma ErasureKeeps(t: Tables, next: int, person: int, conversations: seq<int>)
    requires Sound(t, next) && person in t.principals && Enumerates(conversations, Plan(t, person))
    ensures Sound(Erased(t, person, conversations), next)
  {
    ErasureStaysGrounded(t, person, conversations);
    ErasedExactly(t, person, conversations);
    hide Erased, Grounded, Plan;
    RowsAfterFade(t, Erased(t, person, conversations), person);
    FadingKeeps(t, Erased(t, person, conversations), next);
  }

  lemma RowsAfterFade(t: Tables, v: Tables, person: int)
    requires RowsAfter(t, v, person) && v.held <= t.held
    ensures Faded(t, v)
  {
  }

  lemma ErasureStaysGrounded(t: Tables, person: int, conversations: seq<int>)
    requires Grounded(t) && person in t.principals && Enumerates(conversations, Plan(t, person))
    ensures Grounded(Erased(t, person, conversations))
  {
    var v := Erased(t, person, conversations);
    ErasedExactly(t, person, conversations);
    forall pair | pair in v.held && pair.1 in v.reports && v.reports[pair.1].targetOrigin.Some?
      ensures ReportGrounded(v, pair.0, v.reports[pair.1].targetOrigin.value, v.reports[pair.1].reportedPrincipalId)
    {
      ReportSurvivesGrounded(t, v, person, pair.0, pair.1);
    }
    forall pair | pair in v.held && pair.1 in v.marks && v.marks[pair.1].targetOrigin.Some?
      ensures MarkGrounded(v, pair.0, v.marks[pair.1].targetOrigin.value, v.marks[pair.1].markedPrincipalId)
    {
      MarkSurvivesGrounded(t, v, person, pair.0, pair.1);
    }
  }

  ghost predicate KeepsConversation(t: Tables, v: Tables, conversation: int) {
    forall b | (conversation, b) in t.held :: (conversation, b) in v.held
  }

  lemma ReportSurvivesGrounded(t: Tables, v: Tables, person: int, d: int, b: int)
    requires RowsAfter(t, v, person) && RowsStayWhileHeld(t, v) && KeepsConversation(t, v, d)
    requires (d, b) in t.held && b in v.reports && v.reports[b].targetOrigin.Some?
    requires ReportGrounded(t, d, t.reports[b].targetOrigin.value, t.reports[b].reportedPrincipalId)
    ensures ReportGrounded(v, d, v.reports[b].targetOrigin.value, v.reports[b].reportedPrincipalId)
  {
  }

  lemma MarkSurvivesGrounded(t: Tables, v: Tables, person: int, d: int, b: int)
    requires RowsAfter(t, v, person) && RowsStayWhileHeld(t, v) && KeepsConversation(t, v, d)
    requires (d, b) in t.held && b in v.marks && v.marks[b].targetOrigin.Some?
    requires MarkGrounded(t, d, t.marks[b].targetOrigin.value, t.marks[b].markedPrincipalId)
    ensures MarkGrounded(v, d, v.marks[b].targetOrigin.value, v.marks[b].markedPrincipalId)
  {
  }

  // ─── Which mirrors strand a filing ─────────────────────────────────────

  /** The rows the mirror of the id empties. */
  predicate EmptiesMessage(t: Tables, conversation: int, named: string, a: int) {
    a in t.messages && (conversation, a) in t.held && t.messages[a].AnswersTo(named)
  }

  predicate EmptiesJoin(t: Tables, conversation: int, named: string, a: int) {
    a in t.joins && (conversation, a) in t.held && t.joins[a].origin == Some(named)
  }

  /** A report the mirror nulls, or leaves a ground it does not empty. */
  ghost predicate ReportUnharmed(t: Tables, conversation: int, named: string, d: int, b: int)
    requires b in t.reports
  {
    var row := t.reports[b];
    row.targetOrigin.Some? && !((conversation, b) in t.held && row.targetOrigin == Some(named)) ==>
      var o := row.targetOrigin.value;
      || (row.reportedPrincipalId.Some? && exists a | a in t.messages ::
            (d, a) in t.held && t.messages[a].AnswersTo(o) && t.messages[a].principalId == row.reportedPrincipalId
            && !EmptiesMessage(t, conversation, named, a))
      || (exists a | a in t.joins ::
            (d, a) in t.held && t.joins[a].origin == Some(o)
            && (row.reportedPrincipalId.Some? ==> t.joins[a].principalId == row.reportedPrincipalId)
            && !EmptiesJoin(t, conversation, named, a))
  }

  /** A mark the mirror nulls, or leaves a ground it does not empty. */
  ghost predicate MarkUnharmed(t: Tables, conversation: int, named: string, d: int, b: int)
    requires b in t.marks
  {
    var row := t.marks[b];
    row.targetOrigin.Some? && !((conversation, b) in t.held && row.targetOrigin == Some(named)) ==>
      exists a | a in t.messages ::
        (d, a) in t.held && t.messages[a].origin == row.targetOrigin
        && t.messages[a].principalId == Some(row.markedPrincipalId)
        && !EmptiesMessage(t, conversation, named, a)
  }

  /** No filing stands that the mirror would strand. */
  ghost predicate MirrorHarmless(t: Tables, conversation: int, named: string) {
    && (forall pair | pair in t.held && pair.1 in t.reports :: ReportUnharmed(t, conversation, named, pair.0, pair.1))
    && (forall pair | pair in t.held && pair.1 in t.marks :: MarkUnharmed(t, conversation, named, pair.0, pair.1))
  }

  /** The rows a mirror leaves answering to an id are those that did and that it does
      not empty. */
  lemma MirrorLeavesAnswering(t: Tables, conversation: int, named: string, a: int, o: string)
    requires Recorded(t, conversation, named)
    ensures var v := Mirrored(t, conversation, named);
            && v.messages.Keys == t.messages.Keys && v.joins.Keys == t.joins.Keys && v.held == t.held
            && (a in t.messages ==>
                  && v.messages[a].principalId == t.messages[a].principalId
                  && (v.messages[a].AnswersTo(o) <==>
                        t.messages[a].AnswersTo(o) && !EmptiesMessage(t, conversation, named, a))
                  && (v.messages[a].origin == Some(o) <==>
                        t.messages[a].origin == Some(o) && !EmptiesMessage(t, conversation, named, a)))
            && (a in t.joins ==>
                  && v.joins[a].principalId == t.joins[a].principalId
                  && (v.joins[a].origin == Some(o) <==>
                        t.joins[a].origin == Some(o) && !EmptiesJoin(t, conversation, named, a)))
  {
    MirroredExactly(t, conversation, named);
  }

  /** The mirror strands a report exactly when it does not null it and every ground of
      it answers to the id it empties. */
  lemma MirrorStrandsExactly(t: Tables, conversation: int, named: string, d: int, b: int)
    requires Recorded(t, conversation, named) && (d, b) in t.held && b in t.reports
    ensures var row := Mirrored(t, conversation, named).reports[b];
            (row.targetOrigin.Some? ==>
               ReportGrounded(Mirrored(t, conversation, named), d, row.targetOrigin.value, row.reportedPrincipalId))
            <==> ReportUnharmed(t, conversation, named, d, b)
  {
    var v := Mirrored(t, conversation, named);
    MirroredExactly(t, conversation, named);
    if v.reports[b].targetOrigin.Some? {
      forall a: int {
        MirrorLeavesAnswering(t, conversation, named, a, t.reports[b].targetOrigin.value);
      }
    }
  }

  /** And a mark exactly when it does not null it and every message of its author under
      its target does. */
  lemma MirrorStrandsMarksExactly(t: Tables, conversation: int, named: string, d: int, b: int)
    requires Recorded(t, conversation, named) && (d, b) in t.held && b in t.marks
    ensures var row := Mirrored(t, conversation, named).marks[b];
            (row.targetOrigin.Some? ==>
               MarkGrounded(Mirrored(t, conversation, named), d, row.targetOrigin.value, row.markedPrincipalId))
            <==> MarkUnharmed(t, conversation, named, d, b)
  {
    var v := Mirrored(t, conversation, named);
    MirroredExactly(t, conversation, named);
    if v.marks[b].targetOrigin.Some? {
      forall a: int {
        MirrorLeavesAnswering(t, conversation, named, a, t.marks[b].targetOrigin.value);
      }
    }
  }

  lemma MirrorMovesNoNames(t: Tables, conversation: int, named: string)
    ensures var v := Mirrored(t, conversation, named);
            && v.held == t.held && v.reports.Keys == t.reports.Keys && v.marks.Keys == t.marks.Keys
            && (forall b | b in t.reports :: v.reports[b].reportedPrincipalId == t.reports[b].reportedPrincipalId)
            && (forall b | b in t.marks :: v.marks[b].markedPrincipalId == t.marks[b].markedPrincipalId)
  {
    MirroredExactly(t, conversation, named);
  }

  lemma RecordedMirrorKeepsExactly(t: Tables, conversation: int, named: string)
    requires Recorded(t, conversation, named)
    ensures Grounded(Mirrored(t, conversation, named)) <==> MirrorHarmless(t, conversation, named)
  {
    var v := Mirrored(t, conversation, named);
    MirrorMovesNoNames(t, conversation, named);
    hide ReportGrounded, MarkGrounded, ReportUnharmed, MarkUnharmed, Mirrored, Recorded;
    forall pair | pair in t.held && pair.1 in t.reports {
      MirrorStrandsExactly(t, conversation, named, pair.0, pair.1);
    }
    forall pair | pair in t.held && pair.1 in t.marks {
      MirrorStrandsMarksExactly(t, conversation, named, pair.0, pair.1);
    }
  }

  /** The whole mirror keeps every filed target grounded exactly when no filing stands
      that it would strand. */
  lemma MirrorKeepsExactly(t: Tables, next: int, conversation: int, named: string)
    requires Sound(t, next)
    ensures Sound(Mirrored(t, conversation, named), next) <==> MirrorHarmless(t, conversation, named)
  {
    MirrorFades(t, conversation, named);
    FadingKeeps(t, Mirrored(t, conversation, named), next);
    if Recorded(t, conversation, named) {
      RecordedMirrorKeepsExactly(t, conversation, named);
    } else {
      NothingRecordedIsHarmless(t, conversation, named);
      MirroredExactly(t, conversation, named);
    }
    hide Grounded, FiledOnce, Issued, MirrorHarmless, Mirrored, Recorded, Faded;
  }

  lemma NothingRecordedIsHarmless(t: Tables, conversation: int, named: string)
    requires Grounded(t) && !Recorded(t, conversation, named)
    ensures MirrorHarmless(t, conversation, named)
  {
    assert forall a: int :: !EmptiesMessage(t, conversation, named, a) && !EmptiesJoin(t, conversation, named, a);
  }

  /** Where edits keep their id, no mirror strands anything: the one id it empties is the
      one id whose copies it nulls. */
  lemma KeptIdsAreHarmless(t: Tables, conversation: int, named: string)
    requires Grounded(t) && OneConversationEach(t) && EditsKeepTheirId(t)
    ensures MirrorHarmless(t, conversation, named)
  {
    forall pair | pair in t.held && pair.1 in t.reports ensures ReportUnharmed(t, conversation, named, pair.0, pair.1) {
      assert forall a | EmptiesMessage(t, conversation, named, a) && (pair.0, a) in t.held ::
               (pair.0, a) == (conversation, a);
      assert forall a | EmptiesJoin(t, conversation, named, a) && (pair.0, a) in t.held ::
               (pair.0, a) == (conversation, a);
    }
    forall pair | pair in t.held && pair.1 in t.marks ensures MarkUnharmed(t, conversation, named, pair.0, pair.1) {
      assert forall a | EmptiesMessage(t, conversation, named, a) && (pair.0, a) in t.held ::
               (pair.0, a) == (conversation, a);
    }
  }

  /** One edit of "1" under an id of its own, reported and reacted to as "2". */
  function AnEditOfItsOwnId(conversation: int, person: int): Tables {
    var row := ChatMessage(Some(User), Some("edited"), Some(person), None, None, Some("2"), Some("1"),
                           None, None, None, None, None, None, None, None);
    Tables({(conversation, 0), (conversation, 1), (conversation, 2)}, map[], map[0 := row], map[],
           map[1 := Report(Some("2"), Some(person), "line")], map[2 := MessageMark(Some("2"), person, "emoji")],
           map[], map[], map[])
  }

  lemma AnEditOfItsOwnIdIsSound(conversation: int, person: int)
    ensures Sound(AnEditOfItsOwnId(conversation, person), 3)
  {
    var t := AnEditOfItsOwnId(conversation, person);
    assert ReportGrounded(t, conversation, "2", Some(person)) && MarkGrounded(t, conversation, "2", person) by {
      assert 0 in t.messages && (conversation, 0) in t.held;
    }
    hide ReportGrounded, MarkGrounded;
    assert Grounded(t);
  }

  lemma AnEditOfItsOwnIdIsHarmed(conversation: int, person: int)
    ensures var t := AnEditOfItsOwnId(conversation, person);
            && !ReportUnharmed(t, conversation, "1", conversation, 1)
            && !MarkUnharmed(t, conversation, "1", conversation, 2)
  {
    var t := AnEditOfItsOwnId(conversation, person);
    assert "2" != "1";
    assert EmptiesMessage(t, conversation, "1", 0);
    hide EmptiesMessage, EmptiesJoin;
  }

  /** The mirror of "1" empties it and leaves both filings standing on nothing. */
  lemma AnEditsOwnIdIsStranded(conversation: int, person: int)
    ensures var t := AnEditOfItsOwnId(conversation, person);
            && Sound(t, 3) && !Sound(Mirrored(t, conversation, "1"), 3)
            && !ReportUnharmed(t, conversation, "1", conversation, 1)
            && !MarkUnharmed(t, conversation, "1", conversation, 2)
  {
    var t := AnEditOfItsOwnId(conversation, person);
    AnEditOfItsOwnIdIsSound(conversation, person);
    AnEditOfItsOwnIdIsHarmed(conversation, person);
    MirrorKeepsExactly(t, 3, conversation, "1");
    hide Mirrored, Sound, ReportUnharmed, MarkUnharmed;
    var pair := (conversation, 1);
    assert pair in t.held && pair.1 in t.reports && !ReportUnharmed(t, conversation, "1", pair.0, pair.1);
  }

  /** One message under "1" that two conversations hold, reported and reacted to in the
      second alone. */
  function AMessageOfTwo(first: int, second: int, person: int): Tables {
    var row := ChatMessage(Some(User), Some("said"), Some(person), None, None, Some("1"), None,
                           None, None, None, None, None, None, None, None);
    Tables({(first, 0), (second, 0), (second, 1), (second, 2)}, map[], map[0 := row], map[],
           map[1 := Report(Some("1"), Some(person), "line")], map[2 := MessageMark(Some("1"), person, "emoji")],
           map[], map[], map[])
  }

  lemma AMessageOfTwoIsSound(first: int, second: int, person: int)
    requires first != second
    ensures var t := AMessageOfTwo(first, second, person);
            Sound(t, 3) && EditsKeepTheirId(t) && !OneConversationEach(t)
  {
    var t := AMessageOfTwo(first, second, person);
    assert ReportGrounded(t, second, "1", Some(person)) && MarkGrounded(t, second, "1", person) by {
      assert 0 in t.messages && (second, 0) in t.held;
    }
    assert (first, 0) in t.held && (second, 0) in t.held && (first, 0) != (second, 0);
    hide ReportGrounded, MarkGrounded;
    assert Grounded(t);
  }

  lemma AMessageOfTwoIsHarmed(first: int, second: int, person: int)
    requires first != second
    ensures var t := AMessageOfTwo(first, second, person);
            !ReportUnharmed(t, first, "1", second, 1) && !MarkUnharmed(t, first, "1", second, 2)
  {
    assert EmptiesMessage(AMessageOfTwo(first, second, person), first, "1", 0);
    hide EmptiesMessage, EmptiesJoin;
  }

  /** Where two conversations hold one message, keeping its id is not enough: the mirror
      in the first empties it and nulls no copy the second alone holds. */
  lemma AMessageOfTwoIsStranded(first: int, second: int, person: int)
    requires first != second
    ensures var t := AMessageOfTwo(first, second, person);
            && Sound(t, 3) && EditsKeepTheirId(t) && !Sound(Mirrored(t, first, "1"), 3)
            && !ReportUnharmed(t, first, "1", second, 1) && !MarkUnharmed(t, first, "1", second, 2)
  {
    var t := AMessageOfTwo(first, second, person);
    AMessageOfTwoIsSound(first, second, person);
    AMessageOfTwoIsHarmed(first, second, person);
    MirrorKeepsExactly(t, 3, first, "1");
    hide Mirrored, Sound, ReportUnharmed, MarkUnharmed, EditsKeepTheirId, OneConversationEach;
    var pair := (second, 1);
    assert pair in t.held && pair.1 in t.reports && !ReportUnharmed(t, first, "1", pair.0, pair.1);
  }

  // ─── What the door is for ──────────────────────────────────────────────

  /** Without the door: a mark scanned before the mirror and appended after it names an
      id no row of the conversation carries any more, whatever the tables hold. */
  lemma ScannedThenMirroredIsStranded(t: Tables, next: int, conversation: int,
                                      window: Window, named: string, emoji: string)
    requires Issued(t, next) && Scan(t, conversation, window, AskMark(named, emoji)).Ok?
    ensures var filed := Scan(t, conversation, window, AskMark(named, emoji)).value;
            var u := Append(Mirrored(t, conversation, named), conversation, next, filed);
            && !Recorded(u, conversation, named) && MarkStands(u, conversation, named) && !Grounded(u)
  {
    ScanFits(t, conversation, window, AskMark(named, emoji));
    var mark := Scan(t, conversation, window, AskMark(named, emoji)).value.mark;
    MirrorLeavesTheIdNowhere(t, conversation, named);
    MirrorFades(t, conversation, named);
    FadedStaysIssued(t, Mirrored(t, conversation, named), next);
    hide Mirrored, Scan, Issued, Faded, Append, Recorded;
    AppendedOverNothing(Mirrored(t, conversation, named), next, conversation, named, mark);
  }

  lemma FadedStaysIssued(t: Tables, v: Tables, next: int)
    requires Faded(t, v) && Issued(t, next)
    ensures Issued(v, next)
  {
  }

  /** A mark appended under an id nothing records any more stands on nothing. */
  lemma AppendedOverNothing(v: Tables, next: int, conversation: int, named: string, mark: MessageMark)
    requires Issued(v, next) && !Recorded(v, conversation, named) && mark.targetOrigin == Some(named)
    ensures var u := Append(v, conversation, next, FiledMark(mark));
            && !Recorded(u, conversation, named) && MarkStands(u, conversation, named) && !Grounded(u)
  {
  }
}
