/** The consumer's tables and the store operations that empty them: one operation is
    one atomic pass over one table. */
module Tables {
  import opened Vocabulary
  import opened Kind

  datatype JoinNotice = JoinNotice(
    name: Option<string>,
    handle: Option<string>,
    principalId: Option<int>,
    origin: Option<string>,
    joinedAt: Option<string>)
  {
    function Emptied(): JoinNotice {
      JoinNotice(None, None, principalId, None, None)
    }

    /** No personal column is left. */
    predicate Bare() {
      name.None? && handle.None? && origin.None? && joinedAt.None?
    }
  }

  /** A filed report: the record it names, and whom, where it is one person's. */
  datatype Report = Report(targetOrigin: Option<string>, reportedPrincipalId: Option<int>, line: string)

  /** A filed reaction: the message it sits on and that message's author. */
  datatype MessageMark = MessageMark(targetOrigin: Option<string>, markedPrincipalId: int, emoji: string)

  /** A message of the assistant's own, filed to go out: the words, the id it threads
      onto, and the tool call it answers. */
  datatype FiledSend = FiledSend(text: string, replyTo: Option<string>, callBlock: int)

  datatype Identity = Identity(adapter: string, externalId: string, username: Option<string>, optedOut: bool)

  datatype ChannelKind = Direct | Group

  datatype ChannelKey = ChannelKey(adapter: string, channel: string)

  datatype ChannelRecord = ChannelRecord(kind: ChannelKind, conversationId: int)

  /** The stored state: the junction of conversations and the blocks they hold, the
      block headers, the content tables that name a person or copy a platform id of
      one by block id, the channel mapping and the identity rows. */
  datatype Tables = Tables(
    held: set<(int, int)>,
    headers: map<int, string>,
    messages: map<int, ChatMessage>,
    joins: map<int, JoinNotice>,
    reports: map<int, Report>,
    marks: map<int, MessageMark>,
    sends: map<int, FiledSend>,
    channels: map<ChannelKey, ChannelRecord>,
    principals: map<int, Identity>)

  /** Some conversation holds both blocks. */
  predicate Share(held: set<(int, int)>, a: int, b: int) {
    exists pair | pair in held :: pair.1 == a && (pair.0, b) in held
  }

  /** Some record of the person carries this platform id in a conversation that also
      holds the block: the join both origin sources are matched through. */
  predicate Carries(t: Tables, person: int, origin: string, block: int) {
    || (exists a | a in t.messages ::
          t.messages[a].principalId == Some(person) && t.messages[a].origin == Some(origin) && Share(t.held, a, block))
    || (exists a | a in t.joins ::
          t.joins[a].principalId == Some(person) && t.joins[a].origin == Some(origin) && Share(t.held, a, block))
  }

  // ─── The person-wide passes ────────────────────────────────────────────

  function ReplyTargetsNulled(t: Tables, person: int): Tables {
    t.(messages := map b | b in t.messages ::
      var row := t.messages[b];
      if row.replyTarget.Some? && Carries(t, person, row.replyTarget.value, b) then row.(replyTarget := None) else row)
  }

  function ReportTargetsNulled(t: Tables, person: int): Tables {
    t.(reports := map b | b in t.reports ::
      var row := t.reports[b];
      if row.targetOrigin.Some? && Carries(t, person, row.targetOrigin.value, b) then row.(targetOrigin := None)
      else row)
  }

  function ContentEmptied(t: Tables, person: int): Tables {
    t.(messages := map b | b in t.messages ::
      if t.messages[b].principalId == Some(person) then t.messages[b].Emptied() else t.messages[b])
  }

  function JoinsEmptied(t: Tables, person: int): Tables {
    t.(joins := map b | b in t.joins ::
      if t.joins[b].principalId == Some(person) then t.joins[b].Emptied() else t.joins[b])
  }

  function ReportedOriginsNulled(t: Tables, person: int): Tables {
    t.(reports := map b | b in t.reports ::
      if t.reports[b].reportedPrincipalId == Some(person) then t.reports[b].(targetOrigin := None) else t.reports[b])
  }

  function MarkedOriginsNulled(t: Tables, person: int): Tables {
    t.(marks := map b | b in t.marks ::
      if t.marks[b].markedPrincipalId == person then t.marks[b].(targetOrigin := None) else t.marks[b])
  }

  // ─── Whole conversations and identities ────────────────────────────────

  function Unmapped(t: Tables, conversation: int): Tables {
    t.(channels := map k | k in t.channels && t.channels[k].conversationId != conversation :: t.channels[k])
  }

  function ConversationDeleted(t: Tables, conversation: int): Tables {
    t.(held := set pair | pair in t.held && pair.0 != conversation)
  }

  predicate HeldAnywhere(held: set<(int, int)>, block: int) {
    exists pair | pair in held :: pair.1 == block
  }

  /** Collect every block no conversation holds. */
  function OrphansCollected(t: Tables): Tables {
    t.(headers := map b | b in t.headers && HeldAnywhere(t.held, b) :: t.headers[b],
       messages := map b | b in t.messages && HeldAnywhere(t.held, b) :: t.messages[b],
       joins := map b | b in t.joins && HeldAnywhere(t.held, b) :: t.joins[b],
       reports := map b | b in t.reports && HeldAnywhere(t.held, b) :: t.reports[b],
       marks := map b | b in t.marks && HeldAnywhere(t.held, b) :: t.marks[b],
       sends := map b | b in t.sends && HeldAnywhere(t.held, b) :: t.sends[b])
  }

  /** A flagged identity is emptied to its stub, an unflagged one is deleted. */
  function Concluded(principals: map<int, Identity>, person: int): map<int, Identity> {
    if person !in principals then principals
    else if principals[person].optedOut then principals[person := principals[person].(username := None)]
    else principals - {person}
  }

  function IdentityConcluded(t: Tables, person: int): Tables {
    t.(principals := Concluded(t.principals, person))
  }

  /** Any of the four row families names the person. */
  predicate Named(t: Tables, person: int) {
    || (exists b | b in t.messages :: t.messages[b].principalId == Some(person))
    || (exists b | b in t.joins :: t.joins[b].principalId == Some(person))
    || (exists b | b in t.reports :: t.reports[b].reportedPrincipalId == Some(person))
    || (exists b | b in t.marks :: t.marks[b].markedPrincipalId == person)
  }

  function UnnamedDeleted(t: Tables): Tables {
    t.(principals := map p | p in t.principals && (t.principals[p].optedOut || Named(t, p)) :: t.principals[p])
  }

  // ─── The deletion mirror's passes ──────────────────────────────────────

  function MessageNamedEmptied(t: Tables, conversation: int, named: string): Tables {
    t.(messages := map b | b in t.messages ::
      if t.messages[b].AnswersTo(named) && (conversation, b) in t.held then t.messages[b].Emptied() else t.messages[b])
  }

  function EventNamedEmptied(t: Tables, conversation: int, named: string): Tables {
    t.(joins := map b | b in t.joins ::
      if t.joins[b].origin == Some(named) && (conversation, b) in t.held then t.joins[b].Emptied() else t.joins[b])
  }

  function ReplyReferencesNulled(t: Tables, conversation: int, named: string): Tables {
    t.(messages := map b | b in t.messages ::
      if t.messages[b].replyTarget == Some(named) && (conversation, b) in t.held
      then t.messages[b].(replyTarget := None) else t.messages[b])
  }

  function ReportReferencesNulled(t: Tables, conversation: int, named: string): Tables {
    t.(reports := map b | b in t.reports ::
      if t.reports[b].targetOrigin == Some(named) && (conversation, b) in t.held
      then t.reports[b].(targetOrigin := None) else t.reports[b])
  }

  function MarkReferencesNulled(t: Tables, conversation: int, named: string): Tables {
    t.(marks := map b | b in t.marks ::
      if t.marks[b].targetOrigin == Some(named) && (conversation, b) in t.held
      then t.marks[b].(targetOrigin := None) else t.marks[b])
  }

  /** The conversation holds a record under the named id. */
  predicate Recorded(t: Tables, conversation: int, named: string) {
    || (exists b | b in t.messages :: t.messages[b].AnswersTo(named) && (conversation, b) in t.held)
    || (exists b | b in t.joins :: t.joins[b].origin == Some(named) && (conversation, b) in t.held)
  }

  // ─── A filed send ──────────────────────────────────────────────────────

  /** The conversation's ledger holds the id: a record of its own does, or a receipt of
      one of the assistant's own messages, `own`. */
  predicate LedgerHolds(t: Tables, conversation: int, id: string, own: set<string>) {
    Recorded(t, conversation, id) || id in own
  }

  predicate CallHasSend(t: Tables, conversation: int, call: int) {
    exists b | b in t.sends :: (conversation, b) in t.held && t.sends[b].callBlock == call
  }

  datatype SendAnswer = Pending | UnknownTarget

  /** The sending tools' one append: a call re-run files no second block, and an id the
      ledger does not hold is refused. */
  function SendFiled(t: Tables, conversation: int, block: int, send: FiledSend, own: set<string>)
    : (Tables, SendAnswer)
  {
    if CallHasSend(t, conversation, send.callBlock) then (t, Pending)
    else if send.replyTo.Some? && !LedgerHolds(t, conversation, send.replyTo.value, own) then (t, UnknownTarget)
    else (t.(held := t.held + {(conversation, block)},
             headers := t.headers[block := "outgoing_message"],
             sends := t.sends[block := send]), Pending)
  }

  /** The whole mirror: the record first, and the copies exactly when a record was
      there. */
  function Mirrored(t: Tables, conversation: int, named: string): Tables {
    var emptied := EventNamedEmptied(MessageNamedEmptied(t, conversation, named), conversation, named);
    if Recorded(t, conversation, named)
    then MarkReferencesNulled(
           ReportReferencesNulled(
             ReplyReferencesNulled(emptied, conversation, named), conversation, named), conversation, named)
    else emptied
  }
}
