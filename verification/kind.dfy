/** The recorded channel message: its stored columns, the readings every walk
    shares, and the stamp composed once at the write. */
module Kind {
  import opened Vocabulary

  datatype Role = User | Assistant | System

  datatype LimitedBy = Principal | Channel | Command

  /** One content row. Every column the schema stores NOT NULL is optional here
      because the parse is total: only a row the store did not produce lacks it. */
  datatype ChatMessage = ChatMessage(
    role: Option<Role>,
    text: Option<string>,
    principalId: Option<int>,
    authority: Option<Authority>,
    speaker: Option<string>,
    origin: Option<string>,
    revises: Option<string>,
    sentAt: Option<string>,
    addressed: Option<bool>,
    literalAddressed: Option<bool>,
    answerDue: Option<bool>,
    limited: Option<LimitedBy>,
    debtAuthority: Option<Authority>,
    replyTarget: Option<string>,
    replyToAssistant: Option<bool>)
  {
    /** Whether this message still owes the model a turn. */
    predicate OwesAnswer() {
      role == Some(User) && text.Some? && answerDue == Some(true)
    }

    predicate Erased() {
      text.None?
    }

    /** Whether the owing-tail walk reads through this row. */
    predicate TransparentToTheWalk() {
      Erased() || answerDue == Some(false)
    }

    /** The authority an owing row hands on, a row without the stamp folding to
        its sender's own standing. */
    function CarriedDebtAuthority(): Option<Authority> {
      if debtAuthority.Some? then debtAuthority else authority
    }

    predicate OwnDebtTaken() {
      addressed == Some(true) && limited.None?
    }

    /** Whether the row answers to a platform id: its own, or the one it revises. */
    predicate AnswersTo(named: string) {
      origin == Some(named) || revises == Some(named)
    }

    /** The row after the six nulls both erasing passes write. */
    function Emptied(): ChatMessage {
      this.(text := None, origin := None, sentAt := None, replyTarget := None, speaker := None, revises := None)
    }

    /** No personal column is left. */
    predicate Bare() {
      text.None? && origin.None? && sentAt.None? && replyTarget.None? && speaker.None? && revises.None?
    }

    /** The facts the schema refuses to store a row without. */
    ghost predicate Stored() {
      && role == Some(User)
      && principalId.Some?
      && authority.Some?
      && addressed.Some?
      && literalAddressed.Some?
      && (answerDue == Some(true) || answerDue == Some(false))
    }
  }

  /** What an erasing pass owes a row it reaches, column by column: nothing personal left,
      and every fact a later debt or walk may rest on as it was. */
  ghost predicate Stripped(was: ChatMessage, now: ChatMessage) {
    && now.Bare()
    && now.role == was.role && now.principalId == was.principalId && now.authority == was.authority
    && now.addressed == was.addressed && now.literalAddressed == was.literalAddressed
    && now.answerDue == was.answerDue && now.limited == was.limited && now.debtAuthority == was.debtAuthority
    && now.replyToAssistant == was.replyToAssistant
  }

  /** The summons as the entry point resolved it, and the adapter's literal fact. */
  datatype Summons = Summons(summoned: bool, literalAddressed: bool)

  /** The debt an owing tail hands the next write. */
  datatype TailDebt = TailDebt(authority: Option<Authority>)

  datatype Stamp = Stamp(
    addressed: bool,
    literalAddressed: bool,
    limited: Option<LimitedBy>,
    answerDue: bool,
    debtAuthority: Option<Authority>)

  /** A carried debt's authority against one more sender: the lower of the two. */
  function Folded(carried: Option<Authority>, sender: Authority): Authority {
    if carried.Some? then Lower(carried.value, sender) else sender
  }

  /** Compose the stamp: due when the message's own debt was taken or a tail's
      debt propagates through it, at the lowest standing that contributed. */
  function Compose(summons: Summons, sender: Authority, limited: Option<LimitedBy>,
                   owingTail: Option<TailDebt>): Stamp {
    var ownDebtTaken := summons.summoned && limited.None?;
    Stamp(
      summons.summoned,
      summons.literalAddressed,
      limited,
      ownDebtTaken || owingTail.Some?,
      match owingTail
      case Some(tail) => Some(Folded(tail.authority, sender))
      case None => if ownDebtTaken then Some(sender) else None)
  }

  /** A handle that can stand in the projected prefix without blurring it. */
  predicate StorableSpeaker(handle: string) {
    && handle != ""
    && ':' !in handle
    && forall i | 0 <= i < |handle| :: !IsWhitespace(handle[i])
  }

  /** Unicode's White_Space property. */
  predicate IsWhitespace(c: char) {
    || '\U{0009}' <= c <= '\U{000D}'
    || c in {' ', '\U{0085}', '\U{00A0}', '\U{1680}', '\U{2028}', '\U{2029}', '\U{202F}', '\U{205F}', '\U{3000}'}
    || '\U{2000}' <= c <= '\U{200A}'
  }

  /** The code points of Unicode's White_Space property. */
  const WHITE_SPACE: set<int> := {
    0x09, 0x0A, 0x0B, 0x0C, 0x0D, 0x20, 0x85, 0xA0, 0x1680, 0x2000, 0x2001, 0x2002, 0x2003, 0x2004, 0x2005,
    0x2006, 0x2007, 0x2008, 0x2009, 0x200A, 0x2028, 0x2029, 0x202F, 0x205F, 0x3000
  }

  /** A character with that property. */
  predicate White(c: char) {
    c as int in WHITE_SPACE
  }

  /** A handle that would blur the projected prefix: empty, or with a colon or white space
      in it. */
  predicate Blurs(handle: string) {
    handle == "" || exists i :: 0 <= i < |handle| && (handle[i] == ':' || White(handle[i]))
  }

  lemma WhitespaceExactly(c: char)
    ensures IsWhitespace(c) <==> White(c)
  {
  }

  lemma BlursExactly(handle: string)
    ensures StorableSpeaker(handle) <==> !Blurs(handle)
  {
    hide IsWhitespace, White;
    forall i | 0 <= i < |handle| {
      WhitespaceExactly(handle[i]);
    }
  }
}
