/** The projected message: a fenced front matter over the words, printed once and never
    parsed back, which nevertheless reads back one way only. */
module Envelope {
  import opened Vocabulary
  import opened Kind
  import opened Text

  const FENCE := "---"
  const FROM := "from: @"
  const DATE := "date: "
  const MSGID := "msgid: "
  const EDITED := "edited: true"

  const ERASED_MARKER := "[message erased]"

  datatype Envelope = Envelope(from: Option<string>, date: Option<string>, msgid: Option<string>, edited: bool)
  {
    predicate Declares() {
      from.Some? || date.Some? || msgid.Some? || edited
    }

    predicate FieldsAreSingleLines() {
      && (from.Some? ==> SingleLine(from.value))
      && (date.Some? ==> SingleLine(date.value))
      && (msgid.Some? ==> SingleLine(msgid.value))
    }
  }

  // ─── The printer ───────────────────────────────────────────────────────

  function Field(mark: string, value: Option<string>): seq<string> {
    if value.Some? then [mark + value.value] else []
  }

  function HeaderLines(envelope: Envelope): seq<string> {
    Field(FROM, envelope.from) + Field(DATE, envelope.date) + Field(MSGID, envelope.msgid)
    + (if envelope.edited then [EDITED] else [])
  }

  function EnvelopedText(envelope: Envelope, body: string): string {
    var lines := HeaderLines(envelope);
    if |lines| == 0 then body else FENCE + "\n" + Join(lines, "\n") + "\n" + FENCE + "\n" + body
  }

  /** The printer, line by line in one fixed order. */
  method Enveloped(envelope: Envelope, body: string) returns (text: string)
    ensures text == EnvelopedText(envelope, body)
  {
    var lines: seq<string> := [];
    if envelope.from.Some? {
      lines := lines + [FROM + envelope.from.value];
    }
    if envelope.date.Some? {
      lines := lines + [DATE + envelope.date.value];
    }
    if envelope.msgid.Some? {
      lines := lines + [MSGID + envelope.msgid.value];
    }
    if envelope.edited {
      lines := lines + [EDITED];
    }
    assert lines == HeaderLines(envelope);
    if |lines| == 0 {
      return body;
    }
    text := FENCE + "\n" + Join(lines, "\n") + "\n" + FENCE + "\n" + body;
  }

  /** What one row projects. */
  function ProjectedText(row: ChatMessage): string {
    if row.text.None? then ERASED_MARKER
    else if row.role != Some(User) then row.text.value
    else EnvelopedText(EnvelopeOf(row), row.text.value)
  }

  function EnvelopeOf(row: ChatMessage): Envelope {
    Envelope(row.speaker, row.sentAt, if row.revises.Some? then row.revises else row.origin, row.revises.Some?)
  }

  // ─── A reader ──────────────────────────────────────────────────────────

  /** Lines up to the first closing fence, and everything behind it untouched. */
  function HeaderOf(text: string): (header: Option<(seq<string>, string)>)
    ensures header.Some? ==> forall k | 0 <= k < |header.value.0| :: SingleLine(header.value.0[k])
    decreases |text|
  {
    var end := LineEnd(text);
    if end == |text| then None
    else if text[..end] == FENCE then Some(([], text[end + 1..]))
    else match HeaderOf(text[end + 1..])
      case None => None
      case Some((lines, body)) => Some(([text[..end]] + lines, body))
  }

  function Labelled(lines: seq<string>, mark: string): (Option<string>, seq<string>) {
    if |lines| > 0 && mark <= lines[0] then (Some(lines[0][|mark|..]), lines[1..]) else (None, lines)
  }

  function FieldsOf(lines: seq<string>): Option<Envelope> {
    var (from, afterFrom) := Labelled(lines, FROM);
    var (date, afterDate) := Labelled(afterFrom, DATE);
    var (msgid, afterMsgid) := Labelled(afterDate, MSGID);
    if afterMsgid == [EDITED] then Some(Envelope(from, date, msgid, true))
    else if afterMsgid == [] then Some(Envelope(from, date, msgid, false))
    else None
  }

  /** Read a projected message back: its envelope and its words. */
  function Read(text: string): Option<(Envelope, string)> {
    if !(FENCE + "\n" <= text) then None
    else match HeaderOf(text[4..])
      case None => None
      case Some((lines, body)) =>
        match FieldsOf(lines)
        case None => None
        case Some(envelope) => Some((envelope, body))
  }

  // ─── It reads back exactly ─────────────────────────────────────────────

  lemma HeaderTakesALine(first: string, rest: string)
    requires SingleLine(first) && first != FENCE
    ensures HeaderOf(rest).Some? ==>
              HeaderOf(first + "\n" + rest) == Some(([first] + HeaderOf(rest).value.0, HeaderOf(rest).value.1))
  {
    var text := first + "\n" + rest;
    LineEndOf(first, rest);
    assert text[..|first|] == first && text[|first| + 1..] == rest;
  }

  lemma HeaderCloses(body: string)
    ensures HeaderOf(FENCE + "\n" + body) == Some(([], body))
  {
    var closing := FENCE + "\n" + body;
    LineEndOf(FENCE, body);
    assert closing[..3] == FENCE && closing[4..] == body;
  }

  lemma {:induction false} HeaderReadsBack(lines: seq<string>, body: string)
    requires |lines| > 0
    requires forall k | 0 <= k < |lines| :: SingleLine(lines[k]) && lines[k] != FENCE
    ensures HeaderOf(Join(lines, "\n") + "\n" + FENCE + "\n" + body) == Some((lines, body))
  {
    hide HeaderOf;
    var closing := FENCE + "\n" + body;
    var text := Join(lines, "\n") + "\n" + FENCE + "\n" + body;
    if |lines| == 1 {
      HeaderCloses(body);
      assert text == lines[0] + "\n" + closing;
      HeaderTakesALine(lines[0], closing);
      assert [lines[0]] + [] == lines;
    } else {
      var rest := Join(lines[1..], "\n") + "\n" + FENCE + "\n" + body;
      HeaderReadsBack(lines[1..], body);
      assert text == lines[0] + "\n" + rest;
      HeaderTakesALine(lines[0], rest);
      assert [lines[0]] + lines[1..] == lines;
    }
  }

  lemma LabelledReadsBack(mark: string, value: Option<string>, rest: seq<string>)
    requires |mark| > 0 && (|rest| > 0 ==> !(mark <= rest[0]))
    ensures Labelled(Field(mark, value) + rest, mark) == (value, rest)
  {
    if value.Some? {
      var lines := Field(mark, value) + rest;
      assert lines[0] == mark + value.value && lines[1..] == rest;
      assert lines[0][|mark|..] == value.value;
    } else {
      assert Field(mark, value) + rest == rest;
    }
  }

  lemma FieldsReadBack(envelope: Envelope)
    ensures FieldsOf(HeaderLines(envelope)) == Some(envelope)
  {
    var edited := if envelope.edited then [EDITED] else [];
    var msgid := Field(MSGID, envelope.msgid) + edited;
    var date := Field(DATE, envelope.date) + msgid;
    var from := Field(FROM, envelope.from) + date;
    assert HeaderLines(envelope) == from;
    assert FROM[0] == 'f' && DATE[0] == 'd' && MSGID[0] == 'm' && EDITED[0] == 'e';
    LabelledReadsBack(MSGID, envelope.msgid, edited);
    LabelledReadsBack(DATE, envelope.date, msgid);
    LabelledReadsBack(FROM, envelope.from, date);
  }

  lemma HeaderLinesAreLines(envelope: Envelope)
    ensures |HeaderLines(envelope)| > 0 <==> envelope.Declares()
    ensures (forall k | 0 <= k < |HeaderLines(envelope)| :: SingleLine(HeaderLines(envelope)[k]))
            <==> envelope.FieldsAreSingleLines()
    ensures forall k | 0 <= k < |HeaderLines(envelope)| :: HeaderLines(envelope)[k] != FENCE
  {
    var lines := HeaderLines(envelope);
    assert FROM[0] == 'f' && DATE[0] == 'd' && MSGID[0] == 'm' && EDITED[0] == 'e';
    assert SingleLine(FROM) && SingleLine(DATE) && SingleLine(MSGID) && SingleLine(EDITED);
    if envelope.from.Some? { assert lines[0] == FROM + envelope.from.value; }
    var atDate := |Field(FROM, envelope.from)|;
    if envelope.date.Some? { assert lines[atDate] == DATE + envelope.date.value; }
    var atMsgid := atDate + |Field(DATE, envelope.date)|;
    if envelope.msgid.Some? { assert lines[atMsgid] == MSGID + envelope.msgid.value; }
    forall k | 0 <= k < |lines|
      ensures lines[k] != FENCE && (envelope.FieldsAreSingleLines() ==> SingleLine(lines[k]))
    {
    }
  }

  /** A projected message reads back to exactly its envelope and its words, for every
      body, fence lines and all, exactly when the envelope declares something and no
      field of it holds a line break. */
  lemma ReadsBackExactly(envelope: Envelope, body: string)
    ensures Read(EnvelopedText(envelope, body)) == Some((envelope, body))
            <==> envelope.Declares() && envelope.FieldsAreSingleLines()
  {
    var lines, text := HeaderLines(envelope), EnvelopedText(envelope, body);
    HeaderLinesAreLines(envelope);
    if envelope.Declares() && envelope.FieldsAreSingleLines() {
      assert text[..4] == FENCE + "\n" && text[4..] == Join(lines, "\n") + "\n" + FENCE + "\n" + body;
      HeaderReadsBack(lines, body);
      FieldsReadBack(envelope);
    } else if Read(text) == Some((envelope, body)) {
      ReadIsShorter(text);
      ReadFieldsAreSingleLines(text);
    }
  }

  /** What is read is strictly shorter than the text, and holds no line break. */
  lemma ReadIsShorter(text: string)
    requires Read(text).Some?
    ensures |Read(text).value.1| < |text|
  {
    HeaderIsShorter(text[4..]);
  }

  lemma {:induction false} HeaderIsShorter(text: string)
    requires HeaderOf(text).Some?
    ensures |HeaderOf(text).value.1| <= |text|
    decreases |text|
  {
    var end := LineEnd(text);
    if text[..end] != FENCE {
      HeaderIsShorter(text[end + 1..]);
    }
  }

  lemma ReadFieldsAreSingleLines(text: string)
    requires Read(text).Some?
    ensures Read(text).value.0.FieldsAreSingleLines()
  {
  }

  /** So no two of them are drawn alike. */
  lemma EnvelopedIsInjective(a: Envelope, b: Envelope, body: string, other: string)
    requires a.Declares() && a.FieldsAreSingleLines() && b.Declares() && b.FieldsAreSingleLines()
    requires EnvelopedText(a, body) == EnvelopedText(b, other)
    ensures a == b && body == other
  {
    ReadsBackExactly(a, body);
    ReadsBackExactly(b, other);
  }

  /** Both conditions are needed: a line break in a field spells another envelope's
      line, and a bare message can spell a whole envelope. */
  lemma OutsideItTwoAreDrawnAlike(handle: string, id: string, body: string)
    ensures EnvelopedText(Envelope(Some(handle + "\n" + MSGID + id), None, None, false), body)
            == EnvelopedText(Envelope(Some(handle), None, Some(id), false), body)
    ensures EnvelopedText(Envelope(None, None, None, false),
                          EnvelopedText(Envelope(Some(handle), None, None, false), body))
            == EnvelopedText(Envelope(Some(handle), None, None, false), body)
  {
    var split, whole := HeaderLines(Envelope(Some(handle), None, Some(id), false)), FROM + handle + "\n" + MSGID + id;
    assert split == [FROM + handle, MSGID + id];
    assert split[1..] == [MSGID + id];
    assert Join(split, "\n") == whole;
    assert FROM + (handle + "\n" + MSGID + id) == whole;
    assert HeaderLines(Envelope(Some(handle + "\n" + MSGID + id), None, None, false)) == [whole];
  }

  // ─── What a row projects ───────────────────────────────────────────────

  lemma StorableSpeakersAreSingleLines(handle: string)
    requires StorableSpeaker(handle)
    ensures SingleLine(handle)
  {
  }

  /** One header line where there is a value, none where there is not. */
  function LineOf(mark: string, value: Option<string>): string {
    if value.Some? then mark + value.value + "\n" else ""
  }

  /** Lines, each ended. */
  function Drawn(lines: seq<string>): string {
    if |lines| == 0 then "" else Join(lines, "\n") + "\n"
  }

  lemma JoinByLines(lines: seq<string>, last: string)
    ensures Drawn(lines + [last]) == Drawn(lines) + (last + "\n")
  {
    if |lines| == 0 {
      assert lines + [last] == [last];
    } else {
      JoinConcat(lines, [last], "\n");
      assert Join(lines, "\n") + "\n" + last + "\n" == Join(lines, "\n") + "\n" + (last + "\n");
    }
  }

  lemma FieldIsDrawnSo(lines: seq<string>, mark: string, value: Option<string>)
    ensures Drawn(lines + Field(mark, value)) == Drawn(lines) + LineOf(mark, value)
  {
    if value.Some? {
      JoinByLines(lines, mark + value.value);
    } else {
      assert lines + [] == lines;
    }
    hide Join;
  }

  lemma HeaderIsDrawnSo(facts: Envelope)
    ensures Drawn(HeaderLines(facts)) ==
            LineOf("from: @", facts.from) + LineOf("date: ", facts.date) + LineOf("msgid: ", facts.msgid)
            + (if facts.edited then "edited: true\n" else "")
    ensures Drawn(HeaderLines(facts)) == "" <==> |HeaderLines(facts)| == 0
  {
    var from, date, msgid := Field(FROM, facts.from), Field(DATE, facts.date), Field(MSGID, facts.msgid);
    FieldIsDrawnSo([], FROM, facts.from);
    FieldIsDrawnSo(from, DATE, facts.date);
    FieldIsDrawnSo(from + date, MSGID, facts.msgid);
    assert [] + from == from;
    if facts.edited {
      JoinByLines(from + date + msgid, EDITED);
    } else {
      assert HeaderLines(facts) == from + date + msgid;
    }
    hide Join, Field, LineOf;
  }

  /** What a row draws, to the letter: nothing of an erased one but the marker; the words
      alone of anybody's but a person's, and of a row with no fact to declare; and a
      person's fenced facts in one order ahead of their words, a version under the id of
      the message it edits. */
  lemma RowIsDrawnSo(row: ChatMessage)
    ensures var header := LineOf("from: @", row.speaker) + LineOf("date: ", row.sentAt)
                          + LineOf("msgid: ", if row.revises.Some? then row.revises else row.origin)
                          + (if row.revises.Some? then "edited: true\n" else "");
            ProjectedText(row) ==
            if row.text.None? then "[message erased]"
            else if row.role != Some(User) || header == "" then row.text.value
            else "---\n" + header + "---\n" + row.text.value
  {
    if row.text.Some? {
      var facts := Envelope(row.speaker, row.sentAt, if row.revises.Some? then row.revises else row.origin,
                            row.revises.Some?);
      HeaderIsDrawnSo(facts);
      var lines, body := HeaderLines(facts), row.text.value;
      if |lines| > 0 {
        assert FENCE + "\n" + Join(lines, "\n") + "\n" + FENCE + "\n" + body
               == "---\n" + (Join(lines, "\n") + "\n") + "---\n" + body;
      }
      hide HeaderLines, Join, LineOf;
    }
  }

  /** A person's live row declares exactly its stored facts, under the one id every
      version of the message answers to; an erased row says the marker and declares
      nothing. */
  lemma RowProjectsItsFacts(row: ChatMessage)
    requires row.role == Some(User)
    requires row.speaker.Some? ==> StorableSpeaker(row.speaker.value)
    requires row.sentAt.Some? ==> SingleLine(row.sentAt.value)
    requires row.origin.Some? ==> SingleLine(row.origin.value)
    requires row.revises.Some? ==> SingleLine(row.revises.value)
    ensures row.text.None? ==> ProjectedText(row) == "[message erased]" && Read(ProjectedText(row)).None?
    ensures row.text.Some? && (row.speaker.Some? || row.sentAt.Some? || row.origin.Some? || row.revises.Some?) ==>
              Read(ProjectedText(row)) ==
              Some((Envelope(row.speaker, row.sentAt, if row.revises.Some? then row.revises else row.origin,
                             row.revises.Some?), row.text.value))
  {
    if row.speaker.Some? {
      StorableSpeakersAreSingleLines(row.speaker.value);
    }
    assert ERASED_MARKER[0] == '[';
    if row.text.Some? {
      ReadsBackExactly(EnvelopeOf(row), row.text.value);
    }
  }
}
