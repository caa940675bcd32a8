/** The compaction summary's rendering: text nothing parses back, which nevertheless
    reads back one way only, whatever the model wrote inside an item. */
module Summary {
  import opened Vocabulary
  import opened Kind
  import opened Text

  datatype AnsweredQuestion = AnsweredQuestion(question: string, answer: string)

  datatype CompactionSummary = CompactionSummary(
    topics: seq<string>,
    questionsAnswered: seq<AnsweredQuestion>,
    decisions: seq<string>,
    facts: seq<string>,
    corrections: seq<string>,
    openItems: seq<string>)

  const TOPICS_HEADING := "Topics, in the order they came up:"
  const QUESTIONS_HEADING := "Asked and answered:"
  const DECISIONS_HEADING := "Decisions and conclusions reached:"
  const FACTS_HEADING := "Facts established about people, " + "versions, settings and links:"
  const CORRECTIONS_HEADING := "Corrections made:"
  const OPEN_ITEMS_HEADING := "Left open or unfinished:"

  // ─── Containing a text inside its item ─────────────────────────────────

  function TrimStart(text: string): (trimmed: string)
    ensures |trimmed| > 0 ==> !IsWhitespace(trimmed[0])
    ensures SingleLine(text) ==> SingleLine(trimmed)
  {
    if |text| > 0 && IsWhitespace(text[0]) then TrimStart(text[1..]) else text
  }

  function TrimEnd(text: string): (trimmed: string)
    ensures trimmed <= text
    ensures |trimmed| > 0 ==> !IsWhitespace(trimmed[|trimmed| - 1])
  {
    if |text| > 0 && IsWhitespace(text[|text| - 1]) then TrimEnd(text[..|text| - 1]) else text
  }

  function Trim(text: string): (trimmed: string)
    ensures |trimmed| > 0 ==> !IsWhitespace(trimmed[|trimmed| - 1])
    ensures SingleLine(text) ==> SingleLine(trimmed)
  {
    TrimEnd(TrimStart(text))
  }

  predicate NormalLine(line: string) {
    SingleLine(line) && |line| > 0 && !IsWhitespace(line[|line| - 1])
  }

  /** The lines trimmed, the blank ones dropped. */
  function TrimmedLines(lines: seq<string>): (kept: seq<string>)
    requires forall k | 0 <= k < |lines| :: SingleLine(lines[k])
    ensures forall k | 0 <= k < |kept| :: NormalLine(kept[k])
  {
    if |lines| == 0 then []
    else
      var first, rest := Trim(lines[0]), TrimmedLines(lines[1..]);
      if first == "" then rest else [first] + rest
  }

  function NormalLines(text: string): (kept: seq<string>)
    ensures forall k | 0 <= k < |kept| :: NormalLine(kept[k])
  {
    TrimmedLines(Lines(text))
  }

  /** A line's core: what is left of it without the white space at its two ends. */
  ghost predicate Core(line: string, core: string) {
    && (core != "" ==> !White(core[0]) && !White(core[|core| - 1]))
    && exists i, j | 0 <= i <= j <= |line| :: core == line[i..j] && WhiteOutside(line, i, j)
  }

  ghost predicate WhiteOutside(line: string, i: int, j: int) {
    forall k | 0 <= k < |line| && !(i <= k < j) :: White(line[k])
  }

  ghost predicate Blank(line: string) {
    WhiteOutside(line, 0, 0)
  }

  /** The lines that are not blank, in order. */
  ghost function Filled(lines: seq<string>): seq<string> {
    if |lines| == 0 then [] else (if Blank(lines[0]) then [] else [lines[0]]) + Filled(lines[1..])
  }

  lemma {:induction false} StartTrimmedAt(text: string) returns (i: nat)
    ensures i <= |text| && TrimStart(text) == text[i..] && forall k | 0 <= k < i :: White(text[k])
  {
    i := 0;
    if |text| > 0 {
      WhitespaceExactly(text[0]);
      if White(text[0]) {
        var j := StartTrimmedAt(text[1..]);
        assert text[1..][j..] == text[j + 1..];
        assert forall k | 0 < k <= j :: text[k] == text[1..][k - 1];
        i := j + 1;
      }
    }
    hide White, IsWhitespace;
  }

  lemma {:induction false} EndTrimmedAt(text: string)
    ensures var n := |TrimEnd(text)|; n <= |text| && forall k | n <= k < |text| :: White(text[k])
  {
    if |text| > 0 {
      WhitespaceExactly(text[|text| - 1]);
      if White(text[|text| - 1]) {
        var front := text[..|text| - 1];
        EndTrimmedAt(front);
        assert forall k | 0 <= k < |front| :: text[k] == front[k];
      }
    }
    hide White, IsWhitespace;
  }

  /** Trimming leaves a line's core, and nothing of a blank one. */
  lemma TrimExactly(line: string)
    ensures Core(line, Trim(line))
    ensures Trim(line) == "" <==> Blank(line)
  {
    var i := StartTrimmedAt(line);
    var tail, core := TrimStart(line), Trim(line);
    EndTrimmedAt(tail);
    var j := i + |core|;
    assert core == line[i..j];
    forall k | 0 <= k < |line| && !(i <= k < j) ensures White(line[k]) {
      assert k >= j ==> line[k] == tail[k - i];
    }
    assert WhiteOutside(line, i, j);
    if core != "" {
      WhitespaceExactly(core[0]);
      WhitespaceExactly(core[|core| - 1]);
      assert core[0] == tail[0] && line[i] == core[0];
    }
    hide White, IsWhitespace, TrimStart, TrimEnd;
  }

  lemma {:induction false} TrimmedExactly(lines: seq<string>)
    requires forall k | 0 <= k < |lines| :: SingleLine(lines[k])
    ensures var kept, filled := TrimmedLines(lines), Filled(lines);
            |kept| == |filled| && forall k | 0 <= k < |kept| :: Core(filled[k], kept[k])
  {
    if |lines| > 0 {
      TrimmedExactly(lines[1..]);
      TrimExactly(lines[0]);
      hide Trim, Core, Blank;
      var kept, filled := TrimmedLines(lines[1..]), Filled(lines[1..]);
      if Blank(lines[0]) {
        assert TrimmedLines(lines) == kept && Filled(lines) == [] + filled;
      } else {
        assert TrimmedLines(lines) == [Trim(lines[0])] + kept && Filled(lines) == [lines[0]] + filled;
      }
    }
  }

  /** What a text keeps: the cores of its lines that are not blank, in order. */
  lemma NormalLinesExactly(text: string)
    ensures var kept, filled := NormalLines(text), Filled(Lines(text));
            |kept| == |filled| && forall k | 0 <= k < |kept| :: Core(filled[k], kept[k])
  {
    TrimmedExactly(Lines(text));
  }

  const INDENT := "\n  "

  /** A text kept inside its list item. */
  function Contained(text: string): string {
    Join(NormalLines(text), INDENT)
  }

  // ─── The rendering ─────────────────────────────────────────────────────

  function Item(text: string): Option<string> {
    var contained := Contained(text);
    if contained == "" then None else Some("- " + contained)
  }

  function AnsweredItem(asked: AnsweredQuestion): Option<string> {
    var question, answer := Contained(asked.question), Contained(asked.answer);
    if question == "" && answer == "" then None
    else Some(TrimEnd("- Q: " + question + "\n  A: " + answer))
  }

  function Items(texts: seq<string>): seq<Option<string>> {
    if |texts| == 0 then [] else [Item(texts[0])] + Items(texts[1..])
  }

  function AnsweredItems(asked: seq<AnsweredQuestion>): seq<Option<string>> {
    if |asked| == 0 then [] else [AnsweredItem(asked[0])] + AnsweredItems(asked[1..])
  }

  function Flattened(options: seq<Option<string>>): seq<string> {
    if |options| == 0 then []
    else if options[0].Some? then [options[0].value] + Flattened(options[1..])
    else Flattened(options[1..])
  }

  function Section(heading: string, items: seq<Option<string>>): Option<string> {
    var lines := Flattened(items);
    if |lines| == 0 then None else Some(heading + "\n" + Join(lines, "\n"))
  }

  /** Each unit that holds anything, under its heading; nothing in any unit is no
      summary. */
  function Render(summary: CompactionSummary): Result<string, string> {
    var rendered := Flattened([
      Section(TOPICS_HEADING, Items(summary.topics)),
      Section(QUESTIONS_HEADING, AnsweredItems(summary.questionsAnswered)),
      Section(DECISIONS_HEADING, Items(summary.decisions)),
      Section(FACTS_HEADING, Items(summary.facts)),
      Section(CORRECTIONS_HEADING, Items(summary.corrections)),
      Section(OPEN_ITEMS_HEADING, Items(summary.openItems))]);
    if |rendered| == 0 then Err("every unit of the summary is empty") else Ok(Join(rendered, "\n\n"))
  }

  // ─── What a summary says, apart from how it is drawn ───────────────────

  /** One section: its heading and its items, each the lines it holds. */
  datatype Unit = Unit(heading: string, items: seq<seq<string>>)

  function TextUnits(texts: seq<string>): seq<seq<string>> {
    if |texts| == 0 then []
    else if NormalLines(texts[0]) == [] then TextUnits(texts[1..])
    else [NormalLines(texts[0])] + TextUnits(texts[1..])
  }

  function Asks(question: seq<string>): seq<string> {
    if question == [] then ["Q: "] else ["Q: " + question[0]] + question[1..]
  }

  function Answers(answer: seq<string>): seq<string> {
    if answer == [] then ["A:"] else ["A: " + answer[0]] + answer[1..]
  }

  /** A pair's lines: each side behind its mark, a blank side as its mark alone. */
  function AnsweredLines(asked: AnsweredQuestion): seq<string> {
    Asks(NormalLines(asked.question)) + Answers(NormalLines(asked.answer))
  }

  function AnsweredUnits(asked: seq<AnsweredQuestion>): seq<seq<string>> {
    if |asked| == 0 then []
    else if NormalLines(asked[0].question) == [] && NormalLines(asked[0].answer) == [] then AnsweredUnits(asked[1..])
    else [AnsweredLines(asked[0])] + AnsweredUnits(asked[1..])
  }

  function Holding(units: seq<Unit>): seq<Unit> {
    if |units| == 0 then []
    else if units[0].items == [] then Holding(units[1..])
    else [units[0]] + Holding(units[1..])
  }

  /** The units that hold anything, their normalized items in order. */
  function Said(summary: CompactionSummary): seq<Unit> {
    Holding([
      Unit(TOPICS_HEADING, TextUnits(summary.topics)),
      Unit(QUESTIONS_HEADING, AnsweredUnits(summary.questionsAnswered)),
      Unit(DECISIONS_HEADING, TextUnits(summary.decisions)),
      Unit(FACTS_HEADING, TextUnits(summary.facts)),
      Unit(CORRECTIONS_HEADING, TextUnits(summary.corrections)),
      Unit(OPEN_ITEMS_HEADING, TextUnits(summary.openItems))])
  }

  // ─── A reader ──────────────────────────────────────────────────────────

  datatype Reading = Reading(rest: seq<string>, items: seq<seq<string>>, units: seq<Unit>)

  /** Line by line from the last: an item opens at its marker, an indented line belongs
      to the item above it, a blank line separates, and anything else is a heading. */
  function ReadLines(lines: seq<string>): Reading {
    if |lines| == 0 then Reading([], [], [])
    else
      var line, below := lines[0], ReadLines(lines[1..]);
      if "- " <= line then Reading([], [[line[2..]] + below.rest] + below.items, below.units)
      else if "  " <= line then below.(rest := [line[2..]] + below.rest)
      else if line == "" then below
      else Reading([], [], [Unit(line, below.items)] + below.units)
  }

  function Read(text: string): seq<Unit> {
    ReadLines(Lines(text)).units
  }

  // ─── Drawing by lines ──────────────────────────────────────────────────

  function Indented(lines: seq<string>): seq<string> {
    if |lines| == 0 then [] else ["  " + lines[0]] + Indented(lines[1..])
  }

  function ItemLines(lines: seq<string>): seq<string>
    requires |lines| > 0
  {
    ["- " + lines[0]] + Indented(lines[1..])
  }

  function ItemsLines(items: seq<seq<string>>): seq<string>
    requires forall k | 0 <= k < |items| :: |items[k]| > 0
  {
    if |items| == 0 then [] else ItemLines(items[0]) + ItemsLines(items[1..])
  }

  predicate Drawable(unit: Unit) {
    && |unit.items| > 0
    && unit.heading in {TOPICS_HEADING, QUESTIONS_HEADING, DECISIONS_HEADING,
                        FACTS_HEADING, CORRECTIONS_HEADING, OPEN_ITEMS_HEADING}
    && (forall k | 0 <= k < |unit.items| :: |unit.items[k]| > 0)
    && (forall k, m | 0 <= k < |unit.items| && 0 <= m < |unit.items[k]| :: SingleLine(unit.items[k][m]))
  }

  function UnitLines(unit: Unit): seq<string>
    requires Drawable(unit)
  {
    [unit.heading] + ItemsLines(unit.items)
  }

  function AllLines(units: seq<Unit>): seq<string>
    requires forall k | 0 <= k < |units| :: Drawable(units[k])
  {
    if |units| == 0 then []
    else if |units| == 1 then UnitLines(units[0])
    else UnitLines(units[0]) + [""] + AllLines(units[1..])
  }

  // ─── The reader undoes the drawing ─────────────────────────────────────

  /** A reading with more lines of an item's text in front of it. */
  function Above(lines: seq<string>, reading: Reading): Reading {
    reading.(rest := lines + reading.rest)
  }

  lemma AboveByFirst(lines: seq<string>, reading: Reading)
    requires |lines| > 0
    ensures Above([lines[0]], Above(lines[1..], reading)) == Above(lines, reading)
  {
    assert [lines[0]] + (lines[1..] + reading.rest) == lines + reading.rest;
  }

  lemma IndentedLineReadsBack(line: string, below: seq<string>)
    ensures ReadLines(["  " + line] + below) == Above([line], ReadLines(below))
  {
    var drawn := ["  " + line] + below;
    assert drawn[0][2..] == line && drawn[0][0] == ' ' && drawn[1..] == below;
  }

  lemma {:induction false} IndentedReadsBack(lines: seq<string>, tail: seq<string>)
    ensures ReadLines(Indented(lines) + tail) == Above(lines, ReadLines(tail))
  {
    hide ReadLines;
    if |lines| == 0 {
      assert Indented(lines) + tail == tail;
      assert lines + ReadLines(tail).rest == ReadLines(tail).rest;
    } else {
      var below := Indented(lines[1..]) + tail;
      assert Indented(lines) + tail == ["  " + lines[0]] + below;
      hide Indented, Above;
      IndentedReadsBack(lines[1..], tail);
      IndentedLineReadsBack(lines[0], below);
      AboveByFirst(lines, ReadLines(tail));
    }
  }

  lemma MarkedLineReadsBack(line: string, below: seq<string>)
    ensures ReadLines(["- " + line] + below)
            == Reading([], [[line] + ReadLines(below).rest] + ReadLines(below).items, ReadLines(below).units)
  {
    var drawn := ["- " + line] + below;
    assert drawn[0][2..] == line && drawn[1..] == below;
  }

  lemma ItemReadsBack(lines: seq<string>, tail: seq<string>)
    requires |lines| > 0 && ReadLines(tail).rest == []
    ensures ReadLines(ItemLines(lines) + tail) == ReadLines(tail).(items := [lines] + ReadLines(tail).items)
  {
    var below := Indented(lines[1..]) + tail;
    assert ItemLines(lines) + tail == ["- " + lines[0]] + below;
    hide ReadLines, ItemLines, Indented;
    MarkedLineReadsBack(lines[0], below);
    IndentedReadsBack(lines[1..], tail);
    assert [lines[0]] + (lines[1..] + []) == lines;
  }

  lemma {:induction false} ItemsReadBack(items: seq<seq<string>>, tail: seq<string>)
    requires ReadLines(tail).rest == [] && forall k | 0 <= k < |items| :: |items[k]| > 0
    ensures ReadLines(ItemsLines(items) + tail) == ReadLines(tail).(items := items + ReadLines(tail).items)
  {
    hide ReadLines, ItemLines;
    if |items| == 0 {
      assert ItemsLines(items) + tail == tail;
      assert items + ReadLines(tail).items == ReadLines(tail).items;
    } else {
      var rest := ItemsLines(items[1..]) + tail;
      ItemsReadBack(items[1..], tail);
      ItemReadsBack(items[0], rest);
      assert ItemsLines(items) + tail == ItemLines(items[0]) + rest;
      assert items + ReadLines(tail).items == [items[0]] + (items[1..] + ReadLines(tail).items);
    }
  }

  /** A line the reader takes for a heading. */
  predicate Headed(line: string) {
    |line| > 0 && line[0] != '-' && line[0] != ' ' && SingleLine(line)
  }

  lemma ShortHeadings()
    ensures Headed(TOPICS_HEADING) && Headed(QUESTIONS_HEADING) && Headed(CORRECTIONS_HEADING)
  {
  }

  lemma MiddlingHeadings()
    ensures Headed(DECISIONS_HEADING) && Headed(OPEN_ITEMS_HEADING)
  {
  }

  lemma LongHeading()
    ensures Headed(FACTS_HEADING)
  {
  }

  /** A heading is read as a heading. */
  lemma HeadingsAreHeadings(unit: Unit)
    requires Drawable(unit)
    ensures !("- " <= unit.heading) && !("  " <= unit.heading) && unit.heading != "" && SingleLine(unit.heading)
  {
    ShortHeadings();
    MiddlingHeadings();
    LongHeading();
    hide Headed;
    assert Headed(unit.heading);
  }

  lemma HeadingReadsBack(heading: string, below: seq<string>)
    requires !("- " <= heading) && !("  " <= heading) && heading != ""
    ensures ReadLines([heading] + below)
            == Reading([], [], [Unit(heading, ReadLines(below).items)] + ReadLines(below).units)
  {
    assert ([heading] + below)[1..] == below;
  }

  lemma UnitReadsBack(unit: Unit, tail: seq<string>)
    requires Drawable(unit) && ReadLines(tail).rest == [] && ReadLines(tail).items == []
    ensures ReadLines(UnitLines(unit) + tail) == Reading([], [], [unit] + ReadLines(tail).units)
  {
    HeadingsAreHeadings(unit);
    var below := ItemsLines(unit.items) + tail;
    assert UnitLines(unit) + tail == [unit.heading] + below;
    ItemsReadBack(unit.items, tail);
    hide ReadLines, ItemsLines, UnitLines, Drawable;
    HeadingReadsBack(unit.heading, below);
    assert unit.items + [] == unit.items;
  }

  lemma SeparatedUnitReadsBack(unit: Unit, below: seq<string>, units: seq<Unit>)
    requires Drawable(unit) && ReadLines(below) == Reading([], [], units)
    ensures ReadLines(UnitLines(unit) + [""] + below) == Reading([], [], [unit] + units)
  {
    var tail := [""] + below;
    assert tail[0] == "" && tail[1..] == below;
    assert ReadLines(tail) == ReadLines(below);
    UnitReadsBack(unit, tail);
    assert UnitLines(unit) + [""] + below == UnitLines(unit) + tail;
  }

  lemma {:induction false} AllLinesReadBack(units: seq<Unit>)
    requires forall k | 0 <= k < |units| :: Drawable(units[k])
    ensures ReadLines(AllLines(units)) == Reading([], [], units)
  {
    if |units| == 1 {
      UnitReadsBack(units[0], []);
      assert UnitLines(units[0]) + [] == AllLines(units);
      assert units == [units[0]] + [];
    } else if |units| > 1 {
      hide ReadLines, UnitLines, Drawable;
      AllLinesReadBack(units[1..]);
      SeparatedUnitReadsBack(units[0], AllLines(units[1..]), units[1..]);
      assert units == [units[0]] + units[1..];
    }
  }

  // ─── The text is the lines ─────────────────────────────────────────────

  lemma {:induction false} IndentedIsJoined(first: string, lines: seq<string>)
    ensures Join([first] + lines, INDENT) == Join([first] + Indented(lines), "\n")
    decreases |lines|
  {
    var whole, drawn := [first] + lines, [first] + Indented(lines);
    assert whole[1..] == lines && drawn[1..] == Indented(lines);
    if |lines| > 0 {
      var next := lines[0];
      IndentedIsJoined(next, lines[1..]);
      assert lines == [next] + lines[1..];
      assert Indented(lines) == ["  " + next] + Indented(lines[1..]);
      JoinPrefixed("  ", next, Indented(lines[1..]), "\n");
      assert Join(drawn, "\n") == first + "\n" + Join(Indented(lines), "\n");
      assert Join(whole, INDENT) == first + INDENT + Join(lines, INDENT);
    }
  }

  /** A prefix on the first part is a prefix on the whole. */
  lemma JoinPrefixed(prefix: string, first: string, rest: seq<string>, separator: string)
    ensures Join([prefix + first] + rest, separator) == prefix + Join([first] + rest, separator)
  {
  }

  lemma ItemIsJoined(lines: seq<string>)
    requires |lines| > 0
    ensures "- " + Join(lines, INDENT) == Join(ItemLines(lines), "\n")
  {
    assert lines == [lines[0]] + lines[1..];
    IndentedIsJoined(lines[0], lines[1..]);
    JoinPrefixed("- ", lines[0], Indented(lines[1..]), "\n");
  }

  /** The rendered items of one unit, as the reader's lines. */
  function Drawn(items: seq<seq<string>>): seq<string>
    requires forall k | 0 <= k < |items| :: |items[k]| > 0
  {
    if |items| == 0 then [] else ["- " + Join(items[0], INDENT)] + Drawn(items[1..])
  }

  lemma {:induction false} ItemsAreJoined(items: seq<seq<string>>)
    requires |items| > 0 && forall k | 0 <= k < |items| :: |items[k]| > 0
    ensures Join(Drawn(items), "\n") == Join(ItemsLines(items), "\n")
  {
    ItemIsJoined(items[0]);
    if |items| == 1 {
      assert ItemsLines(items) == ItemLines(items[0]) + [];
      assert ItemsLines(items) == ItemLines(items[0]);
    } else {
      ItemsAreJoined(items[1..]);
      assert Drawn(items)[1..] == Drawn(items[1..]);
      assert |ItemsLines(items[1..])| > 0;
      JoinConcat(ItemLines(items[0]), ItemsLines(items[1..]), "\n");
    }
  }

  function DrawnUnit(unit: Unit): string
    requires Drawable(unit)
  {
    unit.heading + "\n" + Join(Drawn(unit.items), "\n")
  }

  function DrawnUnits(units: seq<Unit>): seq<string>
    requires forall k | 0 <= k < |units| :: Drawable(units[k])
  {
    if |units| == 0 then [] else [DrawnUnit(units[0])] + DrawnUnits(units[1..])
  }

  lemma UnitIsJoined(unit: Unit)
    requires Drawable(unit)
    ensures DrawnUnit(unit) == Join(UnitLines(unit), "\n")
  {
    ItemsAreJoined(unit.items);
    assert |ItemsLines(unit.items)| > 0;
    assert UnitLines(unit)[1..] == ItemsLines(unit.items);
  }

  lemma BlankLineBetween(first: seq<string>, rest: seq<string>)
    requires |first| > 0 && |rest| > 0
    ensures Join(first + ([""] + rest), "\n") == Join(first, "\n") + "\n\n" + Join(rest, "\n")
  {
    JoinConcat(first, [""] + rest, "\n");
    assert ([""] + rest)[1..] == rest;
    assert Join([""] + rest, "\n") == "\n" + Join(rest, "\n");
  }

  lemma {:induction false} UnitsAreJoined(units: seq<Unit>)
    requires |units| > 0 && forall k | 0 <= k < |units| :: Drawable(units[k])
    ensures Join(DrawnUnits(units), "\n\n") == Join(AllLines(units), "\n")
  {
    UnitIsJoined(units[0]);
    if |units| > 1 {
      var first, rest := UnitLines(units[0]), AllLines(units[1..]);
      UnitsAreJoined(units[1..]);
      assert DrawnUnits(units)[1..] == DrawnUnits(units[1..]);
      assert |first| > 0 && |rest| > 0 && AllLines(units) == first + ([""] + rest);
      hide UnitLines, DrawnUnit, AllLines, Drawable;
      BlankLineBetween(first, rest);
    }
  }

  // ─── The rendering draws what the summary says ─────────────────────────

  lemma ContainedIsEmptyExactly(text: string)
    ensures Contained(text) == "" <==> NormalLines(text) == []
  {
  }

  lemma {:induction false} ItemsAreDrawn(texts: seq<string>)
    ensures forall k | 0 <= k < |TextUnits(texts)| :: |TextUnits(texts)[k]| > 0
    ensures Flattened(Items(texts)) == Drawn(TextUnits(texts))
  {
    if |texts| > 0 {
      ItemsAreDrawn(texts[1..]);
      ContainedIsEmptyExactly(texts[0]);
      assert Items(texts)[1..] == Items(texts[1..]);
      if NormalLines(texts[0]) != [] {
        assert TextUnits(texts)[1..] == TextUnits(texts[1..]);
      }
    }
  }

  lemma {:induction false} LastCharacter(lines: seq<string>, separator: string)
    requires |lines| > 0 && forall k | 0 <= k < |lines| :: NormalLine(lines[k])
    ensures var text := Join(lines, separator); |text| > 0 && !IsWhitespace(text[|text| - 1])
  {
    if |lines| == 1 {
      assert NormalLine(lines[0]);
    } else {
      LastCharacter(lines[1..], separator);
    }
  }

  lemma PairIsJoined(question: seq<string>, answer: seq<string>)
    ensures Join(Asks(question) + Answers(answer), INDENT) ==
            "Q: " + Join(question, INDENT) + INDENT + (if answer == [] then "A:" else "A: " + Join(answer, INDENT))
  {
    SideIsJoined("Q: ", question);
    SideIsJoined("A: ", answer);
    JoinConcat(Asks(question), Answers(answer), INDENT);
  }

  lemma TrimmedEnd(text: string, drawn: string)
    requires |drawn| > 0 && !IsWhitespace(drawn[|drawn| - 1]) && (text == drawn || text == drawn + " ")
    ensures TrimEnd(text) == drawn
  {
  }

  /** A pair's item is its lines drawn, the trailing blank of an empty answer gone. */
  lemma AnsweredIsDrawn(asked: AnsweredQuestion)
    requires NormalLines(asked.question) != [] || NormalLines(asked.answer) != []
    ensures AnsweredItem(asked) == Some("- " + Join(AnsweredLines(asked), INDENT))
  {
    var question, answer := NormalLines(asked.question), NormalLines(asked.answer);
    ContainedIsEmptyExactly(asked.question);
    ContainedIsEmptyExactly(asked.answer);
    PairIsJoined(question, answer);
    hide NormalLines, Join, Asks, Answers;
    var drawn := "- " + Join(AnsweredLines(asked), INDENT);
    var text := "- Q: " + Contained(asked.question) + "\n  A: " + Contained(asked.answer);
    var front := "- Q: " + Join(question, INDENT) + INDENT;
    if answer == [] {
      assert drawn == front + "A:" && text == drawn + " ";
    } else {
      LastCharacter(answer, INDENT);
      assert drawn == front + ("A: " + Join(answer, INDENT)) && text == drawn;
    }
    TrimmedEnd(text, drawn);
  }

  lemma SideIsJoined(mark: string, lines: seq<string>)
    ensures mark + Join(lines, INDENT) == Join(if lines == [] then [mark] else [mark + lines[0]] + lines[1..], INDENT)
  {
  }

  lemma {:induction false} AnsweredAreDrawn(asked: seq<AnsweredQuestion>)
    ensures forall k | 0 <= k < |AnsweredUnits(asked)| :: |AnsweredUnits(asked)[k]| > 0
    ensures Flattened(AnsweredItems(asked)) == Drawn(AnsweredUnits(asked))
  {
    if |asked| > 0 {
      AnsweredAreDrawn(asked[1..]);
      ContainedIsEmptyExactly(asked[0].question);
      ContainedIsEmptyExactly(asked[0].answer);
      assert AnsweredItems(asked)[1..] == AnsweredItems(asked[1..]);
      if NormalLines(asked[0].question) != [] || NormalLines(asked[0].answer) != [] {
        AnsweredIsDrawn(asked[0]);
        assert AnsweredUnits(asked)[1..] == AnsweredUnits(asked[1..]);
      }
    }
  }

  ghost predicate AllSingleLines(items: seq<seq<string>>) {
    forall k | 0 <= k < |items| :: |items[k]| > 0 && forall m | 0 <= m < |items[k]| :: SingleLine(items[k][m])
  }

  lemma {:induction false} TextUnitsAreLines(texts: seq<string>)
    ensures AllSingleLines(TextUnits(texts))
  {
    if |texts| > 0 {
      TextUnitsAreLines(texts[1..]);
      assert forall k | 0 <= k < |NormalLines(texts[0])| :: NormalLine(NormalLines(texts[0])[k]);
    }
  }

  lemma {:induction false} AnsweredUnitsAreLines(asked: seq<AnsweredQuestion>)
    ensures AllSingleLines(AnsweredUnits(asked))
  {
    if |asked| > 0 {
      AnsweredUnitsAreLines(asked[1..]);
      AnsweredLinesAreLines(asked[0]);
    }
  }

  lemma AnsweredLinesAreLines(asked: AnsweredQuestion)
    ensures |AnsweredLines(asked)| > 0
    ensures forall m | 0 <= m < |AnsweredLines(asked)| :: SingleLine(AnsweredLines(asked)[m])
  {
    var question, answer := NormalLines(asked.question), NormalLines(asked.answer);
    assert forall k | 0 <= k < |question| :: NormalLine(question[k]);
    assert forall k | 0 <= k < |answer| :: NormalLine(answer[k]);
    var asks, answers := Asks(question), Answers(answer);
    assert forall m | 0 <= m < |asks| :: SingleLine(asks[m]);
    assert forall m | 0 <= m < |answers| :: SingleLine(answers[m]);
  }

  ghost predicate Holdable(units: seq<Unit>) {
    forall k | 0 <= k < |units| && units[k].items != [] :: Drawable(units[k])
  }

  lemma {:induction false} HoldingIsDrawn(units: seq<Unit>, sections: seq<Option<string>>)
    requires |units| == |sections| && Holdable(units)
    requires forall k | 0 <= k < |units| ::
               sections[k] == if units[k].items == [] then None else Some(DrawnUnit(units[k]))
    ensures forall k | 0 <= k < |Holding(units)| :: Drawable(Holding(units)[k])
    ensures Flattened(sections) == DrawnUnits(Holding(units))
  {
    if |units| > 0 {
      HoldingIsDrawn(units[1..], sections[1..]);
      if units[0].items != [] {
        assert Holding(units)[1..] == Holding(units[1..]);
      }
    }
  }

  lemma SectionIsDrawn(unit: Unit, items: seq<Option<string>>)
    requires (unit.items != [] ==> Drawable(unit)) && (forall k | 0 <= k < |unit.items| :: |unit.items[k]| > 0)
    requires Flattened(items) == Drawn(unit.items)
    ensures Section(unit.heading, items) == if unit.items == [] then None else Some(DrawnUnit(unit))
  {
  }

  lemma TextSectionIsDrawn(heading: string, texts: seq<string>)
    requires heading in {TOPICS_HEADING, DECISIONS_HEADING, FACTS_HEADING, CORRECTIONS_HEADING, OPEN_ITEMS_HEADING}
    ensures var unit := Unit(heading, TextUnits(texts));
            && (unit.items != [] ==> Drawable(unit))
            && Section(heading, Items(texts)) == if unit.items == [] then None else Some(DrawnUnit(unit))
  {
    ItemsAreDrawn(texts);
    TextUnitsAreLines(texts);
    SectionIsDrawn(Unit(heading, TextUnits(texts)), Items(texts));
  }

  lemma AnsweredSectionIsDrawn(asked: seq<AnsweredQuestion>)
    ensures var unit := Unit(QUESTIONS_HEADING, AnsweredUnits(asked));
            && (unit.items != [] ==> Drawable(unit))
            && Section(QUESTIONS_HEADING, AnsweredItems(asked)) ==
               if unit.items == [] then None else Some(DrawnUnit(unit))
  {
    AnsweredAreDrawn(asked);
    AnsweredUnitsAreLines(asked);
    SectionIsDrawn(Unit(QUESTIONS_HEADING, AnsweredUnits(asked)), AnsweredItems(asked));
  }

  lemma RenderDrawsWhatIsSaid(summary: CompactionSummary)
    ensures forall k | 0 <= k < |Said(summary)| :: Drawable(Said(summary)[k])
    ensures Render(summary) == if Said(summary) == [] then Err("every unit of the summary is empty")
                               else Ok(Join(DrawnUnits(Said(summary)), "\n\n"))
  {
    var units := [
      Unit(TOPICS_HEADING, TextUnits(summary.topics)),
      Unit(QUESTIONS_HEADING, AnsweredUnits(summary.questionsAnswered)),
      Unit(DECISIONS_HEADING, TextUnits(summary.decisions)),
      Unit(FACTS_HEADING, TextUnits(summary.facts)),
      Unit(CORRECTIONS_HEADING, TextUnits(summary.corrections)),
      Unit(OPEN_ITEMS_HEADING, TextUnits(summary.openItems))];
    var sections := [
      Section(TOPICS_HEADING, Items(summary.topics)),
      Section(QUESTIONS_HEADING, AnsweredItems(summary.questionsAnswered)),
      Section(DECISIONS_HEADING, Items(summary.decisions)),
      Section(FACTS_HEADING, Items(summary.facts)),
      Section(CORRECTIONS_HEADING, Items(summary.corrections)),
      Section(OPEN_ITEMS_HEADING, Items(summary.openItems))];
    hide Section, Items, AnsweredItems, TextUnits, AnsweredUnits, Drawable, DrawnUnit, Flattened, Holding, DrawnUnits;
    TextSectionIsDrawn(TOPICS_HEADING, summary.topics);
    AnsweredSectionIsDrawn(summary.questionsAnswered);
    TextSectionIsDrawn(DECISIONS_HEADING, summary.decisions);
    TextSectionIsDrawn(FACTS_HEADING, summary.facts);
    TextSectionIsDrawn(CORRECTIONS_HEADING, summary.corrections);
    TextSectionIsDrawn(OPEN_ITEMS_HEADING, summary.openItems);
    HoldingIsDrawn(units, sections);
    DrawnIsAsMany(Said(summary));
  }

  lemma {:induction false} DrawnIsAsMany(units: seq<Unit>)
    requires forall k | 0 <= k < |units| :: Drawable(units[k])
    ensures |DrawnUnits(units)| == |units|
  {
    if |units| > 0 {
      DrawnIsAsMany(units[1..]);
    }
  }

  // ─── The main results ──────────────────────────────────────────────────

  lemma {:induction false} IndentedAreLines(lines: seq<string>)
    requires forall m | 0 <= m < |lines| :: SingleLine(lines[m])
    ensures forall m | 0 <= m < |Indented(lines)| :: SingleLine(Indented(lines)[m])
  {
    if |lines| > 0 {
      IndentedAreLines(lines[1..]);
    }
  }

  lemma {:induction false} ItemsLinesAreLines(items: seq<seq<string>>)
    requires AllSingleLines(items)
    ensures forall m | 0 <= m < |ItemsLines(items)| :: SingleLine(ItemsLines(items)[m])
  {
    if |items| > 0 {
      IndentedAreLines(items[0][1..]);
      ItemsLinesAreLines(items[1..]);
    }
  }

  lemma {:induction false} AllLinesAreLines(units: seq<Unit>)
    requires forall k | 0 <= k < |units| :: Drawable(units[k])
    ensures forall m | 0 <= m < |AllLines(units)| :: SingleLine(AllLines(units)[m])
    ensures |units| > 0 ==> |AllLines(units)| > 0
  {
    if |units| > 0 {
      HeadingsAreHeadings(units[0]);
      ItemsLinesAreLines(units[0].items);
      AllLinesAreLines(units[1..]);
    }
  }

  /** A rendered summary reads back to exactly its non-empty units and their items, line
      by line, whatever an item's text holds: no line break, marker or heading inside it
      opens an item or a section. It is refused exactly when nothing is said. */
  lemma SummaryReadsBack(summary: CompactionSummary)
    ensures Render(summary).Err? <==> Said(summary) == []
    ensures Render(summary).Ok? ==> Read(Render(summary).value) == Said(summary)
  {
    RenderDrawsWhatIsSaid(summary);
    var units := Said(summary);
    if units != [] {
      UnitsAreJoined(units);
      AllLinesAreLines(units);
      LinesOfJoin(AllLines(units));
      AllLinesReadBack(units);
    }
  }

  /** Two summaries are drawn alike exactly when they say the same. */
  lemma DrawnAlikeExactly(a: CompactionSummary, b: CompactionSummary)
    ensures Render(a) == Render(b) <==> Said(a) == Said(b)
  {
    SummaryReadsBack(a);
    SummaryReadsBack(b);
    RenderDrawsWhatIsSaid(a);
    RenderDrawsWhatIsSaid(b);
  }

  // ─── What is drawn, to the letter ──────────────────────────────────────

  /** One line with nothing to trim. */
  predicate Plain(text: string) {
    SingleLine(text) && |text| > 0 && !White(text[0]) && !White(text[|text| - 1])
  }

  lemma PlainIsContained(text: string)
    requires Plain(text)
    ensures Contained(text) == text
  {
    LineEndOf(text, "");
    WhitespaceExactly(text[0]);
    WhitespaceExactly(text[|text| - 1]);
    assert Lines(text) == [text] && Trim(text) == text;
    assert TrimmedLines([text]) == [text] by {
      assert [text][1..] == [];
    }
    hide White, IsWhitespace, LineEnd;
  }

  lemma PlainSection(heading: string, text: string)
    requires Plain(text)
    ensures Section(heading, Items([text])) == Some(heading + "\n" + ("- " + text))
  {
    PlainIsContained(text);
    hide Plain, Contained;
    assert [text][1..] == [];
    assert Items([text]) == [Item(text)] && Item(text) == Some("- " + text);
    assert [Item(text)][1..] == [];
    assert Flattened([Item(text)]) == ["- " + text];
  }

  lemma PlainPair(asked: AnsweredQuestion)
    requires Plain(asked.question) && Plain(asked.answer)
    ensures Section(QUESTIONS_HEADING, AnsweredItems([asked])) ==
            Some("Asked and answered:\n- Q: " + asked.question + "\n  A: " + asked.answer)
  {
    PlainIsContained(asked.question);
    PlainIsContained(asked.answer);
    var item, answer := "- Q: " + asked.question + "\n  A: " + asked.answer, asked.answer;
    WhitespaceExactly(answer[|answer| - 1]);
    assert item[|item| - 1] == answer[|answer| - 1];
    assert TrimEnd(item) == item;
    hide Plain, Contained, TrimEnd, White, IsWhitespace;
    assert [asked][1..] == [];
    assert AnsweredItems([asked]) == [Some(item)];
    assert [Some(item)][1..] == [];
    assert Flattened([Some(item)]) == [item];
    assert QUESTIONS_HEADING + "\n" + item ==
           "Asked and answered:\n- Q: " + asked.question + "\n  A: " + asked.answer;
  }

  lemma {:induction false} AllFlattened(texts: seq<string>, options: seq<Option<string>>)
    requires |options| == |texts| && forall k | 0 <= k < |texts| :: options[k] == Some(texts[k])
    ensures Flattened(options) == texts
  {
    if |texts| > 0 {
      AllFlattened(texts[1..], options[1..]);
      assert texts == [texts[0]] + texts[1..];
    }
  }

  lemma JoinOfSix(a: string, b: string, c: string, d: string, e: string, f: string, separator: string)
    ensures Join([a, b, c, d, e, f], separator) ==
            a + separator + (b + separator + (c + separator + (d + separator + (e + separator + f))))
  {
    assert [a, b, c, d, e, f][1..] == [b, c, d, e, f] && [b, c, d, e, f][1..] == [c, d, e, f];
    assert [c, d, e, f][1..] == [d, e, f] && [d, e, f][1..] == [e, f] && [e, f][1..] == [f];
    assert Join([e, f], separator) == e + separator + f;
    assert Join([d, e, f], separator) == d + separator + Join([e, f], separator);
    assert Join([c, d, e, f], separator) == c + separator + Join([d, e, f], separator);
    assert Join([b, c, d, e, f], separator) == b + separator + Join([c, d, e, f], separator);
  }

  lemma DrawnInOrder(summary: CompactionSummary, a: string, b: string, c: string, d: string, e: string, f: string)
    requires Section(TOPICS_HEADING, Items(summary.topics)) == Some(a)
    requires Section(QUESTIONS_HEADING, AnsweredItems(summary.questionsAnswered)) == Some(b)
    requires Section(DECISIONS_HEADING, Items(summary.decisions)) == Some(c)
    requires Section(FACTS_HEADING, Items(summary.facts)) == Some(d)
    requires Section(CORRECTIONS_HEADING, Items(summary.corrections)) == Some(e)
    requires Section(OPEN_ITEMS_HEADING, Items(summary.openItems)) == Some(f)
    ensures Render(summary) == Ok(a + "\n\n" + (b + "\n\n" + (c + "\n\n" + (d + "\n\n" + (e + "\n\n" + f)))))
  {
    hide Section, Items, AnsweredItems, Join, Flattened;
    AllFlattened([a, b, c, d, e, f], [Some(a), Some(b), Some(c), Some(d), Some(e), Some(f)]);
    JoinOfSix(a, b, c, d, e, f, "\n\n");
  }

  lemma TopicSection(text: string)
    requires Plain(text)
    ensures Section(TOPICS_HEADING, Items([text])) == Some("Topics, in the order they came up:\n- " + text)
  {
    PlainSection(TOPICS_HEADING, text);
    hide Section, Items, Plain;
    assert TOPICS_HEADING + "\n" + ("- " + text) == "Topics, in the order they came up:\n- " + text;
  }

  lemma DecisionSection(text: string)
    requires Plain(text)
    ensures Section(DECISIONS_HEADING, Items([text])) == Some("Decisions and conclusions reached:\n- " + text)
  {
    PlainSection(DECISIONS_HEADING, text);
    hide Section, Items, Plain;
    assert DECISIONS_HEADING + "\n" + ("- " + text) == "Decisions and conclusions reached:\n- " + text;
  }

  lemma FactSection(text: string)
    requires Plain(text)
    ensures Section(FACTS_HEADING, Items([text])) ==
            Some("Facts established about people, " + "versions, settings and links:\n- " + text)
  {
    PlainSection(FACTS_HEADING, text);
    hide Section, Items, Plain;
    var first, last := "Facts established about people, ", "versions, settings and links:";
    assert last + "\n" + ("- " + text) == "versions, settings and links:\n- " + text;
    assert first + last + "\n" + ("- " + text) == first + (last + "\n" + ("- " + text));
    assert first + (last + "\n" + ("- " + text)) == first + "versions, settings and links:\n- " + text;
  }

  lemma CorrectionSection(text: string)
    requires Plain(text)
    ensures Section(CORRECTIONS_HEADING, Items([text])) == Some("Corrections made:\n- " + text)
  {
    PlainSection(CORRECTIONS_HEADING, text);
    hide Section, Items, Plain;
    assert CORRECTIONS_HEADING + "\n" + ("- " + text) == "Corrections made:\n- " + text;
  }

  lemma OpenSection(text: string)
    requires Plain(text)
    ensures Section(OPEN_ITEMS_HEADING, Items([text])) == Some("Left open or unfinished:\n- " + text)
  {
    PlainSection(OPEN_ITEMS_HEADING, text);
    hide Section, Items, Plain;
    assert OPEN_ITEMS_HEADING + "\n" + ("- " + text) == "Left open or unfinished:\n- " + text;
  }

  /** A summary with one plain line in every unit, to the letter: every heading, every mark
      and every break, in the one order. */
  lemma APlainSummaryIsDrawnSo(topic: string, asked: AnsweredQuestion, decision: string, fact: string,
                               correction: string, left: string)
    requires Plain(topic) && Plain(asked.question) && Plain(asked.answer) && Plain(decision)
    requires Plain(fact) && Plain(correction) && Plain(left)
    ensures Render(CompactionSummary([topic], [asked], [decision], [fact], [correction], [left])) ==
            Ok("Topics, in the order they came up:\n- " + topic + "\n\n"
               + ("Asked and answered:\n- Q: " + asked.question + "\n  A: " + asked.answer + "\n\n"
                  + ("Decisions and conclusions reached:\n- " + decision + "\n\n"
                     + ("Facts established about people, " + "versions, settings and links:\n- " + fact + "\n\n"
                        + ("Corrections made:\n- " + correction + "\n\n"
                           + ("Left open or unfinished:\n- " + left))))))
  {
    TopicSection(topic);
    PlainPair(asked);
    DecisionSection(decision);
    FactSection(fact);
    CorrectionSection(correction);
    OpenSection(left);
    hide Section, Items, AnsweredItems, Plain, Join, Flattened, Render;
    DrawnInOrder(CompactionSummary([topic], [asked], [decision], [fact], [correction], [left]),
                 "Topics, in the order they came up:\n- " + topic,
                 "Asked and answered:\n- Q: " + asked.question + "\n  A: " + asked.answer,
                 "Decisions and conclusions reached:\n- " + decision,
                 "Facts established about people, " + "versions, settings and links:\n- " + fact,
                 "Corrections made:\n- " + correction,
                 "Left open or unfinished:\n- " + left);
  }
}
