/** Lines and joins: what the printers write through and the parsers read through. */
module Text {

  predicate SingleLine(text: string) {
    '\n' !in text
  }

  /** The parts with a separator between each two. */
  function Join(parts: seq<string>, separator: string): string {
    if |parts| == 0 then ""
    else if |parts| == 1 then parts[0]
    else parts[0] + separator + Join(parts[1..], separator)
  }

  /** Where the first line ends: its line break, or the end of the text. */
  function LineEnd(text: string): (end: nat)
    ensures end <= |text| && SingleLine(text[..end])
    ensures end < |text| ==> text[end] == '\n'
  {
    if |text| == 0 || text[0] == '\n' then 0
    else
      var rest := LineEnd(text[1..]);
      assert text[..1 + rest] == [text[0]] + text[1..][..rest];
      1 + rest
  }

  /** The text cut at every line break. */
  function Lines(text: string): (lines: seq<string>)
    ensures |lines| > 0
    ensures forall k | 0 <= k < |lines| :: SingleLine(lines[k])
    decreases |text|
  {
    var end := LineEnd(text);
    if end == |text| then [text] else [text[..end]] + Lines(text[end + 1..])
  }

  lemma {:induction false} LineEndOf(line: string, rest: string)
    requires SingleLine(line)
    ensures LineEnd(line + "\n" + rest) == |line|
    ensures LineEnd(line) == |line|
  {
    if |line| > 0 {
      LineEndOf(line[1..], rest);
      assert (line + "\n" + rest)[1..] == line[1..] + "\n" + rest;
    }
  }

  /** Cutting at the line breaks undoes joining with them. */
  lemma {:induction false} LinesOfJoin(lines: seq<string>)
    requires |lines| > 0 && forall k | 0 <= k < |lines| :: SingleLine(lines[k])
    ensures Lines(Join(lines, "\n")) == lines
  {
    var first := lines[0];
    if |lines| == 1 {
      LineEndOf(first, "");
    } else {
      var rest := Join(lines[1..], "\n");
      LineEndOf(first, rest);
      LinesOfJoin(lines[1..]);
      var text := Join(lines, "\n");
      assert text == first + "\n" + rest;
      assert text[..|first|] == first && text[|first| + 1..] == rest;
    }
  }

  lemma {:induction false} JoinConcat(front: seq<string>, back: seq<string>, separator: string)
    requires |front| > 0 && |back| > 0
    ensures Join(front + back, separator) == Join(front, separator) + separator + Join(back, separator)
  {
    if |front| == 1 {
      assert (front + back)[1..] == back;
    } else {
      JoinConcat(front[1..], back, separator);
      assert (front + back)[1..] == front[1..] + back;
      assert Join(front + back, separator) == front[0] + separator + Join(front[1..] + back, separator);
      assert Join(front, separator) == front[0] + separator + Join(front[1..], separator);
    }
  }
}
