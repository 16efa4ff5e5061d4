/** Text as Python reads it: `str.splitlines`, and writing lines back with newlines. */
module TextLines {

  /** The characters at which `splitlines` breaks a line; there are more than `\n` and `\r`. */
  predicate IsBoundary(c: char) {
    || c == '\n' || c == '\r' || c == '\U{000B}' || c == '\U{000C}'
    || '\U{001C}' <= c <= '\U{001E}' || c == '\U{0085}' || c == '\U{2028}' || c == '\U{2029}'
  }

  predicate OneLine(line: string) {
    forall c | c in line :: !IsBoundary(c)
  }

  function SplitLines(text: string): (lines: seq<string>)
    ensures forall line | line in lines :: OneLine(line)
    decreases |text|
  {
    if text == "" then []
    else
      var n := LineLength(text);
      var line := text[..n];
      if n == |text| then [line]
      else
        var skip := if text[n] == '\r' && n + 1 < |text| && text[n + 1] == '\n' then 2 else 1;
        [line] + SplitLines(text[n + skip..])
  }

  /** The number of characters before the first boundary. */
  function LineLength(text: string): (n: nat)
    ensures n <= |text| && OneLine(text[..n])
    ensures n < |text| ==> IsBoundary(text[n])
  {
    if text == "" || IsBoundary(text[0]) then 0
    else
      var n := 1 + LineLength(text[1..]);
      assert text[..n] == [text[0]] + text[1..][..n - 1];
      n
  }

  /** `"\n".join(lines) + "\n"` for at least one line. */
  function JoinLines(lines: seq<string>): string {
    if lines == [] then "" else lines[0] + "\n" + JoinLines(lines[1..])
  }

  lemma {:induction false} LineLengthOf(line: string, rest: string)
    requires OneLine(line)
    ensures LineLength(line + "\n" + rest) == |line|
  {
    if line != "" {
      assert (line + "\n" + rest)[1..] == line[1..] + "\n" + rest;
      assert line[0] in line;
      LineLengthOf(line[1..], rest);
    } else {
      assert (line + "\n" + rest)[0] == '\n';
    }
  }

  /** Lines written to a text are read back exactly if none of them holds a boundary. */
  lemma {:induction false} LinesRoundTrip(lines: seq<string>)
    ensures SplitLines(JoinLines(lines)) == lines <==> forall line | line in lines :: OneLine(line)
  {
    if lines == [] {
    } else if forall line | line in lines :: OneLine(line) {
      var first, rest := lines[0], lines[1..];
      assert first in lines;
      LinesRoundTrip(rest);
      LineLengthOf(first, JoinLines(rest));
      var text := JoinLines(lines);
      assert text[..|first|] == first && text[|first|] == '\n' && text[|first| + 1..] == JoinLines(rest);
    }
  }
}
