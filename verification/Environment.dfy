/** The `.env` file: four managed lines, and all the others, which hold the generated credentials. */
module Environment {
  import opened TextLines
  import opened Wrappers

  function KeyOf(line: string): string {
    if line == "" || line[0] == '=' then "" else [line[0]] + KeyOf(line[1..])
  }

  predicate ManagedKey(key: string) {
    || key == "PEERS_STATION_IMAGE" || key == "PEERS_PG_VOLUME"
    || key == "PEERS_DATA_VOLUME" || key == "PEERS_INSTALL_ROOT"
  }

  /** A line that `write_environment` carries over. */
  predicate Kept(line: string) {
    line != "" && !ManagedKey(KeyOf(line))
  }

  function KeptLines(lines: seq<string>): seq<string> {
    if lines == [] then []
    else (if Kept(lines[0]) then [lines[0]] else []) + KeptLines(lines[1..])
  }

  /** The lines that `write_environment` finds worth preserving in a file. */
  function Preserved(text: string): seq<string> {
    KeptLines(SplitLines(text))
  }

  function Managed(image: string, pg: string, data: string, root: string): seq<string> {
    ["PEERS_STATION_IMAGE=" + image, "PEERS_PG_VOLUME=" + pg, "PEERS_DATA_VOLUME=" + data, "PEERS_INSTALL_ROOT=" + root]
  }

  /** `write_environment`'s check of every line, which is about quoting and `\n` and `\r` only. */
  predicate Quotable(line: string) {
    forall c | c in line :: c != '\n' && c != '\r' && c != '\'' && c != '"' && c != '$'
  }

  /** The file that `write_environment` writes over `original`, or none when it refuses. */
  function Written(original: string, generated: seq<string>, image: string, pg: string, data: string, root: string)
    : Option<string>
  {
    var preserved := if Preserved(original) == [] then generated else Preserved(original);
    var lines := preserved + Managed(image, pg, data, root);
    if forall line | line in lines :: Quotable(line) then Some(JoinLines(lines)) else None
  }

  /** The loop that selects the lines to preserve. */
  method PreserveLines(lines: seq<string>) returns (preserved: seq<string>)
    ensures preserved == KeptLines(lines)
    ensures forall line | line in preserved :: Kept(line) && line in lines
  {
    preserved := [];
    for i := 0 to |lines|
      invariant preserved + KeptLines(lines[i..]) == KeptLines(lines)
      invariant forall line | line in preserved :: Kept(line) && line in lines
    {
      assert lines[i..][1..] == lines[i + 1..];
      if Kept(lines[i]) {
        preserved := preserved + [lines[i]];
      }
    }
    assert lines[|lines|..] == [];
  }

  lemma {:induction false} KeptConcat(a: seq<string>, b: seq<string>)
    ensures KeptLines(a + b) == KeptLines(a) + KeptLines(b)
  {
    if a == [] {
      assert a + b == b;
    } else {
      assert (a + b)[1..] == a[1..] + b;
      KeptConcat(a[1..], b);
    }
  }

  lemma {:induction false} KeptIsIdentity(lines: seq<string>)
    requires forall line | line in lines :: Kept(line)
    ensures KeptLines(lines) == lines
  {
    if lines != [] {
      assert lines[0] in lines;
      KeptIsIdentity(lines[1..]);
    }
  }

  lemma {:induction false} KeptAreLines(lines: seq<string>)
    ensures forall line | line in KeptLines(lines) :: line in lines && Kept(line)
  {
    if lines != [] {
      KeptAreLines(lines[1..]);
    }
  }

  lemma {:induction false} KeyBefore(key: string, value: string)
    requires '=' !in key
    ensures KeyOf(key + "=" + value) == key
  {
    if key == "" {
      assert (key + "=" + value)[0] == '=';
    } else {
      assert (key + "=" + value)[1..] == key[1..] + "=" + value;
      KeyBefore(key[1..], value);
    }
  }

  lemma ManagedLineIsDropped(key: string, value: string)
    requires ManagedKey(key)
    ensures !Kept(key + "=" + value)
  {
    KeyBefore(key, value);
  }

  lemma {:induction false} NoneKept(lines: seq<string>)
    requires forall line | line in lines :: !Kept(line)
    ensures KeptLines(lines) == []
  {
    if lines != [] {
      assert lines[0] in lines;
      NoneKept(lines[1..]);
    }
  }

  lemma ManagedIsDropped(image: string, pg: string, data: string, root: string)
    ensures KeptLines(Managed(image, pg, data, root)) == []
  {
    ManagedLineIsDropped("PEERS_STATION_IMAGE", image);
    ManagedLineIsDropped("PEERS_PG_VOLUME", pg);
    ManagedLineIsDropped("PEERS_DATA_VOLUME", data);
    ManagedLineIsDropped("PEERS_INSTALL_ROOT", root);
    assert "PEERS_STATION_IMAGE=" == "PEERS_STATION_IMAGE" + "=" && "PEERS_PG_VOLUME=" == "PEERS_PG_VOLUME" + "=";
    assert "PEERS_DATA_VOLUME=" == "PEERS_DATA_VOLUME" + "=" && "PEERS_INSTALL_ROOT=" == "PEERS_INSTALL_ROOT" + "=";
    NoneKept(Managed(image, pg, data, root));
  }

  /** Rewriting the file keeps the preserved lines exactly when none of them holds a character at
      which a later reading would break it.  The check before writing does not exclude those: a
      `--base-url` with U+2028 in it is written whole and read back as two lines. */
  lemma PreservedSurvives(kept: seq<string>, image: string, pg: string, data: string, root: string)
    requires forall line | line in kept :: Kept(line)
    requires OneLine(image) && OneLine(pg) && OneLine(data) && OneLine(root)
    ensures Preserved(JoinLines(kept + Managed(image, pg, data, root))) == kept <==>
            forall line | line in kept :: OneLine(line)
  {
    var managed := Managed(image, pg, data, root);
    var lines := kept + managed;
    assert forall line | line in managed :: OneLine(line);
    if forall line | line in kept :: OneLine(line) {
      LinesRoundTrip(lines);
      KeptConcat(kept, managed);
      KeptIsIdentity(kept);
      ManagedIsDropped(image, pg, data, root);
    } else {
      KeptAreLines(SplitLines(JoinLines(lines)));
    }
  }

  /** Such lines: with the value U+2028, any setting passes the check and is gone when the file is read again. */
  lemma SeparatorBreaksLine(key: string, image: string, pg: string, data: string, root: string)
    requires Quotable(key) && '=' !in key && !ManagedKey(key)
    requires OneLine(image) && OneLine(pg) && OneLine(data) && OneLine(root)
    ensures var line := key + "=" + ['\U{2028}'];
            Kept(line) && Quotable(line) && Preserved(JoinLines([line] + Managed(image, pg, data, root))) != [line]
  {
    var line := key + "=" + ['\U{2028}'];
    KeyBefore(key, ['\U{2028}']);
    assert !OneLine(line) by {
      assert line[|key| + 1] == '\U{2028}' && line[|key| + 1] in line;
    }
    assert line in [line];
    PreservedSurvives([line], image, pg, data, root);
  }

  /** What `write_environment` writes is preserved by every later `write_environment`, whatever it
      manages: the lines are made once. */
  lemma WrittenPreserves(
    original: string, generated: seq<string>, image: string, pg: string, data: string, root: string)
    requires forall line | line in generated :: Kept(line) && OneLine(line)
    requires OneLine(image) && OneLine(pg) && OneLine(data) && OneLine(root)
    ensures var w := Written(original, generated, image, pg, data, root);
            w.Some? ==> Preserved(w.value) == if Preserved(original) == [] then generated else Preserved(original)
  {
    KeptAreLines(SplitLines(original));
    var preserved := if Preserved(original) == [] then generated else Preserved(original);
    PreservedSurvives(preserved, image, pg, data, root);
  }
}
