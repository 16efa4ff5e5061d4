/** The closure contracts' fallback YAML reader: a line parser with mutual recursion, against the layout
    that it reads back.  The contract in the repository departs from that layout in one way, which the
    reader gets wrong: `CompactItemIsString`. */
module ClosureYaml {
  import opened TextLines
  import opened Versions
  import opened ClosureScalars

  // ---------------------------------------------------------------------------
  // The parser
  // ---------------------------------------------------------------------------

  /** What stands after a key or a dash. */
  datatype Body = Nothing | Folded | Scalar(value: Value)

  datatype Kind = Named(name: string, body: Body) | Dash(body: Body) | Stray

  /** What the parser makes of one line, wherever it stands. */
  datatype Token = Skip | Line(indent: nat, text: string, kind: Kind)

  /** Blank lines and comments. */
  predicate Ignored(line: string) {
    LStrip(line) == "" || LStrip(line)[0] == '#'
  }

  function KindOf(stripped: string): Kind {
    if StartsWith(stripped, "- ") then
      var value := Strip(stripped[2..]);
      Dash(if value == "" then Nothing else Scalar(ParseScalar(value)))
    else if ':' !in stripped then Stray
    else
      var (name, _, rest) := Cut(stripped, ':');
      var value := Strip(rest);
      Named(Strip(name),
            if value == ">" || value == "|" then Folded
            else if value == "" then Nothing
            else Scalar(ParseScalar(value)))
  }

  function TokenOf(line: string): Token {
    if Ignored(line) then Skip else Line(Indent(line), LStrip(line), KindOf(LStrip(line)))
  }

  function Tokens(lines: seq<string>): (toks: seq<Token>)
    ensures |toks| == |lines| && forall i | 0 <= i < |lines| :: toks[i] == TokenOf(lines[i])
  {
    seq(|lines|, i requires 0 <= i < |lines| => TokenOf(lines[i]))
  }

  /** The loop of `_parse_yaml_block`, over lines that have been looked at one by one. */
  function ParseBlock(toks: seq<Token>, i: nat, indent: nat, acc: map<string, Value>): (r: (map<string, Value>, nat))
    requires i <= |toks|
    ensures i <= r.1 <= |toks|
    decreases |toks| - i, 1
  {
    if i == |toks| then (acc, i)
    else
      var t := toks[i];
      if t.Skip? then ParseBlock(toks, i + 1, indent, acc)
      else if t.indent < indent then (acc, i)
      else if t.indent > indent || !t.kind.Named? then ParseBlock(toks, i + 1, indent, acc)
      else
        match t.kind.body
        case Folded =>
          var (texts, next) := ParseFolded(toks, i + 1, indent, []);
          ParseBlock(toks, next, indent, acc[t.kind.name := Str(JoinWords(texts))])
        case Nothing =>
          var (sub, next) := ParseValue(toks, i + 1, indent + 2);
          ParseBlock(toks, next, indent, acc[t.kind.name := sub])
        case Scalar(value) => ParseBlock(toks, i + 1, indent, acc[t.kind.name := value])
  }

  /** The inner loop that collects the lines of a block scalar. */
  function ParseFolded(toks: seq<Token>, i: nat, indent: nat, acc: seq<string>): (r: (seq<string>, nat))
    requires i <= |toks|
    ensures i <= r.1 <= |toks|
    decreases |toks| - i
  {
    if i == |toks| then (acc, i)
    else if toks[i].Skip? then ParseFolded(toks, i + 1, indent, acc)
    else if toks[i].indent <= indent then (acc, i)
    else ParseFolded(toks, i + 1, indent, acc + [toks[i].text])
  }

  /** `" ".join(words)`. */
  function JoinWords(words: seq<string>): string {
    if words == [] then "" else if |words| == 1 then words[0] else words[0] + " " + JoinWords(words[1..])
  }

  function ParseValue(toks: seq<Token>, start: nat, indent: nat): (r: (Value, nat))
    requires start <= |toks|
    ensures start <= r.1 <= |toks|
    decreases |toks| - start, 2
  {
    if start == |toks| then (Null, start)
    else if toks[start].Line? && toks[start].kind.Dash? then
      var (items, next) := ParseItems(toks, start, indent, []);
      (List(items), next)
    else
      var (entries, next) := ParseBlock(toks, start, indent, map[]);
      (Dict(entries), next)
  }

  /** The list loop of `_parse_yaml_value`. */
  function ParseItems(toks: seq<Token>, i: nat, indent: nat, acc: seq<Value>): (r: (seq<Value>, nat))
    requires i <= |toks|
    ensures i <= r.1 <= |toks|
    decreases |toks| - i, 1
  {
    if i == |toks| then (acc, i)
    else
      var t := toks[i];
      if t.Skip? then ParseItems(toks, i + 1, indent, acc)
      else if t.indent < indent || !t.kind.Dash? then (acc, i)
      else
        match t.kind.body
        case Scalar(value) => ParseItems(toks, i + 1, indent, acc + [value])
        case _ =>
          var (sub, next) := ParseBlock(toks, i + 1, indent + 2, map[]);
          ParseItems(toks, next, indent, acc + [Dict(sub)])
  }

  /** `_parse_yaml_block`, as it runs on lines that have been looked at.  It ends on every input. */
  method ParseYamlBlock(toks: seq<Token>, start: nat, indent: nat) returns (result: map<string, Value>, i: nat)
    requires start <= |toks|
    ensures (result, i) == ParseBlock(toks, start, indent, map[])
    ensures start <= i <= |toks|
    decreases |toks| - start, 1
  {
    result, i := map[], start;
    while i < |toks|
      invariant start <= i <= |toks|
      invariant ParseBlock(toks, i, indent, result) == ParseBlock(toks, start, indent, map[])
      decreases |toks| - i
    {
      var token := toks[i];
      if token.Skip? {
        i := i + 1;
        continue;
      }
      if token.indent < indent {
        break;
      }
      if token.indent > indent || !token.kind.Named? {
        i := i + 1;
        continue;
      }
      match token.kind.body {
        case Folded =>
          var texts, next := CollectFolded(toks, i + 1, indent);
          result, i := result[token.kind.name := Str(JoinWords(texts))], next;
        case Nothing =>
          var sub, next := ParseYamlValue(toks, i + 1, indent + 2);
          result, i := result[token.kind.name := sub], next;
        case Scalar(value) =>
          result, i := result[token.kind.name := value], i + 1;
      }
    }
  }

  /** The texts of the lines that are not ignored. */
  function TextsOf(toks: seq<Token>): seq<string> {
    if toks == [] then []
    else
      var n := |toks| - 1;
      TextsOf(toks[..n]) + (if toks[n].Skip? then [] else [toks[n].text])
  }

  /** The inner loop of `_parse_yaml_block` over a block scalar: it takes the lines up to the first that is not
      indented further than the key, and keeps the texts of those that are neither blank nor comments. */
  method CollectFolded(toks: seq<Token>, start: nat, indent: nat) returns (texts: seq<string>, i: nat)
    requires start <= |toks|
    ensures (texts, i) == ParseFolded(toks, start, indent, [])
    ensures start <= i <= |toks| && texts == TextsOf(toks[start..i])
    ensures forall k | start <= k < i :: toks[k].Skip? || toks[k].indent > indent
    ensures i < |toks| ==> !toks[i].Skip? && toks[i].indent <= indent
  {
    texts, i := [], start;
    while i < |toks|
      invariant start <= i <= |toks|
      invariant ParseFolded(toks, i, indent, texts) == ParseFolded(toks, start, indent, [])
      invariant texts == TextsOf(toks[start..i])
      invariant forall k | start <= k < i :: toks[k].Skip? || toks[k].indent > indent
    {
      var token := toks[i];
      assert toks[start..i + 1][..i - start] == toks[start..i];
      if token.Skip? {
        i := i + 1;
        continue;
      }
      if token.indent <= indent {
        break;
      }
      texts, i := texts + [token.text], i + 1;
    }
  }

  /** `_parse_yaml_value`, as it runs. */
  method ParseYamlValue(toks: seq<Token>, start: nat, indent: nat) returns (result: Value, i: nat)
    requires start <= |toks|
    ensures (result, i) == ParseValue(toks, start, indent)
    ensures start <= i <= |toks|
    decreases |toks| - start, 2
  {
    if start == |toks| {
      return Null, start;
    }
    if toks[start].Line? && toks[start].kind.Dash? {
      var items: seq<Value> := [];
      i := start;
      while i < |toks|
        invariant start <= i <= |toks|
        invariant ParseItems(toks, i, indent, items) == ParseItems(toks, start, indent, [])
        decreases |toks| - i
      {
        var token := toks[i];
        if token.Skip? {
          i := i + 1;
          continue;
        }
        if token.indent < indent || !token.kind.Dash? {
          break;
        }
        if token.kind.body.Scalar? {
          items, i := items + [token.kind.body.value], i + 1;
        } else {
          var sub, next := ParseYamlBlock(toks, i + 1, indent + 2);
          items, i := items + [Dict(sub)], next;
        }
      }
      return List(items), i;
    }
    var entries, next := ParseYamlBlock(toks, start, indent);
    return Dict(entries), next;
  }

  // ---------------------------------------------------------------------------
  // Documents
  // ---------------------------------------------------------------------------

  /** One line of a block scalar.  `before` are ignored lines above it, `extra` its further indentation. */
  datatype Text = Text(before: seq<string>, extra: nat, words: string)

  datatype Node =
    | Leaf(scalar: Atom)
    | Mapping(entries: seq<Entry>)
    | Listing(items: seq<Item>)
    | Block(literal: bool, texts: seq<Text>)

  datatype Entry = Entry(before: seq<string>, key: string, value: Node)

  datatype Item = ScalarItem(before: seq<string>, scalar: Atom) | MappingItem(before: seq<string>, entries: seq<Entry>)

  function Words(texts: seq<Text>): seq<string> {
    if texts == [] then [] else [texts[0].words] + Words(texts[1..])
  }

  function NodeValue(node: Node): Value
    decreases node
  {
    match node
    case Leaf(s) => ScalarValue(s)
    case Mapping(es) => Dict(EntriesValue(map[], es))
    case Listing(items) => List(ItemsValue(items))
    case Block(_, texts) => Str(JoinWords(Words(texts)))
  }

  /** `acc` with the entries added in order. */
  function EntriesValue(acc: map<string, Value>, es: seq<Entry>): map<string, Value>
    decreases es
  {
    if es == [] then acc else EntriesValue(acc[es[0].key := NodeValue(es[0].value)], es[1..])
  }

  function ItemsValue(items: seq<Item>): seq<Value>
    decreases items
  {
    if items == [] then []
    else [ItemValue(items[0])] + ItemsValue(items[1..])
  }

  function ItemValue(item: Item): Value
    decreases item
  {
    match item
    case ScalarItem(_, s) => ScalarValue(s)
    case MappingItem(_, es) => Dict(EntriesValue(map[], es))
  }

  predicate PlainKey(key: string) {
    Trimmed(key) && ':' !in key && key[0] != '#' && !StartsWith(key, "- ")
  }

  predicate AllIgnored(lines: seq<string>) {
    forall line | line in lines :: Ignored(line)
  }

  predicate ValidText(t: Text) {
    AllIgnored(t.before) && t.words != "" && !IsSpace(t.words[0]) && t.words[0] != '#'
  }

  /** Mappings with plain keys.  Blank lines and comments may stand above every entry. */
  ghost predicate ValidEntries(es: seq<Entry>) {
    forall e | e in es :: ValidEntry(e)
  }

  ghost predicate ValidEntry(e: Entry) {
    AllIgnored(e.before) && PlainKey(e.key) && ValidNode(e.value)
  }

  /** What is nested is not empty, and a list begins right below its key. */
  ghost predicate ValidNode(node: Node) {
    match node
    case Leaf(s) => ValidAtom(s)
    case Mapping(es) => es != [] && forall e | e in es :: ValidEntry(e)
    case Listing(items) => items != [] && items[0].before == [] && forall item | item in items :: ValidItem(item)
    case Block(_, texts) => forall t | t in texts :: ValidText(t)
  }

  ghost predicate ValidItem(item: Item) {
    && AllIgnored(item.before)
    && match item
       case ScalarItem(_, s) => ValidAtom(s)
       case MappingItem(_, es) => es != [] && forall e | e in es :: ValidEntry(e)
  }

  function Spaces(n: nat): string {
    seq(n, _ => ' ')
  }

  ghost function LayoutText(t: Text, indent: nat): seq<string> {
    t.before + [Spaces(indent + 1 + t.extra) + t.words]
  }

  ghost function LayoutTexts(texts: seq<Text>, indent: nat): seq<string> {
    if texts == [] then [] else LayoutText(texts[0], indent) + LayoutTexts(texts[1..], indent)
  }

  /** What stands after the key of an entry. */
  ghost function AfterKey(node: Node): string {
    match node
    case Leaf(s) => " " + ScalarText(s)
    case Block(literal, _) => if literal then " |" else " >"
    case _ => ""
  }

  ghost function LayoutEntry(e: Entry, indent: nat): seq<string> {
    e.before + [Spaces(indent) + (e.key + ":" + AfterKey(e.value))] + LayoutBelow(e.value, indent)
  }

  ghost function LayoutBelow(node: Node, indent: nat): seq<string> {
    match node
    case Leaf(_) => []
    case Mapping(es) => LayoutEntries(es, indent + 2)
    case Listing(items) => LayoutItems(items, indent + 2)
    case Block(_, texts) => LayoutTexts(texts, indent)
  }

  ghost function LayoutEntries(es: seq<Entry>, indent: nat): seq<string> {
    if es == [] then [] else LayoutEntry(es[0], indent) + LayoutEntries(es[1..], indent)
  }

  ghost function LayoutItem(item: Item, indent: nat): seq<string> {
    match item
    case ScalarItem(before, s) => before + [Spaces(indent) + ("- " + ScalarText(s))]
    case MappingItem(before, es) => before + [Spaces(indent) + "- "] + LayoutEntries(es, indent + 2)
  }

  ghost function LayoutItems(items: seq<Item>, indent: nat): seq<string> {
    if items == [] then [] else LayoutItem(items[0], indent) + LayoutItems(items[1..], indent)
  }

  // ---------------------------------------------------------------------------
  // Lines of a layout, as tokens
  // ---------------------------------------------------------------------------

  function Skips(lines: seq<string>): seq<Token> {
    seq(|lines|, _ => Skip)
  }

  /** Reading does not depend on `f`, the kind that each line of a block scalar would have elsewhere. */
  function TextToken(f: string -> Kind, t: Text, indent: nat): Token {
    Line(indent + 1 + t.extra, t.words, f(t.words))
  }

  function TextsTokens(f: string -> Kind, texts: seq<Text>, indent: nat): seq<Token> {
    if texts == [] then []
    else Skips(texts[0].before) + [TextToken(f, texts[0], indent)] + TextsTokens(f, texts[1..], indent)
  }

  function BodyOf(node: Node): Body {
    match node
    case Leaf(s) => Scalar(ScalarValue(s))
    case Block(_, _) => Folded
    case _ => Nothing
  }

  ghost function EntryToken(e: Entry, indent: nat): Token {
    Line(indent, e.key + ":" + AfterKey(e.value), Named(e.key, BodyOf(e.value)))
  }

  ghost function EntryTokens(f: string -> Kind, e: Entry, indent: nat): seq<Token>
    decreases e
  {
    Skips(e.before) + [EntryToken(e, indent)] + BelowTokens(f, e.value, indent)
  }

  ghost function BelowTokens(f: string -> Kind, node: Node, indent: nat): seq<Token>
    decreases node
  {
    match node
    case Leaf(_) => []
    case Mapping(es) => EntriesTokens(f, es, indent + 2)
    case Listing(items) => ItemsTokens(f, items, indent + 2)
    case Block(_, texts) => TextsTokens(f, texts, indent)
  }

  ghost function EntriesTokens(f: string -> Kind, es: seq<Entry>, indent: nat): seq<Token>
    decreases es
  {
    if es == [] then [] else EntryTokens(f, es[0], indent) + EntriesTokens(f, es[1..], indent)
  }

  ghost function ItemToken(item: Item, indent: nat): Token {
    match item
    case ScalarItem(_, s) => Line(indent, "- " + ScalarText(s), Dash(Scalar(ScalarValue(s))))
    case MappingItem(_, _) => Line(indent, "- ", Dash(Nothing))
  }

  ghost function ItemTokens(f: string -> Kind, item: Item, indent: nat): seq<Token>
    decreases item, 1
  {
    Skips(item.before) + [ItemToken(item, indent)] + ItemBelow(f, item, indent)
  }

  ghost function ItemBelow(f: string -> Kind, item: Item, indent: nat): seq<Token>
    decreases item, 0
  {
    if item.MappingItem? then EntriesTokens(f, item.entries, indent + 2) else []
  }

  ghost function ItemsTokens(f: string -> Kind, items: seq<Item>, indent: nat): seq<Token>
    decreases items
  {
    if items == [] then [] else ItemTokens(f, items[0], indent) + ItemsTokens(f, items[1..], indent)
  }

  lemma {:induction false} LStripSpaces(n: nat, t: string)
    requires t != "" && !IsSpace(t[0])
    ensures LStrip(Spaces(n) + t) == t && Indent(Spaces(n) + t) == n
  {
    if n > 0 {
      assert (Spaces(n) + t)[0] == ' ' && (Spaces(n) + t)[1..] == Spaces(n - 1) + t;
      LStripSpaces(n - 1, t);
    } else {
      assert Spaces(n) + t == t;
    }
  }

  lemma KeyLine(key: string, tail: string, indent: nat)
    requires PlainKey(key)
    ensures var line := Spaces(indent) + (key + ":" + tail);
            && LStrip(line) == key + ":" + tail && Indent(line) == indent && ':' in LStrip(line)
            && !Ignored(line) && !StartsWith(LStrip(line), "- ")
            && Cut(LStrip(line), ':') == (key, true, tail) && Strip(key) == key
  {
    var text := key + ":" + tail;
    assert text[0] == key[0] && text == key + [':'] + tail;
    LStripSpaces(indent, text);
    CutAt(key, ':', tail);
    TrimmedStrip(key);
    assert text[|key|] == ':';
    assert !StartsWith(text, "- ") by {
      if |key| == 1 {
        assert text[1] == ':' && "- "[1] == ' ';
      } else {
        assert key[..2] == text[..2];
      }
    }
  }

  lemma AfterKeyReads(node: Node)
    requires ValidNode(node)
    ensures var value := Strip(AfterKey(node));
            match node
            case Leaf(s) => value != "" && value != ">" && value != "|" && ParseScalar(value) == ScalarValue(s)
            case Block(literal, _) => value == if literal then "|" else ">"
            case _ => value == ""
  {
    match node
    case Leaf(s) =>
      ScalarReads(s);
      TrimmedStrip(ScalarText(s));
    case Block(literal, _) =>
      assert " |" == " " + "|" && " >" == " " + ">";
      TrimmedStrip(if literal then "|" else ">");
    case _ =>
  }

  /** The first line of an entry is taken for what it was written as. */
  lemma EntryLine(e: Entry, indent: nat)
    requires ValidEntry(e)
    ensures TokenOf(Spaces(indent) + (e.key + ":" + AfterKey(e.value))) == EntryToken(e, indent)
  {
    KeyLine(e.key, AfterKey(e.value), indent);
    AfterKeyReads(e.value);
  }

  lemma DashLine(tail: string, indent: nat)
    ensures var line := Spaces(indent) + ("- " + tail);
            && LStrip(line) == "- " + tail && Indent(line) == indent
            && !Ignored(line) && StartsWith(LStrip(line), "- ") && LStrip(line)[2..] == tail
  {
    var text := "- " + tail;
    LStripSpaces(indent, text);
    assert text[..2] == "- " && text[2..] == tail;
  }

  lemma ItemLine(item: Item, indent: nat)
    requires ValidItem(item)
    ensures item.ScalarItem? ==> TokenOf(Spaces(indent) + ("- " + ScalarText(item.scalar))) == ItemToken(item, indent)
    ensures item.MappingItem? ==> TokenOf(Spaces(indent) + "- ") == ItemToken(item, indent)
  {
    match item
    case ScalarItem(_, s) =>
      DashLine(ScalarText(s), indent);
      ScalarReads(s);
      TrimmedStrip(ScalarText(s));
    case MappingItem(_, _) =>
      assert "- " == "- " + "";
      DashLine("", indent);
  }

  lemma TextLine(t: Text, indent: nat)
    requires ValidText(t)
    ensures TokenOf(Spaces(indent + 1 + t.extra) + t.words) == TextToken(KindOf, t, indent)
  {
    LStripSpaces(indent + 1 + t.extra, t.words);
  }

  lemma TokensConcat(a: seq<string>, b: seq<string>)
    ensures Tokens(a + b) == Tokens(a) + Tokens(b)
  {
  }

  lemma TokensOfOne(line: string)
    ensures Tokens([line]) == [TokenOf(line)]
  {
  }

  lemma TokensOfIgnored(lines: seq<string>)
    requires AllIgnored(lines)
    ensures Tokens(lines) == Skips(lines)
  {
    forall i | 0 <= i < |lines| ensures Tokens(lines)[i] == Skip {
      assert lines[i] in lines;
    }
  }

  /** Ignored lines, a line, and what stands below it. */
  lemma TokensOfPart(before: seq<string>, line: string, below: seq<string>)
    requires AllIgnored(before)
    ensures Tokens(before + [line] + below) == Skips(before) + [TokenOf(line)] + Tokens(below)
  {
    TokensOfIgnored(before);
    TokensOfOne(line);
    TokensConcat(before, [line]);
    TokensConcat(before + [line], below);
  }

  lemma {:induction false} TextsLayout(texts: seq<Text>, indent: nat)
    requires forall t | t in texts :: ValidText(t)
    ensures Tokens(LayoutTexts(texts, indent)) == TextsTokens(KindOf, texts, indent)
  {
    if texts != [] {
      var t := texts[0];
      assert t in texts;
      TextLine(t, indent);
      TextsLayout(texts[1..], indent);
      TokensOfPart(t.before, Spaces(indent + 1 + t.extra) + t.words, LayoutTexts(texts[1..], indent));
    }
  }

  /** Every line of a layout is taken for what it was written as. */
  lemma {:induction false} EntriesLayout(es: seq<Entry>, indent: nat)
    requires ValidEntries(es)
    ensures Tokens(LayoutEntries(es, indent)) == EntriesTokens(KindOf, es, indent)
    decreases es
  {
    if es != [] {
      assert es[0] in es;
      EntryLayout(es[0], indent);
      EntriesLayout(es[1..], indent);
      TokensConcat(LayoutEntry(es[0], indent), LayoutEntries(es[1..], indent));
    }
  }

  lemma {:induction false} EntryLayout(e: Entry, indent: nat)
    requires ValidEntry(e)
    ensures Tokens(LayoutEntry(e, indent)) == EntryTokens(KindOf, e, indent)
    decreases e
  {
    EntryLine(e, indent);
    BelowLayout(e.value, indent);
    TokensOfPart(e.before, Spaces(indent) + (e.key + ":" + AfterKey(e.value)), LayoutBelow(e.value, indent));
  }

  lemma {:induction false} BelowLayout(node: Node, indent: nat)
    requires ValidNode(node)
    ensures Tokens(LayoutBelow(node, indent)) == BelowTokens(KindOf, node, indent)
    decreases node
  {
    match node
    case Leaf(_) =>
    case Mapping(es) => EntriesLayout(es, indent + 2);
    case Listing(items) => ItemsLayout(items, indent + 2);
    case Block(_, texts) => TextsLayout(texts, indent);
  }

  lemma {:induction false} ItemLayout(item: Item, indent: nat)
    requires ValidItem(item)
    ensures Tokens(LayoutItem(item, indent)) == ItemTokens(KindOf, item, indent)
    decreases item
  {
    ItemLine(item, indent);
    match item
    case ScalarItem(before, s) =>
      var line := Spaces(indent) + ("- " + ScalarText(s));
      assert before + [line] + [] == before + [line];
      TokensOfPart(before, line, []);
    case MappingItem(before, es) =>
      EntriesLayout(es, indent + 2);
      TokensOfPart(before, Spaces(indent) + "- ", LayoutEntries(es, indent + 2));
  }

  lemma {:induction false} ItemsLayout(items: seq<Item>, indent: nat)
    requires forall item | item in items :: ValidItem(item)
    ensures Tokens(LayoutItems(items, indent)) == ItemsTokens(KindOf, items, indent)
    decreases items
  {
    if items != [] {
      assert items[0] in items;
      ItemLayout(items[0], indent);
      ItemsLayout(items[1..], indent);
      TokensConcat(LayoutItem(items[0], indent), LayoutItems(items[1..], indent));
    }
  }

  // ---------------------------------------------------------------------------
  // Reading the tokens back
  // ---------------------------------------------------------------------------

  /** The tokens `part` stand at `i`. */
  ghost predicate Holds(toks: seq<Token>, i: nat, part: seq<Token>) {
    i + |part| <= |toks| && toks[i..i + |part|] == part
  }

  lemma HoldsSplit(toks: seq<Token>, i: nat, a: seq<Token>, b: seq<Token>)
    requires Holds(toks, i, a + b)
    ensures Holds(toks, i, a) && Holds(toks, i + |a|, b)
    ensures a != [] ==> i < |toks| && toks[i] == a[0]
  {
    var whole := toks[i..i + |a + b|];
    assert toks[i..i + |a|] == whole[..|a|] && (a + b)[..|a|] == a;
    assert toks[i + |a|..i + |a| + |b|] == whole[|a|..] && (a + b)[|a|..] == b;
    assert a != [] ==> toks[i] == toks[i..i + |a|][0];
  }

  /** The next line that is not ignored, or the end. */
  function Solid(toks: seq<Token>, i: nat): (k: nat)
    requires i <= |toks|
    ensures i <= k <= |toks| && (k < |toks| ==> !toks[k].Skip?)
    decreases |toks| - i
  {
    if i < |toks| && toks[i].Skip? then Solid(toks, i + 1) else i
  }

  /** Every loop of the parser passes over ignored lines. */
  lemma {:induction false} SkipInBlock(toks: seq<Token>, i: nat, indent: nat, acc: map<string, Value>)
    requires i <= |toks|
    ensures ParseBlock(toks, i, indent, acc) == ParseBlock(toks, Solid(toks, i), indent, acc)
    decreases |toks| - i
  {
    if i < |toks| && toks[i].Skip? {
      SkipInBlock(toks, i + 1, indent, acc);
    }
  }

  lemma {:induction false} SkipInItems(toks: seq<Token>, i: nat, indent: nat, acc: seq<Value>)
    requires i <= |toks|
    ensures ParseItems(toks, i, indent, acc) == ParseItems(toks, Solid(toks, i), indent, acc)
    decreases |toks| - i
  {
    if i < |toks| && toks[i].Skip? {
      SkipInItems(toks, i + 1, indent, acc);
    }
  }

  lemma {:induction false} SkipInFolded(toks: seq<Token>, i: nat, indent: nat, acc: seq<string>)
    requires i <= |toks|
    ensures ParseFolded(toks, i, indent, acc) == ParseFolded(toks, Solid(toks, i), indent, acc)
    decreases |toks| - i
  {
    if i < |toks| && toks[i].Skip? {
      SkipInFolded(toks, i + 1, indent, acc);
    }
  }

  /** The ignored lines above a line. */
  lemma {:induction false} SolidAfter(toks: seq<Token>, i: nat, before: seq<string>, t: Token)
    requires Holds(toks, i, Skips(before) + [t]) && !t.Skip?
    ensures i + |before| < |toks| && toks[i + |before|] == t && Solid(toks, i) == i + |before|
    decreases |before|
  {
    var part := Skips(before) + [t];
    assert toks[i] == toks[i..i + |part|][0];
    if before != [] {
      assert part[0] == Skip && part[1..] == Skips(before[1..]) + [t];
      assert toks[i + 1..i + 1 + |part[1..]|] == toks[i..i + |part|][1..];
      SolidAfter(toks, i + 1, before[1..], t);
    }
  }

  /** The lines end here, or a line of smaller indentation follows. */
  ghost predicate StopsAt(toks: seq<Token>, j: nat, indent: nat) {
    j <= |toks| && var k := Solid(toks, j); k == |toks| || toks[k].indent < indent
  }

  /** The ignored lines above a line, that line, and the lines below. */
  lemma PartSplit(toks: seq<Token>, i: nat, before: seq<string>, t: Token, below: seq<Token>)
    requires Holds(toks, i, Skips(before) + [t] + below) && !t.Skip?
    ensures var k := i + |before|;
            k < |toks| && toks[k] == t && Solid(toks, i) == k && Holds(toks, k + 1, below)
  {
    HoldsSplit(toks, i, Skips(before) + [t], below);
    SolidAfter(toks, i, before, t);
  }

  /** What follows an entry stops whatever is nested in it. */
  lemma RestStops(f: string -> Kind, toks: seq<Token>, i: nat, j: nat, es: seq<Entry>, indent: nat)
    requires Holds(toks, i, EntriesTokens(f, es, indent)) && j == i + |EntriesTokens(f, es, indent)|
    requires StopsAt(toks, j, indent)
    ensures StopsAt(toks, i, indent + 1)
  {
    if es != [] {
      HoldsSplit(toks, i, EntryTokens(f, es[0], indent), EntriesTokens(f, es[1..], indent));
      var k, m := i + |es[0].before|, i + |EntryTokens(f, es[0], indent)|;
      EntrySplit(f, toks, i, k, m, es[0], indent);
    }
  }

  lemma ItemFirst(f: string -> Kind, toks: seq<Token>, i: nat, k: nat, j: nat, item: Item, indent: nat)
    requires Holds(toks, i, ItemTokens(f, item, indent)) && k == i + |item.before|
    requires j == i + |ItemTokens(f, item, indent)|
    ensures k < |toks| && toks[k] == ItemToken(item, indent) && Solid(toks, i) == k
    ensures Holds(toks, k + 1, ItemBelow(f, item, indent))
    ensures j == k + 1 + |ItemBelow(f, item, indent)|
  {
    PartSplit(toks, i, item.before, ItemToken(item, indent), ItemBelow(f, item, indent));
  }

  lemma RestItemsStop(f: string -> Kind, toks: seq<Token>, i: nat, j: nat, items: seq<Item>, indent: nat)
    requires Holds(toks, i, ItemsTokens(f, items, indent)) && j == i + |ItemsTokens(f, items, indent)|
    requires StopsAt(toks, j, indent)
    ensures StopsAt(toks, i, indent + 1)
  {
    if items != [] {
      HoldsSplit(toks, i, ItemTokens(f, items[0], indent), ItemsTokens(f, items[1..], indent));
      var k, m := i + |items[0].before|, i + |ItemTokens(f, items[0], indent)|;
      ItemFirst(f, toks, i, k, m, items[0], indent);
    }
  }

  /** The ignored lines above a line of a block scalar, that line, and the lines below. */
  lemma TextsSplit(f: string -> Kind, toks: seq<Token>, i: nat, k: nat, j: nat, texts: seq<Text>, indent: nat)
    requires texts != [] && Holds(toks, i, TextsTokens(f, texts, indent)) && k == i + |texts[0].before|
    requires j == i + |TextsTokens(f, texts, indent)|
    ensures k < |toks| && toks[k] == TextToken(f, texts[0], indent) && Solid(toks, i) == k
    ensures Holds(toks, k + 1, TextsTokens(f, texts[1..], indent))
    ensures j == k + 1 + |TextsTokens(f, texts[1..], indent)|
  {
    PartSplit(toks, i, texts[0].before, TextToken(f, texts[0], indent), TextsTokens(f, texts[1..], indent));
  }

  /** The lines of a block scalar stand from `i` to `j`. */
  ghost predicate TextsAt(f: string -> Kind, toks: seq<Token>, i: nat, j: nat, texts: seq<Text>, indent: nat)
    decreases texts
  {
    if texts == [] then i == j <= |toks|
    else
      var k := i + |texts[0].before|;
      && k < |toks| && toks[k] == TextToken(f, texts[0], indent) && Solid(toks, i) == k
      && TextsAt(f, toks, k + 1, j, texts[1..], indent)
  }

  lemma {:induction false} TextsStand(
    f: string -> Kind, toks: seq<Token>, i: nat, j: nat, texts: seq<Text>, indent: nat)
    requires Holds(toks, i, TextsTokens(f, texts, indent)) && j == i + |TextsTokens(f, texts, indent)|
    ensures TextsAt(f, toks, i, j, texts, indent)
    decreases texts
  {
    if texts != [] {
      var k := i + |texts[0].before|;
      TextsSplit(f, toks, i, k, j, texts, indent);
      TextsStand(f, toks, k + 1, j, texts[1..], indent);
    }
  }

  /** A block scalar: its lines are joined, whatever they look like, and the ignored lines among them are not. */
  lemma {:induction false} FoldedRoundTrip(
    f: string -> Kind, toks: seq<Token>, i: nat, j: nat, texts: seq<Text>, indent: nat, acc: seq<string>)
    requires TextsAt(f, toks, i, j, texts, indent) && StopsAt(toks, j, indent + 1)
    ensures i <= |toks| && ParseFolded(toks, i, indent, acc) == (acc + Words(texts), Solid(toks, j))
    decreases texts
  {
    if texts == [] {
      SkipInFolded(toks, i, indent, acc);
      assert acc + Words(texts) == acc;
    } else {
      var t := texts[0];
      var k := i + |t.before|;
      FoldedStep(toks, i, k, indent, acc);
      FoldedRoundTrip(f, toks, k + 1, j, texts[1..], indent, acc + [t.words]);
      assert acc + [t.words] + Words(texts[1..]) == acc + Words(texts);
    }
  }

  lemma FoldedStep(toks: seq<Token>, i: nat, k: nat, indent: nat, acc: seq<string>)
    requires i <= k < |toks| && Solid(toks, i) == k && toks[k].Line? && toks[k].indent > indent
    ensures ParseFolded(toks, i, indent, acc) == ParseFolded(toks, k + 1, indent, acc + [toks[k].text])
  {
    SkipInFolded(toks, i, indent, acc);
  }

  /** An entry's ignored lines, its own line and what is nested in it. */
  lemma EntrySplit(f: string -> Kind, toks: seq<Token>, i: nat, k: nat, j: nat, e: Entry, indent: nat)
    requires Holds(toks, i, EntryTokens(f, e, indent)) && k == i + |e.before|
    requires j == i + |EntryTokens(f, e, indent)|
    ensures k < |toks| && toks[k] == EntryToken(e, indent) && Solid(toks, i) == k
    ensures Holds(toks, k + 1, BelowTokens(f, e.value, indent))
    ensures j == k + 1 + |BelowTokens(f, e.value, indent)|
  {
    PartSplit(toks, i, e.before, EntryToken(e, indent), BelowTokens(f, e.value, indent));
  }

  lemma EntriesSplit(f: string -> Kind, toks: seq<Token>, i: nat, j: nat, es: seq<Entry>, indent: nat) returns (k: nat)
    requires es != [] && Holds(toks, i, EntriesTokens(f, es, indent)) && j == i + |EntriesTokens(f, es, indent)|
    requires StopsAt(toks, j, indent)
    ensures k == i + |EntryTokens(f, es[0], indent)| && Holds(toks, i, EntryTokens(f, es[0], indent))
    ensures Holds(toks, k, EntriesTokens(f, es[1..], indent)) && j == k + |EntriesTokens(f, es[1..], indent)|
    ensures StopsAt(toks, k, indent + 1)
  {
    k := i + |EntryTokens(f, es[0], indent)|;
    HoldsSplit(toks, i, EntryTokens(f, es[0], indent), EntriesTokens(f, es[1..], indent));
    RestStops(f, toks, k, j, es[1..], indent);
  }

  lemma BlockEnds(toks: seq<Token>, i: nat, indent: nat, acc: map<string, Value>)
    requires StopsAt(toks, i, indent)
    ensures ParseBlock(toks, i, indent, acc) == (acc, Solid(toks, i))
  {
    SkipInBlock(toks, i, indent, acc);
  }

  /** Wherever a mapping is laid out, the block parser finds it, and reads its lines and the ignored ones after. */
  lemma {:induction false} BlockRoundTrip(
    f: string -> Kind, toks: seq<Token>, i: nat, j: nat, es: seq<Entry>, indent: nat, acc: map<string, Value>)
    requires ValidEntries(es) && Holds(toks, i, EntriesTokens(f, es, indent)) && j == i + |EntriesTokens(f, es, indent)|
    requires StopsAt(toks, j, indent)
    ensures ParseBlock(toks, i, indent, acc) == (EntriesValue(acc, es), Solid(toks, j))
    decreases es
  {
    if es == [] {
      BlockEnds(toks, i, indent, acc);
    } else {
      var e := es[0];
      assert e in es;
      var k := EntriesSplit(f, toks, i, j, es, indent);
      EntryRoundTrip(f, toks, i, k, e, indent, acc);
      BlockRoundTrip(f, toks, k, j, es[1..], indent, acc[e.key := NodeValue(e.value)]);
    }
  }

  /** One entry: the parser takes its lines, records its value and goes on behind it. */
  lemma {:induction false} EntryRoundTrip(
    f: string -> Kind, toks: seq<Token>, i: nat, j: nat, e: Entry, indent: nat, acc: map<string, Value>)
    requires ValidEntry(e) && Holds(toks, i, EntryTokens(f, e, indent)) && j == i + |EntryTokens(f, e, indent)|
    requires StopsAt(toks, j, indent + 1)
    ensures ParseBlock(toks, i, indent, acc) == ParseBlock(toks, j, indent, acc[e.key := NodeValue(e.value)])
    decreases e
  {
    var k := i + |e.before|;
    EntrySplit(f, toks, i, k, j, e, indent);
    SkipInBlock(toks, i, indent, acc);
    BodyRoundTrip(f, toks, k, j, e, indent, acc);
  }

  /** The same from the entry's own line on. */
  lemma {:induction false} BodyRoundTrip(
    f: string -> Kind, toks: seq<Token>, k: nat, j: nat, e: Entry, indent: nat, acc: map<string, Value>)
    requires ValidNode(e.value) && k < |toks| && toks[k] == EntryToken(e, indent)
    requires Holds(toks, k + 1, BelowTokens(f, e.value, indent)) && j == k + 1 + |BelowTokens(f, e.value, indent)|
    requires StopsAt(toks, j, indent + 1)
    ensures ParseBlock(toks, k, indent, acc) == ParseBlock(toks, j, indent, acc[e.key := NodeValue(e.value)])
    decreases e, 0
  {
    match e.value {
      case Leaf(_) => LeafRoundTrip(toks, k, e, indent, acc);
      case Block(_, texts) => BlockScalarRoundTrip(f, toks, k, j, e, indent, acc);
      case _ =>
        NodeRoundTrip(f, toks, k + 1, j, e.value, indent);
        NestedStep(toks, k, j, e, indent, acc);
    }
  }

  lemma NestedStep(toks: seq<Token>, k: nat, j: nat, e: Entry, indent: nat, acc: map<string, Value>)
    requires k < j <= |toks| && toks[k] == EntryToken(e, indent) && BodyOf(e.value) == Nothing
    requires ParseValue(toks, k + 1, indent + 2) == (NodeValue(e.value), Solid(toks, j))
    ensures ParseBlock(toks, k, indent, acc) == ParseBlock(toks, j, indent, acc[e.key := NodeValue(e.value)])
  {
    SkipInBlock(toks, j, indent, acc[e.key := NodeValue(e.value)]);
  }

  lemma LeafRoundTrip(toks: seq<Token>, k: nat, e: Entry, indent: nat, acc: map<string, Value>)
    requires e.value.Leaf? && k < |toks| && toks[k] == EntryToken(e, indent)
    ensures ParseBlock(toks, k, indent, acc) == ParseBlock(toks, k + 1, indent, acc[e.key := NodeValue(e.value)])
  {
  }

  lemma BlockScalarRoundTrip(
    f: string -> Kind, toks: seq<Token>, k: nat, j: nat, e: Entry, indent: nat, acc: map<string, Value>)
    requires e.value.Block? && k < |toks| && toks[k] == EntryToken(e, indent)
    requires Holds(toks, k + 1, TextsTokens(f, e.value.texts, indent))
    requires j == k + 1 + |TextsTokens(f, e.value.texts, indent)|
    requires StopsAt(toks, j, indent + 1)
    ensures ParseBlock(toks, k, indent, acc) == ParseBlock(toks, j, indent, acc[e.key := NodeValue(e.value)])
  {
    TextsStand(f, toks, k + 1, j, e.value.texts, indent);
    FoldedRoundTrip(f, toks, k + 1, j, e.value.texts, indent, []);
    assert [] + Words(e.value.texts) == Words(e.value.texts);
    SkipInBlock(toks, j, indent, acc[e.key := NodeValue(e.value)]);
  }

  /** A nested mapping or list, on the lines below its key. */
  lemma {:induction false} NodeRoundTrip(f: string -> Kind, toks: seq<Token>, i: nat, j: nat, node: Node, indent: nat)
    requires ValidNode(node) && (node.Mapping? || node.Listing?)
    requires Holds(toks, i, BelowTokens(f, node, indent)) && j == i + |BelowTokens(f, node, indent)|
    requires StopsAt(toks, j, indent + 1)
    ensures ParseValue(toks, i, indent + 2) == (NodeValue(node), Solid(toks, j))
    decreases node
  {
    match node {
      case Mapping(es) =>
        MappingStart(f, toks, i, es, indent + 2);
        BlockRoundTrip(f, toks, i, j, es, indent + 2, map[]);
      case Listing(items) =>
        ListingStart(f, toks, i, j, items, indent + 2);
        ItemsRoundTrip(f, toks, i, j, items, indent + 2, []);
        assert [] + ItemsValue(items) == ItemsValue(items);
    }
  }

  /** A mapping does not begin like a list. */
  lemma MappingStart(f: string -> Kind, toks: seq<Token>, i: nat, es: seq<Entry>, indent: nat)
    requires es != [] && Holds(toks, i, EntriesTokens(f, es, indent))
    ensures i < |toks| && !(toks[i].Line? && toks[i].kind.Dash?)
  {
    HoldsSplit(toks, i, EntryTokens(f, es[0], indent), EntriesTokens(f, es[1..], indent));
    var k, m := i + |es[0].before|, i + |EntryTokens(f, es[0], indent)|;
    EntrySplit(f, toks, i, k, m, es[0], indent);
  }

  lemma ListingStart(f: string -> Kind, toks: seq<Token>, i: nat, j: nat, items: seq<Item>, indent: nat)
    requires items != [] && items[0].before == [] && Holds(toks, i, ItemsTokens(f, items, indent))
    ensures i < |toks| && toks[i].Line? && toks[i].kind.Dash?
  {
    HoldsSplit(toks, i, ItemTokens(f, items[0], indent), ItemsTokens(f, items[1..], indent));
    var k, m := i + |items[0].before|, i + |ItemTokens(f, items[0], indent)|;
    ItemFirst(f, toks, i, k, m, items[0], indent);
  }

  lemma ItemsSplit(f: string -> Kind, toks: seq<Token>, i: nat, j: nat, items: seq<Item>, indent: nat) returns (k: nat)
    requires items != [] && Holds(toks, i, ItemsTokens(f, items, indent)) && j == i + |ItemsTokens(f, items, indent)|
    requires StopsAt(toks, j, indent)
    ensures k == i + |ItemTokens(f, items[0], indent)| && Holds(toks, i, ItemTokens(f, items[0], indent))
    ensures Holds(toks, k, ItemsTokens(f, items[1..], indent)) && j == k + |ItemsTokens(f, items[1..], indent)|
    ensures StopsAt(toks, k, indent + 1)
  {
    k := i + |ItemTokens(f, items[0], indent)|;
    HoldsSplit(toks, i, ItemTokens(f, items[0], indent), ItemsTokens(f, items[1..], indent));
    RestItemsStop(f, toks, k, j, items[1..], indent);
  }

  lemma {:induction false} ItemRoundTrip(
    f: string -> Kind, toks: seq<Token>, i: nat, j: nat, item: Item, indent: nat, acc: seq<Value>)
    requires ValidItem(item) && Holds(toks, i, ItemTokens(f, item, indent)) && j == i + |ItemTokens(f, item, indent)|
    requires StopsAt(toks, j, indent + 1)
    ensures ParseItems(toks, i, indent, acc) == ParseItems(toks, j, indent, acc + [ItemValue(item)])
    decreases item
  {
    var k := i + |item.before|;
    ItemFirst(f, toks, i, k, j, item, indent);
    SkipInItems(toks, i, indent, acc);
    ItemBody(f, toks, k, j, item, indent, acc);
  }

  /** The same from the item's own line on. */
  lemma {:induction false} ItemBody(
    f: string -> Kind, toks: seq<Token>, k: nat, j: nat, item: Item, indent: nat, acc: seq<Value>)
    requires ValidItem(item) && k < |toks| && toks[k] == ItemToken(item, indent)
    requires Holds(toks, k + 1, ItemBelow(f, item, indent)) && j == k + 1 + |ItemBelow(f, item, indent)|
    requires StopsAt(toks, j, indent + 1)
    ensures ParseItems(toks, k, indent, acc) == ParseItems(toks, j, indent, acc + [ItemValue(item)])
    decreases item, 0
  {
    match item {
      case ScalarItem(_, _) => ScalarItemStep(toks, k, item, indent, acc);
      case MappingItem(_, es) =>
        BlockRoundTrip(f, toks, k + 1, j, es, indent + 2, map[]);
        MappingItemStep(toks, k, j, item, indent, acc);
    }
  }

  lemma ScalarItemStep(toks: seq<Token>, k: nat, item: Item, indent: nat, acc: seq<Value>)
    requires item.ScalarItem? && k < |toks| && toks[k] == ItemToken(item, indent)
    ensures ParseItems(toks, k, indent, acc) == ParseItems(toks, k + 1, indent, acc + [ItemValue(item)])
  {
  }

  lemma MappingItemStep(toks: seq<Token>, k: nat, j: nat, item: Item, indent: nat, acc: seq<Value>)
    requires item.MappingItem? && k < j <= |toks| && toks[k] == ItemToken(item, indent)
    requires ParseBlock(toks, k + 1, indent + 2, map[]) == (EntriesValue(map[], item.entries), Solid(toks, j))
    ensures ParseItems(toks, k, indent, acc) == ParseItems(toks, j, indent, acc + [ItemValue(item)])
  {
    SkipInItems(toks, j, indent, acc + [ItemValue(item)]);
  }

  lemma {:induction false} ItemsRoundTrip(
    f: string -> Kind, toks: seq<Token>, i: nat, j: nat, items: seq<Item>, indent: nat, acc: seq<Value>)
    requires forall item | item in items :: ValidItem(item)
    requires Holds(toks, i, ItemsTokens(f, items, indent)) && j == i + |ItemsTokens(f, items, indent)|
    requires StopsAt(toks, j, indent)
    ensures ParseItems(toks, i, indent, acc) == (acc + ItemsValue(items), Solid(toks, j))
    decreases items
  {
    if items == [] {
      ItemsEnd(toks, i, indent, acc);
    } else {
      var item := items[0];
      assert item in items;
      var k := ItemsSplit(f, toks, i, j, items, indent);
      ItemRoundTrip(f, toks, i, k, item, indent, acc);
      ItemsRoundTrip(f, toks, k, j, items[1..], indent, acc + [ItemValue(item)]);
      ItemsAppend(acc, items);
    }
  }

  lemma ItemsEnd(toks: seq<Token>, i: nat, indent: nat, acc: seq<Value>)
    requires StopsAt(toks, i, indent)
    ensures ParseItems(toks, i, indent, acc) == (acc + ItemsValue([]), Solid(toks, i))
  {
    SkipInItems(toks, i, indent, acc);
    assert acc + ItemsValue([]) == acc;
  }

  lemma ItemsAppend(acc: seq<Value>, items: seq<Item>)
    requires items != []
    ensures acc + [ItemValue(items[0])] + ItemsValue(items[1..]) == acc + ItemsValue(items)
  {
    assert ItemsValue(items) == [ItemValue(items[0])] + ItemsValue(items[1..]);
  }

  /** `_minimal_yaml_parse`. */
  function MinimalParse(text: string): map<string, Value> {
    ParseBlock(Tokens(SplitLines(text)), 0, 0, map[]).0
  }

  /** Reading the lines of a document, with blank lines and comments after it, returns it and consumes them all. */
  lemma DocumentRoundTrip(es: seq<Entry>, after: seq<string>)
    requires ValidEntries(es) && AllIgnored(after)
    ensures var lines := LayoutEntries(es, 0) + after;
            ParseBlock(Tokens(lines), 0, 0, map[]) == (EntriesValue(map[], es), |lines|)
  {
    var lines := LayoutEntries(es, 0) + after;
    var toks := Tokens(lines);
    EntriesLayout(es, 0);
    TokensConcat(LayoutEntries(es, 0), after);
    TokensOfIgnored(after);
    var part := EntriesTokens(KindOf, es, 0);
    assert toks[0..0 + |part|] == part;
    EndIsSolid(toks, |part|);
    BlockRoundTrip(KindOf, toks, 0, |part|, es, 0, map[]);
  }

  lemma {:induction false} EndIsSolid(toks: seq<Token>, i: nat)
    requires i <= |toks| && forall k | i <= k < |toks| :: toks[k] == Skip
    ensures Solid(toks, i) == |toks|
    decreases |toks| - i
  {
    if i < |toks| {
      EndIsSolid(toks, i + 1);
    }
  }

  /** A text that lays out `es`, followed by blank lines and comments; no line of it holds a line boundary. */
  ghost predicate TextOf(es: seq<Entry>, after: seq<string>, text: string) {
    && ValidEntries(es) && AllIgnored(after) && text == JoinLines(LayoutEntries(es, 0) + after)
    && forall line | line in LayoutEntries(es, 0) + after :: OneLine(line)
  }

  /** So does reading its text, unless a string or a comment in it holds a line boundary. */
  lemma TextRoundTrip(es: seq<Entry>, after: seq<string>)
    requires TextOf(es, after, JoinLines(LayoutEntries(es, 0) + after))
    ensures MinimalParse(JoinLines(LayoutEntries(es, 0) + after)) == EntriesValue(map[], es)
  {
    LinesRoundTrip(LayoutEntries(es, 0) + after);
    DocumentRoundTrip(es, after);
  }

  /** `_minimal_yaml_parse`: the text of a document, whichever it is, is read as that document. */
  method MinimalYamlParse(text: string) returns (result: map<string, Value>)
    ensures result == MinimalParse(text)
    ensures forall es, after | TextOf(es, after, text) :: result == EntriesValue(map[], es)
  {
    var i;
    result, i := ParseYamlBlock(Tokens(SplitLines(text)), 0, 0);
    forall es, after | TextOf(es, after, text) ensures result == EntriesValue(map[], es) {
      TextRoundTrip(es, after);
    }
  }

  // ---------------------------------------------------------------------------
  // Layouts that are not read back
  // ---------------------------------------------------------------------------

  /** An item is read as a mapping if and only if nothing stands after its dash. */
  lemma ItemIsMapping(toks: seq<Token>, i: nat, indent: nat, tail: string)
    requires i < |toks| && toks[i] == TokenOf(Spaces(indent) + ("- " + tail))
    ensures var items := ParseItems(toks, i, indent, []).0;
            items != [] && (items[0].Dict? <==> Strip(tail) == "")
    ensures Strip(tail) != "" ==> ParseItems(toks, i, indent, []).0[0] == ParseScalar(Strip(tail))
  {
    DashLine(tail, indent);
    var value := Strip(tail);
    if value == "" {
      var (sub, next) := ParseBlock(toks, i + 1, indent + 2, map[]);
      assert [] + [Dict(sub)] == [Dict(sub)];
      ItemsKeepFirst(toks, next, indent, [Dict(sub)]);
    } else {
      assert [] + [ParseScalar(value)] == [ParseScalar(value)];
      ItemsKeepFirst(toks, i + 1, indent, [ParseScalar(value)]);
    }
  }

  lemma {:induction false} ItemsKeepFirst(toks: seq<Token>, i: nat, indent: nat, acc: seq<Value>)
    requires i <= |toks| && acc != []
    ensures var items := ParseItems(toks, i, indent, acc).0; items != [] && items[0] == acc[0]
    decreases |toks| - i
  {
    if i < |toks| {
      var t := toks[i];
      if t.Skip? {
        ItemsKeepFirst(toks, i + 1, indent, acc);
      } else if t.indent >= indent && t.kind.Dash? {
        match t.kind.body
        case Scalar(value) => ItemsKeepFirst(toks, i + 1, indent, acc + [value]);
        case _ =>
          var (sub, next) := ParseBlock(toks, i + 1, indent + 2, map[]);
          ItemsKeepFirst(toks, next, indent, acc + [Dict(sub)]);
      }
    }
  }

  /** So a mapping that begins on its dash's line is read as the string of that line, and its list ends there
      if the mapping goes on below. */
  lemma CompactItemIsString(toks: seq<Token>, i: nat, indent: nat, key: string, value: string)
    requires PlainKey(key) && key[0] != '"' && key[0] != '\'' && Trimmed(value)
    requires i + 1 < |toks| && toks[i] == TokenOf(Spaces(indent) + ("- " + (key + ": " + value)))
    requires toks[i + 1].Line? && !toks[i + 1].kind.Dash?
    ensures ParseValue(toks, i, indent) == (List([Str(key + ": " + value)]), i + 1)
  {
    var text := key + ": " + value;
    CompactText(key, value);
    StringItem(toks[i], indent, text);
    ListOfOne(toks, i, indent, Str(text));
  }

  lemma ListOfOne(toks: seq<Token>, i: nat, indent: nat, value: Value)
    requires i + 1 < |toks| && toks[i].Line? && toks[i].indent == indent && toks[i].kind == Dash(Scalar(value))
    requires toks[i + 1].Line? && !toks[i + 1].kind.Dash?
    ensures ParseValue(toks, i, indent) == (List([value]), i + 1)
  {
    assert [] + [value] == [value];
    assert ParseItems(toks, i + 1, indent, [value]) == ([value], i + 1);
  }

  lemma StringItem(t: Token, indent: nat, text: string)
    requires t == TokenOf(Spaces(indent) + ("- " + text)) && BareText(text)
    ensures t == Line(indent, "- " + text, Dash(Scalar(Str(text))))
  {
    DashLine(text, indent);
    TrimmedStrip(text);
    BareReads(text);
  }

  lemma CompactText(key: string, value: string)
    requires PlainKey(key) && key[0] != '"' && key[0] != '\'' && Trimmed(value)
    ensures BareText(key + ": " + value)
  {
    var text := key + ": " + value;
    assert text[0] == key[0] && text[|text| - 1] == value[|value| - 1] && text[|key|] == ':';
    ColonIsNoNumber(text);
  }

  lemma ColonIsNoNumber(s: string)
    requires Trimmed(s) && ':' in s && s[0] != '"' && s[0] != '\''
    ensures BareText(s)
  {
    TrimmedStrip(s);
    assert !Quoted(s) by {
      assert s[..1] == [s[0]];
    }
    SignHasNoColon(s);
    IntShapeReads(s);
    FloatShapeReads(s);
    NumberHasNoColon(Unsigned(s));
  }

  lemma SignHasNoColon(s: string)
    requires ':' in s
    ensures ':' in Unsigned(s)
  {
    assert s == [s[0]] + s[1..];
  }

  lemma NumberHasNoColon(b: string)
    requires ':' in b
    ensures !FloatCut(b) && !DigitRun(b)
  {
    var low := Lower(b);
    var k :| 0 <= k < |b| && b[k] == ':';
    assert low[k] == ':';
    var (mantissa, e, exponent) := Cut(low, 'e');
    CutShrinks(low, 'e');
    if ':' in mantissa {
      MantissaHasNoColon(mantissa);
    } else {
      assert e && ':' in exponent;
      RunHasNoColon(exponent);
    }
    assert !SpecialFloat(b) by {
      assert ':' !in "inf" && ':' !in "infinity" && ':' !in "nan";
    }
  }

  lemma MantissaHasNoColon(m: string)
    requires ':' in m
    ensures !MantissaCut(m)
  {
    var (whole, dot, fraction) := Cut(m, '.');
    CutShrinks(m, '.');
    assert ':' in whole || ':' in fraction;
    if OptionalRun(whole) && OptionalRun(fraction) {
      RunHasNoLetter(whole);
      RunHasNoLetter(fraction);
    }
  }

  lemma RunHasNoColon(x: string)
    requires ':' in x
    ensures !DigitRun(Unsigned(x))
  {
    SignHasNoColon(x);
    if DigitRun(Unsigned(x)) {
      RunHasNoLetter(Unsigned(x));
    }
  }

  /** The first item of `deliverables` in the repository's closure contract, lines 14 and 15. */
  lemma ContractItemIsString(toks: seq<Token>, i: nat)
    requires i + 1 < |toks| && toks[i] == TokenOf(Spaces(2) + ("- " + ("id" + ": " + "deleted-owner-files-absent")))
    requires toks[i + 1] == TokenOf(Spaces(4) + ("verify" + ":" + ""))
    ensures ParseValue(toks, i, 2) == (List([Str("id" + ": " + "deleted-owner-files-absent")]), i + 1)
  {
    ContractItem(toks, i, "id", "deleted-owner-files-absent", "verify");
  }

  lemma ContractItem(toks: seq<Token>, i: nat, key: string, value: string, next: string)
    requires key == "id" && next == "verify" && value != "" && value[0] == 'd' && value[|value| - 1] == 't'
    requires i + 1 < |toks| && toks[i] == TokenOf(Spaces(2) + ("- " + (key + ": " + value)))
    requires toks[i + 1] == TokenOf(Spaces(4) + (next + ":" + ""))
    ensures ParseValue(toks, i, 2) == (List([Str(key + ": " + value)]), i + 1)
  {
    assert PlainKey(key) && PlainKey(next) by {
      assert key[..2][0] == 'i' && next[..2][0] == 'v' && "- "[0] == '-';
    }
    KeyLine(next, "", 4);
    CompactItemIsString(toks, i, 2, key, value);
  }

  /** With a blank line or a comment between its key and its first item, a list is read as an empty mapping. */
  lemma CommentHidesList(f: string -> Kind, toks: seq<Token>, i: nat, j: nat, items: seq<Item>, indent: nat)
    requires i < |toks| && toks[i].Skip? && (forall item | item in items :: ValidItem(item))
    requires Holds(toks, i + 1, ItemsTokens(f, items, indent + 2)) && j == i + 1 + |ItemsTokens(f, items, indent + 2)|
    requires StopsAt(toks, j, indent + 1)
    ensures ParseValue(toks, i, indent + 2) == (Dict(map[]), Solid(toks, j))
  {
    ItemsAreNotEntries(f, items, indent + 2);
    forall k | i + 1 <= k < j ensures PassedOver(toks[k], indent + 2) {
      assert toks[k] == toks[i + 1..j][k - i - 1];
    }
    PassOver(toks, i, j, indent + 2, map[]);
    BlockEnds(toks, j, indent + 2, map[]);
  }

  /** A list below its key is read back if and only if its first item stands right there. */
  lemma ListIsReadBack(f: string -> Kind, toks: seq<Token>, i: nat, j: nat, items: seq<Item>, indent: nat)
    requires items != [] && forall item | item in items :: ValidItem(item)
    requires Holds(toks, i, ItemsTokens(f, items, indent + 2)) && j == i + |ItemsTokens(f, items, indent + 2)|
    requires StopsAt(toks, j, indent + 1)
    ensures ParseValue(toks, i, indent + 2) == (List(ItemsValue(items)), Solid(toks, j)) <==> items[0].before == []
  {
    if items[0].before == [] {
      NodeRoundTrip(f, toks, i, j, Listing(items), indent);
    } else {
      var rest := HiddenStart(f, toks, i, items, indent + 2);
      CommentHidesList(f, toks, i, j, rest, indent);
    }
  }

  /** The first ignored line above a list, and the list without it. */
  lemma HiddenStart(f: string -> Kind, toks: seq<Token>, i: nat, items: seq<Item>, indent: nat)
    returns (rest: seq<Item>)
    requires items != [] && items[0].before != [] && forall item | item in items :: ValidItem(item)
    requires Holds(toks, i, ItemsTokens(f, items, indent))
    ensures i < |toks| && toks[i].Skip? && forall item | item in rest :: ValidItem(item)
    ensures Holds(toks, i + 1, ItemsTokens(f, rest, indent))
    ensures |ItemsTokens(f, items, indent)| == |ItemsTokens(f, rest, indent)| + 1
  {
    var item, tail := items[0], items[1..];
    var lower := item.(before := item.before[1..]);
    rest := [lower] + tail;
    assert rest[0] == lower && rest[1..] == tail;
    assert ValidItem(lower) by {
      assert item in items && forall line | line in lower.before :: line in item.before;
    }
    assert forall other | other in tail :: other in items;
    assert Skips(item.before) == [Skip] + Skips(lower.before);
    assert ItemBelow(f, lower, indent) == ItemBelow(f, item, indent);
    assert ItemTokens(f, item, indent) == [Skip] + ItemTokens(f, lower, indent);
    assert ItemsTokens(f, items, indent) == [Skip] + ItemsTokens(f, rest, indent);
    HoldsSplit(toks, i, [Skip], ItemsTokens(f, rest, indent));
  }

  /** A token that the block parser at this indentation passes over. */
  predicate PassedOver(t: Token, indent: nat) {
    t.Skip? || t.indent > indent || (t.indent == indent && !t.kind.Named?)
  }

  lemma {:induction false} PassOver(toks: seq<Token>, i: nat, j: nat, indent: nat, acc: map<string, Value>)
    requires i <= j <= |toks| && forall k | i <= k < j :: PassedOver(toks[k], indent)
    ensures ParseBlock(toks, i, indent, acc) == ParseBlock(toks, j, indent, acc)
    decreases j - i
  {
    if i < j {
      PassOver(toks, i + 1, j, indent, acc);
    }
  }

  lemma {:induction false} ItemsAreNotEntries(f: string -> Kind, items: seq<Item>, indent: nat)
    ensures forall t | t in ItemsTokens(f, items, indent) :: PassedOver(t, indent)
    decreases items
  {
    if items != [] {
      ItemIsDeep(f, items[0], indent);
      ItemsAreNotEntries(f, items[1..], indent);
    }
  }

  lemma {:induction false} ItemIsDeep(f: string -> Kind, item: Item, indent: nat)
    ensures forall t | t in ItemTokens(f, item, indent) :: PassedOver(t, indent) && (t.Skip? || t.indent >= indent)
    decreases item
  {
    if item.MappingItem? {
      EntriesAreDeep(f, item.entries, indent + 2);
    }
    var below := ItemBelow(f, item, indent);
    assert forall t | t in below :: t.Skip? || t.indent >= indent + 2;
  }

  lemma {:induction false} EntriesAreDeep(f: string -> Kind, es: seq<Entry>, indent: nat)
    ensures forall t | t in EntriesTokens(f, es, indent) :: t.Skip? || t.indent >= indent
    decreases es
  {
    if es != [] {
      NodeIsDeep(f, es[0].value, indent);
      EntriesAreDeep(f, es[1..], indent);
    }
  }

  lemma {:induction false} NodeIsDeep(f: string -> Kind, node: Node, indent: nat)
    ensures forall t | t in BelowTokens(f, node, indent) :: t.Skip? || t.indent >= indent
    decreases node
  {
    match node
    case Leaf(_) =>
    case Mapping(es) => EntriesAreDeep(f, es, indent + 2);
    case Listing(items) => ItemsAreDeep(f, items, indent + 2);
    case Block(_, texts) => TextsAreDeep(f, texts, indent);
  }

  lemma {:induction false} ItemsAreDeep(f: string -> Kind, items: seq<Item>, indent: nat)
    ensures forall t | t in ItemsTokens(f, items, indent) :: t.Skip? || t.indent >= indent
    decreases items
  {
    if items != [] {
      ItemIsDeep(f, items[0], indent);
      ItemsAreDeep(f, items[1..], indent);
    }
  }

  lemma {:induction false} TextsAreDeep(f: string -> Kind, texts: seq<Text>, indent: nat)
    ensures forall t | t in TextsTokens(f, texts, indent) :: t.Skip? || t.indent >= indent
  {
    if texts != [] {
      TextsAreDeep(f, texts[1..], indent);
    }
  }
}
