/** Release tags and their order: `version_key` on ASCII tags against section 11 of
    Semantic Versioning 2.0.0. */
module Versions {
  import opened Lexicographic
  import opened Wrappers

  /** The groups of a tag that matches the pattern, as written, the last one split at its dots. */
  datatype Tag = Tag(major: string, minor: string, patch: string, pre: seq<string>)

  /** One component of the tuple's last element: (0, number) or (1, text). */
  datatype Part = Number(n: nat) | Text(s: string)

  datatype Key = Key(major: nat, minor: nat, patch: nat, release: bool, parts: seq<Part>)

  predicate IsDigit(c: char) {
    '0' <= c <= '9'
  }

  predicate IsIdentifierChar(c: char) {
    IsDigit(c) || 'A' <= c <= 'Z' || 'a' <= c <= 'z' || c == '-'
  }

  predicate AllDigits(s: string) {
    s != "" && forall c | c in s :: IsDigit(c)
  }

  predicate NoLeadingZero(s: string) {
    s == "0" || (s != "" && s[0] != '0')
  }

  predicate Numeral(s: string) {
    AllDigits(s) && NoLeadingZero(s)
  }

  predicate Identifier(s: string) {
    s != "" && forall c | c in s :: IsIdentifierChar(c)
  }

  /** A pre-release identifier that `version_key` accepts (section 9: no leading zeros). */
  predicate ValidIdentifier(s: string) {
    Identifier(s) && (AllDigits(s) ==> NoLeadingZero(s))
  }

  predicate ValidTag(t: Tag) {
    && Numeral(t.major) && Numeral(t.minor) && Numeral(t.patch)
    && forall p | p in t.pre :: ValidIdentifier(p)
  }

  function JoinDots(parts: seq<string>): string {
    if parts == [] then ""
    else if |parts| == 1 then parts[0]
    else parts[0] + "." + JoinDots(parts[1..])
  }

  /** The text of a tag. */
  function Written(t: Tag): string {
    "v" + (t.major + ['.'] + (t.minor + ['.'] + (t.patch + Suffix(t.pre))))
  }

  ghost predicate Reads(text: string, t: Tag) {
    ValidTag(t) && Written(t) == text
  }

  function Suffix(pre: seq<string>): string {
    if pre == [] then "" else ['-'] + JoinDots(pre)
  }

  // ---------------------------------------------------------------------------
  // Reading a tag
  // ---------------------------------------------------------------------------

  /** `s.partition(c)`, with whether `c` occurs. */
  function Cut(s: string, c: char): (string, bool, string) {
    if s == "" then ("", false, "")
    else if s[0] == c then ("", true, s[1..])
    else var (a, found, b) := Cut(s[1..], c); ([s[0]] + a, found, b)
  }

  function SplitDots(s: string): (r: seq<string>)
    ensures r != []
    decreases |s|
  {
    var (a, found, b) := Cut(s, '.');
    CutShrinks(s, '.');
    if found then [a] + SplitDots(b) else [a]
  }

  lemma {:induction false} CutShrinks(s: string, c: char)
    ensures var (a, found, b) := Cut(s, c);
            && c !in a
            && (found ==> s == a + [c] + b && |b| < |s|)
            && (!found ==> s == a && b == "")
  {
    if s != "" && s[0] != c {
      CutShrinks(s[1..], c);
      var (a, found, b) := Cut(s[1..], c);
      assert s == [s[0]] + s[1..];
      assert found ==> s == [s[0]] + a + [c] + b;
    } else if s != "" {
      assert s == [c] + s[1..];
    }
  }

  /** The pattern match: the groups of `text`, or none when it does not match. */
  function Groups(text: string): Option<Tag> {
    if text == "" || text[0] != 'v' then None
    else
      var (major, dot1, rest1) := Cut(text[1..], '.');
      var (minor, dot2, rest2) := Cut(rest1, '.');
      var (patch, dash, pre) := Cut(rest2, '-');
      if !dot1 || !dot2 || !Numeral(major) || !Numeral(minor) || !Numeral(patch) then None
      else if !dash then Some(Tag(major, minor, patch, []))
      else
        var parts := SplitDots(pre);
        if forall p | p in parts :: Identifier(p) then Some(Tag(major, minor, patch, parts)) else None
  }

  function Value(s: string): nat
    requires forall c | c in s :: IsDigit(c)
  {
    if s == "" then 0
    else
      assert s[|s| - 1] in s && IsDigit(s[|s| - 1]);
      10 * Value(s[..|s| - 1]) + (s[|s| - 1] as int - '0' as int)
  }

  function PartOf(s: string): Part {
    if AllDigits(s) then Number(Value(s)) else Text(s)
  }

  function Parts(pre: seq<string>): seq<Part> {
    seq(|pre|, i requires 0 <= i < |pre| => PartOf(pre[i]))
  }

  /** `version_key` on a tag's groups. */
  function KeyOf(t: Tag): Key
    requires ValidTag(t)
  {
    Key(Value(t.major), Value(t.minor), Value(t.patch), t.pre == [], Parts(t.pre))
  }

  /** `version_key`: it accepts exactly the texts of valid tags, and what it returns for one is the
      tag's key. */
  method VersionKey(text: string) returns (r: Option<Key>)
    ensures r.Some? <==> exists t :: Reads(text, t)
    ensures forall t | Reads(text, t) :: r == Some(KeyOf(t))
  {
    var groups := Groups(text);
    forall t ensures Reads(text, t) <==> groups == Some(t) && ValidTag(t) {
      GroupsMeaning(text, t);
    }
    if groups.None? {
      return None;
    }
    var t := groups.value;
    var parts: seq<Part> := [];
    for i := 0 to |t.pre|
      invariant |parts| == i
      invariant Numeral(t.major) && Numeral(t.minor) && Numeral(t.patch)
      invariant forall p | p in t.pre :: Identifier(p)
      invariant forall j | 0 <= j < i :: ValidIdentifier(t.pre[j]) && parts[j] == PartOf(t.pre[j])
    {
      var part := t.pre[i];
      if AllDigits(part) && part != "0" && part[0] == '0' {
        assert part in t.pre && !ValidIdentifier(part);
        return None;
      }
      parts := parts + [PartOf(part)];
    }
    assert ValidTag(t) && Reads(text, t);
    assert parts == Parts(t.pre);
    return Some(Key(Value(t.major), Value(t.minor), Value(t.patch), t.pre == [], parts));
  }

  lemma {:induction false} CutAt(a: string, c: char, b: string)
    requires c !in a
    ensures Cut(a + [c] + b, c) == (a, true, b)
    ensures Cut(a, c) == (a, false, "")
  {
    if a != "" {
      CutAt(a[1..], c, b);
      assert (a + [c] + b)[1..] == a[1..] + [c] + b;
      assert a == [a[0]] + a[1..];
    } else {
      assert a + [c] + b == [c] + b;
    }
  }

  lemma {:induction false} SplitJoined(parts: seq<string>)
    requires parts != [] && forall p | p in parts :: '.' !in p
    ensures SplitDots(JoinDots(parts)) == parts
  {
    if |parts| == 1 {
      CutAt(parts[0], '.', "");
    } else {
      SplitJoined(parts[1..]);
      CutAt(parts[0], '.', JoinDots(parts[1..]));
      assert parts == [parts[0]] + parts[1..];
    }
  }

  lemma {:induction false} JoinSplit(s: string)
    ensures JoinDots(SplitDots(s)) == s
    decreases |s|
  {
    CutShrinks(s, '.');
    var (a, found, b) := Cut(s, '.');
    if found {
      JoinSplit(b);
      assert SplitDots(s) == [a] + SplitDots(b) && SplitDots(s)[1..] == SplitDots(b);
    }
  }

  /** The groups of a text are the only reading of it as a tag. */
  lemma GroupsMeaning(text: string, t: Tag)
    ensures Reads(text, t) <==> Groups(text) == Some(t) && ValidTag(t)
  {
    if Reads(text, t) {
      GroupsOfWritten(t);
    }
    if Groups(text) == Some(t) {
      WrittenGroups(text, t);
    }
  }

  lemma GroupsOfWritten(t: Tag)
    requires ValidTag(t)
    ensures Groups(Written(t)) == Some(t)
  {
    var rest2 := t.patch + Suffix(t.pre);
    var rest1 := t.minor + ['.'] + rest2;
    assert Written(t)[1..] == t.major + ['.'] + rest1;
    CutAt(t.major, '.', rest1);
    CutAt(t.minor, '.', rest2);
    SuffixCut(t.patch, t.pre);
    if t.pre != [] {
      SplitJoined(t.pre);
    }
  }

  lemma SuffixCut(patch: string, pre: seq<string>)
    requires '-' !in patch
    ensures Cut(patch + Suffix(pre), '-') == (patch, pre != [], JoinDots(pre))
  {
    if pre == [] {
      assert patch + Suffix(pre) == patch;
      CutAt(patch, '-', "");
    } else {
      assert patch + Suffix(pre) == patch + ['-'] + JoinDots(pre);
      CutAt(patch, '-', JoinDots(pre));
    }
  }

  lemma WrittenGroups(text: string, t: Tag)
    requires Groups(text) == Some(t)
    ensures Written(t) == text
  {
    var (major, dot1, rest1) := Cut(text[1..], '.');
    var (minor, dot2, rest2) := Cut(rest1, '.');
    var (patch, dash, pre) := Cut(rest2, '-');
    assert text == "v" + text[1..];
    assert text[1..] == major + ['.'] + rest1 by { CutShrinks(text[1..], '.'); }
    assert rest1 == minor + ['.'] + rest2 by { CutShrinks(rest1, '.'); }
    SuffixOfCut(rest2);
  }

  lemma SuffixOfCut(s: string)
    ensures var (patch, dash, pre) := Cut(s, '-');
            s == patch + Suffix(if dash then SplitDots(pre) else [])
  {
    var (patch, dash, pre) := Cut(s, '-');
    CutShrinks(s, '-');
    if dash {
      JoinSplit(pre);
      Regroup(patch, ['-'], pre);
    } else {
      assert patch + "" == patch;
    }
  }

  lemma Regroup(a: string, b: string, c: string)
    ensures a + b + c == a + (b + c)
  {
  }

  // ---------------------------------------------------------------------------
  // The key says everything about the tag
  // ---------------------------------------------------------------------------

  lemma {:induction false} ValueBounds(s: string)
    requires Numeral(s)
    ensures s != "0" ==> Value(s) > 0
    ensures |s| > 1 ==> Value(s) >= 10
  {
    if |s| == 1 {
      assert s[..0] == "" && s == [s[0]] && s[0] in s;
    } else {
      var init := s[..|s| - 1];
      assert s[|s| - 1] in s;
      assert init[0] == s[0];
      ValueBounds(init);
    }
  }

  /** Without leading zeros a number has one numeral. */
  lemma {:induction false} ValueIsInjective(a: string, b: string)
    requires Numeral(a) && Numeral(b) && Value(a) == Value(b)
    ensures a == b
  {
    ValueBounds(a);
    ValueBounds(b);
    var x, y := a[|a| - 1], b[|b| - 1];
    assert x in a && y in b;
    if |a| == 1 || |b| == 1 {
      assert a[..0] == "" && b[..0] == "";
      assert |a| == 1 && |b| == 1;
      assert a == [x] && b == [y];
    } else {
      var i, j := a[..|a| - 1], b[..|b| - 1];
      assert i[0] == a[0] && j[0] == b[0];
      assert Value(i) == Value(j) && x == y;
      ValueIsInjective(i, j);
      assert a == i + [x] && b == j + [y];
    }
  }

  lemma PartIsInjective(a: string, b: string)
    requires ValidIdentifier(a) && ValidIdentifier(b) && PartOf(a) == PartOf(b)
    ensures a == b
  {
    if AllDigits(a) {
      ValueIsInjective(a, b);
    }
  }

  lemma KeyIsInjective(t: Tag, u: Tag)
    requires ValidTag(t) && ValidTag(u) && KeyOf(t) == KeyOf(u)
    ensures Written(t) == Written(u) && t == u
  {
    ValueIsInjective(t.major, u.major);
    ValueIsInjective(t.minor, u.minor);
    ValueIsInjective(t.patch, u.patch);
    assert |t.pre| == |Parts(t.pre)| == |u.pre|;
    forall i | 0 <= i < |t.pre| ensures t.pre[i] == u.pre[i] {
      assert Parts(t.pre)[i] == Parts(u.pre)[i];
      assert t.pre[i] in t.pre && u.pre[i] in u.pre;
      PartIsInjective(t.pre[i], u.pre[i]);
    }
    assert t.pre == u.pre;
  }

  // ---------------------------------------------------------------------------
  // The order
  // ---------------------------------------------------------------------------

  const CharLess := (a: char, b: char) => a < b

  const IntLess := (a: int, b: int) => a < b

  const PartLess := (a: Part, b: Part) =>
    if a.Number? && b.Number? then a.n < b.n
    else if a.Text? && b.Text? then LexLess(CharLess, a.s, b.s)
    else a.Number?

  /** The tuple's first four elements; Python orders False before True. */
  function Core(k: Key): seq<int> {
    [k.major, k.minor, k.patch, if k.release then 1 else 0]
  }

  /** Python's `<` on the tuples that `version_key` returns. */
  predicate KeyLess(a: Key, b: Key) {
    LexLess(IntLess, Core(a), Core(b)) || (Core(a) == Core(b) && LexLess(PartLess, a.parts, b.parts))
  }

  lemma PartOrder()
    ensures StrictTotal(CharLess) && StrictTotal(IntLess) && StrictTotal(PartLess)
  {
    assert StrictTotal(CharLess);
    forall x: Part ensures !PartLess(x, x) {
      if x.Text? { LexTotal(CharLess, x.s, x.s); }
    }
    forall x: Part, y: Part | x != y ensures PartLess(x, y) <==> !PartLess(y, x) {
      if x.Text? && y.Text? { LexTotal(CharLess, x.s, y.s); }
    }
    forall x: Part, y: Part, z: Part | PartLess(x, y) && PartLess(y, z) ensures PartLess(x, z) {
      if x.Text? && y.Text? && z.Text? { LexTransitive(CharLess, x.s, y.s, z.s); }
    }
  }

  /** Keys are strictly and totally ordered. */
  lemma KeyOrder(a: Key, b: Key, c: Key)
    ensures !KeyLess(a, a)
    ensures a != b ==> (KeyLess(a, b) <==> !KeyLess(b, a))
    ensures KeyLess(a, b) && KeyLess(b, c) ==> KeyLess(a, c)
  {
    PartOrder();
    LexTotal(IntLess, Core(a), Core(b));
    LexTotal(PartLess, a.parts, b.parts);
    if Core(a) == Core(b) {
      assert Core(a)[0] == Core(b)[0] && Core(a)[1] == Core(b)[1];
      assert Core(a)[2] == Core(b)[2] && Core(a)[3] == Core(b)[3];
    }
    if KeyLess(a, b) && KeyLess(b, c) {
      if LexLess(IntLess, Core(a), Core(b)) && LexLess(IntLess, Core(b), Core(c)) {
        LexTransitive(IntLess, Core(a), Core(b), Core(c));
      } else if Core(a) == Core(b) == Core(c) {
        LexTransitive(PartLess, a.parts, b.parts, c.parts);
      }
    }
  }

  // ---------------------------------------------------------------------------
  // Section 11 of Semantic Versioning 2.0.0, clause by clause
  // ---------------------------------------------------------------------------

  /** 11.2: major, minor and patch are compared numerically and the first difference decides. */
  ghost predicate LowerCore(t: Tag, u: Tag)
    requires ValidTag(t) && ValidTag(u)
  {
    || Value(t.major) < Value(u.major)
    || (Value(t.major) == Value(u.major) && Value(t.minor) < Value(u.minor))
    || (Value(t.major) == Value(u.major) && Value(t.minor) == Value(u.minor) && Value(t.patch) < Value(u.patch))
  }

  ghost predicate SameCore(t: Tag, u: Tag)
    requires ValidTag(t) && ValidTag(u)
  {
    Value(t.major) == Value(u.major) && Value(t.minor) == Value(u.minor) && Value(t.patch) == Value(u.patch)
  }

  /** ASCII sort order: a proper prefix comes first, otherwise the first different character decides. */
  ghost predicate AsciiLower(a: string, b: string) {
    exists i: nat :: SmallerFrom(CharLess, a, b, i)
  }

  /** 11.4.1 digits compare numerically, 11.4.2 other identifiers in ASCII order, 11.4.3 numeric
      identifiers are lower than the others. */
  ghost predicate LowerIdentifier(a: string, b: string) {
    if AllDigits(a) && AllDigits(b) then Value(a) < Value(b)
    else if !AllDigits(a) && !AllDigits(b) then AsciiLower(a, b)
    else AllDigits(a)
  }

  /** 11.4: identifiers are compared from left to right until they differ; 11.4.4 when all the
      preceding ones are equal, more fields are higher. */
  ghost predicate LowerPreAt(p: seq<string>, q: seq<string>, i: nat) {
    && i <= |p| && i < |q| && p[..i] == q[..i]
    && (i == |p| || (p[i] != q[i] && LowerIdentifier(p[i], q[i])))
  }

  ghost predicate LowerPre(p: seq<string>, q: seq<string>) {
    exists i: nat :: LowerPreAt(p, q, i)
  }

  /** 11.3: with the same core, a pre-release is lower than the release. */
  ghost predicate Precedes(t: Tag, u: Tag)
    requires ValidTag(t) && ValidTag(u)
  {
    || LowerCore(t, u)
    || (SameCore(t, u) && t.pre != [] && u.pre == [])
    || (SameCore(t, u) && t.pre != [] && u.pre != [] && LowerPre(t.pre, u.pre))
  }

  lemma CoreMeaning(a: Key, b: Key)
    ensures LexLess(IntLess, Core(a), Core(b)) <==>
            || a.major < b.major
            || (a.major == b.major && a.minor < b.minor)
            || (a.major == b.major && a.minor == b.minor && a.patch < b.patch)
            || (a.major == b.major && a.minor == b.minor && a.patch == b.patch && !a.release && b.release)
    ensures Core(a) == Core(b) <==>
            a.major == b.major && a.minor == b.minor && a.patch == b.patch && a.release == b.release
  {
    var x, y := Core(a), Core(b);
    LexFirstDifference(IntLess, x, y);
    if i: nat :| SmallerFrom(IntLess, x, y, i) {
      assert forall j | 0 <= j < i :: x[..i][j] == x[j] && y[..i][j] == y[j];
    }
    if x == y {
      assert x[0] == y[0] && x[1] == y[1] && x[2] == y[2] && x[3] == y[3];
    }
    if x[0] != y[0] {
      assert SmallerFrom(IntLess, x, y, 0) <==> x[0] < y[0];
    } else if x[1] != y[1] {
      assert SmallerFrom(IntLess, x, y, 1) <==> x[1] < y[1];
    } else if x[2] != y[2] {
      assert SmallerFrom(IntLess, x, y, 2) <==> x[2] < y[2];
    } else if x[3] != y[3] {
      assert SmallerFrom(IntLess, x, y, 3) <==> x[3] < y[3];
    }
  }

  lemma PartMeaning(a: string, b: string)
    ensures PartLess(PartOf(a), PartOf(b)) <==> LowerIdentifier(a, b)
  {
    LexFirstDifference(CharLess, a, b);
  }

  lemma PreMeaning(p: seq<string>, q: seq<string>)
    requires forall x | x in p :: ValidIdentifier(x)
    requires forall x | x in q :: ValidIdentifier(x)
    ensures LexLess(PartLess, Parts(p), Parts(q)) <==> LowerPre(p, q)
  {
    var a, b := Parts(p), Parts(q);
    LexFirstDifference(PartLess, a, b);
    forall i: nat ensures SmallerFrom(PartLess, a, b, i) <==> LowerPreAt(p, q, i) {
      if i <= |p| && i < |q| {
        forall j | 0 <= j < |p| && j < |q| ensures p[j] == q[j] <==> a[j] == b[j] {
          assert p[j] in p && q[j] in q;
          if a[j] == b[j] {
            PartIsInjective(p[j], q[j]);
          }
        }
        assert a[..i] == b[..i] ==> forall j | 0 <= j < i :: a[..i][j] == a[j] && b[..i][j] == b[j];
        assert p[..i] == q[..i] ==> forall j | 0 <= j < i :: p[..i][j] == p[j] && q[..i][j] == q[j];
        assert a[..i] == b[..i] <==> p[..i] == q[..i];
        if i < |p| {
          PartMeaning(p[i], q[i]);
        }
      }
    }
  }

  /** The tuple order is the precedence of the standard. */
  lemma OrderIsPrecedence(t: Tag, u: Tag)
    requires ValidTag(t) && ValidTag(u)
    ensures KeyLess(KeyOf(t), KeyOf(u)) <==> Precedes(t, u)
  {
    CoreMeaning(KeyOf(t), KeyOf(u));
    PreMeaning(t.pre, u.pre);
    if t.pre == [] && u.pre == [] {
      assert Parts(t.pre) == Parts(u.pre) == [];
    }
  }

  /** `tag.split(".")[0]`: comparing it as text compares the major versions as numbers. */
  lemma MajorAsText(t: Tag, u: Tag)
    requires ValidTag(t) && ValidTag(u)
    ensures Cut(Written(t), '.').0 == Cut(Written(u), '.').0 <==> KeyOf(t).major == KeyOf(u).major
  {
    MajorText(t);
    MajorText(u);
    if Value(t.major) == Value(u.major) {
      ValueIsInjective(t.major, u.major);
    }
    assert ("v" + t.major)[1..] == t.major && ("v" + u.major)[1..] == u.major;
  }

  lemma MajorText(t: Tag)
    requires ValidTag(t)
    ensures Cut(Written(t), '.').0 == "v" + t.major
  {
    var rest := t.minor + ['.'] + (t.patch + Suffix(t.pre));
    assert Written(t) == ("v" + t.major) + ['.'] + rest;
    CutAt("v" + t.major, '.', rest);
  }
}
