/** The scalars of the closure contracts' fallback YAML reader: `_parse_scalar`, and the texts it reads back. */
module ClosureScalars {
  import opened TextLines
  import opened Versions
  import opened Wrappers

  datatype Value =
    | Null
    | Bool(b: bool)
    | Int(n: int)
    | Float(text: string)
    | Str(s: string)
    | List(items: seq<Value>)
    | Dict(entries: map<string, Value>)

  /** Python's `str.isspace`. */
  predicate IsSpace(c: char) {
    || '\t' <= c <= '\r' || '\U{001C}' <= c <= ' ' || c == '\U{0085}' || c == '\U{00A0}' || c == '\U{1680}'
    || '\U{2000}' <= c <= '\U{200A}' || c == '\U{2028}' || c == '\U{2029}' || c == '\U{202F}' || c == '\U{205F}'
    || c == '\U{3000}'
  }

  function LStrip(s: string): (r: string)
    ensures |r| <= |s| && (r != "" ==> !IsSpace(r[0]))
  {
    if s != "" && IsSpace(s[0]) then LStrip(s[1..]) else s
  }

  function RStrip(s: string): string {
    if s != "" && IsSpace(s[|s| - 1]) then RStrip(s[..|s| - 1]) else s
  }

  function Strip(s: string): string {
    RStrip(LStrip(s))
  }

  predicate StartsWith(s: string, prefix: string) {
    |prefix| <= |s| && s[..|prefix|] == prefix
  }

  predicate EndsWith(s: string, suffix: string) {
    |suffix| <= |s| && s[|s| - |suffix|..] == suffix
  }

  function Indent(line: string): nat {
    |line| - |LStrip(line)|
  }

  // ---------------------------------------------------------------------------
  // Scalars
  // ---------------------------------------------------------------------------

  /** Digits with single underscores between them, as Python's number syntax allows. */
  predicate DigitRun(s: string) {
    && s != "" && IsDigit(s[0]) && IsDigit(s[|s| - 1])
    && (forall i | 0 <= i < |s| :: IsDigit(s[i]) || (s[i] == '_' && 0 < i && IsDigit(s[i - 1])))
  }

  function Digits(s: string): (r: string)
    ensures forall c | c in r :: IsDigit(c)
    ensures (forall c | c in s :: IsDigit(c)) ==> r == s
  {
    if s == "" then ""
    else
      assert forall c | c in s[1..] :: c in s;
      (if IsDigit(s[0]) then [s[0]] else "") + Digits(s[1..])
  }

  function Unsigned(s: string): string {
    if s != "" && (s[0] == '+' || s[0] == '-') then s[1..] else s
  }

  /** `int(value)`, when it does not raise. */
  function PyInt(value: string): Option<int> {
    var s := Strip(value);
    var body := Unsigned(s);
    if !DigitRun(body) then None
    else
      var n: int := Versions.Value(Digits(body));
      Some(if s[0] == '-' then -n else n)
  }

  function Lower(s: string): string {
    seq(|s|, i requires 0 <= i < |s| => if 'A' <= s[i] <= 'Z' then (s[i] as int + 32) as char else s[i])
  }

  /** Whether `float(value)` does not raise; its value is not modelled. */
  predicate IsFloat(value: string) {
    var body := Lower(Unsigned(Strip(value)));
    var (mantissa, e, exponent) := Cut(body, 'e');
    var (whole, dot, fraction) := Cut(mantissa, '.');
    || body == "inf" || body == "infinity" || body == "nan"
    || (&& (whole == "" || DigitRun(whole)) && (fraction == "" || DigitRun(fraction)) && (whole != "" || fraction != "")
        && (e ==> DigitRun(Unsigned(exponent))))
  }

  predicate Quoted(value: string) {
    || (StartsWith(value, "\"") && EndsWith(value, "\""))
    || (StartsWith(value, "'") && EndsWith(value, "'"))
  }

  /** `_parse_scalar`. */
  function ParseScalar(value: string): Value {
    if Quoted(value) then Str(Unquote(value))
    else if value == "true" then Bool(true)
    else if value == "false" then Bool(false)
    else if value == "null" || value == "~" then Null
    else ParseNumber(value)
  }

  function ParseNumber(value: string): Value {
    match PyInt(value)
    case Some(n) => Int(n)
    case None => if IsFloat(value) then Float(value) else Str(value)
  }

  /** `value[1:-1]`. */
  function Unquote(value: string): string {
    if |value| < 2 then "" else value[1..|value| - 1]
  }

  // ---------------------------------------------------------------------------
  // Scalars and their texts
  // ---------------------------------------------------------------------------

  datatype Style = Bare | SingleQuoted | DoubleQuoted

  datatype Atom = NullScalar | BoolScalar(b: bool) | IntScalar(n: int) | StrScalar(s: string, style: Style)

  function ScalarValue(s: Atom): Value {
    match s
    case NullScalar => Null
    case BoolScalar(b) => Bool(b)
    case IntScalar(n) => Int(n)
    case StrScalar(t, _) => Str(t)
  }

  /** The decimal numeral of a number; there is only one without leading zeros. */
  ghost function Decimal(n: nat): (s: string)
    ensures Numeral(s) && Versions.Value(s) == n
  {
    NumeralExists(n);
    var s :| Numeral(s) && Versions.Value(s) == n;
    s
  }

  lemma {:induction false} NumeralExists(n: nat)
    ensures exists s :: Numeral(s) && Versions.Value(s) == n
  {
    var digit := ('0' as int + n % 10) as char;
    if n < 10 {
      assert [digit][..0] == "";
      assert Numeral([digit]) && Versions.Value([digit]) == n;
    } else {
      NumeralExists(n / 10);
      var t :| Numeral(t) && Versions.Value(t) == n / 10;
      var s := t + [digit];
      assert s[..|s| - 1] == t && s[0] == t[0];
      assert t != "0" by { assert "0"[..0] == ""; }
      assert Numeral(s) && Versions.Value(s) == n;
    }
  }

  // ---------------------------------------------------------------------------
  // Which strings may stand without quotes
  // ---------------------------------------------------------------------------

  predicate Trimmed(s: string) {
    s != "" && !IsSpace(s[0]) && !IsSpace(s[|s| - 1])
  }

  predicate IsSign(s: string) {
    s == "" || s == "+" || s == "-"
  }

  ghost predicate IntShape(s: string) {
    exists sign, run :: IsSign(sign) && DigitRun(run) && s == sign + run
  }

  predicate OptionalRun(s: string) {
    s == "" || DigitRun(s)
  }

  /** Digits, a point, digits; the point and either side of it may be missing. */
  ghost predicate MantissaParts(m: string, whole: string, dot: string, fraction: string) {
    && m == whole + dot + fraction && (dot == "." || (dot == "" && fraction == ""))
    && OptionalRun(whole) && OptionalRun(fraction) && (whole != "" || fraction != "")
  }

  ghost predicate Mantissa(m: string) {
    exists whole, dot, fraction :: MantissaParts(m, whole, dot, fraction)
  }

  ghost predicate ExponentParts(x: string, mark: string, sign: string, run: string) {
    (mark == "e" || mark == "E") && IsSign(sign) && DigitRun(run) && x == mark + (sign + run)
  }

  ghost predicate Exponent(x: string) {
    x == "" || exists mark, sign, run :: ExponentParts(x, mark, sign, run)
  }

  predicate SpecialFloat(w: string) {
    Lower(w) == "inf" || Lower(w) == "infinity" || Lower(w) == "nan"
  }

  ghost predicate FloatBody(b: string) {
    SpecialFloat(b) || exists m, x :: Mantissa(m) && Exponent(x) && b == m + x
  }

  ghost predicate FloatShape(s: string) {
    exists sign, b :: IsSign(sign) && FloatBody(b) && s == sign + b
  }

  predicate ReservedWord(s: string) {
    s == "true" || s == "false" || s == "null" || s == "~" || s == ">" || s == "|"
  }

  /** A text that is no number, no word with a meaning of its own, and not in quotes. */
  ghost predicate BareText(s: string) {
    Trimmed(s) && !Quoted(s) && !ReservedWord(s) && !IntShape(s) && !FloatShape(s)
  }

  ghost function IntText(n: int): string {
    if n < 0 then "-" + Decimal(-n) else Decimal(n)
  }

  ghost function ScalarText(s: Atom): string {
    match s
    case NullScalar => "null"
    case BoolScalar(b) => if b then "true" else "false"
    case IntScalar(n) => IntText(n)
    case StrScalar(t, Bare) => t
    case StrScalar(t, SingleQuoted) => ['\''] + t + ['\'']
    case StrScalar(t, DoubleQuoted) => ['"'] + t + ['"']
  }

  /** Any string may stand in quotes of either kind, a bare text also without. */
  ghost predicate ValidAtom(s: Atom) {
    s.StrScalar? && s.style.Bare? ==> BareText(s.s)
  }

  ghost predicate ReadsAs(text: string, value: Value) {
    Trimmed(text) && text != ">" && text != "|" && ParseScalar(text) == value
  }

  // ---------------------------------------------------------------------------
  // Numbers
  // ---------------------------------------------------------------------------

  lemma TrimmedStrip(t: string)
    requires Trimmed(t)
    ensures LStrip(t) == t && Strip(t) == t && Strip(" " + t) == t
  {
    assert (" " + t)[1..] == t;
  }

  lemma NumeralIsDigits(s: string)
    requires Numeral(s)
    ensures DigitRun(s) && Digits(s) == s && IsDigit(s[0]) && IsDigit(s[|s| - 1])
  {
    assert forall i | 0 <= i < |s| :: s[i] in s && IsDigit(s[i]);
  }

  /** A text that is a numeral behind its sign is read as that number. */
  lemma SignedNumber(text: string, s: string)
    requires Trimmed(text) && Unsigned(text) == s && DigitRun(s) && Digits(s) == s && Versions.AllDigits(s)
    ensures var n: int := Versions.Value(s);
            PyInt(text) == Some(if text[0] == '-' then -n else n)
  {
    TrimmedStrip(text);
  }

  /** A numeral, with or without a sign, is read as its number. */
  lemma NumeralReads(s: string, minus: bool)
    requires Numeral(s)
    ensures var text := if minus then "-" + s else s;
            var n: int := Versions.Value(s);
            && Trimmed(text) && (text[0] == '-' || IsDigit(text[0]))
            && PyInt(text) == Some(if minus then -n else n)
  {
    NumeralIsDigits(s);
    if minus {
      var text := "-" + s;
      assert text[|text| - 1] == s[|s| - 1] && text[0] == '-' && text[1..] == s;
      SignedNumber(text, s);
    } else {
      SignedNumber(s, s);
    }
  }

  lemma NumberIsNoWord(text: string)
    requires text != "" && (text[0] == '-' || IsDigit(text[0]))
    ensures !Quoted(text) && !ReservedWord(text)
  {
    assert text[..1] == [text[0]];
    assert "true"[0] == 't' && "false"[0] == 'f' && "null"[0] == 'n';
    assert "~"[0] == '~' && ">"[0] == '>' && "|"[0] == '|';
  }

  /** Quotes of either kind are taken off, whatever stands between them. */
  lemma QuotedReads(t: string, quote: char)
    requires quote == '"' || quote == '\''
    ensures var text := [quote] + t + [quote];
            Trimmed(text) && text != ">" && text != "|" && ParseScalar(text) == Str(t)
  {
    var text := [quote] + t + [quote];
    assert text[0] == quote && text[|text| - 1] == quote && text[1..|text| - 1] == t;
    assert text[..1] == [quote] && text[|text| - 1..] == [quote];
    assert "\"" == ['"'] && "'" == ['\''];
  }

  lemma WordReads(text: string, value: Value)
    requires || (text == "null" && value == Null) || (text == "true" && value == Bool(true))
             || (text == "false" && value == Bool(false))
    ensures Trimmed(text) && text != ">" && text != "|" && ParseScalar(text) == value
  {
    assert text[0] == 't' || text[0] == 'f' || text[0] == 'n';
    assert text[|text| - 1] == 'e' || text[|text| - 1] == 'l';
    assert text[..1] == [text[0]];
    assert !Quoted(text);
  }

  lemma IntReads(text: string, n: int)
    requires text != "" && (text[0] == '-' || IsDigit(text[0])) && PyInt(text) == Some(n)
    ensures ParseScalar(text) == Int(n) && text != ">" && text != "|"
  {
    NumberIsNoWord(text);
  }

  lemma WordScalarReads(s: Atom)
    requires s.NullScalar? || s.BoolScalar?
    ensures ReadsAs(ScalarText(s), ScalarValue(s))
  {
    WordReads(ScalarText(s), ScalarValue(s));
  }

  lemma SignedReads(s: string, minus: bool, n: int)
    requires Numeral(s) && n == if minus then -(Versions.Value(s) as int) else Versions.Value(s)
    ensures ReadsAs(if minus then "-" + s else s, Int(n))
  {
    NumeralReads(s, minus);
    IntReads(if minus then "-" + s else s, n);
  }

  lemma IntTextReads(n: int)
    ensures ReadsAs(IntText(n), Int(n))
  {
    if n < 0 {
      SignedReads(Decimal(-n), true, n);
    } else {
      SignedReads(Decimal(n), false, n);
    }
  }

  lemma SignTaken(sign: string, b: string)
    requires IsSign(sign) && b != "" && b[0] != '+' && b[0] != '-'
    ensures Unsigned(sign + b) == b
  {
    assert sign == "" ==> sign + b == b;
    assert sign != "" ==> (sign + b)[1..] == b;
  }

  lemma SignOf(s: string) returns (sign: string)
    ensures IsSign(sign) && s == sign + Unsigned(s)
  {
    sign := if s != "" && (s[0] == '+' || s[0] == '-') then [s[0]] else "";
    assert s == sign + Unsigned(s);
  }

  /** `int` accepts exactly digits with an optional sign. */
  lemma IntShapeReads(s: string)
    requires Strip(s) == s
    ensures PyInt(s).Some? <==> IntShape(s)
  {
    if PyInt(s).Some? {
      var sign := SignOf(s);
      assert IsSign(sign) && DigitRun(Unsigned(s)) && s == sign + Unsigned(s);
    }
    if IntShape(s) {
      var sign, run :| IsSign(sign) && DigitRun(run) && s == sign + run;
      SignTaken(sign, run);
    }
  }

  /** Lower case changes letters only. */
  lemma LowerKeeps(s: string)
    requires forall c | c in Lower(s) :: !('a' <= c <= 'z')
    ensures Lower(s) == s
  {
    forall i | 0 <= i < |s| ensures Lower(s)[i] == s[i] {
      assert Lower(s)[i] in Lower(s);
    }
  }

  lemma LowerConcat(a: string, b: string)
    ensures Lower(a + b) == Lower(a) + Lower(b)
  {
  }

  lemma RunHasNoLetter(s: string)
    requires OptionalRun(s)
    ensures forall c | c in s :: IsDigit(c) || c == '_'
    ensures Lower(s) == s
  {
    forall c | c in Lower(s) ensures !('a' <= c <= 'z') {
      var i :| 0 <= i < |s| && Lower(s)[i] == c;
    }
    LowerKeeps(s);
  }

  /** The mantissa as `float` sees it. */
  predicate MantissaCut(m: string) {
    var (whole, dot, fraction) := Cut(m, '.');
    OptionalRun(whole) && OptionalRun(fraction) && (whole != "" || fraction != "")
  }

  lemma MantissaMeaning(m: string)
    ensures Mantissa(m) <==> MantissaCut(m)
  {
    if MantissaCut(m) {
      var (whole, dot, fraction) := Cut(m, '.');
      CutShrinks(m, '.');
      assert MantissaParts(m, whole, if dot then "." else "", fraction);
    }
    if Mantissa(m) {
      var whole, dot, fraction :| MantissaParts(m, whole, dot, fraction);
      RunHasNoLetter(whole);
      CutAt(whole, '.', fraction);
      assert dot == "." ==> m == whole + ['.'] + fraction;
      assert dot == "" ==> m == whole;
    }
  }

  lemma MantissaHasNoLetter(m: string)
    requires MantissaCut(m)
    ensures m != "" && m[0] != '+' && m[0] != '-' && 'e' !in m && Lower(m) == m
  {
    var (whole, dot, fraction) := Cut(m, '.');
    CutShrinks(m, '.');
    RunHasNoLetter(whole);
    RunHasNoLetter(fraction);
    assert forall c | c in m :: c in whole || c in fraction || c == '.';
    forall c | c in Lower(m) ensures !('a' <= c <= 'z') {
      var i :| 0 <= i < |m| && Lower(m)[i] == c;
      assert m[i] in m;
    }
    LowerKeeps(m);
    assert m[0] in m;
  }

  /** The exponent as `float` sees it, after the mark. */
  predicate ExponentCut(x: string) {
    x == "" || ((x[0] == 'e' || x[0] == 'E') && DigitRun(Unsigned(x[1..])))
  }

  lemma ExponentMeaning(x: string)
    ensures Exponent(x) <==> ExponentCut(x)
  {
    if x != "" && ExponentCut(x) {
      var sign := SignOf(x[1..]);
      assert x == [x[0]] + x[1..];
      assert ExponentParts(x, [x[0]], sign, Unsigned(x[1..]));
    }
    if x != "" && Exponent(x) {
      var mark, sign, run :| ExponentParts(x, mark, sign, run);
      assert x[1..] == sign + run;
      SignTaken(sign, run);
    }
  }

  /** The test of `float` on an unsigned text. */
  predicate FloatCut(body: string) {
    var low := Lower(body);
    var (mantissa, e, exponent) := Cut(low, 'e');
    SpecialFloat(body) || (MantissaCut(mantissa) && (e ==> DigitRun(Unsigned(exponent))))
  }

  lemma FloatBodyMeaning(b: string)
    ensures FloatBody(b) <==> FloatCut(b)
  {
    var low := Lower(b);
    var (mantissa, e, exponent) := Cut(low, 'e');
    CutShrinks(low, 'e');
    if FloatCut(b) && !SpecialFloat(b) {
      FloatCutSplits(b, mantissa, e, exponent);
    }
    if FloatBody(b) && !SpecialFloat(b) {
      var m, x :| Mantissa(m) && Exponent(x) && b == m + x;
      MantissaMeaning(m);
      ExponentMeaning(x);
      FloatPartsCut(m, x);
    }
  }

  lemma FloatCutSplits(b: string, mantissa: string, e: bool, exponent: string)
    requires MantissaCut(mantissa) && (e ==> DigitRun(Unsigned(exponent)))
    requires Lower(b) == if e then mantissa + ['e'] + exponent else mantissa
    ensures exists m, x :: Mantissa(m) && Exponent(x) && b == m + x
  {
    var n := |mantissa|;
    var m, x := b[..n], b[n..];
    assert b == m + x;
    LowerConcat(m, x);
    MantissaHasNoLetter(mantissa);
    assert Lower(m) == mantissa by {
      assert Lower(b)[..n] == mantissa;
    }
    forall c | c in Lower(m) ensures !('a' <= c <= 'z') {
      var i :| 0 <= i < n && mantissa[i] == c;
      assert Lower(mantissa)[i] == mantissa[i];
      CharIsNoLetter(mantissa, i);
    }
    LowerKeeps(m);
    MantissaMeaning(m);
    assert x == "" || (e && Lower(x) == ['e'] + exponent) by {
      assert Lower(b)[n..] == if e then ['e'] + exponent else "";
    }
    if x != "" {
      ExponentLowered(x, exponent);
    }
    ExponentMeaning(x);
  }

  lemma CharIsNoLetter(m: string, i: nat)
    requires MantissaCut(m) && i < |m|
    ensures !('a' <= m[i] <= 'z')
  {
    var (whole, dot, fraction) := Cut(m, '.');
    CutShrinks(m, '.');
    RunHasNoLetter(whole);
    RunHasNoLetter(fraction);
    assert m[i] in whole || m[i] in fraction || m[i] == '.';
  }

  lemma ExponentLowered(x: string, exponent: string)
    requires x != "" && Lower(x) == ['e'] + exponent && DigitRun(Unsigned(exponent))
    ensures ExponentCut(x)
  {
    assert Lower(x)[0] == 'e';
    assert Lower(x[1..]) == exponent by {
      assert x == [x[0]] + x[1..];
      LowerConcat([x[0]], x[1..]);
      assert Lower(x)[1..] == Lower(x[1..]);
    }
    var run := Unsigned(exponent);
    RunHasNoLetter(run);
    forall c | c in exponent ensures !('a' <= c <= 'z') {
      assert c in run || c == exponent[0];
    }
    LowerKeeps(x[1..]);
  }

  lemma FloatPartsCut(m: string, x: string)
    requires MantissaCut(m) && ExponentCut(x)
    ensures FloatCut(m + x)
  {
    MantissaHasNoLetter(m);
    if x == "" {
      assert m + x == m;
      CutAt(m, 'e', "");
    } else {
      LowerConcat(m, x);
      LowerExponent(x);
      assert Lower(m + x) == m + ['e'] + x[1..];
      CutAt(m, 'e', x[1..]);
    }
  }

  lemma LowerExponent(x: string)
    requires x != "" && ExponentCut(x)
    ensures Lower(x) == ['e'] + x[1..]
  {
    var tail := x[1..];
    RunHasNoLetter(Unsigned(tail));
    forall c | c in Lower(tail) ensures !('a' <= c <= 'z') {
      var i :| 0 <= i < |tail| && Lower(tail)[i] == c;
      assert tail[i] in Unsigned(tail) || i == 0;
    }
    LowerKeeps(tail);
    assert x == [x[0]] + tail;
    LowerConcat([x[0]], tail);
    assert Lower([x[0]]) == ['e'];
  }

  /** `float` accepts exactly the texts of this shape. */
  lemma FloatShapeReads(s: string)
    requires Strip(s) == s
    ensures IsFloat(s) <==> FloatShape(s)
  {
    FloatBodyMeaning(Unsigned(s));
    assert IsFloat(s) <==> FloatCut(Unsigned(s));
    if FloatCut(Unsigned(s)) {
      var sign := SignOf(s);
    }
    if FloatShape(s) {
      var sign, b :| IsSign(sign) && FloatBody(b) && s == sign + b;
      FloatBodyMeaning(b);
      FloatBodyStart(b);
      SignTaken(sign, b);
    }
  }

  lemma FloatBodyStart(b: string)
    requires FloatBody(b)
    ensures b != "" && b[0] != '+' && b[0] != '-'
  {
    if SpecialFloat(b) {
      assert Lower(b)[0] == 'i' || Lower(b)[0] == 'n';
    } else {
      var m, x :| Mantissa(m) && Exponent(x) && b == m + x;
      MantissaMeaning(m);
      MantissaHasNoLetter(m);
    }
  }

  /** The bare texts are exactly the strings that stand for themselves without quotes. */
  lemma BareReads(s: string)
    requires Trimmed(s)
    ensures BareText(s) <==> ReadsAs(s, Str(s))
  {
    TrimmedStrip(s);
    IntShapeReads(s);
    FloatShapeReads(s);
  }

  /** The text of a scalar is read as that scalar. */
  lemma ScalarReads(s: Atom)
    requires ValidAtom(s)
    ensures ReadsAs(ScalarText(s), ScalarValue(s))
  {
    match s
    case IntScalar(n) => IntTextReads(n);
    case StrScalar(t, Bare) => BareReads(t);
    case StrScalar(t, SingleQuoted) => QuotedReads(t, '\'');
    case StrScalar(t, DoubleQuoted) => QuotedReads(t, '"');
    case _ => WordScalarReads(s);
  }
}
