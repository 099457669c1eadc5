/**
 * The JSON text form used by the track codec: Python's `json.dumps` with its
 * default settings (separators ", " and ": ", `ensure_ascii=True`, keys in
 * insertion order), and `json.loads` for top-level scalars and flat objects.
 */
module JsonText {
  import opened Results
  import opened Json

  // ----------------------------------------------------------------------
  // json.dumps

  predicate IsAscii(s: string) {
    forall i :: 0 <= i < |s| ==> s[i] as int < 128
  }

  function HexDigit(n: int): (c: char)
    requires 0 <= n < 16
  {
    if n < 10 then ('0' as int + n) as char else ('a' as int + n - 10) as char
  }

  /** Four lower-case hex digits, as in the `\uXXXX` escapes of `json.dumps`. */
  function Hex4(n: int): (r: string)
    requires 0 <= n < 0x10000
    ensures |r| == 4
  {
    var r2 := n % 256;
    [HexDigit(n / 4096), HexDigit((n % 4096) / 256), HexDigit(r2 / 16), HexDigit(r2 % 16)]
  }

  /**
   * How `ensure_ascii` writes one character: the two-character escapes for
   * quote, backslash and five control characters, the character itself when it
   * is printable ASCII, `\uXXXX` for the rest of the basic plane and a
   * surrogate pair above it.
   */
  function EscapeChar(c: char): (r: string)
    ensures 1 <= |r| <= 12
  {
    if c == '"' then "\\\""
    else if c == '\\' then "\\\\"
    else if c == '\n' then "\\n"
    else if c == '\r' then "\\r"
    else if c == '\t' then "\\t"
    else if c as int == 8 then "\\b"
    else if c as int == 12 then "\\f"
    else if ' ' <= c <= '~' then [c]
    else if c as int < 0x10000 then "\\u" + Hex4(c as int)
    else
      var n := c as int - 0x10000;
      "\\u" + Hex4(0xD800 + n / 1024) + "\\u" + Hex4(0xDC00 + n % 1024)
  }

  function EscapeString(s: string): string {
    if |s| == 0 then "" else EscapeChar(s[0]) + EscapeString(s[1..])
  }

  function Quote(s: string): string {
    "\"" + EscapeString(s) + "\""
  }

  function Digit(n: int): char
    requires 0 <= n < 10
  {
    ('0' as int + n) as char
  }

  /** Decimal digits of `n`, most significant first, no leading zero. */
  function NatText(n: nat): (r: string)
    ensures |r| > 0
  {
    if n < 10 then [Digit(n)] else NatText(n / 10) + [Digit(n % 10)]
  }

  /** `str(i)` / `int.__repr__`. */
  function IntText(i: int): string {
    if i < 0 then "-" + NatText(-i) else NatText(i)
  }

  function PairText(k: string, valueText: string): string {
    Quote(k) + ": " + valueText
  }

  function ScalarText(v: Value): string
    requires IsScalar(v)
  {
    match v
    case Null => "null"
    case Bool(b) => if b then "true" else "false"
    case Int(i) => IntText(i)
    case Str(s) => Quote(s)
  }

  /** `json.dumps(v)`: items and members in order, separated by `", "`. */
  function Dumps(v: Value): string
    decreases v, 1
  {
    if v.Arr? then "[" + (if |v.items| == 0 then "" else Dumps(v.items[0]) + MoreItems(v, 1)) + "]"
    else if v.Obj? then "{" + (if |v.fields| == 0 then "" else MemberText(v, 0) + MoreMembers(v, 1)) + "}"
    else ScalarText(v)
  }

  /** The items of list `a` from position `i` on, each after `", "`. */
  function MoreItems(a: Value, i: nat): string
    requires a.Arr?
    decreases a, 0, |a.items| - i
  {
    if i >= |a.items| then "" else ", " + Dumps(a.items[i]) + MoreItems(a, i + 1)
  }

  /** Member `i` of dict `o` as `"key": value`. */
  function MemberText(o: Value, i: nat): string
    requires o.Obj? && i < |o.fields|
    decreases o, 0, |o.fields| - i, 1
  {
    PairText(o.fields[i].0, Dumps(o.fields[i].1))
  }

  /** The members of dict `o` from position `i` on, each after `", "`. */
  function MoreMembers(o: Value, i: nat): string
    requires o.Obj?
    decreases o, 0, |o.fields| - i, 2
  {
    if i >= |o.fields| then "" else ", " + MemberText(o, i) + MoreMembers(o, i + 1)
  }

  // ----------------------------------------------------------------------
  // json.loads

  predicate IsWs(c: char) {
    c == ' ' || c == '\t' || c == '\n' || c == '\r'
  }

  predicate IsDigit(c: char) {
    '0' <= c <= '9'
  }

  /** Skips the whitespace JSON allows between tokens. */
  function SkipWs(s: string): (r: string)
    ensures |r| <= |s| && r == s[|s| - |r|..]
    ensures r == [] || !IsWs(r[0])
  {
    if |s| > 0 && IsWs(s[0]) then SkipWs(s[1..]) else s
  }

  /** The value of a hex digit, or -1. */
  function HexValue(c: char): (r: int)
    ensures -1 <= r < 16
  {
    if '0' <= c <= '9' then c as int - '0' as int
    else if 'a' <= c <= 'f' then c as int - 'a' as int + 10
    else if 'A' <= c <= 'F' then c as int - 'A' as int + 10
    else -1
  }

  predicate AllHex(s: string) {
    forall i :: 0 <= i < |s| ==> HexValue(s[i]) >= 0
  }

  function Hex4Value(s: string): (r: int)
    requires |s| == 4 && AllHex(s)
    ensures 0 <= r < 0x10000
  {
    4096 * HexValue(s[0]) + 256 * HexValue(s[1]) + 16 * HexValue(s[2]) + HexValue(s[3])
  }

  predicate IsHighSurrogate(u: int) { 0xD800 <= u <= 0xDBFF }
  predicate IsLowSurrogate(u: int) { 0xDC00 <= u <= 0xDFFF }

  function JoinSurrogates(hi: int, lo: int): (c: char)
    requires IsHighSurrogate(hi) && IsLowSurrogate(lo)
  {
    (0x10000 + (hi - 0xD800) * 1024 + (lo - 0xDC00)) as char
  }

  /**
   * One escape sequence, `s` starting just after the backslash. The model has
   * no lone surrogates (a Dafny char is a Unicode scalar value), so a `\u`
   * escape that Python would decode to one is reported as not modelled.
   */
  function ParseEscape(s: string): (r: Result<(char, string)>)
    ensures r.Success? ==> |r.value.1| < |s|
  {
    if |s| == 0 then Failure(JsonDecodeError("Unterminated string starting at"))
    else if s[0] == '"' then Success(('"', s[1..]))
    else if s[0] == '\\' then Success(('\\', s[1..]))
    else if s[0] == '/' then Success(('/', s[1..]))
    else if s[0] == 'b' then Success((8 as char, s[1..]))
    else if s[0] == 'f' then Success((12 as char, s[1..]))
    else if s[0] == 'n' then Success(('\n', s[1..]))
    else if s[0] == 'r' then Success(('\r', s[1..]))
    else if s[0] == 't' then Success(('\t', s[1..]))
    else if s[0] != 'u' then Failure(JsonDecodeError("Invalid \\escape"))
    else if |s| < 5 || !AllHex(s[1..5]) then Failure(JsonDecodeError("Invalid \\uXXXX escape"))
    else
      var u := Hex4Value(s[1..5]);
      if IsHighSurrogate(u) then
        if |s| >= 11 && s[5] == '\\' && s[6] == 'u' then
          if !AllHex(s[7..11]) then Failure(JsonDecodeError("Invalid \\uXXXX escape"))
          else
            var u2 := Hex4Value(s[7..11]);
            if IsLowSurrogate(u2) then Success((JoinSurrogates(u, u2), s[11..]))
            else Failure(NotModelled("lone surrogate"))
        else Failure(NotModelled("lone surrogate"))
      else if IsLowSurrogate(u) then Failure(NotModelled("lone surrogate"))
      else Success((u as char, s[5..]))
  }

  /** The rest of a string literal, `s` starting just after the opening quote. */
  function ParseStringBody(s: string): (r: Result<(string, string)>)
    ensures r.Success? ==> |r.value.1| < |s|
    decreases |s|
  {
    if |s| == 0 then Failure(JsonDecodeError("Unterminated string starting at"))
    else if s[0] == '"' then Success(("", s[1..]))
    else if s[0] == '\\' then
      var e :- ParseEscape(s[1..]);
      var t :- ParseStringBody(e.1);
      Success(([e.0] + t.0, t.1))
    else if (s[0] as int) < 0x20 then Failure(JsonDecodeError("Invalid control character at"))
    else
      var t :- ParseStringBody(s[1..]);
      Success(([s[0]] + t.0, t.1))
  }

  /** The longest prefix of decimal digits, and what follows it. */
  function SpanDigits(s: string): (r: (string, string))
    ensures r.0 + r.1 == s
    ensures forall i :: 0 <= i < |r.0| ==> IsDigit(r.0[i])
    ensures r.1 == [] || !IsDigit(r.1[0])
  {
    if |s| > 0 && IsDigit(s[0]) then
      var t := SpanDigits(s[1..]);
      assert [s[0]] + t.0 + t.1 == s;
      ([s[0]] + t.0, t.1)
    else ("", s)
  }

  function DigitsValue(ds: string): nat
    requires forall i :: 0 <= i < |ds| ==> IsDigit(ds[i])
  {
    if |ds| == 0 then 0
    else
      assert IsDigit(ds[|ds| - 1]);
      DigitsValue(ds[..|ds| - 1]) * 10 + (ds[|ds| - 1] as int - '0' as int)
  }

  /** After an integer part, a fraction or an exponent makes the number a float. */
  predicate FloatFollows(s: string) {
    && |s| >= 2
    && ((s[0] == '.' && IsDigit(s[1]))
        || ((s[0] == 'e' || s[0] == 'E')
            && (IsDigit(s[1]) || (|s| >= 3 && (s[1] == '+' || s[1] == '-') && IsDigit(s[2])))))
  }

  /** `-?(0|[1-9][0-9]*)`, rejecting the float forms the model leaves out. */
  function ParseNumber(s: string): (r: Result<(Value, string)>)
    ensures r.Success? ==> |r.value.1| < |s|
  {
    var neg := |s| > 0 && s[0] == '-';
    var t := if neg then s[1..] else s;
    if |t| == 0 || !IsDigit(t[0]) then Failure(JsonDecodeError("Expecting value"))
    else
      var split := if t[0] == '0' then ("0", t[1..]) else SpanDigits(t);
      assert |split.1| < |t|;
      if FloatFollows(split.1) then Failure(NotModelled("floating-point number"))
      else
        var n: int := DigitsValue(split.0);
        Success((Int(if neg then -n else n), split.1))
  }

  /** A non-container value, `s` starting at its first character. */
  function ParseScalar(s: string): (r: Result<(Value, string)>)
    ensures r.Success? ==> |r.value.1| < |s|
    ensures r.Success? ==> IsScalar(r.value.0)
  {
    if |s| == 0 then Failure(JsonDecodeError("Expecting value"))
    else if s[0] == '"' then
      var t :- ParseStringBody(s[1..]);
      Success((Str(t.0), t.1))
    else if s[0] == '{' || s[0] == '[' then Failure(NotModelled("nested container"))
    else if "null" <= s then Success((Null, s[4..]))
    else if "true" <= s then Success((Bool(true), s[4..]))
    else if "false" <= s then Success((Bool(false), s[5..]))
    else if "NaN" <= s || "Infinity" <= s || "-Infinity" <= s then Failure(NotModelled("non-finite float"))
    else if s[0] == '-' || IsDigit(s[0]) then ParseNumber(s)
    else Failure(JsonDecodeError("Expecting value"))
  }

  /** Members of an object, `s` starting just after the opening quote of a key. */
  function ParseMembers(s: string, acc: Dict): (r: Result<(Value, string)>)
    ensures r.Success? ==> |r.value.1| < |s|
    decreases |s|
  {
    var k :- ParseStringBody(s);
    var t := SkipWs(k.1);
    if |t| == 0 || t[0] != ':' then Failure(JsonDecodeError("Expecting ':' delimiter"))
    else
      var v :- ParseScalar(SkipWs(t[1..]));
      var acc' := Put(acc, k.0, v.0);
      var u := SkipWs(v.1);
      if |u| == 0 then Failure(JsonDecodeError("Expecting ',' delimiter"))
      else if u[0] == '}' then Success((Obj(acc'), u[1..]))
      else if u[0] != ',' then Failure(JsonDecodeError("Expecting ',' delimiter"))
      else
        var w := SkipWs(u[1..]);
        if |w| == 0 || w[0] != '"' then Failure(JsonDecodeError("Expecting property name enclosed in double quotes"))
        else ParseMembers(w[1..], acc')
  }

  /** An object, `s` starting just after `{`. */
  function ParseObject(s: string): (r: Result<(Value, string)>)
    ensures r.Success? ==> |r.value.1| < |s|
  {
    var t := SkipWs(s);
    if |t| > 0 && t[0] == '}' then Success((Obj([]), t[1..]))
    else if |t| == 0 || t[0] != '"' then Failure(JsonDecodeError("Expecting property name enclosed in double quotes"))
    else ParseMembers(t[1..], [])
  }

  /** `json.loads(s)` for a top-level scalar or flat object. */
  function Loads(s: string): Result<Value> {
    if |s| > 0 && s[0] == '\U{FEFF}' then Failure(JsonDecodeError("Unexpected UTF-8 BOM (decode using utf-8-sig)"))
    else
      var t := SkipWs(s);
      var r :- if |t| > 0 && t[0] == '{' then ParseObject(t[1..]) else ParseScalar(t);
      if SkipWs(r.1) != [] then Failure(JsonDecodeError("Extra data")) else Success(r.0)
  }

  // ----------------------------------------------------------------------
  // Round trip

  /** The values the flat model of `json.loads` reads back: scalars and dicts of scalars. */
  predicate Flat(v: Value) {
    IsScalar(v) || (v.Obj? && UniqueKeys(v.fields) && forall i :: 0 <= i < |v.fields| ==> IsScalar(v.fields[i].1))
  }

  /** What may follow a value inside a flat object or at the end of the text. */
  predicate Delimited(rest: string) {
    rest == [] || rest[0] == ',' || rest[0] == '}'
  }

  // Sequence shapes. Each is proved on its own over plain strings, so that the
  // parsing lemmas below need no reasoning about concatenation.

  lemma FirstAndRest(c: char, a: string)
    ensures ([c] + a)[0] == c && ([c] + a)[1..] == a
  {
  }

  lemma EmptyLeft(a: string)
    ensures "" + a == a && a + "" == a
  {
  }

  lemma PrefixOfConcat(a: string, b: string)
    ensures a <= a + b && (a + b)[|a|..] == b
  {
  }

  lemma NotPrefixAt(p: string, s: string, k: int)
    requires 0 <= k < |p| && k < |s| && p[k] != s[k]
    ensures !(p <= s)
  {
    if |p| <= |s| {
      assert s[..|p|][k] == s[k];
    }
  }

  lemma TwoCharShape(e: string, x: string)
    requires |e| == 2
    ensures (e + x)[0] == e[0] && (e + x)[1..] == [e[1]] + x
  {
  }

  lemma BasicEscapeShape(h: string, x: string)
    requires |h| == 4
    ensures var s := "\\u" + h + x;
      s[0] == '\\' && s[1..] == "u" + h + x
    ensures var s := "u" + h + x;
      |s| >= 5 && s[0] == 'u' && s[1..5] == h && s[5..] == x
  {
  }

  lemma AstralEscapeShape(h1: string, h2: string, x: string)
    requires |h1| == 4 && |h2| == 4
    ensures var s := "\\u" + h1 + "\\u" + h2 + x;
      s[0] == '\\' && s[1..] == "u" + h1 + "\\u" + h2 + x
    ensures var s := "u" + h1 + "\\u" + h2 + x;
      |s| >= 11 && s[0] == 'u' && s[1..5] == h1 && s[5] == '\\' && s[6] == 'u' && s[7..11] == h2 && s[11..] == x
  {
  }

  lemma EscapeConsShape(e: string, r: string, x: string)
    ensures e + r + "\"" + x == e + (r + "\"" + x)
  {
  }

  lemma ClosingQuoteShape(x: string)
    ensures var s := "" + "\"" + x; |s| > 0 && s[0] == '"' && s[1..] == x
  {
  }

  lemma QuotedShape(e: string, x: string)
    ensures var s := "\"" + e + "\"" + x; |s| > 0 && s[0] == '"' && s[1..] == e + "\"" + x
  {
  }

  lemma SignShape(neg: bool, t: string)
    requires |t| > 0 && t[0] != '-'
    ensures var s := (if neg then "-" else "") + t;
      neg == (|s| > 0 && s[0] == '-') && t == (if neg then s[1..] else s)
  {
    if !neg {
      assert "" + t == t;
    }
  }

  lemma SignedTextShape(neg: bool, d: string, rest: string)
    ensures (if neg then "-" + d else d) + rest == (if neg then "-" else "") + (d + rest)
  {
  }

  /** The text of one member, split where the parser reads it. */
  lemma MemberShape(e: string, d: string, m: string, x: string, tail: string)
    requires "\"" + x == "\"" + e + "\"" + ": " + d + m + "}" + tail
    ensures x == e + "\"" + (": " + (d + (m + "}" + tail)))
  {
    assert ("\"" + x)[1..] == x;
  }

  lemma ColonShape(a: string)
    ensures var y := ": " + a; |y| > 0 && y[0] == ':' && y[1..] == " " + a
  {
  }

  lemma CommaShape(q: string, m: string, tail: string)
    ensures var r := ", " + q + m + "}" + tail;
      |r| > 0 && r[0] == ',' && r[1..] == " " + (q + m + "}" + tail)
  {
  }

  lemma CloseShape(tail: string)
    ensures var r := "" + "}" + tail;
      |r| > 0 && r[0] == '}' && r[1..] == tail
  {
  }

  lemma MemberStartShape(e: string, d: string, rest: string)
    ensures var w := "\"" + e + "\"" + ": " + d + rest;
      |w| > 0 && w[0] == '"' && "\"" + w[1..] == w
  {
  }

  lemma BraceShape(inner: string)
    ensures var s := "{" + inner + "}"; |s| > 0 && s[0] == '{' && s[1..] == inner + "}" + ""
  {
  }

  lemma SkipWsStops(s: string)
    requires |s| > 0 && !IsWs(s[0])
    ensures SkipWs(s) == s
  {
  }

  lemma SkipWsOneSpace(s: string)
    requires |s| > 0 && !IsWs(s[0])
    ensures SkipWs(" " + s) == s
  {
    FirstAndRest(' ', s);
  }

  // Hex digits

  lemma HexDigitValue(n: int)
    requires 0 <= n < 16
    ensures HexValue(HexDigit(n)) == n
  {
  }

  lemma Hex4RoundTrip(n: int)
    requires 0 <= n < 0x10000
    ensures AllHex(Hex4(n)) && Hex4Value(Hex4(n)) == n
  {
    var a, r3 := n / 4096, n % 4096;
    var b, r2 := r3 / 256, r3 % 256;
    var c, d := r2 / 16, r2 % 16;
    assert n == 4096 * a + 256 * b + 16 * c + d;
    assert n % 256 == r2;
    HexDigitValue(a);
    HexDigitValue(b);
    HexDigitValue(c);
    HexDigitValue(d);
  }

  // Strings

  /** A `\u` escape of a basic-plane character reads back as that character. */
  lemma BasicEscapeParses(c: char, x: string)
    requires c as int < 0x10000
    ensures ParseEscape("u" + Hex4(c as int) + x) == Success((c, x))
  {
    BasicEscapeShape(Hex4(c as int), x);
    Hex4RoundTrip(c as int);
  }

  /** A surrogate-pair escape of an astral character reads back as that character. */
  lemma AstralEscapeParses(c: char, x: string)
    requires c as int >= 0x10000
    ensures var n := c as int - 0x10000;
      ParseEscape("u" + Hex4(0xD800 + n / 1024) + "\\u" + Hex4(0xDC00 + n % 1024) + x) == Success((c, x))
  {
    var n := c as int - 0x10000;
    var hi, lo := 0xD800 + n / 1024, 0xDC00 + n % 1024;
    AstralEscapeShape(Hex4(hi), Hex4(lo), x);
    Hex4RoundTrip(hi);
    Hex4RoundTrip(lo);
    assert JoinSurrogates(hi, lo) == c;
  }

  /** A backslash followed by an escape that `ParseEscape` reads as `c`. */
  lemma BackslashParses(s: string, c: char, x: string)
    requires |s| > 0 && s[0] == '\\'
    requires ParseEscape(s[1..]) == Success((c, x))
    ensures ParseStringBody(s) == (var t :- ParseStringBody(x); Success(([c] + t.0, t.1)))
  {
  }

  lemma PlainParses(c: char, x: string)
    requires ' ' <= c <= '~' && c != '"' && c != '\\'
    ensures ParseStringBody([c] + x) == (var t :- ParseStringBody(x); Success(([c] + t.0, t.1)))
  {
    FirstAndRest(c, x);
  }

  /** The two-character escapes `\"`, `\\`, `\n`, `\r`, `\t`, `\b` and `\f`. */
  predicate ShortEscaped(c: char) {
    c == '"' || c == '\\' || c == '\n' || c == '\r' || c == '\t' || c as int == 8 || c as int == 12
  }

  lemma ShortEscapeParses(c: char, x: string)
    requires ShortEscaped(c)
    ensures ParseStringBody(EscapeChar(c) + x) == (var t :- ParseStringBody(x); Success(([c] + t.0, t.1)))
  {
    var e := EscapeChar(c);
    assert |e| == 2 && e[0] == '\\';
    TwoCharShape(e, x);
    FirstAndRest(e[1], x);
    BackslashParses(e + x, c, x);
  }

  lemma BasicCharParses(c: char, x: string)
    requires !ShortEscaped(c) && !(' ' <= c <= '~') && c as int < 0x10000
    ensures ParseStringBody(EscapeChar(c) + x) == (var t :- ParseStringBody(x); Success(([c] + t.0, t.1)))
  {
    var h := Hex4(c as int);
    assert EscapeChar(c) == "\\u" + h;
    BasicEscapeParses(c, x);
    BasicEscapeShape(h, x);
    BackslashParses("\\u" + h + x, c, x);
  }

  lemma AstralCharParses(c: char, x: string)
    requires c as int >= 0x10000
    ensures ParseStringBody(EscapeChar(c) + x) == (var t :- ParseStringBody(x); Success(([c] + t.0, t.1)))
  {
    var n := c as int - 0x10000;
    var h1, h2 := Hex4(0xD800 + n / 1024), Hex4(0xDC00 + n % 1024);
    AstralEscapeText(c);
    AstralEscapeParses(c, x);
    AstralEscapeShape(h1, h2, x);
    BackslashParses("\\u" + h1 + "\\u" + h2 + x, c, x);
  }

  /** Reading one written character back consumes exactly its escape. */
  lemma EscapeCharParses(c: char, x: string)
    ensures ParseStringBody(EscapeChar(c) + x) == (var t :- ParseStringBody(x); Success(([c] + t.0, t.1)))
  {
    if ShortEscaped(c) {
      ShortEscapeParses(c, x);
    } else if ' ' <= c <= '~' {
      PlainParses(c, x);
    } else if c as int < 0x10000 {
      BasicCharParses(c, x);
    } else {
      AstralCharParses(c, x);
    }
  }

  lemma AstralEscapeText(c: char)
    requires c as int >= 0x10000
    ensures var n := c as int - 0x10000;
      EscapeChar(c) == "\\u" + Hex4(0xD800 + n / 1024) + "\\u" + Hex4(0xDC00 + n % 1024)
  {
  }

  lemma {:induction false} StringRoundTrip(s: string, x: string)
    ensures ParseStringBody(EscapeString(s) + "\"" + x) == Success((s, x))
  {
    if |s| == 0 {
      ClosingQuoteShape(x);
    } else {
      EscapeConsShape(EscapeChar(s[0]), EscapeString(s[1..]), x);
      EscapeCharParses(s[0], EscapeString(s[1..]) + "\"" + x);
      StringRoundTrip(s[1..], x);
      assert [s[0]] + s[1..] == s;
    }
  }

  // Numbers

  lemma {:induction false} NatTextDigits(n: nat)
    ensures forall i :: 0 <= i < |NatText(n)| ==> IsDigit(NatText(n)[i])
    ensures DigitsValue(NatText(n)) == n
    ensures NatText(n)[0] == '0' ==> n == 0 && NatText(n) == "0"
  {
    if n >= 10 {
      NatTextDigits(n / 10);
      var t := NatText(n);
      assert t[..|t| - 1] == NatText(n / 10);
    }
  }

  lemma {:induction false} SpanAllDigits(ds: string, rest: string)
    requires forall i :: 0 <= i < |ds| ==> IsDigit(ds[i])
    requires rest == [] || !IsDigit(rest[0])
    ensures SpanDigits(ds + rest) == (ds, rest)
  {
    if |ds| == 0 {
      assert ds + rest == rest;
    } else {
      var s := ds + rest;
      assert s[0] == ds[0] && IsDigit(s[0]);
      assert s[1..] == ds[1..] + rest;
      SpanAllDigits(ds[1..], rest);
      assert SpanDigits(s) == ([s[0]] + SpanDigits(s[1..]).0, SpanDigits(s[1..]).1);
      assert [ds[0]] + ds[1..] == ds;
    }
  }

  /** A digit string without a superfluous leading zero, followed by a delimiter, is split off whole. */
  lemma DigitsSplit(d: string, rest: string)
    requires |d| > 0 && forall i :: 0 <= i < |d| ==> IsDigit(d[i])
    requires d[0] == '0' ==> d == "0"
    requires Delimited(rest)
    ensures var t := d + rest;
      |t| > 0 && t[0] == d[0]
      && (if t[0] == '0' then ("0", t[1..]) else SpanDigits(t)) == (d, rest)
      && !FloatFollows(rest)
  {
    var t := d + rest;
    assert t[0] == d[0];
    if d[0] == '0' {
      assert t[1..] == rest;
    } else {
      SpanAllDigits(d, rest);
    }
  }

  /** `ParseNumber` read step by step: sign, integer part, no fraction or exponent. */
  lemma NumberParsesFrom(s: string, neg: bool, t: string, d: string, rest: string)
    requires neg == (|s| > 0 && s[0] == '-')
    requires t == if neg then s[1..] else s
    requires t == d + rest
    requires |d| > 0 && forall i :: 0 <= i < |d| ==> IsDigit(d[i])
    requires |t| > 0 && t[0] == d[0]
    requires (if t[0] == '0' then ("0", t[1..]) else SpanDigits(t)) == (d, rest)
    requires !FloatFollows(rest)
    ensures ParseNumber(s) == Success((Int(if neg then -(DigitsValue(d) as int) else DigitsValue(d)), rest))
  {
  }

  lemma IntRoundTrip(i: int, rest: string)
    requires Delimited(rest)
    ensures ParseNumber(IntText(i) + rest) == Success((Int(i), rest))
  {
    var n: nat := if i < 0 then -i else i;
    var d := NatText(n);
    NatTextDigits(n);
    SignedTextShape(i < 0, d, rest);
    DigitsSplit(d, rest);
    SignShape(i < 0, d + rest);
    NumberParsesFrom((if i < 0 then "-" else "") + (d + rest), i < 0, d + rest, d, rest);
  }

  // Scalars

  /** The text of a scalar starts with a character that is neither whitespace nor `{`. */
  lemma ScalarTextStart(v: Value)
    requires IsScalar(v)
    ensures |Dumps(v)| > 0 && !IsWs(Dumps(v)[0]) && Dumps(v)[0] != '{' && Dumps(v)[0] != '\U{FEFF}'
  {
    if v.Int? {
      NatTextDigits(if v.i < 0 then -v.i else v.i);
    }
  }

  lemma LiteralParses(v: Value, rest: string)
    requires v == Null || v.Bool?
    ensures ParseScalar(Dumps(v) + rest) == Success((v, rest))
  {
    var lit := Dumps(v);
    var s := lit + rest;
    PrefixOfConcat(lit, rest);
    assert s[0] == lit[0];
    if v == Bool(false) {
      NotPrefixAt("null", s, 0);
      NotPrefixAt("true", s, 0);
    } else if v == Bool(true) {
      NotPrefixAt("null", s, 0);
    }
  }

  /** Text starting like a number is read by `ParseNumber`. */
  lemma NumberDispatch(s: string)
    requires |s| > 0 && (IsDigit(s[0]) || (s[0] == '-' && |s| > 1 && IsDigit(s[1])))
    ensures ParseScalar(s) == ParseNumber(s)
  {
    NotPrefixAt("null", s, 0);
    NotPrefixAt("true", s, 0);
    NotPrefixAt("false", s, 0);
    NotPrefixAt("NaN", s, 0);
    NotPrefixAt("Infinity", s, 0);
    if s[0] == '-' {
      NotPrefixAt("-Infinity", s, 1);
    } else {
      NotPrefixAt("-Infinity", s, 0);
    }
  }

  lemma NumberTextStart(i: int, rest: string)
    ensures var s := IntText(i) + rest;
      |s| > 0 && (IsDigit(s[0]) || (s[0] == '-' && |s| > 1 && IsDigit(s[1])))
  {
    var n: nat := if i < 0 then -i else i;
    NatTextDigits(n);
    SignedTextShape(i < 0, NatText(n), rest);
  }

  lemma NumberParses(i: int, rest: string)
    requires Delimited(rest)
    ensures ParseScalar(IntText(i) + rest) == Success((Int(i), rest))
  {
    IntRoundTrip(i, rest);
    NumberTextStart(i, rest);
    NumberDispatch(IntText(i) + rest);
  }

  lemma StringParses(str: string, rest: string)
    ensures ParseScalar(Quote(str) + rest) == Success((Str(str), rest))
  {
    QuotedShape(EscapeString(str), rest);
    StringRoundTrip(str, rest);
  }

  lemma ScalarRoundTrip(v: Value, rest: string)
    requires IsScalar(v) && Delimited(rest)
    ensures ParseScalar(Dumps(v) + rest) == Success((v, rest))
  {
    match v
    case Null => LiteralParses(v, rest);
    case Bool(_) => LiteralParses(v, rest);
    case Int(i) => NumberParses(i, rest);
    case Str(str) => StringParses(str, rest);
  }

  // Flat objects

  /** Member `i` and those after it, as the parser sees them once the separator before it has been read. */
  function MemberFrom(o: Value, i: nat, tail: string): string
    requires o.Obj? && i < |o.fields|
  {
    MemberText(o, i) + MoreMembers(o, i + 1) + "}" + tail
  }

  /** What follows a member's value: `}` and the tail, or `, ` and the next member. */
  lemma AfterValueShape(o: Value, i: nat, tail: string)
    requires o.Obj? && i < |o.fields|
    ensures var r := MoreMembers(o, i + 1) + "}" + tail;
      |r| > 0
      && (i + 1 == |o.fields| ==> r[0] == '}' && r[1..] == tail)
      && (i + 1 < |o.fields| ==> r[0] == ',' && r[1..] == " " + MemberFrom(o, i + 1, tail))
  {
    if i + 1 < |o.fields| {
      CommaShape(MemberText(o, i + 1), MoreMembers(o, i + 2), tail);
    } else {
      CloseShape(tail);
    }
  }

  /** One member read by `ParseMembers`, given what its key and value read as. */
  lemma MemberStep(x: string, acc: Dict, k: string, y: string, v: Value, r: string)
    requires ParseStringBody(x) == Success((k, y))
    requires |y| > 0 && y[0] == ':' && SkipWs(y) == y
    requires ParseScalar(SkipWs(y[1..])) == Success((v, r))
    requires |r| > 0 && (r[0] == '}' || r[0] == ',') && SkipWs(r) == r
    ensures r[0] == '}' ==> ParseMembers(x, acc) == Success((Obj(Put(acc, k, v)), r[1..]))
    ensures r[0] == ',' ==>
      ParseMembers(x, acc) ==
        var w := SkipWs(r[1..]);
        if |w| == 0 || w[0] != '"' then Failure(JsonDecodeError("Expecting property name enclosed in double quotes"))
        else ParseMembers(w[1..], Put(acc, k, v))
  {
  }

  lemma FreshKeyAppends(fs: Dict, i: nat)
    requires i < |fs| && UniqueKeys(fs)
    ensures Put(fs[..i], fs[i].0, fs[i].1) == fs[..i + 1]
  {
    assert !HasKey(fs[..i], fs[i].0) by {
      forall j | 0 <= j < i ensures fs[..i][j].0 != fs[i].0 {
        assert fs[..i][j] == fs[j];
      }
    }
    assert fs[..i] + [fs[i]] == fs[..i + 1];
  }

  /** The key and the value of member `i` read back, up to the `,` or `}` after it. */
  lemma KeyValueReads(o: Value, i: nat, x: string, tail: string)
    requires Flat(o) && o.Obj? && i < |o.fields|
    requires "\"" + x == MemberFrom(o, i, tail)
    ensures var r := MoreMembers(o, i + 1) + "}" + tail;
      var y := ": " + (Dumps(o.fields[i].1) + r);
      && ParseStringBody(x) == Success((o.fields[i].0, y))
      && |y| > 0 && y[0] == ':' && SkipWs(y) == y
      && ParseScalar(SkipWs(y[1..])) == Success((o.fields[i].1, r))
      && |r| > 0 && (r[0] == '}' || r[0] == ',') && SkipWs(r) == r
  {
    var fs := o.fields;
    var k, v := fs[i].0, fs[i].1;
    var d := Dumps(v);
    var r := MoreMembers(o, i + 1) + "}" + tail;
    var y := ": " + (d + r);
    assert IsScalar(v);
    MemberShape(EscapeString(k), d, MoreMembers(o, i + 1), x, tail);
    StringRoundTrip(k, y);
    ColonShape(d + r);
    SkipWsStops(y);
    ScalarTextStart(v);
    SkipWsOneSpace(d + r);
    AfterValueShape(o, i, tail);
    ScalarRoundTrip(v, r);
    SkipWsStops(r);
  }

  /** The last member read by `ParseMembers`: the dict is complete. */
  lemma LastMemberReads(o: Value, i: nat, x: string, tail: string)
    requires Flat(o) && o.Obj? && i + 1 == |o.fields|
    requires "\"" + x == MemberFrom(o, i, tail)
    ensures ParseMembers(x, o.fields[..i]) == Success((o, tail))
  {
    var fs := o.fields;
    var r := MoreMembers(o, i + 1) + "}" + tail;
    var y := ": " + (Dumps(fs[i].1) + r);
    KeyValueReads(o, i, x, tail);
    AfterValueShape(o, i, tail);
    assert r[0] == '}';
    MemberStep(x, fs[..i], fs[i].0, y, fs[i].1, r);
    FreshKeyAppends(fs, i);
    assert fs[..i + 1] == fs;
  }

  /** After a member other than the last come `,`, one space and the next member's opening quote. */
  lemma NextMemberStart(o: Value, i: nat, tail: string)
    requires o.Obj? && i + 1 < |o.fields|
    ensures var r := MoreMembers(o, i + 1) + "}" + tail;
      var w := MemberFrom(o, i + 1, tail);
      |r| > 0 && r[0] == ',' && |w| > 0 && w[0] == '"' && "\"" + w[1..] == w && SkipWs(r[1..]) == w
  {
    var w := MemberFrom(o, i + 1, tail);
    AfterValueShape(o, i, tail);
    MemberStartShape(EscapeString(o.fields[i + 1].0), Dumps(o.fields[i + 1].1), MoreMembers(o, i + 2) + "}" + tail);
    SkipWsOneSpace(w);
  }

  /** A member other than the last read by `ParseMembers`: reading goes on at member `i + 1`. */
  lemma NextMemberReads(o: Value, i: nat, x: string, tail: string)
    requires Flat(o) && o.Obj? && i + 1 < |o.fields|
    requires "\"" + x == MemberFrom(o, i, tail)
    ensures var w := MemberFrom(o, i + 1, tail);
      |w| > 0 && "\"" + w[1..] == w && ParseMembers(x, o.fields[..i]) == ParseMembers(w[1..], o.fields[..i + 1])
  {
    var fs := o.fields;
    var r := MoreMembers(o, i + 1) + "}" + tail;
    var y := ": " + (Dumps(fs[i].1) + r);
    KeyValueReads(o, i, x, tail);
    NextMemberStart(o, i, tail);
    MemberStep(x, fs[..i], fs[i].0, y, fs[i].1, r);
    FreshKeyAppends(fs, i);
  }

  /** From member `i` on, `ParseMembers` reads the rest of the dict back. */
  lemma {:induction false} MembersRoundTrip(o: Value, i: nat, x: string, tail: string)
    requires Flat(o) && o.Obj? && i < |o.fields|
    requires "\"" + x == MemberFrom(o, i, tail)
    ensures ParseMembers(x, o.fields[..i]) == Success((o, tail))
    decreases |o.fields| - i
  {
    if i + 1 < |o.fields| {
      NextMemberReads(o, i, x, tail);
      var w := MemberFrom(o, i + 1, tail);
      MembersRoundTrip(o, i + 1, w[1..], tail);
    } else {
      LastMemberReads(o, i, x, tail);
    }
  }

  lemma ObjectOrScalarStart(v: Value)
    requires Flat(v)
    ensures |Dumps(v)| > 0 && !IsWs(Dumps(v)[0]) && Dumps(v)[0] != '\U{FEFF}'
    ensures Dumps(v)[0] == '{' <==> v.Obj?
  {
    if IsScalar(v) {
      ScalarTextStart(v);
    }
  }

  lemma LoadsDumpsScalar(v: Value)
    requires IsScalar(v)
    ensures Loads(Dumps(v)) == Success(v)
  {
    ScalarTextStart(v);
    SkipWsStops(Dumps(v));
    ScalarRoundTrip(v, "");
    EmptyLeft(Dumps(v));
  }

  /** `json.loads` of text that opens with `{` is the object `ParseObject` reads after it. */
  lemma LoadsObjectText(s: string, v: Value)
    requires |s| > 0 && s[0] == '{' && ParseObject(s[1..]) == Success((v, ""))
    ensures Loads(s) == Success(v)
  {
    SkipWsStops(s);
  }

  /** `ParseObject` of a non-empty member list hands it to `ParseMembers` after the first quote. */
  lemma ParseObjectMembers(t: string)
    requires |t| > 0 && t[0] == '"'
    ensures ParseObject(t) == ParseMembers(t[1..], [])
  {
    SkipWsStops(t);
  }

  lemma LoadsDumpsObject(v: Value)
    requires Flat(v) && v.Obj? && |v.fields| > 0
    ensures Loads(Dumps(v)) == Success(v)
  {
    var inner := MemberText(v, 0) + MoreMembers(v, 1);
    assert Dumps(v) == "{" + inner + "}";
    BraceShape(inner);
    var t := inner + "}" + "";
    assert t == MemberFrom(v, 0, "");
    MemberStartShape(EscapeString(v.fields[0].0), Dumps(v.fields[0].1), MoreMembers(v, 1) + "}" + "");
    MembersRoundTrip(v, 0, t[1..], "");
    assert v.fields[..0] == [];
    ParseObjectMembers(t);
    LoadsObjectText(Dumps(v), v);
  }

  /** `json.loads(json.dumps(v)) == v` for every scalar and every flat dict. */
  lemma LoadsDumps(v: Value)
    requires Flat(v)
    ensures Loads(Dumps(v)) == Success(v)
  {
    if IsScalar(v) {
      LoadsDumpsScalar(v);
    } else if |v.fields| == 0 {
      BraceShape("");
      SkipWsStops("{}");
      SkipWsStops("}");
    } else {
      LoadsDumpsObject(v);
    }
  }
}
