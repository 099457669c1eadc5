/**
 * Base64 with the standard alphabet and `=` padding (section 4 of RFC 4648):
 * Python's `base64.b64encode`, and `base64.b64decode` of a `str` without
 * `validate`, which CPython implements as the lenient `binascii.a2b_base64`
 * state machine modelled by `A2b`.
 */
module Base64 {
  import opened Results
  import opened Utf8

  predicate IsAlphabetChar(c: char) {
    'A' <= c <= 'Z' || 'a' <= c <= 'z' || '0' <= c <= '9' || c == '+' || c == '/'
  }

  predicate IsAscii(s: string) {
    forall i :: 0 <= i < |s| ==> s[i] as int < 128
  }

  /** The character that stands for the six bits `n`. */
  function Sextet(n: int): (c: char)
    requires 0 <= n < 64
    ensures IsAlphabetChar(c)
  {
    if n < 26 then ('A' as int + n) as char
    else if n < 52 then ('a' as int + n - 26) as char
    else if n < 62 then ('0' as int + n - 52) as char
    else if n == 62 then '+'
    else '/'
  }

  /** The six bits a character stands for, or -1 for a character outside the alphabet. */
  function SextetValue(c: char): (r: int)
    ensures -1 <= r < 64
    ensures r >= 0 <==> IsAlphabetChar(c)
  {
    if 'A' <= c <= 'Z' then c as int - 'A' as int
    else if 'a' <= c <= 'z' then c as int - 'a' as int + 26
    else if '0' <= c <= '9' then c as int - '0' as int + 52
    else if c == '+' then 62
    else if c == '/' then 63
    else -1
  }

  lemma SextetRoundTrip(n: int)
    requires 0 <= n < 64
    ensures SextetValue(Sextet(n)) == n
  {
  }

  /** Four characters for the three bytes `x, y, z`. */
  function Quad(x: int, y: int, z: int): (r: string)
    requires 0 <= x < 256 && 0 <= y < 256 && 0 <= z < 256
  {
    [Sextet(x / 4), Sextet((x % 4) * 16 + y / 16), Sextet((y % 16) * 4 + z / 64), Sextet(z % 64)]
  }

  /** `base64.b64encode(b).decode()`: each three bytes become four characters, the last group padded with `=`. */
  function Encode(b: seq<byte>): (r: string)
    ensures |r| == 4 * ((|b| + 2) / 3)
    decreases |b|
  {
    if |b| == 0 then ""
    else
      var x := b[0] as int;
      if |b| == 1 then [Sextet(x / 4), Sextet((x % 4) * 16), '=', '=']
      else
        var y := b[1] as int;
        if |b| == 2 then [Sextet(x / 4), Sextet((x % 4) * 16 + y / 16), Sextet((y % 16) * 4), '=']
        else Quad(x, y, b[2] as int) + Encode(b[3..])
  }

  /** The output uses only the alphabet, with `=` padding in the last two places at most. */
  lemma {:induction false} EncodeAlphabet(b: seq<byte>)
    ensures var r := Encode(b);
      forall i :: 0 <= i < |r| ==> IsAlphabetChar(r[i]) || (r[i] == '=' && i >= |r| - 2)
    decreases |b|
  {
    if |b| >= 3 {
      var r := Encode(b);
      var q := Quad(b[0] as int, b[1] as int, b[2] as int);
      EncodeAlphabet(b[3..]);
      forall i | 0 <= i < |r| ensures IsAlphabetChar(r[i]) || (r[i] == '=' && i >= |r| - 2) {
        if i >= 4 {
          assert r[i] == Encode(b[3..])[i - 4];
        }
      }
    }
  }

  /** Standard base64 text: a multiple of four long, alphabet characters, `=` only in the last two places. */
  predicate IsStandard(r: string) {
    && |r| % 4 == 0
    && forall i :: 0 <= i < |r| ==> IsAlphabetChar(r[i]) || (r[i] == '=' && i >= |r| - 2)
  }

  /** Every output of `Encode` is standard base64. */
  lemma EncodeIsStandard(b: seq<byte>)
    ensures IsStandard(Encode(b))
  {
    EncodeAlphabet(b);
    var r := Encode(b);
    FourDivides(|r|, (|b| + 2) / 3);
  }

  lemma FourDivides(m: int, n: int)
    requires m == 4 * n
    ensures m % 4 == 0
  {
  }

  /**
   * `binascii.a2b_base64` without strict mode. `q` is the position within the
   * current quad, `left` the bits not yet emitted and `pads` the `=` seen since
   * the last data character. Characters outside the alphabet are skipped; an
   * `=` at quad position 2 or 3 that completes the quad ends decoding; an
   * unfinished quad at the end of the text is an error.
   */
  function A2b(s: string, q: nat, left: int, pads: nat, out: seq<byte>): (r: Result<seq<byte>>)
    requires q < 4
    requires q == 0 ==> left == 0
    requires q == 1 ==> 0 <= left < 64
    requires q == 2 ==> 0 <= left < 16
    requires q == 3 ==> 0 <= left < 4
    decreases |s|
  {
    if |s| == 0 then
      if q == 0 then Success(out)
      else if q == 1 then Failure(Base64Error("Invalid base64-encoded string: number of data characters cannot be 1 more than a multiple of 4"))
      else Failure(Base64Error("Incorrect padding"))
    else if s[0] == '=' then
      if q >= 2 && q + pads + 1 >= 4 then Success(out)
      else A2b(s[1..], q, left, if q >= 2 then pads + 1 else pads, out)
    else
      var v := SextetValue(s[0]);
      if v < 0 then A2b(s[1..], q, left, pads, out)
      else if q == 0 then A2b(s[1..], 1, v, 0, out)
      else if q == 1 then A2b(s[1..], 2, v % 16, 0, out + [(left * 4 + v / 16) as byte])
      else if q == 2 then A2b(s[1..], 3, v % 4, 0, out + [(left * 16 + v / 4) as byte])
      else A2b(s[1..], 0, 0, 0, out + [(left * 64 + v) as byte])
  }

  /** `base64.b64decode(s)` for a `str` argument: it must be ASCII, then `a2b_base64`. */
  function Decode(s: string): (r: Result<seq<byte>>)
    ensures !IsAscii(s) ==> r.Failure? && r.error.ValueError?
  {
    if !IsAscii(s) then Failure(ValueError("string argument should contain only ASCII characters"))
    else A2b(s, 0, 0, 0, [])
  }

  /** The quad position, the bits kept back and the output after one data character worth `v`. */
  function Feed(q: nat, left: int, v: int, out: seq<byte>): (r: (nat, int, seq<byte>))
    requires q < 4 && 0 <= v < 64
    requires q == 0 ==> left == 0
    requires q == 1 ==> 0 <= left < 64
    requires q == 2 ==> 0 <= left < 16
    requires q == 3 ==> 0 <= left < 4
  {
    if q == 0 then (1, v, out)
    else if q == 1 then (2, v % 16, out + [(left * 4 + v / 16) as byte])
    else if q == 2 then (3, v % 4, out + [(left * 16 + v / 4) as byte])
    else (0, 0, out + [(left * 64 + v) as byte])
  }

  lemma A2bData(c: char, s: string, q: nat, left: int, pads: nat, out: seq<byte>)
    requires q < 4
    requires q == 0 ==> left == 0
    requires q == 1 ==> 0 <= left < 64
    requires q == 2 ==> 0 <= left < 16
    requires q == 3 ==> 0 <= left < 4
    requires IsAlphabetChar(c)
    ensures var f := Feed(q, left, SextetValue(c), out);
      A2b([c] + s, q, left, pads, out) == A2b(s, f.0, f.1, 0, f.2)
  {
    assert ([c] + s)[1..] == s;
  }

  lemma A2bPad(s: string, q: nat, left: int, pads: nat, out: seq<byte>)
    requires 2 <= q < 4
    requires q == 2 ==> 0 <= left < 16
    requires q == 3 ==> 0 <= left < 4
    ensures q + pads + 1 >= 4 ==> A2b("=" + s, q, left, pads, out) == Success(out)
    ensures q + pads + 1 < 4 ==> A2b("=" + s, q, left, pads, out) == A2b(s, q, left, pads + 1, out)
  {
    assert ("=" + s)[1..] == s;
  }

  /** The bit arithmetic of one group: the four sextets of `x, y, z` put back together. */
  lemma GroupBits(x: int, y: int, z: int)
    requires 0 <= x < 256 && 0 <= y < 256 && 0 <= z < 256
    ensures (x / 4) * 4 + ((x % 4) * 16 + y / 16) / 16 == x
    ensures (((x % 4) * 16 + y / 16) % 16) * 16 + ((y % 16) * 4 + z / 64) / 4 == y
    ensures (((y % 16) * 4 + z / 64) % 4) * 64 + z % 64 == z
  {
  }

  /** Four data characters decode to the three bytes they carry. */
  lemma A2bQuad(c0: int, c1: int, c2: int, c3: int, rest: string, out: seq<byte>)
    requires 0 <= c0 < 64 && 0 <= c1 < 64 && 0 <= c2 < 64 && 0 <= c3 < 64
    ensures A2b([Sextet(c0), Sextet(c1), Sextet(c2), Sextet(c3)] + rest, 0, 0, 0, out)
      == A2b(rest, 0, 0, 0, out + [(c0 * 4 + c1 / 16) as byte, ((c1 % 16) * 16 + c2 / 4) as byte, ((c2 % 4) * 64 + c3) as byte])
  {
    SextetRoundTrip(c0);
    SextetRoundTrip(c1);
    SextetRoundTrip(c2);
    SextetRoundTrip(c3);
    var s3 := [Sextet(c3)] + rest;
    var s2 := [Sextet(c2)] + s3;
    var s1 := [Sextet(c1)] + s2;
    assert [Sextet(c0), Sextet(c1), Sextet(c2), Sextet(c3)] + rest == [Sextet(c0)] + s1;
    var o1 := out + [(c0 * 4 + c1 / 16) as byte];
    var o2 := o1 + [((c1 % 16) * 16 + c2 / 4) as byte];
    var o3 := o2 + [((c2 % 4) * 64 + c3) as byte];
    A2bData(Sextet(c0), s1, 0, 0, 0, out);
    A2bData(Sextet(c1), s2, 1, c0, 0, out);
    A2bData(Sextet(c2), s3, 2, c1 % 16, 0, o1);
    A2bData(Sextet(c3), rest, 3, c2 % 4, 0, o2);
    assert o3 == out + [(c0 * 4 + c1 / 16) as byte, ((c1 % 16) * 16 + c2 / 4) as byte, ((c2 % 4) * 64 + c3) as byte];
  }

  /** Three bytes encode to four characters that decode back to them. */
  lemma A2bFullGroup(b: seq<byte>, rest: string, out: seq<byte>)
    requires |b| >= 3
    ensures A2b(Quad(b[0] as int, b[1] as int, b[2] as int) + rest, 0, 0, 0, out) == A2b(rest, 0, 0, 0, out + b[..3])
  {
    var x, y, z := b[0] as int, b[1] as int, b[2] as int;
    var c0, c1, c2, c3 := x / 4, (x % 4) * 16 + y / 16, (y % 16) * 4 + z / 64, z % 64;
    assert Quad(x, y, z) == [Sextet(c0), Sextet(c1), Sextet(c2), Sextet(c3)];
    A2bQuad(c0, c1, c2, c3, rest, out);
    GroupBits(x, y, z);
    assert c0 * 4 + c1 / 16 == x && (c1 % 16) * 16 + c2 / 4 == y && (c2 % 4) * 64 + c3 == z;
    assert [(c0 * 4 + c1 / 16) as byte, ((c1 % 16) * 16 + c2 / 4) as byte, ((c2 % 4) * 64 + c3) as byte] == b[..3];
  }

  lemma A2bOneByte(b: seq<byte>, out: seq<byte>)
    requires |b| == 1
    ensures A2b(Encode(b), 0, 0, 0, out) == Success(out + b)
  {
    var x := b[0] as int;
    var c0, c1 := x / 4, (x % 4) * 16;
    SextetRoundTrip(c0);
    SextetRoundTrip(c1);
    GroupBits(x, 0, 0);
    assert Encode(b) == [Sextet(c0)] + ([Sextet(c1)] + ("=" + "="));
    A2bData(Sextet(c0), [Sextet(c1)] + ("=" + "="), 0, 0, 0, out);
    A2bData(Sextet(c1), "=" + "=", 1, c0, 0, out);
    A2bPad("=", 2, c1 % 16, 0, out + [x as byte]);
    A2bPad("", 2, c1 % 16, 1, out + [x as byte]);
    assert out + [x as byte] == out + b;
  }

  lemma A2bTwoBytes(b: seq<byte>, out: seq<byte>)
    requires |b| == 2
    ensures A2b(Encode(b), 0, 0, 0, out) == Success(out + b)
  {
    var x, y := b[0] as int, b[1] as int;
    var c0, c1, c2 := x / 4, (x % 4) * 16 + y / 16, (y % 16) * 4;
    SextetRoundTrip(c0);
    SextetRoundTrip(c1);
    SextetRoundTrip(c2);
    GroupBits(x, y, 0);
    assert c0 * 4 + c1 / 16 == x && (c1 % 16) * 16 + c2 / 4 == y;
    var s2 := [Sextet(c2)] + "=";
    var s1 := [Sextet(c1)] + s2;
    assert Encode(b) == [Sextet(c0)] + s1 by {
      assert Encode(b) == [Sextet(c0), Sextet(c1), Sextet(c2), '='];
    }
    var o1 := out + [x as byte];
    var o2 := o1 + [y as byte];
    A2bData(Sextet(c0), s1, 0, 0, 0, out);
    A2bData(Sextet(c1), s2, 1, c0, 0, out);
    A2bData(Sextet(c2), "=", 2, c1 % 16, 0, o1);
    A2bPad("", 3, c2 % 4, 0, o2);
    assert o2 == out + b;
  }

  lemma {:induction false} A2bEncode(b: seq<byte>, out: seq<byte>)
    ensures A2b(Encode(b), 0, 0, 0, out) == Success(out + b)
    decreases |b|
  {
    if |b| == 0 {
      assert out + b == out;
    } else if |b| == 1 {
      A2bOneByte(b, out);
    } else if |b| == 2 {
      A2bTwoBytes(b, out);
    } else {
      A2bFullGroup(b, Encode(b[3..]), out);
      A2bEncode(b[3..], out + b[..3]);
      assert out + b[..3] + b[3..] == out + b;
    }
  }

  lemma EncodeIsAscii(b: seq<byte>)
    ensures IsAscii(Encode(b))
  {
  }

  /** `base64.b64decode(base64.b64encode(b)) == b` for every byte string. */
  lemma DecodeEncode(b: seq<byte>)
    ensures Decode(Encode(b)) == Success(b)
  {
    EncodeIsAscii(b);
    A2bEncode(b, []);
    assert [] + b == b;
  }
}
