/**
 * UTF-8 as Python's `str.encode()` and strict `bytes.decode()` use it.
 * A Dafny `char` is a Unicode scalar value, so every string encodes.
 */
module Utf8 {
  import opened Results

  newtype byte = b: int | 0 <= b < 256

  predicate IsCont(b: byte) {
    0x80 <= b <= 0xBF
  }

  /** The one to four bytes of one character. */
  function EncodeChar(c: char): (r: seq<byte>)
    ensures 1 <= |r| <= 4
  {
    var n := c as int;
    if n < 0x80 then [n as byte]
    else if n < 0x800 then [(0xC0 + n / 64) as byte, (0x80 + n % 64) as byte]
    else if n < 0x10000 then
      [(0xE0 + n / 4096) as byte, (0x80 + (n / 64) % 64) as byte, (0x80 + n % 64) as byte]
    else
      [(0xF0 + n / 262144) as byte, (0x80 + (n / 4096) % 64) as byte,
       (0x80 + (n / 64) % 64) as byte, (0x80 + n % 64) as byte]
  }

  /** `s.encode()`. */
  function Encode(s: string): (r: seq<byte>)
    ensures |r| >= |s|
  {
    if |s| == 0 then [] else EncodeChar(s[0]) + Encode(s[1..])
  }

  /**
   * One character at the head of `b`: the shortest form only, no surrogates,
   * nothing above U+10FFFF; the second byte's range depends on the first.
   */
  function DecodeChar(b: seq<byte>): (r: Result<(char, nat)>)
    requires |b| > 0
    ensures r.Success? ==> 1 <= r.value.1 <= |b|
  {
    var b0 := b[0] as int;
    if b0 < 0x80 then Success((b0 as char, 1))
    else if b0 < 0xC2 || b0 > 0xF4 then Failure(UnicodeDecodeError)
    else if b0 < 0xE0 then
      if |b| < 2 || !IsCont(b[1]) then Failure(UnicodeDecodeError)
      else Success((((b0 - 0xC0) * 64 + (b[1] as int - 0x80)) as char, 2))
    else if b0 < 0xF0 then
      var lo := if b0 == 0xE0 then 0xA0 else 0x80;
      var hi := if b0 == 0xED then 0x9F else 0xBF;
      if |b| < 3 || !(lo <= b[1] as int <= hi) || !IsCont(b[2]) then Failure(UnicodeDecodeError)
      else Success((((b0 - 0xE0) * 4096 + (b[1] as int - 0x80) * 64 + (b[2] as int - 0x80)) as char, 3))
    else
      var lo := if b0 == 0xF0 then 0x90 else 0x80;
      var hi := if b0 == 0xF4 then 0x8F else 0xBF;
      if |b| < 4 || !(lo <= b[1] as int <= hi) || !IsCont(b[2]) || !IsCont(b[3]) then Failure(UnicodeDecodeError)
      else
        var n := (b0 - 0xF0) * 262144 + (b[1] as int - 0x80) * 4096 + (b[2] as int - 0x80) * 64 + (b[3] as int - 0x80);
        Success((n as char, 4))
  }

  /** `b.decode()` with the default strict error handler. */
  function Decode(b: seq<byte>): Result<string>
    decreases |b|
  {
    if |b| == 0 then Success("")
    else
      var h :- DecodeChar(b);
      var t :- Decode(b[h.1..]);
      Success([h.0] + t)
  }

  /** How the bytes of a character split its code point into six-bit groups. */
  lemma SixBitGroups(n: int)
    requires 0 <= n < 0x110000
    ensures n == (n / 64) * 64 + n % 64
    ensures n / 64 == (n / 4096) * 64 + (n / 64) % 64
    ensures n / 4096 == (n / 262144) * 64 + (n / 4096) % 64
  {
    var q1, r1 := n / 64, n % 64;
    var q2, r2 := q1 / 64, q1 % 64;
    assert n == 4096 * q2 + 64 * r2 + r1;
    assert n / 4096 == q2;
  }

  lemma DecodeEncodeTwo(c: char, rest: seq<byte>)
    requires 0x80 <= c as int < 0x800
    ensures DecodeChar(EncodeChar(c) + rest) == Success((c, 2))
  {
    var n := c as int;
    var b := EncodeChar(c) + rest;
    assert b[0] as int == 0xC0 + n / 64 && b[1] as int == 0x80 + n % 64;
  }

  lemma DecodeEncodeThree(c: char, rest: seq<byte>)
    requires 0x800 <= c as int < 0x10000
    ensures DecodeChar(EncodeChar(c) + rest) == Success((c, 3))
  {
    var n := c as int;
    var b := EncodeChar(c) + rest;
    SixBitGroups(n);
    var x, y, z := n / 4096, (n / 64) % 64, n % 64;
    assert n == x * 4096 + y * 64 + z;
    assert b[0] as int == 0xE0 + x && b[1] as int == 0x80 + y && b[2] as int == 0x80 + z;
    assert x == 0 ==> y >= 0x20;
    assert x == 13 ==> y < 0x20;
  }

  lemma DecodeEncodeFour(c: char, rest: seq<byte>)
    requires 0x10000 <= c as int
    ensures DecodeChar(EncodeChar(c) + rest) == Success((c, 4))
  {
    var n := c as int;
    var b := EncodeChar(c) + rest;
    SixBitGroups(n);
    var w, x, y, z := n / 262144, (n / 4096) % 64, (n / 64) % 64, n % 64;
    assert n == w * 262144 + x * 4096 + y * 64 + z;
    assert b[0] as int == 0xF0 + w && b[1] as int == 0x80 + x;
    assert b[2] as int == 0x80 + y && b[3] as int == 0x80 + z;
    assert w == 0 ==> x >= 0x10;
    assert w == 4 ==> x < 0x10;
  }

  /** Each character's bytes decode back to that character and nothing more. */
  lemma DecodeEncodeChar(c: char, rest: seq<byte>)
    ensures var e := EncodeChar(c);
      DecodeChar(e + rest) == Success((c, |e|))
  {
    var n := c as int;
    if n < 0x80 {
    } else if n < 0x800 {
      DecodeEncodeTwo(c, rest);
    } else if n < 0x10000 {
      DecodeEncodeThree(c, rest);
    } else {
      DecodeEncodeFour(c, rest);
    }
  }

  /** `s.encode().decode() == s` for every string. */
  lemma {:induction false} DecodeEncode(s: string)
    ensures Decode(Encode(s)) == Success(s)
  {
    if |s| > 0 {
      var e := EncodeChar(s[0]);
      DecodeEncodeChar(s[0], Encode(s[1..]));
      assert (e + Encode(s[1..]))[|e|..] == Encode(s[1..]);
      DecodeEncode(s[1..]);
      assert [s[0]] + s[1..] == s;
    }
  }
}
