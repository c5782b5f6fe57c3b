/**
 * UTF-8 encoding of strings (Python's `str.encode("utf-8")`), as defined in
 * section 3 of RFC 3629, with a decoder that rejects overlong forms,
 * surrogates and truncated sequences.
 */
module Utf8 {
  import opened Common

  predicate IsScalar(n: int) {
    (0 <= n < 0xD800) || (0xE000 <= n < 0x11_0000)
  }

  /** The one to four octets encoding one character. */
  function EncodeChar(c: char): (bs: seq<byte>)
    ensures 1 <= |bs| <= 4
  {
    var n := c as int;
    if n < 0x80 then [n]
    else if n < 0x800 then [0xC0 + n / 64, 0x80 + n % 64]
    else if n < 0x1_0000 then [0xE0 + n / 4096, 0x80 + (n / 64) % 64, 0x80 + n % 64]
    else [0xF0 + n / 262144, 0x80 + (n / 4096) % 64, 0x80 + (n / 64) % 64, 0x80 + n % 64]
  }

  function Encode(s: string): (bs: seq<byte>)
    ensures |bs| >= |s|
  {
    if |s| == 0 then [] else EncodeChar(s[0]) + Encode(s[1..])
  }

  predicate IsContinuation(b: byte) {
    0x80 <= b < 0xC0
  }

  /** The character and the number of octets it takes at the front of `bs`, if `bs` starts with a well-formed sequence. */
  function DecodeCharPrefix(bs: seq<byte>): (r: Option<(char, nat)>)
    ensures r.Some? ==> 1 <= r.value.1 <= |bs| && r.value.1 <= 4
  {
    if |bs| == 0 then None
    else if bs[0] < 0x80 then Some((bs[0] as char, 1))
    else if 0xC0 <= bs[0] < 0xE0 && |bs| >= 2 && IsContinuation(bs[1]) then
      var n := (bs[0] as int - 0xC0) * 64 + (bs[1] - 0x80);
      if n >= 0x80 then Some((n as char, 2)) else None
    else if 0xE0 <= bs[0] < 0xF0 && |bs| >= 3 && IsContinuation(bs[1]) && IsContinuation(bs[2]) then
      var n := (bs[0] as int - 0xE0) * 4096 + (bs[1] as int - 0x80) * 64 + (bs[2] - 0x80);
      if n >= 0x800 && IsScalar(n) then Some((n as char, 3)) else None
    else if 0xF0 <= bs[0] < 0xF8 && |bs| >= 4 && IsContinuation(bs[1]) && IsContinuation(bs[2]) && IsContinuation(bs[3]) then
      var n := (bs[0] as int - 0xF0) * 262144 + (bs[1] as int - 0x80) * 4096 + (bs[2] as int - 0x80) * 64 + (bs[3] - 0x80);
      if 0x1_0000 <= n < 0x11_0000 then Some((n as char, 4)) else None
    else None
  }

  /** Strict decoding (Python's `bytes.decode("utf-8")`); None where that raises. */
  function Decode(bs: seq<byte>): (r: Option<string>)
    decreases |bs|
  {
    if |bs| == 0 then Some("")
    else match DecodeCharPrefix(bs)
      case None => None
      case Some((c, k)) =>
        match Decode(bs[k..])
        case None => None
        case Some(rest) => Some([c] + rest)
  }

  lemma DecodeTwoOctets(c: char, tail: seq<byte>)
    requires 0x80 <= c as int < 0x800
    ensures DecodeCharPrefix(EncodeChar(c) + tail) == Some((c, 2))
  {
    var n := c as int;
    var bs := EncodeChar(c) + tail;
    assert bs[0] == 0xC0 + n / 64 && bs[1] == 0x80 + n % 64;
  }

  lemma DecodeThreeOctets(c: char, tail: seq<byte>)
    requires 0x800 <= c as int < 0x1_0000
    ensures DecodeCharPrefix(EncodeChar(c) + tail) == Some((c, 3))
  {
    var n := c as int;
    var bs := EncodeChar(c) + tail;
    assert bs[0] == 0xE0 + n / 4096 && bs[1] == 0x80 + (n / 64) % 64 && bs[2] == 0x80 + n % 64;
    assert (n / 4096) * 4096 + ((n / 64) % 64) * 64 + n % 64 == n;
  }

  /** The four base-64 digits of a code point above U+FFFF, the leading one at most 4. */
  lemma FourDigits(n: int)
    requires 0x1_0000 <= n < 0x11_0000
    ensures 0 <= n / 262144 <= 4 && 0 <= (n / 4096) % 64 < 64 && 0 <= (n / 64) % 64 < 64 && 0 <= n % 64 < 64
    ensures (n / 262144) * 262144 + ((n / 4096) % 64) * 4096 + ((n / 64) % 64) * 64 + n % 64 == n
  {
    assert n / 64 / 64 == n / 4096;
    assert n / 4096 / 64 == n / 262144;
    assert n == (n / 64) * 64 + n % 64;
    assert n / 64 == (n / 4096) * 64 + (n / 64) % 64;
    assert n / 4096 == (n / 262144) * 64 + (n / 4096) % 64;
  }

  lemma DecodeFourOctets(c: char, tail: seq<byte>)
    requires 0x1_0000 <= c as int
    ensures DecodeCharPrefix(EncodeChar(c) + tail) == Some((c, 4))
  {
    var n := c as int;
    FourDigits(n);
    var d0, d1, d2, d3 := n / 262144, (n / 4096) % 64, (n / 64) % 64, n % 64;
    var bs := EncodeChar(c) + tail;
    assert bs[0] == 0xF0 + d0 && bs[1] == 0x80 + d1;
    assert bs[2] == 0x80 + d2 && bs[3] == 0x80 + d3;
  }

  /** The encoding of one character, followed by anything, decodes back to that character. */
  lemma DecodeCharEncodeChar(c: char, tail: seq<byte>)
    ensures DecodeCharPrefix(EncodeChar(c) + tail) == Some((c, |EncodeChar(c)|))
  {
    var n := c as int;
    if n < 0x80 {
    } else if n < 0x800 {
      DecodeTwoOctets(c, tail);
    } else if n < 0x1_0000 {
      DecodeThreeOctets(c, tail);
    } else {
      DecodeFourOctets(c, tail);
    }
  }

  /** Decoding the encoding of any string gives it back. */
  lemma {:induction false} DecodeEncode(s: string)
    ensures Decode(Encode(s)) == Some(s)
  {
    if |s| > 0 {
      var bs := Encode(s);
      DecodeCharEncodeChar(s[0], Encode(s[1..]));
      assert bs[|EncodeChar(s[0])|..] == Encode(s[1..]);
      DecodeEncode(s[1..]);
      assert s == [s[0]] + s[1..];
    }
  }

  /** Encoding is injective: distinct strings never share an encoding. */
  lemma EncodeInjective(s: string, t: string)
    requires Encode(s) == Encode(t)
    ensures s == t
  {
    DecodeEncode(s);
    DecodeEncode(t);
  }
}
