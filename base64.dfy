/**
 * Base 64 encoding with the standard alphabet and '=' padding, as defined in
 * section 4 of RFC 4648 (what Python's `base64.b64encode` produces), and a
 * decoder for the strings it produces.
 */
module Base64 {
  import opened Common

  /** A 6-bit group, the index of one alphabet character. */
  type sextet = x: int | 0 <= x < 64

  /** The encoding alphabet of RFC 4648, table 1. */
  function Alphabet(i: sextet): (c: char)
    ensures IsAlphabetChar(c)
  {
    if i < 26 then ('A' as int + i) as char
    else if i < 52 then ('a' as int + (i - 26)) as char
    else if i < 62 then ('0' as int + (i - 52)) as char
    else if i == 62 then '+'
    else '/'
  }

  predicate IsAlphabetChar(c: char) {
    ('A' <= c <= 'Z') || ('a' <= c <= 'z') || ('0' <= c <= '9') || c == '+' || c == '/'
  }

  /** The position of an alphabet character in the alphabet. */
  function IndexOf(c: char): (i: sextet)
    requires IsAlphabetChar(c)
    ensures Alphabet(i) == c
  {
    if 'A' <= c <= 'Z' then c as int - 'A' as int
    else if 'a' <= c <= 'z' then c as int - 'a' as int + 26
    else if '0' <= c <= '9' then c as int - '0' as int + 52
    else if c == '+' then 62
    else 63
  }

  lemma IndexOfAlphabet(i: sextet)
    ensures IndexOf(Alphabet(i)) == i
  {
  }

  /** Three octets become four characters. */
  function EncodeBlock(b0: byte, b1: byte, b2: byte): (s: string)
    ensures |s| == 4
  {
    [Alphabet(b0 / 4), Alphabet((b0 % 4) * 16 + b1 / 16), Alphabet((b1 % 16) * 4 + b2 / 64), Alphabet(b2 % 64)]
  }

  /** The padded encoding of an octet sequence. */
  function Encode(bs: seq<byte>): (s: string)
    ensures |s| % 4 == 0 && (|s| == 0 <==> |bs| == 0)
  {
    if |bs| == 0 then ""
    else if |bs| == 1 then [Alphabet(bs[0] / 4), Alphabet((bs[0] % 4) * 16), '=', '=']
    else if |bs| == 2 then
      [Alphabet(bs[0] / 4), Alphabet((bs[0] % 4) * 16 + bs[1] / 16), Alphabet((bs[1] % 16) * 4), '=']
    else EncodeBlock(bs[0], bs[1], bs[2]) + Encode(bs[3..])
  }

  /** The encoding holds four characters for every started group of three octets. */
  lemma {:induction false} EncodeLength(bs: seq<byte>)
    ensures |Encode(bs)| == 4 * ((|bs| + 2) / 3)
    decreases |bs|
  {
    if |bs| >= 3 {
      EncodeLength(bs[3..]);
      assert (|bs| + 2) / 3 == (|bs[3..]| + 2) / 3 + 1;
    }
  }

  /** Four sextets become three octets. */
  function DecodeBlock(c0: sextet, c1: sextet, c2: sextet, c3: sextet): (bs: seq<byte>)
    ensures |bs| == 3
  {
    [c0 * 4 + c1 / 16, (c1 % 16) * 16 + c2 / 4, (c2 % 4) * 64 + c3]
  }

  /** Decoding of padded Base 64 text; None on text outside the alphabet or of the wrong length. */
  function Decode(s: string): (r: Option<seq<byte>>)
    decreases |s|
  {
    if |s| == 0 then Some([])
    else if |s| < 4 then None
    else if |s| == 4 && s[2] == '=' && s[3] == '=' then
      if IsAlphabetChar(s[0]) && IsAlphabetChar(s[1]) then
        Some([IndexOf(s[0]) * 4 + IndexOf(s[1]) / 16])
      else None
    else if |s| == 4 && s[3] == '=' then
      if IsAlphabetChar(s[0]) && IsAlphabetChar(s[1]) && IsAlphabetChar(s[2]) then
        Some([IndexOf(s[0]) * 4 + IndexOf(s[1]) / 16, (IndexOf(s[1]) % 16) * 16 + IndexOf(s[2]) / 4])
      else None
    else if IsAlphabetChar(s[0]) && IsAlphabetChar(s[1]) && IsAlphabetChar(s[2]) && IsAlphabetChar(s[3]) then
      match Decode(s[4..])
      case None => None
      case Some(rest) => Some(DecodeBlock(IndexOf(s[0]), IndexOf(s[1]), IndexOf(s[2]), IndexOf(s[3])) + rest)
    else None
  }

  /** Splitting an octet into its high and low parts and joining them back is the identity. */
  lemma BlockRoundTrip(b0: byte, b1: byte, b2: byte)
    ensures DecodeBlock(b0 / 4, (b0 % 4) * 16 + b1 / 16, (b1 % 16) * 4 + b2 / 64, b2 % 64) == [b0, b1, b2]
  {
    assert ((b0 % 4) * 16 + b1 / 16) / 16 == b0 % 4;
    assert ((b0 % 4) * 16 + b1 / 16) % 16 == b1 / 16;
    assert ((b1 % 16) * 4 + b2 / 64) / 4 == b1 % 16;
    assert ((b1 % 16) * 4 + b2 / 64) % 4 == b2 / 64;
  }

  /** A short sequence is its octets, and a longer one its first three octets and the rest. */
  lemma SplitOctets(bs: seq<byte>)
    ensures |bs| == 1 ==> bs == [bs[0]]
    ensures |bs| == 2 ==> bs == [bs[0], bs[1]]
    ensures |bs| >= 3 ==> bs == [bs[0], bs[1], bs[2]] + bs[3..]
  {
    if |bs| >= 3 {
      assert bs == [bs[0], bs[1], bs[2]] + bs[3..];
    }
  }

  /** One octet, encoded with two padding characters, decodes back to itself. */
  lemma DecodeOne(b0: byte)
    ensures Decode(Encode([b0])) == Some([b0])
  {
    var s := Encode([b0]);
    IndexOfAlphabet(b0 / 4);
    IndexOfAlphabet((b0 % 4) * 16);
    assert ((b0 % 4) * 16) / 16 == b0 % 4;
    assert s == [Alphabet(b0 / 4), Alphabet((b0 % 4) * 16), '=', '='];
  }

  /** Two octets, encoded with one padding character, decode back to themselves. */
  lemma DecodeTwo(b0: byte, b1: byte)
    ensures Decode(Encode([b0, b1])) == Some([b0, b1])
  {
    var s := Encode([b0, b1]);
    IndexOfAlphabet(b0 / 4);
    IndexOfAlphabet((b0 % 4) * 16 + b1 / 16);
    IndexOfAlphabet((b1 % 16) * 4);
    assert ((b0 % 4) * 16 + b1 / 16) / 16 == b0 % 4;
    assert ((b0 % 4) * 16 + b1 / 16) % 16 == b1 / 16;
    assert ((b1 % 16) * 4) / 4 == b1 % 16;
    assert s == [Alphabet(b0 / 4), Alphabet((b0 % 4) * 16 + b1 / 16), Alphabet((b1 % 16) * 4), '='];
  }

  /** A full block in front of decodable text decodes to its three octets in front of that text's decoding. */
  lemma DecodeBlockPrefix(b0: byte, b1: byte, b2: byte, t: string)
    requires Decode(t).Some?
    ensures Decode(EncodeBlock(b0, b1, b2) + t) == Some([b0, b1, b2] + Decode(t).value)
  {
    var c0, c1, c2, c3 := b0 / 4, (b0 % 4) * 16 + b1 / 16, (b1 % 16) * 4 + b2 / 64, b2 % 64;
    var s := EncodeBlock(b0, b1, b2) + t;
    assert s[0] == Alphabet(c0) && s[1] == Alphabet(c1) && s[2] == Alphabet(c2) && s[3] == Alphabet(c3);
    assert s[4..] == t;
    IndexOfAlphabet(c0);
    IndexOfAlphabet(c1);
    IndexOfAlphabet(c2);
    IndexOfAlphabet(c3);
    BlockRoundTrip(b0, b1, b2);
  }

  /** A sequence of three or more octets is encoded block first. */
  lemma EncodeUnfold(bs: seq<byte>)
    requires |bs| >= 3
    ensures Encode(bs) == EncodeBlock(bs[0], bs[1], bs[2]) + Encode(bs[3..])
  {
  }

  /** The round trip of everything after the first three octets extends to the whole sequence. */
  lemma DecodeEncodeBlock(bs: seq<byte>)
    requires |bs| >= 3 && Decode(Encode(bs[3..])) == Some(bs[3..])
    ensures Decode(Encode(bs)) == Some(bs)
  {
    EncodeUnfold(bs);
    DecodeBlockPrefix(bs[0], bs[1], bs[2], Encode(bs[3..]));
    SplitOctets(bs);
  }

  /** Decoding the encoding of any octet sequence gives it back. */
  lemma {:induction false} DecodeEncode(bs: seq<byte>)
    ensures Decode(Encode(bs)) == Some(bs)
    decreases |bs|
  {
    SplitOctets(bs);
    if |bs| == 1 {
      DecodeOne(bs[0]);
    } else if |bs| == 2 {
      DecodeTwo(bs[0], bs[1]);
    } else if |bs| >= 3 {
      DecodeEncode(bs[3..]);
      DecodeEncodeBlock(bs);
    }
  }
}
