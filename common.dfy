/**
 * Primitive helpers shared by both reconcilers: an Option type, substring
 * containment, decimal rendering of integers (Python's `str(int)`, Go's
 * `strconv.Itoa`) with its parser, boolean rendering (Python's
 * `str(b).lower()`, Go's `strconv.FormatBool`) and separator joins
 * (Python's `sep.join(parts)`).
 */
module Common {

  datatype Option<T> = None | Some(value: T)

  /** An octet. */
  type byte = x: int | 0 <= x < 256

  /** Python truthiness of an `Optional[str]`: present and non-empty. */
  predicate TruthyStr(o: Option<string>) {
    o.Some? && o.value != ""
  }

  /** Python truthiness of an `Optional[int]`: present and non-zero. */
  predicate TruthyInt(o: Option<int>) {
    o.Some? && o.value != 0
  }

  /** `needle` occurs in `hay` starting at index `i`. */
  predicate OccursAt(hay: string, needle: string, i: int) {
    0 <= i && i + |needle| <= |hay| && hay[i..i + |needle|] == needle
  }

  /** `needle in hay` for Python strings: `needle` occurs as a contiguous slice of `hay`. */
  predicate Contains(hay: string, needle: string) {
    exists i | 0 <= i <= |hay| - |needle| :: OccursAt(hay, needle, i)
  }

  /** A string contains each of its own slices. */
  lemma ContainsSlice(hay: string, i: nat, j: nat)
    requires i <= j <= |hay|
    ensures Contains(hay, hay[i..j])
  {
    assert OccursAt(hay, hay[i..j], i);
  }

  /** Containment is preserved by adding text on both sides. */
  lemma ContainsExtended(pre: string, hay: string, post: string, needle: string)
    requires Contains(hay, needle)
    ensures Contains(pre + hay + post, needle)
  {
    var i :| 0 <= i <= |hay| - |needle| && OccursAt(hay, needle, i);
    var big := pre + hay + post;
    assert hay[i..i + |needle|] == needle;
    assert big[|pre| + i..|pre| + i + |needle|] == needle;
    assert OccursAt(big, needle, |pre| + i);
  }

  /** Boolean rendering: exactly "true" or "false". */
  function BoolStr(b: bool): (r: string)
    ensures r == "true" || r == "false"
    ensures (r == "true") <==> b
  {
    if b then "true" else "false"
  }

  predicate IsDigit(c: char) {
    '0' <= c <= '9'
  }

  predicate AllDigits(s: string) {
    forall i :: 0 <= i < |s| ==> IsDigit(s[i])
  }

  function DigitChar(d: nat): (c: char)
    requires d < 10
    ensures IsDigit(c) && c as int - '0' as int == d
  {
    ('0' as int + d) as char
  }

  function DigitValue(c: char): (d: nat)
    requires IsDigit(c)
    ensures d < 10
  {
    c as int - '0' as int
  }

  /** Decimal digits of a natural number, most significant first, no leading zeros. */
  function Decimal(n: nat): (s: string)
    ensures |s| >= 1 && AllDigits(s)
    ensures |s| > 1 ==> s[0] != '0'
  {
    if n < 10 then [DigitChar(n)] else Decimal(n / 10) + [DigitChar(n % 10)]
  }

  /** The value of a string of decimal digits (Python's `int()` on such a string). */
  function ParseDigits(s: string): nat
    requires AllDigits(s)
  {
    if |s| == 0 then 0 else ParseDigits(s[..|s| - 1]) * 10 + DigitValue(s[|s| - 1])
  }

  /** Parsing the decimal rendering of `n` gives back `n`. */
  lemma {:induction false} ParseDecimal(n: nat)
    ensures ParseDigits(Decimal(n)) == n
  {
    var s := Decimal(n);
    if n >= 10 {
      assert s[..|s| - 1] == Decimal(n / 10);
      ParseDecimal(n / 10);
    }
  }

  /** Decimal rendering of any integer, with a leading '-' if negative. */
  function IntStr(i: int): (s: string)
    ensures |s| >= 1
    ensures i >= 0 ==> s == Decimal(i)
    ensures i < 0 ==> s == "-" + Decimal(-i)
  {
    if i < 0 then "-" + Decimal(-i) else Decimal(i)
  }

  /** The inverse of IntStr on its image. */
  function ParseInt(s: string): int
  {
    if |s| > 0 && s[0] == '-' && AllDigits(s[1..]) then -(ParseDigits(s[1..]) as int)
    else if AllDigits(s) then ParseDigits(s)
    else 0
  }

  /** IntStr is injective: the rendered string determines the integer. */
  lemma IntStrRoundTrip(i: int)
    ensures ParseInt(IntStr(i)) == i
  {
    if i < 0 {
      var s := IntStr(i);
      assert s[1..] == Decimal(-i);
      ParseDecimal(-i);
    } else {
      ParseDecimal(i);
      assert IntStr(i)[0] != '-';
    }
  }

  /** Python's `sep.join(parts)`. */
  function Join(parts: seq<string>, sep: string): string
  {
    if |parts| == 0 then ""
    else if |parts| == 1 then parts[0]
    else parts[0] + sep + Join(parts[1..], sep)
  }

  /** Every part appears inside the joined string. */
  lemma {:induction false} JoinContainsParts(parts: seq<string>, sep: string, k: nat)
    requires k < |parts|
    ensures Contains(Join(parts, sep), parts[k])
  {
    if |parts| == 1 {
      ContainsSlice(parts[0], 0, |parts[0]|);
      assert parts[0][0..|parts[0]|] == parts[0];
    } else if k == 0 {
      ContainsSlice(parts[0], 0, |parts[0]|);
      assert parts[0][0..|parts[0]|] == parts[0];
      ContainsExtended("", parts[0], sep + Join(parts[1..], sep), parts[0]);
      assert "" + parts[0] + (sep + Join(parts[1..], sep)) == Join(parts, sep);
    } else {
      JoinContainsParts(parts[1..], sep, k - 1);
      ContainsExtended(parts[0] + sep, Join(parts[1..], sep), "", parts[k]);
      assert parts[0] + sep + Join(parts[1..], sep) + "" == Join(parts, sep);
    }
  }
}
