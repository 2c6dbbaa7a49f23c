/**
 * Character-level helpers the message builders rely on: decimal rendering
 * (`utils::ToString`), left padding (`iso8583::RightAligned`,
 * `utils::NumericPadded`), decimal parsing (the integer reading of a numeric
 * field) and hex decoding (`utils::HexStringToBytes`).
 */
module Text {

  predicate IsDigit(c: char)
  {
    '0' <= c <= '9'
  }

  predicate AllDigits(s: string)
  {
    forall i | 0 <= i < |s| :: IsDigit(s[i])
  }

  function DigitChar(d: nat): (c: char)
    requires d < 10
    ensures IsDigit(c)
  {
    (48 + d) as char
  }

  function DigitValue(c: char): (d: nat)
    requires IsDigit(c)
    ensures d < 10 && DigitChar(d) == c
  {
    c as int - 48
  }

  /** Ten to the power `k`. */
  function Pow10(k: nat): (p: nat)
    ensures p >= 1
  {
    if k == 0 then 1 else 10 * Pow10(k - 1)
  }

  /** `s` repeated: `k` copies of the character `c`. */
  function Repeat(c: char, k: nat): (s: string)
    ensures |s| == k
    ensures forall i | 0 <= i < k :: s[i] == c
  {
    seq(k, _ => c)
  }

  /** The decimal representation of `n`, without leading zeros. */
  function DecimalString(n: nat): (s: string)
    ensures 1 <= |s| && AllDigits(s)
  {
    if n < 10 then [DigitChar(n)] else DecimalString(n / 10) + [DigitChar(n % 10)]
  }

  /** The value of a string of decimal digits, most significant first. */
  function ParseDecimal(s: string): nat
    requires AllDigits(s)
  {
    if s == [] then 0 else ParseDecimal(s[..|s| - 1]) * 10 + DigitValue(s[|s| - 1])
  }

  /** Reading back a rendered number gives the number. */
  lemma {:induction false} ParseDecimalString(n: nat)
    ensures ParseDecimal(DecimalString(n)) == n
  {
    var s := DecimalString(n);
    if n >= 10 {
      assert s[..|s| - 1] == DecimalString(n / 10);
      ParseDecimalString(n / 10);
    }
  }

  /** A number below `10^k` renders in at most `k` digits. */
  lemma {:induction false} DecimalStringLength(n: nat, k: nat)
    requires 1 <= k && n < Pow10(k)
    ensures |DecimalString(n)| <= k
  {
    if n >= 10 {
      DecimalStringLength(n / 10, k - 1);
    }
  }

  /**
   * `s` right-aligned in a field of `width` characters: `fill` characters are
   * put in front of it until it is `width` long. A string already at least
   * `width` long is returned as it is.
   */
  function RightAligned(s: string, width: nat, fill: char): (r: string)
    ensures |r| == if |s| >= width then |s| else width
    ensures r[|r| - |s|..] == s
    ensures forall i | 0 <= i < |r| - |s| :: r[i] == fill
  {
    if |s| >= width then s else Repeat(fill, width - |s|) + s
  }

  /** `n` in decimal, left-padded with '0' to `width` characters. */
  function NumericPadded(n: nat, width: nat): string
  {
    RightAligned(DecimalString(n), width, '0')
  }

  /** Leading zeros do not change the value of a digit string. */
  lemma {:induction false} ParseLeadingZeros(k: nat, s: string)
    requires AllDigits(s)
    ensures AllDigits(Repeat('0', k) + s)
    ensures ParseDecimal(Repeat('0', k) + s) == ParseDecimal(s)
    decreases |s|, k
  {
    var z := Repeat('0', k);
    if s == [] {
      assert z + s == z;
      if k > 0 {
        assert z[..k - 1] == Repeat('0', k - 1);
        ParseLeadingZeros(k - 1, []);
        assert Repeat('0', k - 1) + [] == Repeat('0', k - 1);
      }
    } else {
      var t := z + s;
      assert t[..|t| - 1] == z + s[..|s| - 1];
      ParseLeadingZeros(k, s[..|s| - 1]);
    }
  }

  /**
   * A number that fits `width` digits pads to exactly `width` digits and
   * reads back as itself.
   */
  lemma PaddedRoundTrip(n: nat, width: nat)
    requires 1 <= width && n < Pow10(width)
    ensures |NumericPadded(n, width)| == width
    ensures AllDigits(NumericPadded(n, width))
    ensures ParseDecimal(NumericPadded(n, width)) == n
  {
    var d := DecimalString(n);
    DecimalStringLength(n, width);
    ParseLeadingZeros(width - |d|, d);
    ParseDecimalString(n);
    if |d| < width {
      assert NumericPadded(n, width) == Repeat('0', width - |d|) + d;
    } else {
      assert NumericPadded(n, width) == Repeat('0', 0) + d;
    }
  }

  /** Digit strings that denote different numbers when both are padded. */
  lemma PaddedInjective(m: nat, n: nat, width: nat)
    requires 1 <= width && m < Pow10(width) && n < Pow10(width)
    requires NumericPadded(m, width) == NumericPadded(n, width)
    ensures m == n
  {
    PaddedRoundTrip(m, width);
    PaddedRoundTrip(n, width);
  }

  // Hex decoding of configured TPDU strings.

  function HexDigitValue(c: char): (v: nat)
    ensures v < 16
  {
    if '0' <= c <= '9' then c as int - 48
    else if 'A' <= c <= 'F' then c as int - 55
    else if 'a' <= c <= 'f' then c as int - 87
    else 0
  }

  function HexDigitChar(v: nat): (c: char)
    requires v < 16
    ensures HexDigitValue(c) == v
  {
    if v < 10 then (48 + v) as char else (55 + v) as char
  }

  /** The byte a pair of hex digits stands for, high digit first. */
  function HexByte(hi: char, lo: char): bv8
  {
    (HexDigitValue(hi) * 16 + HexDigitValue(lo)) as bv8
  }

  /**
   * Decoding of a hex string, two characters per byte. A character that is
   * not a hex digit counts as 0 and an odd trailing character is dropped.
   */
  function HexStringToBytes(s: string): (b: seq<bv8>)
    ensures |b| == |s| / 2
  {
    if |s| < 2 then [] else [HexByte(s[0], s[1])] + HexStringToBytes(s[2..])
  }

  /** The two upper-case hex digits of a byte. */
  function HexPair(x: bv8): (p: string)
    ensures |p| == 2
  {
    [HexDigitChar(x as int / 16), HexDigitChar(x as int % 16)]
  }

  /** Upper-case hex rendering of a byte string, two characters per byte. */
  function BytesToHexString(b: seq<bv8>): (s: string)
    ensures |s| == 2 * |b|
  {
    if b == [] then [] else HexPair(b[0]) + BytesToHexString(b[1..])
  }

  /** The two hex digits of a byte decode to that byte. */
  lemma HexPairDecodes(x: bv8)
    ensures HexByte(HexPair(x)[0], HexPair(x)[1]) == x
  {
    var n := x as int;
    assert n / 16 * 16 + n % 16 == n;
  }

  /** Decoding consumes the first two characters as one byte. */
  lemma HexDecodeCons(p: string, t: string)
    requires |p| == 2
    ensures HexStringToBytes(p + t) == [HexByte(p[0], p[1])] + HexStringToBytes(t)
  {
    var s := p + t;
    assert s[0] == p[0] && s[1] == p[1] && s[2..] == t;
  }

  /** Hex decoding inverts hex rendering, so any byte string can be configured as a TPDU. */
  lemma {:induction false} HexRoundTrip(b: seq<bv8>)
    ensures HexStringToBytes(BytesToHexString(b)) == b
  {
    if b != [] {
      var p := HexPair(b[0]);
      var t := BytesToHexString(b[1..]);
      HexDecodeCons(p, t);
      HexRoundTrip(b[1..]);
      HexPairDecodes(b[0]);
      assert b == [b[0]] + b[1..];
    }
  }

  /** The bytes of a string's characters (each character taken as one byte). */
  function AsciiBytes(s: string): (b: seq<bv8>)
    ensures |b| == |s|
  {
    seq(|s|, i requires 0 <= i < |s| => (s[i] as int % 256) as bv8)
  }

  /** Reading bytes back as characters. */
  function BytesAsString(b: seq<bv8>): (s: string)
    ensures |s| == |b|
  {
    seq(|b|, i requires 0 <= i < |b| => (b[i] as int) as char)
  }

  lemma AsciiRoundTrip(s: string)
    requires forall i | 0 <= i < |s| :: s[i] as int < 256
    ensures BytesAsString(AsciiBytes(s)) == s
  {
    var r := BytesAsString(AsciiBytes(s));
    forall i | 0 <= i < |s|
      ensures r[i] == s[i]
    {
      assert AsciiBytes(s)[i] as int == s[i] as int;
    }
  }
}
