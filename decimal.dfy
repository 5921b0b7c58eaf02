/**
 * Decimal text of integers, as the C++ stream operator `<<` writes an
 * integer and as `printf`'s `%0Nd` pads one, with the value read back.
 */
module Decimal {

  predicate IsDigit(c: char) {
    '0' <= c <= '9'
  }

  predicate AllDigits(s: string) {
    forall i :: 0 <= i < |s| ==> IsDigit(s[i])
  }

  function DigitChar(d: nat): (c: char)
    requires d < 10
    ensures IsDigit(c) && c as int - '0' as int == d
  {
    ('0' as int + d) as char
  }

  /** The longest run of digits at the head of `s`: what a reader of a decimal number consumes. */
  function DigitPrefix(s: string): (r: string)
    ensures AllDigits(r) && |r| <= |s| && r == s[..|r|]
  {
    if s != [] && IsDigit(s[0]) then [s[0]] + DigitPrefix(s[1..]) else []
  }

  /** A digit string followed by a non-digit is read back whole. */
  lemma {:induction false} DigitPrefixStopsAtNonDigit(d: string, rest: string)
    requires AllDigits(d) && rest != [] && !IsDigit(rest[0])
    ensures DigitPrefix(d + rest) == d
  {
    if d == [] {
      assert d + rest == rest;
    } else {
      assert (d + rest)[1..] == d[1..] + rest;
      DigitPrefixStopsAtNonDigit(d[1..], rest);
    }
  }

  /** The value of a string of digits, most significant first. */
  function DecimalValue(s: string): nat
    requires AllDigits(s)
  {
    if s == [] then 0
    else DecimalValue(s[..|s| - 1]) * 10 + (s[|s| - 1] as int - '0' as int)
  }

  function Pow10(k: nat): (r: nat)
    ensures r >= 1
  {
    if k == 0 then 1 else 10 * Pow10(k - 1)
  }

  /** `n` written in decimal without leading zeros, as `<<` writes an unsigned integer. */
  function NatText(n: nat): (r: string)
    ensures |r| >= 1 && AllDigits(r)
    ensures |r| > 1 ==> r[0] != '0'
  {
    if n < 10 then [DigitChar(n)] else NatText(n / 10) + [DigitChar(n % 10)]
  }

  /** `i` as `<<` writes a signed integer: a minus sign, then the digits of its magnitude. */
  function IntText(i: int): (r: string)
    ensures |r| >= 1
    ensures i >= 0 <==> IsDigit(r[0])
  {
    if i < 0 then "-" + NatText(-i) else NatText(i)
  }

  function Zeros(k: nat): (r: string)
    ensures |r| == k && AllDigits(r)
  {
    if k == 0 then "" else "0" + Zeros(k - 1)
  }

  /** Left-pad with zeros to at least `w` characters. */
  function ZeroPad(s: string, w: int): (r: string)
    requires AllDigits(s)
    ensures AllDigits(r)
    ensures |r| == if |s| >= w then |s| else w
  {
    if |s| >= w then s else Zeros(w - |s|) + s
  }

  /**
   * `printf("%0*d", w, v)`: the sign, then the magnitude's digits padded
   * with zeros so that sign and digits take at least `w` characters.
   */
  function PrintfPadded(v: int, w: nat): (r: string)
    ensures |r| >= 1 && |r| >= w
    ensures v >= 0 <==> IsDigit(r[0])
  {
    if v >= 0 then ZeroPad(NatText(v), w) else "-" + ZeroPad(NatText(-v), w - 1)
  }

  /** Reading back what `NatText` writes gives the number again. */
  lemma {:induction false} NatTextRoundTrip(n: nat)
    ensures DecimalValue(NatText(n)) == n
  {
    if n >= 10 {
      var t := NatText(n);
      assert t[..|t| - 1] == NatText(n / 10);
      NatTextRoundTrip(n / 10);
    }
  }

  /** Two different numbers never get the same text. */
  lemma NatTextInjective(m: nat, n: nat)
    requires NatText(m) == NatText(n)
    ensures m == n
  {
    NatTextRoundTrip(m);
    NatTextRoundTrip(n);
  }

  lemma {:induction false} ZerosValue(k: nat)
    ensures DecimalValue(Zeros(k)) == 0
  {
    if k > 0 {
      var z := Zeros(k);
      assert z[..k - 1] == Zeros(k - 1) by {
        ZerosAreZero(k);
        ZerosAreZero(k - 1);
      }
      ZerosValue(k - 1);
    }
  }

  lemma {:induction false} ZerosAreZero(k: nat)
    ensures forall i :: 0 <= i < k ==> Zeros(k)[i] == '0'
  {
    if k > 0 { ZerosAreZero(k - 1); }
  }

  /** Leading zeros do not change the value read back. */
  lemma {:induction false} LeadingZerosValue(k: nat, s: string)
    requires AllDigits(s)
    ensures DecimalValue(Zeros(k) + s) == DecimalValue(s)
  {
    if s == [] {
      assert Zeros(k) + s == Zeros(k);
      ZerosValue(k);
    } else {
      var t := Zeros(k) + s;
      assert t[..|t| - 1] == Zeros(k) + s[..|s| - 1];
      LeadingZerosValue(k, s[..|s| - 1]);
    }
  }

  /** A number below 10^w needs at most w digits. */
  lemma {:induction false} NatTextWidth(n: nat, w: nat)
    requires w >= 1 && n < Pow10(w)
    ensures |NatText(n)| <= w
  {
    if n >= 10 {
      NatTextWidth(n / 10, w - 1);
    }
  }

  /**
   * A value that fits in `w` digits is printed by `%0wd` as exactly `w`
   * digits that read back as the value.
   */
  lemma PaddedFits(v: nat, w: nat)
    requires w >= 1 && v < Pow10(w)
    ensures |PrintfPadded(v, w)| == w && AllDigits(PrintfPadded(v, w))
    ensures DecimalValue(PrintfPadded(v, w)) == v
  {
    NatTextWidth(v, w);
    NatTextRoundTrip(v);
    var t := NatText(v);
    if |t| < w {
      LeadingZerosValue(w - |t|, t);
    }
  }
}
