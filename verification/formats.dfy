/**
 * Python's `'{:0Nd}'.format(n)` for a non-negative integer: its decimal
 * digits, left-padded with '0' up to N characters (never truncated).
 */
module Formats {

  function Pow10(k: nat): (p: nat)
    ensures p >= 1
  {
    if k == 0 then 1 else 10 * Pow10(k - 1)
  }

  predicate IsDigit(c: char) {
    '0' <= c <= '9'
  }

  function DigitChar(n: nat): (c: char)
    requires n < 10
    ensures IsDigit(c) && c as int - '0' as int == n
  {
    ('0' as int + n) as char
  }

  /** The shortest decimal spelling of `n` ("0" for zero). */
  function Digits(n: nat): (s: string)
    ensures |s| >= 1
    ensures forall i :: 0 <= i < |s| ==> IsDigit(s[i])
  {
    if n < 10 then [DigitChar(n)] else Digits(n / 10) + [DigitChar(n % 10)]
  }

  function Zeros(k: nat): (s: string)
    ensures |s| == k && forall i :: 0 <= i < k ==> s[i] == '0'
  {
    if k == 0 then [] else Zeros(k - 1) + ['0']
  }

  /** `'{:0<width>d}'.format(n)`. */
  function Pad(n: nat, width: nat): (s: string)
    ensures forall i :: 0 <= i < |s| ==> IsDigit(s[i])
  {
    var ds := Digits(n);
    if |ds| < width then Zeros(width - |ds|) + ds else ds
  }

  /** The value of a string of decimal digits, leading zeros allowed (`int(s)`). */
  function Value(s: string): nat
    requires forall i :: 0 <= i < |s| ==> IsDigit(s[i])
  {
    if s == [] then 0
    else
      var last := s[|s| - 1];
      assert IsDigit(last);
      Value(s[..|s| - 1]) * 10 + (last as int - '0' as int)
  }

  lemma {:induction false} ValueOfDigits(n: nat)
    ensures Value(Digits(n)) == n
  {
    var ds := Digits(n);
    if n >= 10 {
      ValueOfDigits(n / 10);
      assert ds[..|ds| - 1] == Digits(n / 10);
    }
  }

  lemma {:induction false} ValueIgnoresLeadingZeros(k: nat, s: string)
    requires forall i :: 0 <= i < |s| ==> IsDigit(s[i])
    ensures Value(Zeros(k) + s) == Value(s)
  {
    var z := Zeros(k);
    if s == [] {
      assert z + s == z;
      ZerosValue(k);
    } else {
      ValueIgnoresLeadingZeros(k, s[..|s| - 1]);
      assert (z + s)[..|z + s| - 1] == z + s[..|s| - 1];
    }
  }

  lemma {:induction false} ZerosValue(k: nat)
    ensures Value(Zeros(k)) == 0
  {
    if k > 0 {
      ZerosValue(k - 1);
      assert Zeros(k)[..k - 1] == Zeros(k - 1);
    }
  }

  lemma {:induction false} DigitsLength(n: nat, k: nat)
    requires k >= 1 && n < Pow10(k)
    ensures |Digits(n)| <= k
  {
    if n >= 10 {
      DigitsLength(n / 10, k - 1);
    }
  }

  /**
   * The padded spelling reads back as the number, and is exactly `width`
   * characters long when the number fits in that many digits.
   */
  lemma PadRoundTrip(n: nat, width: nat)
    ensures Value(Pad(n, width)) == n
    ensures width >= 1 && n < Pow10(width) ==> |Pad(n, width)| == width
  {
    var ds := Digits(n);
    ValueOfDigits(n);
    if |ds| < width {
      ValueIgnoresLeadingZeros(width - |ds|, ds);
    }
    if width >= 1 && n < Pow10(width) {
      DigitsLength(n, width);
    }
  }

  /** Different numbers are spelled differently. */
  lemma PadInjective(a: nat, b: nat, width: nat)
    ensures Pad(a, width) == Pad(b, width) ==> a == b
  {
    PadRoundTrip(a, width);
    PadRoundTrip(b, width);
  }
}
