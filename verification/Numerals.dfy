/** Decimal text for integers, as the generator uses it: `ToString("D4")`-style
    zero-padded formatting and `int.TryParse` on a run of digits. */
module Numerals {
  import opened Foundation

  const Int32Max: int := 2147483647
  const Int32Min: int := -2147483648

  predicate IsDigit(c: char) { '0' <= c <= '9' }

  predicate AllDigits(s: string) {
    forall i :: 0 <= i < |s| ==> IsDigit(s[i])
  }

  function DigitValue(c: char): int
    requires IsDigit(c)
  {
    c as int - '0' as int
  }

  function DigitChar(d: int): char
    requires 0 <= d < 10
  {
    ('0' as int + d) as char
  }

  function Pow10(n: nat): (p: nat)
    ensures p >= 1
  {
    if n == 0 then 1 else 10 * Pow10(n - 1)
  }

  /** The number a string of decimal digits denotes; leading zeros add nothing. */
  function Value(s: string): nat
    requires AllDigits(s)
  {
    if |s| == 0 then 0 else Value(s[..|s| - 1]) * 10 + DigitValue(s[|s| - 1])
  }

  /** `n.ToString()` for a non-negative `n`: its decimal digits, without
      leading zeros. */
  function Digits(n: nat): (s: string)
    ensures 1 <= |s| && AllDigits(s) && Value(s) == n
    ensures s[0] != '0' || n == 0
  {
    if n < 10 then [DigitChar(n)]
    else
      var s := Digits(n / 10) + [DigitChar(n % 10)];
      assert s[..|s| - 1] == Digits(n / 10);
      s
  }

  /** Left-pads with '0' up to `width` characters. */
  function PadLeft(s: string, width: nat): (r: string)
    ensures |r| == if |s| >= width then |s| else width
  {
    if |s| >= width then s else seq(width - |s|, _ => '0') + s
  }

  /** `n.ToString("D" + width)`: the digits of |n|, zero-padded to at least
      `width`, after a minus sign when `n` is negative. */
  function FormatD(n: int, width: nat): string {
    if n < 0 then "-" + PadLeft(Digits(-n), width) else PadLeft(Digits(n), width)
  }

  /** `int.TryParse(s, out v)` on a plain run of decimal digits: it succeeds
      exactly when the run is non-empty and its value fits an Int32. */
  function TryParseInt32(s: string): (r: Option<int>)
    ensures r.Some? <==> |s| > 0 && AllDigits(s) && Value(s) <= Int32Max
    ensures r.Some? ==> 0 <= r.value <= Int32Max && r.value == Value(s)
  {
    if |s| > 0 && AllDigits(s) && Value(s) <= Int32Max then Some(Value(s)) else None
  }

  /** A run of k digits is worth less than 10^k. */
  lemma {:induction false} ValueBound(s: string)
    requires AllDigits(s)
    ensures Value(s) < Pow10(|s|)
  {
    if |s| > 0 {
      ValueBound(s[..|s| - 1]);
    }
  }

  /** A string of zeros is worth 0. */
  lemma {:induction false} ZerosValue(k: nat)
    ensures AllDigits(seq(k, _ => '0')) && Value(seq(k, _ => '0')) == 0
  {
    if k > 0 {
      var z := seq(k, _ => '0');
      assert z[..k - 1] == seq(k - 1, _ => '0');
      ZerosValue(k - 1);
    }
  }

  /** Leading zeros do not change the value of a digit string. */
  lemma {:induction false} LeadingZerosValue(k: nat, s: string)
    requires AllDigits(s)
    ensures AllDigits(seq(k, _ => '0') + s)
    ensures Value(seq(k, _ => '0') + s) == Value(s)
  {
    var z := seq(k, _ => '0');
    if |s| == 0 {
      assert z + s == z;
      ZerosValue(k);
    } else {
      var t := z + s;
      assert t[..|t| - 1] == z + s[..|s| - 1];
      LeadingZerosValue(k, s[..|s| - 1]);
    }
  }

  /** Appending a digit multiplies the leading digit's weight by ten. */
  lemma ShiftByOneDigit(d: int, p: int, v: int, last: int)
    ensures (d * p + v) * 10 + last == d * (10 * p) + (v * 10 + last)
  {
  }

  /** The first digit of a run of digits carries the weight 10^(length - 1). */
  lemma {:induction false} ValueCons(c: char, s: string)
    requires IsDigit(c) && AllDigits(s)
    ensures AllDigits([c] + s)
    ensures Value([c] + s) == DigitValue(c) * Pow10(|s|) + Value(s)
  {
    if |s| > 0 {
      var t := [c] + s;
      var init := s[..|s| - 1];
      assert t[..|t| - 1] == [c] + init;
      ValueCons(c, init);
      var d, p, v, last := DigitValue(c), Pow10(|init|), Value(init), DigitValue(s[|s| - 1]);
      assert Value(t) == (d * p + v) * 10 + last;
      assert Value(s) == v * 10 + last;
      assert Pow10(|s|) == 10 * p;
      ShiftByOneDigit(d, p, v, last);
    } else {
      assert [c] + s == [c];
      assert ([c] + s)[..0] == [];
    }
  }

  /** A number below 10^w has at most w digits. */
  lemma {:induction false} DigitsLength(n: nat, w: nat)
    requires 1 <= w && n < Pow10(w)
    ensures |Digits(n)| <= w
  {
    if n >= 10 {
      assert Pow10(1) == 10;
      assert w >= 2;
      assert n / 10 < Pow10(w - 1);
      DigitsLength(n / 10, w - 1);
    }
  }

  /** Formatting a number below 10^w with width w gives exactly w digits. */
  lemma FormatDWidth(n: nat, w: nat)
    requires 1 <= w && n < Pow10(w)
    ensures |FormatD(n, w)| == w && AllDigits(FormatD(n, w))
  {
    DigitsLength(n, w);
    LeadingZerosValue(w - |Digits(n)|, Digits(n));
  }

  /** Formatting then parsing gives back every non-negative Int32, whatever
      the padding width. */
  lemma FormatDRoundTrip(n: int, w: nat)
    requires 0 <= n <= Int32Max
    ensures TryParseInt32(FormatD(n, w)) == Some(n)
  {
    var d := Digits(n);
    if |d| < w {
      LeadingZerosValue(w - |d|, d);
    }
  }
}
