/** Decimal text: how Python prints integers, pads identifiers and reads them back. */
module Decimal {
  import opened Prelude

  function DigitChar(d: nat): (c: char)
    requires d < 10
  {
    ("0123456789")[d]
  }

  predicate IsDigit(c: char) {
    '0' <= c <= '9'
  }

  function DigitValue(c: char): (d: nat)
    requires IsDigit(c)
    ensures d < 10
  {
    c as int - '0' as int
  }

  predicate AllDigits(s: string) {
    forall i :: 0 <= i < |s| ==> IsDigit(s[i])
  }

  /** The decimal digits of a natural number, most significant first. */
  function Digits(n: nat): (s: string)
    ensures |s| > 0 && AllDigits(s)
  {
    if n < 10 then [DigitChar(n)] else Digits(n / 10) + [DigitChar(n % 10)]
  }

  /** The number a digit string denotes. */
  function Value(s: string): nat
    requires AllDigits(s)
  {
    if s == [] then 0 else Value(s[..|s| - 1]) * 10 + DigitValue(s[|s| - 1])
  }

  lemma {:induction false} ValueOfDigits(n: nat)
    ensures Value(Digits(n)) == n
  {
    if n < 10 {
      assert Digits(n)[..0] == [];
    } else {
      ValueOfDigits(n / 10);
      var s := Digits(n);
      assert s[..|s| - 1] == Digits(n / 10);
    }
  }

  function Zeros(n: nat): (s: string)
    ensures |s| == n && AllDigits(s)
  {
    seq(n, _ => '0')
  }

  /** Zero-padded decimal text, as the format specification 06d prints it. */
  function Padded(width: nat, n: nat): (s: string)
    ensures AllDigits(s) && |s| >= width
  {
    var d := Digits(n);
    if |d| < width then Zeros(width - |d|) + d else d
  }

  lemma {:induction false} LeadingZeros(k: nat, s: string)
    requires AllDigits(s)
    ensures Value(Zeros(k) + s) == Value(s)
    decreases |s| + k
  {
    if s == [] {
      if k == 0 {
        assert Zeros(k) + s == [];
      } else {
        var z := Zeros(k) + s;
        assert z[..|z| - 1] == Zeros(k - 1) + [];
        LeadingZeros(k - 1, []);
      }
    } else {
      var z := Zeros(k) + s;
      assert z[..|z| - 1] == Zeros(k) + s[..|s| - 1];
      LeadingZeros(k, s[..|s| - 1]);
    }
  }

  function Power(k: nat): nat {
    if k == 0 then 1 else 10 * Power(k - 1)
  }

  /** A number below a power of ten has no more digits than its exponent. */
  lemma {:induction false} FewDigits(n: nat, k: nat)
    requires k > 0 && n < Power(k)
    ensures |Digits(n)| <= k
    decreases k
  {
    if n >= 10 {
      assert k > 1 && Power(k) == 10 * Power(k - 1);
      FewDigits(n / 10, k - 1);
    }
  }

  lemma ValueOfPadded(width: nat, n: nat)
    ensures Value(Padded(width, n)) == n
  {
    ValueOfDigits(n);
    if |Digits(n)| < width {
      LeadingZeros(width - |Digits(n)|, Digits(n));
    }
  }

  /** Padding loses nothing: distinct numbers get distinct padded texts, of any magnitude. */
  lemma PaddedInjective(width: nat, m: nat, n: nat)
    requires Padded(width, m) == Padded(width, n)
    ensures m == n
  {
    ValueOfPadded(width, m);
    ValueOfPadded(width, n);
  }

  /** The text of a signed integer. */
  function IntText(i: int): (s: string)
    ensures |s| > 0
  {
    if i < 0 then "-" + Digits(-i) else Digits(i)
  }

  /** Reads the text of an integer; None when the text is not one. */
  function ReadInt(s: string): (r: Option<int>) {
    if s == [] then None
    else if s[0] == '-' then
      if |s| > 1 && AllDigits(s[1..]) then (var v: int := 0 - Value(s[1..]); Some(v)) else None
    else if AllDigits(s) then (var v: int := Value(s); Some(v))
    else None
  }

  lemma ReadIntOfText(i: int)
    ensures ReadInt(IntText(i)) == Some(i)
  {
    if i < 0 {
      ValueOfDigits(-i);
      assert IntText(i)[1..] == Digits(-i);
    } else {
      ValueOfDigits(i);
      assert IsDigit(Digits(i)[0]);
    }
  }
}
