/** Decimal numerals of natural numbers, as big.Int prints and reads them. */
module Digits {

  function Pow10(n: nat): (p: nat)
    ensures p >= 1
  {
    if n == 0 then 1 else 10 * Pow10(n - 1)
  }

  predicate IsDigit(c: char) {
    '0' <= c <= '9'
  }

  predicate AllDigits(s: string) {
    forall i | 0 <= i < |s| :: IsDigit(s[i])
  }

  function DigitChar(d: nat): (c: char)
    requires d < 10
    ensures IsDigit(c) && DigitValue(c) == d
  {
    '0' + d as char
  }

  function DigitValue(c: char): (d: nat)
    requires IsDigit(c)
    ensures d < 10
  {
    c as int - '0' as int
  }

  /** The numeral of `n` without leading zeros; "0" for zero. */
  function Render(n: nat): (s: string)
    ensures AllDigits(s) && |s| >= 1
  {
    if n < 10 then [DigitChar(n)] else Render(n / 10) + [DigitChar(n % 10)]
  }

  /** The number a digit string denotes; leading zeros are allowed. */
  function Value(s: string): nat
    requires AllDigits(s)
  {
    if s == [] then 0 else 10 * Value(s[..|s| - 1]) + DigitValue(s[|s| - 1])
  }

  function Zeros(n: nat): (s: string)
    ensures |s| == n && AllDigits(s)
    ensures forall i | 0 <= i < n :: s[i] == '0'
  {
    seq(n, _ => '0')
  }

  lemma {:induction false} ValueOfRender(n: nat)
    ensures Value(Render(n)) == n
  {
    if n >= 10 {
      ValueOfRender(n / 10);
      var s := Render(n);
      assert s[..|s| - 1] == Render(n / 10);
    } else {
      assert Value([]) == 0;
      assert Render(n)[..0] == [];
    }
  }

  /** A numeral has at most `k` digits exactly when the number is below 10^k. */
  lemma {:induction false} DigitCountBound(n: nat, k: nat)
    requires k >= 1
    ensures |Render(n)| <= k <==> n < Pow10(k)
  {
    if n >= 10 {
      if k >= 2 {
        DigitCountBound(n / 10, k - 1);
        assert Pow10(k) == 10 * Pow10(k - 1);
      } else {
        assert Pow10(1) == 10 * Pow10(0);
      }
    } else {
      assert Pow10(k) == 10 * Pow10(k - 1);
    }
  }

  lemma {:induction false} ValueOfConcat(s: string, t: string)
    requires AllDigits(s) && AllDigits(t)
    ensures AllDigits(s + t) && Value(s + t) == Value(s) * Pow10(|t|) + Value(t)
  {
    var u := s + t;
    if t == [] {
      assert u == s;
    } else {
      var front, p := t[..|t| - 1], Pow10(|t| - 1);
      ValueOfConcat(s, front);
      assert u[..|u| - 1] == s + front && u[|u| - 1] == t[|t| - 1];
      assert Pow10(|t|) == 10 * p;
      assert 10 * (Value(s) * p) == Value(s) * (10 * p);
    }
  }

  lemma {:induction false} ValueOfZeros(n: nat)
    ensures Value(Zeros(n)) == 0
  {
    if n > 0 {
      ValueOfZeros(n - 1);
      assert Zeros(n)[..n - 1] == Zeros(n - 1);
    }
  }

  lemma LeadingZeros(n: nat, s: string)
    requires AllDigits(s)
    ensures Value(Zeros(n) + s) == Value(s)
  {
    var zeros := Zeros(n);
    ValueOfConcat(zeros, s);
    ValueOfZeros(n);
  }

  lemma {:induction false} ValueBound(s: string)
    requires AllDigits(s)
    ensures Value(s) < Pow10(|s|)
  {
    if s != [] {
      ValueBound(s[..|s| - 1]);
    }
  }

  lemma {:induction false} PowPositive(n: nat, k: nat)
    ensures Pow10(n + k) == Pow10(n) * Pow10(k)
  {
    if n > 0 {
      PowPositive(n - 1, k);
      assert Pow10(n + k) == 10 * Pow10(n - 1 + k);
    }
  }

  lemma {:induction false} LeadingDigitBound(s: string)
    requires AllDigits(s) && s != [] && s[0] != '0'
    ensures Value(s) >= Pow10(|s| - 1)
  {
    var front := s[..|s| - 1];
    if |s| > 1 {
      LeadingDigitBound(front);
      assert Pow10(|s| - 1) == 10 * Pow10(|s| - 2);
    } else {
      assert Value(s) == 10 * Value(front) + DigitValue(s[0]);
    }
  }

  lemma {:induction false} RenderHasNoLeadingZero(n: nat)
    ensures n > 0 ==> Render(n)[0] != '0'
  {
    if n >= 10 {
      RenderHasNoLeadingZero(n / 10);
    }
  }

  /** Numerals of the same length denote different numbers unless they are equal. */
  lemma {:induction false} ValueInjective(s: string, t: string)
    requires AllDigits(s) && AllDigits(t) && |s| == |t| && Value(s) == Value(t)
    ensures s == t
  {
    if s != [] {
      var n := |s| - 1;
      assert DigitValue(s[n]) == Value(s) % 10 && DigitValue(t[n]) == Value(t) % 10;
      ValueInjective(s[..n], t[..n]);
      assert s == s[..n] + [s[n]] && t == t[..n] + [t[n]];
    }
  }
}
