/** Decimal digit strings and the numbers they spell. */
module Decimals {

  predicate IsDigit(c: char) {
    '0' <= c <= '9'
  }

  predicate AllDigits(s: string) {
    forall i :: 0 <= i < |s| ==> IsDigit(s[i])
  }

  function Digit(c: char): int {
    c as int - '0' as int
  }

  function DigitChar(d: nat): char
    requires d < 10
  {
    (d + '0' as int) as char
  }

  /** The natural number a digit string spells; 0 for the empty string. */
  function Nat(s: string): int {
    if |s| == 0 then 0 else 10 * Nat(s[..|s| - 1]) + Digit(s[|s| - 1])
  }

  function Pow10(n: nat): (p: nat)
    ensures p >= 1
  {
    if n == 0 then 1 else 10 * Pow10(n - 1)
  }

  /** The usual decimal spelling: no leading zero except for 0 itself. */
  function Itoa(n: nat): string {
    if n < 10 then [DigitChar(n)] else Itoa(n / 10) + [DigitChar(n % 10)]
  }

  lemma {:induction false} NatSnoc(s: string, c: char)
    ensures Nat(s + [c]) == 10 * Nat(s) + Digit(c)
  {
    assert (s + [c])[..|s|] == s;
  }

  lemma {:induction false} ItoaDigits(n: nat)
    ensures |Itoa(n)| > 0 && AllDigits(Itoa(n)) && Nat(Itoa(n)) == n
    ensures Itoa(n)[0] == '0' ==> |Itoa(n)| == 1
  {
    if n < 10 {
      NatSingle(DigitChar(n));
    } else {
      ItoaDigits(n / 10);
      NatSnoc(Itoa(n / 10), DigitChar(n % 10));
      SingleZero(Itoa(n / 10));
    }
  }

  lemma {:induction false} SingleZero(s: string)
    ensures |s| == 1 && s[0] == '0' ==> Nat(s) == 0
  {
    if |s| == 1 {
      assert s == [s[0]];
      NatSingle(s[0]);
    }
  }

  /** A signed integer as a base 10 string. */
  function IntString(n: int): string {
    if n < 0 then "-" + Itoa(-n) else Itoa(n)
  }

  lemma ItoaInjective(a: nat, b: nat)
    requires Itoa(a) == Itoa(b)
    ensures a == b
  {
    ItoaDigits(a);
    ItoaDigits(b);
  }

  lemma {:induction false} Pow10Add(a: nat, b: nat)
    ensures Pow10(a + b) == Pow10(a) * Pow10(b)
  {
    if a != 0 {
      Pow10Add(a - 1, b);
      assert Pow10(a) * Pow10(b) == 10 * (Pow10(a - 1) * Pow10(b));
    }
  }

  lemma TenTimes(x: int, y: int)
    ensures x * (10 * y) == 10 * (x * y)
  {
  }

  lemma {:induction false} NatConcat(a: string, b: string)
    ensures Nat(a + b) == Nat(a) * Pow10(|b|) + Nat(b)
  {
    if |b| == 0 {
      assert a + b == a;
    } else {
      var init := b[..|b| - 1];
      NatConcat(a, init);
      assert (a + b)[..|a + b| - 1] == a + init;
      assert (a + b)[|a + b| - 1] == b[|b| - 1];
      assert Nat(a + b) == 10 * Nat(a + init) + Digit(b[|b| - 1]);
      TenTimes(Nat(a), Pow10(|init|));
    }
  }

  lemma {:induction false} NatSingle(c: char)
    ensures Nat([c]) == Digit(c)
  {
    assert [c][..0] == "";
  }

  lemma {:induction false} NatBound(s: string)
    requires AllDigits(s)
    ensures Nat(s) < Pow10(|s|)
  {
    if |s| > 0 { NatBound(s[..|s| - 1]); }
  }

  /** A nonempty digit string without a leading zero is at least the power of ten of its length less one. */
  lemma {:induction false} NatAtLeast(s: string)
    requires AllDigits(s) && |s| > 0 && s[0] != '0'
    ensures Nat(s) >= Pow10(|s| - 1) >= 1
  {
    if |s| == 1 {
      assert |s[..0]| == 0;
    } else {
      NatAtLeast(s[..|s| - 1]);
    }
  }

  lemma {:induction false} Pow10Monotone(a: nat, b: nat)
    requires a <= b
    ensures Pow10(a) <= Pow10(b)
  {
    Pow10Add(a, b - a);
    assert Pow10(a) * Pow10(b - a) >= Pow10(a) by { if Pow10(b - a) > 1 { MulAtLeast(Pow10(a), Pow10(b - a)); } }
  }

  lemma MulAtLeast(a: nat, b: nat)
    requires b >= 1
    ensures a * b >= a
  {
  }

  /** Without leading zeros the spelling of a number is unique. */
  lemma {:induction false} DigitsUnique(a: string, b: string)
    requires AllDigits(a) && AllDigits(b) && Nat(a) == Nat(b)
    requires |a| > 0 ==> a[0] != '0'
    requires |b| > 0 ==> b[0] != '0'
    ensures a == b
  {
    SameLength(a, b);
    SameDigits(a, b);
  }

  lemma {:induction false} SameLength(a: string, b: string)
    requires AllDigits(a) && AllDigits(b) && Nat(a) == Nat(b)
    requires |a| > 0 ==> a[0] != '0'
    requires |b| > 0 ==> b[0] != '0'
    ensures |a| == |b|
  {
    if |a| > 0 { NatAtLeast(a); }
    if |b| > 0 { NatAtLeast(b); }
    NatBound(a);
    NatBound(b);
    if |a| < |b| {
      Pow10Monotone(|a|, |b| - 1);
    } else if |b| < |a| {
      Pow10Monotone(|b|, |a| - 1);
    }
  }

  lemma {:induction false} SameDigits(a: string, b: string)
    requires AllDigits(a) && AllDigits(b) && |a| == |b| && Nat(a) == Nat(b)
    ensures a == b
  {
    if |a| > 0 {
      var n := |a| - 1;
      assert 0 <= Digit(a[n]) < 10 && 0 <= Digit(b[n]) < 10;
      assert Nat(a[..n]) == Nat(b[..n]);
      SameDigits(a[..n], b[..n]);
      assert a == a[..n] + [a[n]] && b == b[..n] + [b[n]];
    }
  }
}
