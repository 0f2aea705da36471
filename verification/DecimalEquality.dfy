/** `Normalize` decides equality of numbers, on every literal section 6 of RFC 8259 allows. */
module DecimalEquality {
  import opened Wrappers
  import opened Decimals
  import opened DecimalNumber

  // -------- arithmetic of m * 10^e --------

  /** The mantissa of `x` at an exponent no larger than its own. */
  function Scaled(x: Decimal, e: int): int
    requires e <= x.e
  {
    x.m * Pow10(x.e - e)
  }

  lemma {:induction false} ScaledLower(x: Decimal, e: int, lower: int)
    requires lower <= e <= x.e
    ensures Scaled(x, lower) == Scaled(x, e) * Pow10(e - lower)
  {
    Pow10Add(x.e - e, e - lower);
    Associate(x.m, Pow10(x.e - e), Pow10(e - lower));
  }

  lemma Associate(a: int, b: int, c: int)
    ensures a * (b * c) == (a * b) * c
  {
  }

  lemma CancelFactor(a: int, b: int, p: int)
    requires p >= 1 && a * p == b * p
    ensures a == b
  {
    assert (a - b) * p == 0;
  }

  /** Equality may be tested at any exponent below both. */
  lemma {:induction false} SameAt(a: Decimal, b: Decimal, e: int)
    requires e <= a.e && e <= b.e
    ensures SameNumber(a, b) <==> Scaled(a, e) == Scaled(b, e)
  {
    var least := if a.e <= b.e then a.e else b.e;
    ScaledLower(a, least, e);
    ScaledLower(b, least, e);
    if Scaled(a, e) == Scaled(b, e) {
      CancelFactor(Scaled(a, least), Scaled(b, least), Pow10(least - e));
    }
    assert Pow10(0) == 1;
  }

  lemma {:induction false} SameTransitive(a: Decimal, b: Decimal, c: Decimal)
    requires SameNumber(a, b) && SameNumber(b, c)
    ensures SameNumber(a, c)
  {
    var ab := if a.e <= b.e then a.e else b.e;
    var e := if ab <= c.e then ab else c.e;
    SameAt(a, b, e);
    SameAt(b, c, e);
    SameAt(a, c, e);
  }

  lemma {:induction false} SameSymmetric(a: Decimal, b: Decimal)
    requires SameNumber(a, b)
    ensures SameNumber(b, a)
  {
    var e := if a.e <= b.e then a.e else b.e;
    SameAt(a, b, e);
    SameAt(b, a, e);
  }

  lemma {:induction false} Pow10Even(n: nat)
    requires n > 0
    ensures Pow10(n) % 10 == 0
  {
  }

  lemma MultipleOfTen(m: int, p: int)
    requires p % 10 == 0
    ensures (m * p) % 10 == 0
  {
    var q := p / 10;
    assert p == 10 * q;
    assert m * p == 10 * (m * q);
  }

  /** A number whose mantissa is no multiple of ten is spelled by one pair only. */
  lemma {:induction false} ReducedUnique(a: Decimal, b: Decimal)
    requires a.m % 10 != 0 && b.m % 10 != 0 && SameNumber(a, b)
    ensures a == b
  {
    if a.e < b.e {
      Pow10Even(b.e - a.e);
      MultipleOfTen(b.m, Pow10(b.e - a.e));
    } else if b.e < a.e {
      Pow10Even(a.e - b.e);
      MultipleOfTen(a.m, Pow10(a.e - b.e));
    } else {
      assert Pow10(0) == 1;
    }
  }

  // -------- trimming --------

  lemma {:induction false} TrimLeftValue(s: string)
    requires AllDigits(s)
    ensures Nat(TrimLeftZeros(s)) == Nat(s)
  {
    if |s| > 0 && s[0] == '0' {
      var rest := s[1..];
      TrimLeftValue(rest);
      assert s == [s[0]] + rest;
      NatConcat([s[0]], rest);
      NatSingle(s[0]);
      assert Nat(s) == 0 * Pow10(|rest|) + Nat(rest) == Nat(rest);
      assert TrimLeftZeros(s) == TrimLeftZeros(rest);
    }
  }

  lemma {:induction false} TrimRightValue(s: string)
    requires AllDigits(s)
    ensures Nat(s) == Nat(TrimRightZeros(s)) * Pow10(|s| - |TrimRightZeros(s)|)
  {
    if |s| > 0 && s[|s| - 1] == '0' {
      var init := s[..|s| - 1];
      TrimRightValue(init);
      TenTimes(Nat(TrimRightZeros(init)), Pow10(|init| - |TrimRightZeros(init)|));
    }
  }

  /** The digits kept are empty for zero, and else neither begin nor end with a zero. */
  function Kept(digits: string): string {
    TrimRightZeros(TrimLeftZeros(digits))
  }

  lemma {:induction false} KeptShape(digits: string)
    requires AllDigits(digits)
    ensures AllDigits(Kept(digits))
    ensures |TrimLeftZeros(digits)| == 0 <==> Nat(digits) == 0
    ensures |TrimLeftZeros(digits)| > 0 ==> |Kept(digits)| > 0 && Kept(digits)[0] != '0' && Nat(Kept(digits)) % 10 != 0
    ensures Nat(digits) == Nat(Kept(digits)) * Pow10(|TrimLeftZeros(digits)| - |Kept(digits)|)
  {
    var value := TrimLeftZeros(digits);
    TrimLeftShape(digits);
    TrimRightShape(value);
    TrimLeftValue(digits);
    TrimRightValue(value);
    if |value| > 0 {
      NatAtLeast(value);
      TrimmedReduced(value, TrimRightZeros(value));
    }
  }

  lemma {:induction false} TrimmedReduced(value: string, kept: string)
    requires AllDigits(value) && |value| > 0 && value[0] != '0' && kept == TrimRightZeros(value)
    ensures AllDigits(kept) && |kept| > 0 && kept[0] != '0' && Nat(kept) % 10 != 0
  {
    TrimRightShape(value);
    assert kept[0] == value[0];
    var last := kept[|kept| - 1];
    assert last == value[|kept| - 1] && IsDigit(last) && last != '0';
    assert Nat(kept) == 10 * Nat(kept[..|kept| - 1]) + Digit(last);
  }

  // -------- the normaliser on literals --------

  lemma {:induction false} IndexOfAt(prefix: string, rest: string, c: char, d: char)
    requires forall i :: 0 <= i < |prefix| ==> prefix[i] != c && prefix[i] != d
    requires |rest| == 0 || rest[0] == c || rest[0] == d
    ensures IndexOf(prefix + rest, c, d) == |prefix|
  {
    if |prefix| == 0 {
      assert prefix + rest == rest;
    } else {
      assert (prefix + rest)[1..] == prefix[1..] + rest;
      IndexOfAt(prefix[1..], rest, c, d);
    }
  }

  lemma {:induction false} ExponentOf(x: Exponent)
    requires |x.digits| > 0 && AllDigits(x.digits)
    ensures ParseInteger(TrimPlus(SignText(x.sign) + x.digits)) == Some(ExponentNumber(x))
  {
    var text := SignText(x.sign) + x.digits;
    assert IsDigit(x.digits[0]);
    if x.sign.NoSign? {
      assert text == x.digits;
    } else {
      assert text[1..] == x.digits;
    }
  }

  function Mantissa(l: Literal): string {
    l.int_ + FractionText(l)
  }

  lemma {:induction false} LiteralSign(l: Literal)
    requires Legal(l)
    ensures |Spell(l)| > 0 && (Spell(l)[0] == '-' <==> l.negative)
    ensures (if l.negative then Spell(l)[1..] else Spell(l)) == Mantissa(l) + ExponentText(l)
  {
    var unsigned := Mantissa(l) + ExponentText(l);
    AssociateText(if l.negative then "-" else "", l.int_, FractionText(l), ExponentText(l));
    SignedText(l.negative, unsigned, l.int_[0]);
  }

  lemma AssociateText(s: string, i: string, f: string, x: string)
    ensures s + i + f + x == s + ((i + f) + x)
  {
  }

  lemma SignedText(negative: bool, unsigned: string, first: char)
    requires |unsigned| > 0 && unsigned[0] == first && IsDigit(first)
    ensures var text := (if negative then "-" else "") + unsigned;
      |text| > 0 && (text[0] == '-' <==> negative) && (if negative then text[1..] else text) == unsigned
  {
  }

  lemma {:induction false} MantissaPlain(l: Literal)
    requires Legal(l)
    ensures forall i :: 0 <= i < |Mantissa(l)| ==> Mantissa(l)[i] != 'e' && Mantissa(l)[i] != 'E'
  {
  }

  lemma {:induction false} SplitExponentAt(m: string, marker: char, tail: string)
    requires forall i :: 0 <= i < |m| ==> m[i] != 'e' && m[i] != 'E'
    requires marker == 'e' || marker == 'E'
    ensures SplitExponent(m + ([marker] + tail)) == (m, ParseInteger(TrimPlus(tail)))
  {
    var x := [marker] + tail;
    var text := m + x;
    IndexOfAt(m, x, 'e', 'E');
    assert text[..|m|] == m;
    assert text[|m| + 1..] == tail;
  }

  lemma {:induction false} SplitExponentNone(m: string)
    requires forall i :: 0 <= i < |m| ==> m[i] != 'e' && m[i] != 'E'
    ensures SplitExponent(m) == (m, Some(0))
  {
    IndexOfAt(m, "", 'e', 'E');
    assert m + "" == m;
  }

  lemma {:induction false} ExponentBehind(m: string, x: Exponent)
    requires forall i :: 0 <= i < |m| ==> m[i] != 'e' && m[i] != 'E'
    requires |x.digits| > 0 && AllDigits(x.digits)
    ensures SplitExponent(m + TextOf(x)) == (m, Some(ExponentNumber(x)))
  {
    SplitExponentAt(m, Marker(x), SignText(x.sign) + x.digits);
    ExponentOf(x);
  }

  lemma {:induction false} LiteralExponent(l: Literal)
    requires Legal(l)
    ensures SplitExponent(Mantissa(l) + ExponentText(l)) == (Mantissa(l), Some(ExponentValue(l)))
  {
    MantissaPlain(l);
    if l.exponent.Some? {
      ExponentBehind(Mantissa(l), l.exponent.value);
    } else {
      SplitExponentNone(Mantissa(l));
      assert Mantissa(l) + "" == Mantissa(l);
    }
  }

  lemma {:induction false} LiteralFraction(l: Literal)
    requires Legal(l)
    ensures SplitFraction(Mantissa(l)) == (l.int_ + FractionDigits(l), |FractionDigits(l)|)
  {
    var f := FractionText(l);
    IndexOfAt(l.int_, f, '.', '.');
    assert (l.int_ + f)[..|l.int_|] == l.int_;
    if l.fraction.Some? {
      assert (l.int_ + f)[|l.int_| + 1..] == l.fraction.value;
    } else {
      assert l.int_ + f == l.int_ + FractionDigits(l) == l.int_;
    }
  }

  /** On a literal the normaliser sees exactly its sign, digits, exponent and fraction length. */
  lemma {:induction false} NormalizeLiteral(l: Literal)
    requires Legal(l)
    ensures Normalize(Spell(l)) ==
      Success(Compose(l.negative, l.int_ + FractionDigits(l), ExponentValue(l), |FractionDigits(l)|))
  {
    LiteralSign(l);
    LiteralExponent(l);
    LiteralFraction(l);
  }

  // -------- the canonical literal --------

  function IntLiteralExponent(e: int): Exponent {
    Exponent(false, if e < 0 then Minus else NoSign, Itoa(if e < 0 then -e else e))
  }

  function ReducedLiteral(negative: bool, kept: string, e: int): Literal {
    Literal(negative, kept, None, Some(IntLiteralExponent(e)))
  }

  const ZERO := Literal(false, "0", None, None)

  /** How far trimming the trailing zeros moves the exponent. */
  function Shift(digits: string): nat {
    |TrimLeftZeros(digits)| - |Kept(digits)|
  }

  function Digits(l: Literal): string {
    l.int_ + FractionDigits(l)
  }

  function CanonicalExponent(l: Literal): int {
    ExponentValue(l) - |FractionDigits(l)| + Shift(Digits(l))
  }

  /** The literal the normaliser writes for `l`. */
  function Canonical(l: Literal): Literal {
    if |TrimLeftZeros(Digits(l))| == 0 then ZERO
    else ReducedLiteral(l.negative, Kept(Digits(l)), CanonicalExponent(l))
  }

  /** Digits that neither begin nor end with a zero. */
  predicate Reduced(kept: string) {
    AllDigits(kept) && |kept| > 0 && kept[0] != '0' && Nat(kept) % 10 != 0
  }

  lemma {:induction false} IntStringParts(e: int)
    ensures IntString(e) == SignText(IntLiteralExponent(e).sign) + IntLiteralExponent(e).digits
  {
    if e >= 0 { assert "" + Itoa(e) == Itoa(e); }
  }

  lemma ConcatFour(a: string, b: string, c: string, d: string)
    ensures a + b + "" + (c + d) == a + b + c + d
  {
  }

  lemma {:induction false} ReducedSpelling(negative: bool, kept: string, e: int)
    ensures Spell(ReducedLiteral(negative, kept, e)) == (if negative then "-" else "") + kept + "e" + IntString(e)
  {
    IntStringParts(e);
    ConcatFour(if negative then "-" else "", kept, "e", IntString(e));
  }

  lemma {:induction false} ReducedParts(negative: bool, kept: string, e: int)
    requires Reduced(kept)
    ensures Legal(ReducedLiteral(negative, kept, e))
    ensures ExponentValue(ReducedLiteral(negative, kept, e)) == e
  {
    ItoaDigits(if e < 0 then -e else e);
  }

  function Signed(negative: bool, m: int): int {
    if negative then -m else m
  }

  lemma {:induction false} ReducedValue(negative: bool, kept: string, e: int)
    ensures Value(ReducedLiteral(negative, kept, e)) == Decimal(Signed(negative, Nat(kept)), e)
  {
    ItoaDigits(if e < 0 then -e else e);
    assert kept + "" == kept;
  }

  lemma {:induction false} ZeroValue()
    ensures Value(ZERO) == Decimal(0, 0)
  {
    NatSingle('0');
    assert "0" + "" == "0" == ['0'];
  }

  lemma {:induction false} KeptReduced(l: Literal)
    requires Legal(l) && |TrimLeftZeros(Digits(l))| > 0
    ensures Reduced(Kept(Digits(l)))
  {
    KeptShape(Digits(l));
  }

  lemma {:induction false} CanonicalLegal(l: Literal)
    requires Legal(l)
    ensures Legal(Canonical(l)) && Normalize(Spell(l)) == Success(Spell(Canonical(l)))
  {
    NormalizeLiteral(l);
    if |TrimLeftZeros(Digits(l))| > 0 {
      KeptReduced(l);
      var kept, e := Kept(Digits(l)), CanonicalExponent(l);
      Composed(l.negative, Digits(l), ExponentValue(l), |FractionDigits(l)|, kept, e);
      ReducedSpelling(l.negative, kept, e);
      ReducedParts(l.negative, kept, e);
    } else {
      SpellZero();
    }
  }

  lemma SpellZero()
    ensures Legal(ZERO) && Spell(ZERO) == "0" && Mantissa(ZERO) == "0" && ExponentText(ZERO) == ""
  {
  }

  lemma NegateProduct(a: int, b: int)
    ensures (-a) * b == -(a * b)
  {
  }

  lemma {:induction false} Shifted(m: int, p: int, kept: int, negative: bool, e: int, shift: nat)
    requires m == kept * p && p == Pow10(shift)
    ensures SameNumber(Decimal(Signed(negative, m), e), Decimal(Signed(negative, kept), e + shift))
  {
    NegateProduct(kept, p);
  }

  lemma ValueIs(l: Literal)
    ensures Value(l) == Decimal(Signed(l.negative, Nat(Digits(l))), ExponentValue(l) - |FractionDigits(l)|)
  {
  }

  lemma {:induction false} CanonicalValue(l: Literal)
    requires Legal(l)
    ensures SameNumber(Value(l), Value(Canonical(l)))
  {
    KeptShape(Digits(l));
    ValueIs(l);
    var v := Value(l);
    if |TrimLeftZeros(Digits(l))| == 0 {
      ZeroValue();
      ZeroSame(v.e);
    } else {
      var kept, shift := Kept(Digits(l)), Shift(Digits(l));
      Shifted(Nat(Digits(l)), Pow10(shift), Nat(kept), l.negative, v.e, shift);
      ReducedValue(l.negative, kept, CanonicalExponent(l));
      assert Canonical(l) == ReducedLiteral(l.negative, kept, v.e + shift);
    }
  }

  lemma ZeroSame(e: int)
    ensures SameNumber(Decimal(0, e), Decimal(0, 0))
  {
  }

  /** Reduced literals for one number are one literal, and none of them is zero. */
  lemma {:induction false} SameReduced(n: bool, k: string, e: int, n': bool, k': string, e': int)
    requires Reduced(k) && Reduced(k')
    requires SameNumber(Decimal(Signed(n, Nat(k)), e), Decimal(Signed(n', Nat(k')), e'))
    ensures n == n' && k == k' && e == e'
  {
    var m, m' := Nat(k), Nat(k');
    NatAtLeast(k);
    NatAtLeast(k');
    NegatedRemainder(m);
    NegatedRemainder(m');
    ReducedUnique(Decimal(Signed(n, m), e), Decimal(Signed(n', m'), e'));
    assert n == n' && m == m';
    DigitsUnique(k, k');
  }

  lemma NegatedRemainder(a: int)
    ensures a % 10 != 0 ==> (-a) % 10 != 0
  {
  }

  lemma {:induction false} NeverZero(k: string, e: int, n: bool)
    requires Reduced(k)
    ensures !SameNumber(Decimal(Signed(n, Nat(k)), e), Decimal(0, 0))
    ensures !SameNumber(Decimal(0, 0), Decimal(Signed(n, Nat(k)), e))
  {
    var a, b := Decimal(Signed(n, Nat(k)), e), Decimal(0, 0);
    if SameNumber(a, b) || SameNumber(b, a) {
      if e > 0 { CancelFactor(a.m, 0, Pow10(e)); }
    }
  }

  /** Canonical literals for one number are one literal. */
  lemma {:induction false} SameCanonical(a: Literal, b: Literal)
    requires Legal(a) && Legal(b) && SameNumber(Value(Canonical(a)), Value(Canonical(b)))
    ensures Canonical(a) == Canonical(b)
  {
    ZeroValue();
    var zeroA, zeroB := |TrimLeftZeros(Digits(a))| == 0, |TrimLeftZeros(Digits(b))| == 0;
    if !zeroA {
      KeptReduced(a);
      ReducedValue(a.negative, Kept(Digits(a)), CanonicalExponent(a));
      NeverZero(Kept(Digits(a)), CanonicalExponent(a), a.negative);
    }
    if !zeroB {
      KeptReduced(b);
      ReducedValue(b.negative, Kept(Digits(b)), CanonicalExponent(b));
      NeverZero(Kept(Digits(b)), CanonicalExponent(b), b.negative);
    }
    if !zeroA && !zeroB {
      SameReduced(a.negative, Kept(Digits(a)), CanonicalExponent(a), b.negative, Kept(Digits(b)), CanonicalExponent(b));
    }
  }

  /** The text of a legal literal determines its sign, mantissa text and exponent. */
  lemma {:induction false} SameText(a: Literal, b: Literal)
    requires Legal(a) && Legal(b) && Spell(a) == Spell(b)
    ensures a.negative == b.negative && Mantissa(a) == Mantissa(b) && ExponentValue(a) == ExponentValue(b)
  {
    LiteralSign(a);
    LiteralSign(b);
    LiteralExponent(a);
    LiteralExponent(b);
  }

  lemma {:induction false} ReducedMantissa(n: bool, k: string, e: int)
    ensures Mantissa(ReducedLiteral(n, k, e)) == k
  {
  }

  /** The text of a canonical literal determines it. */
  lemma {:induction false} SpellInjective(a: Literal, b: Literal)
    requires Legal(a) && Legal(b) && Spell(Canonical(a)) == Spell(Canonical(b))
    ensures Canonical(a) == Canonical(b)
  {
    CanonicalLegal(a);
    CanonicalLegal(b);
    SameText(Canonical(a), Canonical(b));
    SpellZero();
    var zeroA, zeroB := |TrimLeftZeros(Digits(a))| == 0, |TrimLeftZeros(Digits(b))| == 0;
    if !zeroA {
      KeptReduced(a);
      ReducedMantissa(a.negative, Kept(Digits(a)), CanonicalExponent(a));
      ReducedParts(a.negative, Kept(Digits(a)), CanonicalExponent(a));
    }
    if !zeroB {
      KeptReduced(b);
      ReducedMantissa(b.negative, Kept(Digits(b)), CanonicalExponent(b));
      ReducedParts(b.negative, Kept(Digits(b)), CanonicalExponent(b));
    }
  }

  // -------- the theorems --------

  /** The output is a literal for the same number, and normalising it again changes nothing. */
  lemma {:induction false} DenotesAndIsIdempotent(l: Literal)
    requires Legal(l)
    ensures var c := Canonical(l);
      && Legal(c) && Normalize(Spell(l)) == Success(Spell(c))
      && SameNumber(Value(c), Value(l))
      && Normalize(Spell(c)) == Success(Spell(c))
  {
    CanonicalLegal(l);
    CanonicalValue(l);
    SameSymmetric(Value(l), Value(Canonical(l)));
    DecidesEquality(l, Canonical(l));
  }

  /** Two literals normalise to the same text exactly when they denote the same number. */
  lemma {:induction false} DecidesEquality(a: Literal, b: Literal)
    requires Legal(a) && Legal(b)
    ensures Normalize(Spell(a)) == Normalize(Spell(b)) <==> SameNumber(Value(a), Value(b))
  {
    CanonicalLegal(a);
    CanonicalLegal(b);
    CanonicalValue(a);
    CanonicalValue(b);
    var ca, cb := Canonical(a), Canonical(b);
    if SameNumber(Value(a), Value(b)) {
      SameSymmetric(Value(a), Value(ca));
      SameTransitive(Value(ca), Value(a), Value(b));
      SameTransitive(Value(ca), Value(b), Value(cb));
      SameCanonical(a, b);
    } else if Spell(ca) == Spell(cb) {
      SpellInjective(a, b);
      SameSymmetric(Value(b), Value(cb));
      SameTransitive(Value(a), Value(ca), Value(b));
    }
  }
}
