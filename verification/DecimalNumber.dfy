/** The canonical spelling of a JSON number, and why it decides numeric equality. */
module DecimalNumber {
  import opened Wrappers
  import opened Decimals

  // -------- section 6 of RFC 8259 --------

  /** The parts of a number literal: sign, integer digits, fraction digits, exponent. */
  datatype Sign = NoSign | Plus | Minus
  datatype Exponent = Exponent(upper: bool, sign: Sign, digits: string)
  datatype Literal = Literal(negative: bool, int_: string, fraction: Option<string>, exponent: Option<Exponent>)

  predicate Legal(l: Literal) {
    && AllDigits(l.int_) && |l.int_| > 0 && (l.int_[0] == '0' ==> l.int_ == "0")
    && (l.fraction.Some? ==> |l.fraction.value| > 0 && AllDigits(l.fraction.value))
    && (l.exponent.Some? ==>
          && |l.exponent.value.digits| > 0 && AllDigits(l.exponent.value.digits))
  }

  function FractionText(l: Literal): string {
    if l.fraction.Some? then "." + l.fraction.value else ""
  }

  function SignText(s: Sign): string {
    match s
    case NoSign => ""
    case Plus => "+"
    case Minus => "-"
  }

  function Marker(x: Exponent): char {
    if x.upper then 'E' else 'e'
  }

  function TextOf(x: Exponent): string {
    [Marker(x)] + (SignText(x.sign) + x.digits)
  }

  function ExponentText(l: Literal): string {
    if l.exponent.Some? then TextOf(l.exponent.value) else ""
  }

  function Spell(l: Literal): string {
    (if l.negative then "-" else "") + l.int_ + FractionText(l) + ExponentText(l)
  }

  /** The number `m * 10^e`. */
  datatype Decimal = Decimal(m: int, e: int)

  function FractionDigits(l: Literal): string {
    if l.fraction.Some? then l.fraction.value else ""
  }

  function ExponentNumber(x: Exponent): int {
    if x.sign.Minus? then -Nat(x.digits) else Nat(x.digits)
  }

  function ExponentValue(l: Literal): int {
    if l.exponent.None? then 0 else ExponentNumber(l.exponent.value)
  }

  /** What a literal denotes. */
  function Value(l: Literal): Decimal {
    var m := Nat(l.int_ + FractionDigits(l));
    Decimal(if l.negative then -m else m, ExponentValue(l) - |FractionDigits(l)|)
  }

  /** Equal as rationals: brought to the smaller of the two exponents, the mantissas agree. */
  predicate SameNumber(a: Decimal, b: Decimal) {
    if a.e <= b.e then a.m == b.m * Pow10(b.e - a.e) else a.m * Pow10(a.e - b.e) == b.m
  }

  // -------- the normaliser --------

  /** The first index holding one of the two characters, or the length. */
  function IndexOf(s: string, c: char, d: char): (i: nat)
    ensures i <= |s|
  {
    if |s| == 0 || s[0] == c || s[0] == d then 0 else 1 + IndexOf(s[1..], c, d)
  }

  function TrimLeftZeros(s: string): (r: string)
    ensures |r| <= |s|
  {
    if |s| > 0 && s[0] == '0' then TrimLeftZeros(s[1..]) else s
  }

  function TrimRightZeros(s: string): (r: string)
    ensures |r| <= |s|
  {
    if |s| > 0 && s[|s| - 1] == '0' then TrimRightZeros(s[..|s| - 1]) else s
  }

  lemma {:induction false} TrimLeftShape(s: string)
    ensures |TrimLeftZeros(s)| == 0 || TrimLeftZeros(s)[0] != '0'
    ensures TrimLeftZeros(s) == s[|s| - |TrimLeftZeros(s)|..]
  {
    if |s| > 0 && s[0] == '0' { TrimLeftShape(s[1..]); }
  }

  lemma {:induction false} TrimRightShape(s: string)
    ensures |TrimRightZeros(s)| == 0 || TrimRightZeros(s)[|TrimRightZeros(s)| - 1] != '0'
    ensures TrimRightZeros(s) == s[..|TrimRightZeros(s)|]
    ensures |TrimRightZeros(s)| == 0 && |s| > 0 ==> s[0] == '0'
  {
    if |s| > 0 && s[|s| - 1] == '0' { TrimRightShape(s[..|s| - 1]); }
  }

  function TrimPlus(s: string): string {
    if |s| > 0 && s[0] == '+' then s[1..] else s
  }

  /** A base 10 integer with an optional sign; None when the text is no such integer. */
  function ParseInteger(s: string): Option<int> {
    var digits := if |s| > 0 && (s[0] == '-' || s[0] == '+') then s[1..] else s;
    if |digits| == 0 || !AllDigits(digits) then None
    else if s[0] == '-' then Some(-Nat(digits)) else Some(Nat(digits))
  }

  /** Drop the leading zeros, then move trailing zeros and fraction digits into the exponent. */
  function Compose(negative: bool, digits: string, exponent: int, fractionDigits: nat): string {
    var value := TrimLeftZeros(digits);
    if |value| == 0 then "0"
    else
      var kept := TrimRightZeros(value);
      (if negative then "-" else "") + kept + "e" + IntString(exponent - fractionDigits + (|value| - |kept|))
  }

  lemma Composed(negative: bool, digits: string, exponent: int, fractionDigits: nat, value: string, shifted: int)
    requires |TrimLeftZeros(digits)| > 0 && value == TrimRightZeros(TrimLeftZeros(digits))
    requires shifted == exponent - fractionDigits + (|TrimLeftZeros(digits)| - |value|)
    ensures Compose(negative, digits, exponent, fractionDigits) == (if negative then "-" else "") + value + "e" +
      IntString(shifted)
  {
  }

  /** The text before the exponent, and the exponent: 0 when there is none, None when it is no integer. */
  function SplitExponent(text: string): (string, Option<int>) {
    var at := IndexOf(text, 'e', 'E');
    if at < |text| then (text[..at], ParseInteger(TrimPlus(text[at + 1..]))) else (text, Some(0))
  }

  /** The digits without the point, and how many of them stood behind it. */
  function SplitFraction(text: string): (string, nat) {
    var at := IndexOf(text, '.', '.');
    if at < |text| then (text[..at] + text[at + 1..], |text| - at - 1) else (text, 0)
  }

  function Normalize(text: string): Result<string> {
    var negative := |text| > 0 && text[0] == '-';
    var (value, exponent) := SplitExponent(if negative then text[1..] else text);
    var (digits, fractionDigits) := SplitFraction(value);
    if exponent.None? then Failure("invalid JSON number exponent")
    else Success(Compose(negative, digits, exponent.value, fractionDigits))
  }

  /** The code, step by step: locals are rewritten in place until the canonical spelling is left. */
  method NormalizeJSONNumber(text: string) returns (r: Result<string>)
    ensures r == Normalize(text)
  {
    var value := text;
    var negative := |value| > 0 && value[0] == '-';
    if negative {
      value := value[1..];
    }
    var exponent;
    value, exponent := TakeExponent(value);
    if exponent.None? {
      return Failure("invalid JSON number exponent");
    }
    var fractionDigits;
    value, fractionDigits := TakeFraction(value);
    value := TrimAndCompose(negative, value, exponent.value, fractionDigits);
    return Success(value);
  }

  method TakeExponent(text: string) returns (value: string, exponent: Option<int>)
    ensures (value, exponent) == SplitExponent(text)
  {
    value, exponent := text, Some(0);
    var index := IndexOf(value, 'e', 'E');
    if index < |value| {
      exponent := ParseInteger(TrimPlus(value[index + 1..]));
      value := value[..index];
    }
  }

  method TakeFraction(text: string) returns (value: string, fractionDigits: nat)
    ensures (value, fractionDigits) == SplitFraction(text)
  {
    value, fractionDigits := text, 0;
    var index := IndexOf(value, '.', '.');
    if index < |value| {
      fractionDigits := |value| - index - 1;
      value := value[..index] + value[index + 1..];
    }
  }

  /** Zeros are trimmed and counted into the exponent. */
  method TrimAndCompose(negative: bool, digits: string, scale: int, fractionDigits: nat) returns (r: string)
    ensures r == Compose(negative, digits, scale, fractionDigits)
  {
    var value, exponent := digits, scale;
    value := TrimLeftZeros(value);
    if |value| == 0 {
      return "0";
    }
    ghost var stripped := value;
    exponent := exponent - fractionDigits;
    var trailing := |value| - |TrimRightZeros(value)|;
    if trailing > 0 {
      value := value[..|value| - trailing];
      exponent := exponent + trailing;
    }
    var prefix := if negative then "-" else "";
    TrimRightShape(stripped);
    Composed(negative, digits, scale, fractionDigits, value, exponent);
    return prefix + value + "e" + IntString(exponent);
  }
}
