/** JavaScript strings: sequences of 16-bit units, their length in UTF-8, and the order they sort by. */
module Utf16 {

  type Unit = n: int | 0 <= n < 0x10000

  type Text = seq<Unit>

  // -------- characters and their length in UTF-8 --------

  predicate High(u: Unit) {
    0xD800 <= u <= 0xDBFF
  }

  predicate Low(u: Unit) {
    0xDC00 <= u <= 0xDFFF
  }

  /** Does a text start with a surrogate pair? */
  predicate Pair(t: Text) {
    |t| > 1 && High(t[0]) && Low(t[1])
  }

  /** How many units the first character takes. */
  function Step(t: Text): (n: nat)
    requires |t| > 0
    ensures 1 <= n <= |t|
  {
    if Pair(t) then 2 else 1
  }

  function UnitBytes(u: Unit): nat {
    if u < 0x80 then 1 else if u < 0x800 then 2 else 3
  }

  /** How many bytes the first character takes; a lone surrogate becomes a replacement character. */
  function StepBytes(t: Text): (n: nat)
    requires |t| > 0
    ensures n >= 1
  {
    if Pair(t) then 4 else UnitBytes(t[0])
  }

  function UTF8Length(t: Text): nat {
    if |t| == 0 then 0 else StepBytes(t) + UTF8Length(t[Step(t)..])
  }

  /** Every surrogate is paired. */
  predicate ValidText(t: Text) {
    |t| == 0 || ((Pair(t) || (!High(t[0]) && !Low(t[0]))) && ValidText(t[Step(t)..]))
  }

  /** After text whose surrogates are paired, lengths add up. */
  lemma {:induction false} Join(a: Text, b: Text)
    requires ValidText(a)
    ensures UTF8Length(a + b) == UTF8Length(a) + UTF8Length(b)
    ensures ValidText(a + b) <==> ValidText(b)
  {
    if |a| == 0 {
      assert a + b == b;
    } else {
      var n := Step(a);
      assert Step(a + b) == n && StepBytes(a + b) == StepBytes(a);
      assert (a + b)[n..] == a[n..] + b;
      Join(a[n..], b);
    }
  }

  predicate Ascii(t: Text) {
    forall i :: 0 <= i < |t| ==> t[i] < 0x80
  }

  lemma {:induction false} AsciiLength(t: Text)
    requires Ascii(t)
    ensures ValidText(t) && UTF8Length(t) == |t|
  {
    if |t| > 0 { AsciiLength(t[1..]); }
  }

  // -------- order --------

  /** `a` comes strictly before `b`, unit by unit; a proper prefix comes first. */
  predicate Below(a: Text, b: Text) {
    if |b| == 0 then false
    else if |a| == 0 then true
    else if a[0] != b[0] then a[0] < b[0]
    else Below(a[1..], b[1..])
  }

  lemma {:induction false} BelowIrreflexive(a: Text)
    ensures !Below(a, a)
  {
    if |a| > 0 { BelowIrreflexive(a[1..]); }
  }

  lemma {:induction false} BelowTransitive(a: Text, b: Text, c: Text)
    requires Below(a, b) && Below(b, c)
    ensures Below(a, c)
  {
    if |a| > 0 && a[0] == b[0] == c[0] { BelowTransitive(a[1..], b[1..], c[1..]); }
  }

  lemma {:induction false} BelowTotal(a: Text, b: Text)
    ensures a == b || Below(a, b) || Below(b, a)
  {
    if |a| > 0 && |b| > 0 && a[0] == b[0] {
      BelowTotal(a[1..], b[1..]);
      if a[1..] == b[1..] { assert a == [a[0]] + a[1..] == [b[0]] + b[1..] == b; }
    }
  }
}
