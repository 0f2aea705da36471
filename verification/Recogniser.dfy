/**
 The client's recogniser of unambiguous JSON: it refuses a text that is not JSON, nests deeper than 64 containers, or
 names a member of one object twice.
 */
module Recogniser {
  import opened Utf16
  import opened Wrappers
  import opened JSONTree

  const MAX_NESTING: nat := 64

  // -------- what it accepts --------

  predicate Space(u: Unit) {
    u == 0x09 || u == 0x0A || u == 0x0D || u == 0x20
  }

  function AfterSpace(t: Text): (rest: Text)
    ensures |rest| <= |t|
  {
    if |t| > 0 && Space(t[0]) then AfterSpace(t[1..]) else t
  }

  predicate Starts(t: Text, u: Unit) {
    |t| > 0 && t[0] == u
  }

  predicate HexDigit(u: Unit) {
    Digit(u) || 0x41 <= u <= 0x46 || 0x61 <= u <= 0x66
  }

  function HexValue(u: Unit): (n: nat)
    requires HexDigit(u)
    ensures n < 16
  {
    if Digit(u) then u - 0x30 else if u <= 0x46 then u - 0x37 else u - 0x57
  }

  /** What a short escape stands for. */
  function ShortEscape(u: Unit): Option<Unit> {
    if u == 0x22 || u == 0x5C || u == 0x2F then Some(u)
    else if u == 0x62 then Some(0x08)
    else if u == 0x66 then Some(0x0C)
    else if u == 0x6E then Some(0x0A)
    else if u == 0x72 then Some(0x0D)
    else if u == 0x74 then Some(0x09)
    else None
  }

  predicate LongEscape(t: Text) {
    |t| >= 6 && t[1] == 0x75 && HexDigit(t[2]) && HexDigit(t[3]) && HexDigit(t[4]) && HexDigit(t[5])
  }

  function LongEscapeUnit(t: Text): Unit
    requires LongEscape(t)
  {
    HexValue(t[2]) * 0x1000 + HexValue(t[3]) * 0x100 + HexValue(t[4]) * 0x10 + HexValue(t[5])
  }

  /** A string's content and what follows its closing quote. */
  datatype Token = Token(content: Text, rest: Text)

  function Before(u: Unit, token: Option<Token>): Option<Token> {
    if token.None? then None else Some(Token([u] + token.value.content, token.value.rest))
  }

  /** The string whose opening quote was just passed. */
  function StringTail(t: Text): (token: Option<Token>)
    ensures token.Some? ==> |token.value.rest| < |t|
  {
    if |t| == 0 then None
    else if t[0] == 0x22 then Some(Token([], t[1..]))
    else if t[0] < 0x20 then None
    else if t[0] != 0x5C then Before(t[0], StringTail(t[1..]))
    else if |t| < 2 then None
    else if ShortEscape(t[1]).Some? then Before(ShortEscape(t[1]).value, StringTail(t[2..]))
    else if LongEscape(t) then Before(LongEscapeUnit(t), StringTail(t[6..]))
    else None
  }

  function AfterString(t: Text): (token: Option<Token>)
    ensures token.Some? ==> |token.value.rest| < |t|
  {
    if Starts(t, 0x22) then StringTail(t[1..]) else None
  }

  function AfterScalar(t: Text): (rest: Option<Text>)
    ensures rest.Some? ==> |rest.value| < |t|
  {
    if TRUE <= t then Some(t[4..])
    else if FALSE <= t then Some(t[5..])
    else if NULL <= t then Some(t[4..])
    else AfterNumber(t)
  }

  /** What follows the value `t` starts with; `depth` counts the containers it would be the innermost of. */
  function AfterValue(t: Text, depth: nat): (rest: Option<Text>)
    ensures rest.Some? ==> |rest.value| < |t|
    decreases |t|, 1
  {
    var s := AfterSpace(t);
    if (Starts(s, 0x7B) || Starts(s, 0x5B)) && depth > MAX_NESTING then None
    else if Starts(s, 0x7B) then
      var first := AfterSpace(s[1..]);
      if Starts(first, 0x7D) then Some(first[1..]) else AfterFields(first, {}, depth)
    else if Starts(s, 0x5B) then
      var first := AfterSpace(s[1..]);
      if Starts(first, 0x5D) then Some(first[1..]) else AfterItems(first, depth)
    else if Starts(s, 0x22) then
      var token := AfterString(s);
      if token.None? then None else Some(token.value.rest)
    else AfterScalar(s)
  }

  /** What follows the object whose next member `t` starts with. */
  function AfterFields(t: Text, seen: set<Text>, depth: nat): (rest: Option<Text>)
    ensures rest.Some? ==> |rest.value| < |t|
    decreases |t|, 2
  {
    var name := AfterString(t);
    if name.None? || name.value.content in seen then None else
    var colon := AfterSpace(name.value.rest);
    if !Starts(colon, 0x3A) then None else
    var value := AfterValue(colon[1..], depth + 1);
    if value.None? then None else
    var next := AfterSpace(value.value);
    if Starts(next, 0x7D) then Some(next[1..])
    else if Starts(next, 0x2C) then AfterFields(AfterSpace(next[1..]), seen + {name.value.content}, depth)
    else None
  }

  /** What follows the array whose next item `t` starts with. */
  function AfterItems(t: Text, depth: nat): (rest: Option<Text>)
    ensures rest.Some? ==> |rest.value| < |t|
    decreases |t|, 2
  {
    var value := AfterValue(t, depth + 1);
    if value.None? then None else
    var next := AfterSpace(value.value);
    if Starts(next, 0x5D) then Some(next[1..])
    else if Starts(next, 0x2C) then AfterItems(next[1..], depth)
    else None
  }

  predicate Accepts(text: Text) {
    var rest := AfterValue(AfterSpace(text), 1);
    rest.Some? && AfterSpace(rest.value) == []
  }

  // -------- printed trees --------

  lemma HexBack(n: nat)
    requires n < 16
    ensures HexDigit(Hex(n)) && HexValue(Hex(n)) == n
  {
  }

  lemma Regroup(a: Text, b: Text, c: Text)
    ensures (a + b) + c == a + (b + c)
  {
  }

  /** A printed string reads back as itself. */
  lemma {:induction false} EscapedBack(t: Text, rest: Text)
    ensures StringTail(Escaped(t) + ([0x22] + rest)) == Some(Token(t, rest))
  {
    var after := [0x22] + rest;
    if |t| == 0 {
      assert Escaped(t) + after == after && after[1..] == rest;
    } else {
      EscapedBack(t[1..], rest);
      EscapeBack(t[0], Escaped(t[1..]) + after);
      assert Escaped(t) == Escape(t[0]) + Escaped(t[1..]);
      assert Before(t[0], Some(Token(t[1..], rest))) == Some(Token([t[0]] + t[1..], rest));
      hide *;
      Regroup(Escape(t[0]), Escaped(t[1..]), after);
      assert [t[0]] + t[1..] == t;
    }
  }

  lemma {:induction false} EscapeBack(u: Unit, tail: Text)
    ensures StringTail(Escape(u) + tail) == Before(u, StringTail(tail))
  {
    var e := Escape(u);
    var s := e + tail;
    assert s[|e|..] == tail;
    assert forall i :: 0 <= i < |e| ==> s[i] == e[i];
    if |e| == 6 {
      HexBack(0);
      HexBack(u / 16);
      HexBack(u % 16);
    }
  }

  lemma {:induction false} QuoteBack(t: Text, rest: Text)
    ensures AfterString(Quote(t) + rest) == Some(Token(t, rest))
  {
    EscapedBack(t, rest);
    assert Quote(t) == [0x22] + Escaped(t) + [0x22];
    hide Quote, Escaped, StringTail;
    Regroup([0x22] + Escaped(t), [0x22], rest);
    Regroup([0x22], Escaped(t), [0x22] + rest);
    assert ([0x22] + (Escaped(t) + ([0x22] + rest)))[1..] == Escaped(t) + ([0x22] + rest);
  }

  /** What may follow a value inside a printed text. */
  predicate Stops(rest: Text) {
    |rest| == 0 || rest[0] == 0x2C || rest[0] == 0x5D || rest[0] == 0x7D
  }

  lemma {:induction false} DigitsStop(t: Text, rest: Text)
    requires |rest| == 0 || !Digit(rest[0])
    ensures AfterDigits(t) == [] ==> AfterDigits(t + rest) == rest
    ensures |AfterDigits(t)| > 0 ==> AfterDigits(t + rest) == AfterDigits(t) + rest
  {
    if |t| == 0 {
      assert t + rest == rest;
    } else if Digit(t[0]) {
      assert (t + rest)[1..] == t[1..] + rest;
      DigitsStop(t[1..], rest);
    }
  }

  /** A number is read to its end whatever may follow it. */
  lemma {:induction false} NumberBack(t: NumberText, rest: Text)
    requires Stops(rest)
    ensures AfterNumber(t + rest) == Some(rest)
  {
    var unsigned := AfterSign(t);
    assert AfterSign(t + rest) == unsigned + rest by {
      if unsigned != t { assert (t + rest)[1..] == t[1..] + rest; }
    }
    var whole := AfterInteger(unsigned).value;
    assert (unsigned + rest)[1..] == unsigned[1..] + rest;
    DigitsStop(unsigned[1..], rest);
    assert whole == [] ==> whole + rest == rest;
    assert AfterInteger(unsigned + rest) == Some(whole + rest);
    FractionStop(whole, rest);
    ExponentStop(AfterFraction(whole), rest);
  }

  lemma {:induction false} FractionStop(t: Text, rest: Text)
    requires Stops(rest) && (|t| > 0 ==> t != [0x2E])
    ensures AfterFraction(t + rest) == AfterFraction(t) + rest
  {
    if |t| == 0 {
      assert t + rest == rest;
    } else {
      assert (t + rest)[1..] == t[1..] + rest;
      DigitsStop(t[1..], rest);
      if |t| > 1 && t[0] == 0x2E && Digit(t[1]) && AfterDigits(t[1..]) == [] { assert [] + rest == rest; }
    }
  }

  lemma {:induction false} ExponentStop(t: Text, rest: Text)
    requires Stops(rest) && AfterExponent(t) == []
    ensures AfterExponent(t + rest) == rest
  {
    if |t| == 0 {
      assert t + rest == rest;
    } else {
      assert (t + rest)[1..] == t[1..] + rest;
      DigitsStop(t[1..], rest);
      if !Digit(t[1]) {
        assert (t + rest)[2..] == t[2..] + rest;
        DigitsStop(t[2..], rest);
      }
    }
  }

  /** Every number in the tree is one that prints. */
  predicate Printable(v: Value)
    decreases v
  {
    match v
    case Number(printed) => printed.Some?
    case Array(items) => forall i :: 0 <= i < |items| ==> Printable(items[i])
    case Object(fields) => forall i :: 0 <= i < |fields| ==> Printable(fields[i].value)
    case _ => true
  }

  /** No object names a member twice, and below `depth - 1` containers the tree stays within the nesting limit. */
  predicate Passes(v: Value, depth: nat) {
    Unambiguous(v) && (Depth(v) == 0 || depth + Depth(v) <= MAX_NESTING + 1)
  }

  predicate ItemsPass(items: seq<Value>, depth: nat) {
    |items| == 0 || (Passes(items[0], depth) && ItemsPass(items[1..], depth))
  }

  predicate FieldsPass(fields: seq<Field>, seen: set<Text>, depth: nat) {
    |fields| == 0 ||
    (fields[0].name !in seen && Passes(fields[0].value, depth)
      && FieldsPass(fields[1..], seen + {fields[0].name}, depth))
  }

  lemma {:induction false} ItemsPassEach(items: seq<Value>, depth: nat)
    requires depth <= MAX_NESTING + 1
    ensures ItemsPass(items, depth) <==>
      ((forall i :: 0 <= i < |items| ==> Unambiguous(items[i])) && depth + ItemsDepth(items) <= MAX_NESTING + 1)
  {
    if |items| > 0 {
      ItemsPassEach(items[1..], depth);
      assert forall i :: 0 < i < |items| ==> items[i] == items[1..][i - 1];
    }
  }

  ghost predicate Unseen(fields: seq<Field>, seen: set<Text>) {
    forall i :: 0 <= i < |fields| ==> fields[i].name !in seen
  }

  lemma {:induction false} FieldsPassEach(fields: seq<Field>, seen: set<Text>, depth: nat)
    requires depth <= MAX_NESTING + 1
    ensures FieldsPass(fields, seen, depth) <==>
      (DistinctNames(fields) && Unseen(fields, seen) &&
      (forall i :: 0 <= i < |fields| ==> Unambiguous(fields[i].value))
        && depth + FieldsDepth(fields) <= MAX_NESTING + 1)
  {
    if |fields| > 0 {
      var tail := fields[1..];
      FieldsPassEach(tail, seen + {fields[0].name}, depth);
      assert forall i :: 0 < i < |fields| ==> fields[i] == tail[i - 1];
      assert DistinctNames(fields) && Unseen(fields, seen) <==>
        fields[0].name !in seen && DistinctNames(tail)
          && Unseen(tail, seen + {fields[0].name}) by { NamesSplit(fields, seen); }
    }
  }

  lemma {:induction false} NamesSplit(fields: seq<Field>, seen: set<Text>)
    requires |fields| > 0
    ensures (DistinctNames(fields) && Unseen(fields, seen)) <==>
      (fields[0].name !in seen && DistinctNames(fields[1..]) && Unseen(fields[1..], seen + {fields[0].name}))
  {
    var tail := fields[1..];
    assert forall i :: 0 < i < |fields| ==> fields[i] == tail[i - 1];
    if DistinctNames(fields) && Unseen(fields, seen) {
      assert forall i :: 0 <= i < |tail| ==> tail[i] == fields[i + 1];
    }
    if fields[0].name !in seen && DistinctNames(tail) && Unseen(tail, seen + {fields[0].name}) {
      forall i, j | 0 <= i < j < |fields| ensures fields[i].name != fields[j].name {
        assert fields[j] == tail[j - 1];
        if i > 0 { assert fields[i] == tail[i - 1]; }
      }
    }
  }

  /** How a printed value starts tells its kind, and it never starts with a space. */
  lemma {:induction false} PrintStarts(v: Value)
    requires Printable(v)
    ensures |Print(v)| > 0 && !Space(Print(v)[0])
    ensures Print(v)[0] == 0x7B <==> v.Object?
    ensures Print(v)[0] == 0x5B <==> v.Array?
    ensures Print(v)[0] == 0x22 <==> v.String?
    ensures Print(v)[0] != 0x5D && Print(v)[0] != 0x7D
  {
    if v.Number? {
      var t := v.printed.value;
      var unsigned := AfterSign(t);
      assert AfterInteger(unsigned).Some?;
    }
  }

  lemma StartsApart(a: Text, t: Text)
    requires |a| > 0
    ensures |t| == 0 || t[0] != a[0] ==> !(a <= t)
  {
    if a <= t { assert a[0] == t[0]; }
  }

  lemma {:induction false} ScalarBack(v: Value, rest: Text)
    requires v.Null? || v.Bool? || (v.Number? && v.printed.Some?)
    requires Stops(rest)
    ensures AfterScalar(Print(v) + rest) == Some(rest)
  {
    var t := Print(v);
    assert (t + rest)[|t|..] == rest;
    assert forall i :: 0 <= i < |t| ==> (t + rest)[i] == t[i];
    assert NULL[0] == 0x6E && TRUE[0] == 0x74 && FALSE[0] == 0x66;
    StartsApart(NULL, t + rest);
    StartsApart(TRUE, t + rest);
    StartsApart(FALSE, t + rest);
    if v.Number? {
      NumberBack(v.printed.value, rest);
      PrintStarts(v);
      assert Digit(t[0]) || t[0] == 0x2D;
    }
  }

  /** The recogniser reads a printed tree to its end exactly when the tree passes. */
  lemma {:induction false} ValueBack(v: Value, rest: Text, depth: nat)
    requires Printable(v) && Stops(rest) && depth <= MAX_NESTING + 1
    ensures AfterValue(Print(v) + rest, depth) == if Passes(v, depth) then Some(rest) else None
    decreases v, 1
  {
    PrintStarts(v);
    var t := Print(v) + rest;
    assert t[0] == Print(v)[0] && AfterSpace(t) == t;
    match v
    case String(text) => QuoteBack(text, rest);
    case Array(items) => ArrayBack(v, rest, depth);
    case Object(fields) => ObjectBack(v, rest, depth);
    case _ => ScalarBack(v, rest);
  }

  /** The text of an array from its first item on, and what follows that item. */
  function ItemsText(items: seq<Value>, lead: bool, rest: Text): Text {
    PrintItems(items, lead) + ([0x5D] + rest)
  }

  lemma {:induction false} ItemsTextSplit(items: seq<Value>, rest: Text)
    requires |items| > 0 && Printable(items[0])
    ensures ItemsText(items, false, rest) == Print(items[0]) + ItemsText(items[1..], true, rest)
    ensures ItemsText(items, true, rest) == [0x2C] + ItemsText(items, false, rest)
    ensures |ItemsText(items, false, rest)| > 0 && !Space(ItemsText(items, false, rest)[0])
    ensures !Starts(ItemsText(items, false, rest), 0x5D)
  {
    PrintStarts(items[0]);
    hide Print;
  }

  lemma {:induction false} ItemsTextEnd(rest: Text, lead: bool)
    ensures ItemsText([], lead, rest) == [0x5D] + rest
  {
  }

  /** What follows a value in a printed container: a mark, and then something that is not a space. */
  lemma MarkedStops(mark: Unit, t: Text)
    requires mark == 0x2C || mark == 0x5D || mark == 0x7D
    ensures Stops([mark] + t) && AfterSpace([mark] + t) == [mark] + t && ([mark] + t)[1..] == t
  {
  }

  lemma {:induction false} ArrayBack(v: Value, rest: Text, depth: nat)
    requires v.Array? && Printable(v) && Stops(rest) && depth <= MAX_NESTING + 1
    ensures AfterValue(Print(v) + rest, depth) == if Passes(v, depth) then Some(rest) else None
    decreases v, 0
  {
    var t := Print(v) + rest;
    var inner := ItemsText(v.items, false, rest);
    assert t == [0x5B] + inner && t[1..] == inner;
    if depth <= MAX_NESTING {
      ItemsPassEach(v.items, depth + 1);
      assert Passes(v, depth) <==> ItemsPass(v.items, depth + 1);
      if |v.items| == 0 {
        ItemsTextEnd(rest, false);
        MarkedStops(0x5D, rest);
      } else {
        ItemsTextSplit(v.items, rest);
        ItemsBack(v.items, rest, depth);
      }
      hide Print, PrintItems, AfterItems, AfterScalar, AfterFields, ItemsText, Passes, ItemsPass;
    }
  }

  lemma {:induction false} ItemsBack(items: seq<Value>, rest: Text, depth: nat)
    requires |items| > 0 && (forall i :: 0 <= i < |items| ==> Printable(items[i])) && Stops(rest)
      && depth <= MAX_NESTING
    ensures AfterItems(ItemsText(items, false, rest), depth) == if ItemsPass(items, depth + 1) then Some(rest) else None
    decreases items
  {
    var tail := ItemsText(items[1..], true, rest);
    ItemsTextSplit(items, rest);
    hide Print, PrintItems, AfterValue, Passes, ItemsText;
    if |items| == 1 {
      ItemsTextEnd(rest, true);
      MarkedStops(0x5D, rest);
    } else {
      var next := ItemsText(items[1..], false, rest);
      ItemsTextSplit(items[1..], rest);
      MarkedStops(0x2C, next);
      ItemsBack(items[1..], rest, depth);
    }
    ValueBack(items[0], tail, depth + 1);
  }

  /** The text of an object from its first member on. */
  function FieldsText(fields: seq<Field>, lead: bool, rest: Text): Text {
    PrintFields(fields, lead) + ([0x7D] + rest)
  }

  lemma {:induction false} FieldsTextSplit(fields: seq<Field>, rest: Text)
    requires |fields| > 0
    ensures FieldsText(fields, false, rest) == Quote(fields[0].name) +
      ([0x3A] + (Print(fields[0].value) + FieldsText(fields[1..], true, rest)))
    ensures FieldsText(fields, true, rest) == [0x2C] + FieldsText(fields, false, rest)
    ensures Starts(FieldsText(fields, false, rest), 0x22)
  {
    hide Print;
    var f, others, end := fields[0], PrintFields(fields[1..], true), [0x7D] + rest;
    var member := Quote(f.name) + ([0x3A] + Print(f.value));
    assert PrintField(f) == member && Quote(f.name)[0] == 0x22;
    assert PrintFields(fields, false) == member + others && PrintFields(fields, true) == [0x2C] + (member + others);
    assert FieldsText(fields[1..], true, rest) == others + end
      && FieldsText(fields, false, rest) == (member + others) + end;
    assert FieldsText(fields, true, rest) == ([0x2C] + (member + others)) + end;
    hide *;
    Regroup([0x2C], member + others, end);
    Regroup(member, others, end);
    Regroup(Quote(f.name), [0x3A] + Print(f.value), others + end);
    Regroup([0x3A], Print(f.value), others + end);
  }

  lemma {:induction false} FieldsTextEnd(rest: Text, lead: bool)
    ensures FieldsText([], lead, rest) == [0x7D] + rest
  {
  }

  lemma NoSpace(t: Text)
    requires Starts(t, 0x22) || Starts(t, 0x3A)
    ensures AfterSpace(t) == t
  {
  }

  lemma {:induction false} ObjectBack(v: Value, rest: Text, depth: nat)
    requires v.Object? && Printable(v) && Stops(rest) && depth <= MAX_NESTING + 1
    ensures AfterValue(Print(v) + rest, depth) == if Passes(v, depth) then Some(rest) else None
    decreases v, 0
  {
    var t := Print(v) + rest;
    var inner := FieldsText(v.fields, false, rest);
    assert t == [0x7B] + inner && t[1..] == inner;
    if depth <= MAX_NESTING {
      FieldsPassEach(v.fields, {}, depth + 1);
      assert Passes(v, depth) <==> FieldsPass(v.fields, {}, depth + 1);
      if |v.fields| == 0 {
        FieldsTextEnd(rest, false);
        MarkedStops(0x7D, rest);
      } else {
        FieldsTextSplit(v.fields, rest);
        NoSpace(inner);
        FieldsBack(v.fields, {}, rest, depth);
      }
      hide Print, PrintFields, AfterItems, AfterScalar, AfterFields, FieldsText, Passes, FieldsPass;
    }
  }

  lemma {:induction false} FieldsStep(t: Text, seen: set<Text>, depth: nat, name: Text, colon: Text)
    requires AfterString(t) == Some(Token(name, colon)) && Starts(colon, 0x3A) && AfterSpace(colon) == colon
    ensures var value := AfterValue(colon[1..], depth + 1);
      AfterFields(t, seen, depth) == if name in seen || value.None? then None else
        var next := AfterSpace(value.value);
        if Starts(next, 0x7D) then Some(next[1..])
        else if Starts(next, 0x2C) then AfterFields(AfterSpace(next[1..]), seen + {name}, depth)
        else None
  {
    hide AfterValue, AfterString;
  }

  lemma {:induction false} FieldsPassStep(fields: seq<Field>, seen: set<Text>, depth: nat)
    ensures |fields| == 0 ==> FieldsPass(fields, seen, depth)
    ensures |fields| > 0 ==> (FieldsPass(fields, seen, depth) <==>
      (fields[0].name !in seen && Passes(fields[0].value, depth)
        && FieldsPass(fields[1..], seen + {fields[0].name}, depth)))
  {
  }

  lemma {:induction false} FieldsBack(fields: seq<Field>, seen: set<Text>, rest: Text, depth: nat)
    requires |fields| > 0 && (forall i :: 0 <= i < |fields| ==> Printable(fields[i].value)) && Stops(rest)
      && depth <= MAX_NESTING
    ensures AfterFields(FieldsText(fields, false, rest), seen, depth) == if FieldsPass(fields, seen, depth + 1)
      then Some(rest) else None
    decreases fields
  {
    hide Print, PrintFields, Printable, AfterValue, AfterFields, AfterString, AfterSpace, Passes, FieldsPass,
      FieldsText, Quote;
    var f := fields[0];
    var tail := FieldsText(fields[1..], true, rest);
    var colon := [0x3A] + (Print(f.value) + tail);
    FieldsTextSplit(fields, rest);
    QuoteBack(f.name, colon);
    NoSpace(colon);
    assert colon[1..] == Print(f.value) + tail;
    FieldsStep(FieldsText(fields, false, rest), seen, depth, f.name, colon);
    FieldsPassStep(fields, seen, depth + 1);
    FieldsPassStep([], seen + {f.name}, depth + 1);
    if |fields| == 1 {
      FieldsTextEnd(rest, true);
      MarkedStops(0x7D, rest);
    } else {
      var next := FieldsText(fields[1..], false, rest);
      FieldsTextSplit(fields[1..], rest);
      MarkedStops(0x2C, next);
      NoSpace(next);
      FieldsBack(fields[1..], seen + {f.name}, rest, depth);
    }
    ValueBack(f.value, tail, depth + 1);
  }

  /** A printed tree is accepted exactly when no object in it names a member twice and it nests at most 64 deep. */
  lemma {:induction false} PrintedAccepted(v: Value)
    requires Printable(v)
    ensures Accepts(Print(v)) <==> Unambiguous(v) && Depth(v) <= MAX_NESTING
  {
    assert Print(v) + [] == Print(v);
    PrintStarts(v);
    ValueBack(v, [], 1);
  }
}
