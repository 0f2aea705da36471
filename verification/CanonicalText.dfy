/** The canonical text decides equality: two bodies have one text exactly when they differ in member order alone. */
module CanonicalText {
  import opened Utf16
  import opened JSONTree
  import opened JSONTreeLaws
  import opened Recogniser

  // -------- printed text determines the tree --------

  lemma {:induction false} ScalarsInjective(a: Value, x: Text, b: Value, y: Text)
    requires a.Null? || a.Bool? || (a.Number? && a.printed.Some?)
    requires b.Null? || b.Bool? || (b.Number? && b.printed.Some?)
    requires Stops(x) && Stops(y) && Print(a) + x == Print(b) + y
    ensures a == b && x == y
  {
    ScalarBack(a, x);
    ScalarBack(b, y);
    var t := Print(a) + x;
    assert t[..|Print(a)|] == Print(a) && t[..|Print(b)|] == Print(b);
    assert Print(a) == Print(b);
    assert NULL[0] == 0x6E && TRUE[0] == 0x74 && FALSE[0] == 0x66;
    PrintStarts(a);
    if a.Number? || b.Number? { NumberStarts(if a.Number? then a.printed.value else b.printed.value); }
  }

  lemma NumberStarts(t: NumberText)
    ensures |t| > 0 && (Digit(t[0]) || t[0] == 0x2D)
  {
  }

  /** Whatever may follow it, a printed tree is read back as one tree only. */
  lemma {:induction false} PrintInjective(a: Value, x: Text, b: Value, y: Text)
    requires Printable(a) && Printable(b) && Stops(x) && Stops(y)
    requires Print(a) + x == Print(b) + y
    ensures a == b && x == y
    decreases a, 1
  {
    PrintStarts(a);
    PrintStarts(b);
    assert (Print(a) + x)[0] == Print(a)[0] && (Print(b) + y)[0] == Print(b)[0];
    match a
    case String(text) =>
      QuoteBack(text, x);
      QuoteBack(b.text, y);
    case Array(items) =>
      ArrayText(items, x);
      ArrayText(b.items, y);
      ArraysInjective(a, x, b, y);
    case Object(fields) =>
      ObjectText(fields, x);
      ObjectText(b.fields, y);
      ObjectsInjective(a, x, b, y);
    case _ => ScalarsInjective(a, x, b, y);
  }

  lemma {:induction false} ArrayText(items: seq<Value>, x: Text)
    ensures (Print(Array(items)) + x)[1..] == ItemsText(items, false, x)
  {
    hide PrintItems;
  }

  lemma {:induction false} ObjectText(fields: seq<Field>, x: Text)
    ensures (Print(Object(fields)) + x)[1..] == FieldsText(fields, false, x)
  {
    hide PrintFields;
  }

  lemma {:induction false} ArraysInjective(a: Value, x: Text, b: Value, y: Text)
    requires a.Array? && b.Array? && Printable(a) && Printable(b) && Stops(x) && Stops(y)
    requires ItemsText(a.items, false, x) == ItemsText(b.items, false, y)
    ensures a == b && x == y
    decreases a, 0
  {
    ItemsTextEnd(x, false);
    ItemsTextEnd(y, false);
    ItemsTextEnd(x, true);
    ItemsTextEnd(y, true);
    if |a.items| > 0 { ItemsTextSplit(a.items, x); }
    if |b.items| > 0 { ItemsTextSplit(b.items, y); }
    hide ItemsText;
    assert |a.items| == 0 ==> a.items == [];
    assert |b.items| == 0 ==> b.items == [];
    assert ([0x5D] + x)[0] == 0x5D && ([0x5D] + y)[0] == 0x5D;
    ItemsInjective(a.items, x, b.items, y);
  }

  lemma {:induction false} ItemsInjective(a: seq<Value>, x: Text, b: seq<Value>, y: Text)
    requires (forall i :: 0 <= i < |a| ==> Printable(a[i])) && (forall i :: 0 <= i < |b| ==> Printable(b[i]))
      && Stops(x) && Stops(y)
    requires ItemsText(a, true, x) == ItemsText(b, true, y)
    ensures a == b && x == y
    decreases a
  {
    ItemsTextMark(a, x);
    ItemsTextMark(b, y);
    if |a| > 0 {
      ItemsTextSplit(a, x);
      ItemsTextSplit(b, y);
      hide ItemsText, Print, Printable;
      SameTail(0x2C, ItemsText(a, false, x), ItemsText(b, false, y));
      PrintInjective(a[0], ItemsText(a[1..], true, x), b[0], ItemsText(b[1..], true, y));
      ItemsInjective(a[1..], x, b[1..], y);
      assert a == [a[0]] + a[1..] && b == [b[0]] + b[1..];
    } else {
      SameTail(0x5D, x, y);
    }
  }

  lemma SameTail(mark: Unit, x: Text, y: Text)
    requires [mark] + x == [mark] + y
    ensures x == y
  {
    assert ([mark] + x)[1..] == x && ([mark] + y)[1..] == y;
  }

  lemma {:induction false} ItemsTextMark(items: seq<Value>, x: Text)
    requires forall i :: 0 <= i < |items| ==> Printable(items[i])
    ensures Stops(ItemsText(items, true, x))
    ensures |items| == 0 ==> ItemsText(items, true, x) == [0x5D] + x
    ensures |items| > 0 ==> ItemsText(items, true, x)[0] == 0x2C && Stops(ItemsText(items[1..], true, x))
  {
    ItemsTextEnd(x, true);
    if |items| == 0 {
      assert items == [];
    } else {
      ItemsTextSplit(items, x);
      if |items| == 1 { assert items[1..] == []; } else { ItemsTextSplit(items[1..], x); }
    }
  }

  lemma {:induction false} ObjectsInjective(a: Value, x: Text, b: Value, y: Text)
    requires a.Object? && b.Object? && Printable(a) && Printable(b) && Stops(x) && Stops(y)
    requires FieldsText(a.fields, false, x) == FieldsText(b.fields, false, y)
    ensures a == b && x == y
    decreases a, 0
  {
    FieldsTextEnd(x, false);
    FieldsTextEnd(y, false);
    FieldsTextEnd(x, true);
    FieldsTextEnd(y, true);
    if |a.fields| > 0 { FieldsTextSplit(a.fields, x); }
    if |b.fields| > 0 { FieldsTextSplit(b.fields, y); }
    hide FieldsText;
    assert |a.fields| == 0 ==> a.fields == [];
    assert |b.fields| == 0 ==> b.fields == [];
    assert ([0x7D] + x)[0] == 0x7D && ([0x7D] + y)[0] == 0x7D;
    FieldsInjective(a.fields, x, b.fields, y);
  }

  lemma {:induction false} FieldsTextMark(fields: seq<Field>, x: Text)
    ensures Stops(FieldsText(fields, true, x))
    ensures |fields| == 0 ==> FieldsText(fields, true, x) == [0x7D] + x
    ensures |fields| > 0 ==> FieldsText(fields, true, x)[0] == 0x2C && Stops(FieldsText(fields[1..], true, x))
  {
    FieldsTextEnd(x, true);
    if |fields| == 0 {
      assert fields == [];
    } else {
      FieldsTextSplit(fields, x);
      if |fields| == 1 { assert fields[1..] == []; } else { FieldsTextSplit(fields[1..], x); }
    }
  }

  /** Two printed members that agree agree in their names, and in what follows the names. */
  lemma {:induction false} FirstMember(a: seq<Field>, x: Text, b: seq<Field>, y: Text)
    requires |a| > 0 && |b| > 0 && FieldsText(a, true, x) == FieldsText(b, true, y)
    ensures a[0].name == b[0].name
    ensures Print(a[0].value) + FieldsText(a[1..], true, x) == Print(b[0].value) + FieldsText(b[1..], true, y)
  {
    FieldsTextSplit(a, x);
    FieldsTextSplit(b, y);
    hide FieldsText, Print, Quote;
    SameTail(0x2C, FieldsText(a, false, x), FieldsText(b, false, y));
    var p := Print(a[0].value) + FieldsText(a[1..], true, x);
    var q := Print(b[0].value) + FieldsText(b[1..], true, y);
    QuoteBack(a[0].name, [0x3A] + p);
    QuoteBack(b[0].name, [0x3A] + q);
    SameTail(0x3A, p, q);
  }

  lemma {:induction false} FieldsInjective(a: seq<Field>, x: Text, b: seq<Field>, y: Text)
    requires (forall i :: 0 <= i < |a| ==> Printable(a[i].value))
      && (forall i :: 0 <= i < |b| ==> Printable(b[i].value)) && Stops(x) && Stops(y)
    requires FieldsText(a, true, x) == FieldsText(b, true, y)
    ensures a == b && x == y
    decreases a
  {
    FieldsTextMark(a, x);
    FieldsTextMark(b, y);
    hide FieldsText, Print, Printable;
    if |a| > 0 {
      FirstMember(a, x, b, y);
      PrintInjective(a[0].value, FieldsText(a[1..], true, x), b[0].value, FieldsText(b[1..], true, y));
      FieldsInjective(a[1..], x, b[1..], y);
      assert a == [a[0]] + a[1..] && b == [b[0]] + b[1..];
    } else {
      SameTail(0x7D, x, y);
    }
  }

  // -------- equality up to member order --------

  /** The same JSON value: arrays item by item, objects by what each name stands for. */
  predicate Same(a: Value, b: Value)
    decreases a
  {
    match a
    case Array(items) => b.Array? && |items| == |b.items| && forall i :: 0 <= i < |items| ==> Same(items[i], b.items[i])
    case Object(fields) =>
      && b.Object?
      && (forall i :: 0 <= i < |fields| ==> Matches(fields[i], b.fields))
      && (forall j :: 0 <= j < |b.fields| ==> MatchedBy(fields, b.fields[j]))
    case _ => a == b
  }

  /** Is there a member of that name and value? */
  predicate Matches(f: Field, others: seq<Field>)
    decreases f
  {
    exists j :: 0 <= j < |others| && f.name == others[j].name && Same(f.value, others[j].value)
  }

  predicate MatchedBy(fields: seq<Field>, other: Field)
    decreases fields
  {
    exists i :: 0 <= i < |fields| && fields[i].name == other.name && Same(fields[i].value, other.value)
  }

  lemma {:induction false} SortedItemsAt(items: seq<Value>, i: nat)
    requires i < |items|
    ensures SortedItems(items)[i] == Sorted(items[i])
  {
    if i > 0 { SortedItemsAt(items[1..], i - 1); }
  }

  /** Sorting the members leaves the same tree exactly for the same value. */
  lemma {:induction false} SortedDecides(a: Value, b: Value)
    requires Unambiguous(a) && Unambiguous(b)
    ensures Same(a, b) <==> Sorted(a) == Sorted(b)
    decreases a, 1
  {
    match a
    case Array(items) =>
      if b.Array? && |items| == |b.items| {
        forall i | 0 <= i < |items|
          ensures Same(items[i], b.items[i]) <==> SortedItems(items)[i] == SortedItems(b.items)[i]
        {
          SortedDecides(items[i], b.items[i]);
          SortedItemsAt(items, i);
          SortedItemsAt(b.items, i);
        }
      }
    case Object(fields) =>
      if b.Object? { ObjectsDecide(a, b); }
    case _ =>
  }

  function SortedMember(f: Field): Field {
    Field(f.name, Sorted(f.value))
  }

  ghost predicate Decided(a: Value, b: Value) {
    Same(a, b) <==> Sorted(a) == Sorted(b)
  }

  lemma {:induction false} MatchesIs(f: Field, others: seq<Field>)
    requires forall j :: 0 <= j < |others| ==> Decided(f.value, others[j].value)
    ensures Matches(f, others) <==> SortedFrom(SortedMember(f), others)
  {
    hide Same, Sorted;
    if Matches(f, others) {
      var j :| 0 <= j < |others| && f.name == others[j].name && Same(f.value, others[j].value);
      assert Decided(f.value, others[j].value);
    }
    if SortedFrom(SortedMember(f), others) {
      var j :| 0 <= j < |others| && SortedMember(f) == Field(others[j].name, Sorted(others[j].value));
      assert Decided(f.value, others[j].value);
    }
  }

  lemma {:induction false} MatchedByIs(fields: seq<Field>, other: Field)
    requires forall i :: 0 <= i < |fields| ==> Decided(fields[i].value, other.value)
    ensures MatchedBy(fields, other) <==> SortedFrom(SortedMember(other), fields)
  {
    hide Same, Sorted;
    if MatchedBy(fields, other) {
      var i :| 0 <= i < |fields| && fields[i].name == other.name && Same(fields[i].value, other.value);
      assert Decided(fields[i].value, other.value);
    }
    if SortedFrom(SortedMember(other), fields) {
      var i :| 0 <= i < |fields| && SortedMember(other) == Field(fields[i].name, Sorted(fields[i].value));
      assert Decided(fields[i].value, other.value);
    }
  }

  /** Every sorted member of `a` is one of `b`. */
  ghost predicate Covered(a: seq<Field>, b: seq<Field>) {
    forall i :: 0 <= i < |a| ==> SortedFrom(SortedMember(a[i]), b)
  }

  ghost predicate Within(a: seq<Field>, b: seq<Field>) {
    forall f :: f in a ==> f in b
  }

  lemma {:induction false} CoveredIs(a: seq<Field>, b: seq<Field>)
    ensures Covered(a, b) <==> Within(SortedFields(a), SortedFields(b))
  {
    SortedFieldsElements(a);
    SortedFieldsElements(b);
    hide Sorted, SortedFields;
    if Covered(a, b) {
      forall f | f in SortedFields(a) ensures f in SortedFields(b) {
        var i :| 0 <= i < |a| && f == Field(a[i].name, Sorted(a[i].value));
        assert SortedFrom(SortedMember(a[i]), b);
      }
    }
    if Within(SortedFields(a), SortedFields(b)) {
      forall i | 0 <= i < |a| ensures SortedFrom(SortedMember(a[i]), b) {
        assert SortedFrom(SortedMember(a[i]), a);
      }
    }
  }

  lemma {:induction false} ObjectsDecide(a: Value, b: Value)
    requires a.Object? && b.Object? && Unambiguous(a) && Unambiguous(b)
    ensures Same(a, b) <==> SortedFields(a.fields) == SortedFields(b.fields)
    decreases a, 0
  {
    forall i, j | 0 <= i < |a.fields| && 0 <= j < |b.fields| ensures Decided(a.fields[i].value, b.fields[j].value) {
      SortedDecides(a.fields[i].value, b.fields[j].value);
    }
    forall i | 0 <= i < |a.fields|
      ensures Matches(a.fields[i], b.fields) <==> SortedFrom(SortedMember(a.fields[i]), b.fields)
    {
      MatchesIs(a.fields[i], b.fields);
    }
    forall j | 0 <= j < |b.fields|
      ensures MatchedBy(a.fields, b.fields[j]) <==> SortedFrom(SortedMember(b.fields[j]), a.fields)
    {
      MatchedByIs(a.fields, b.fields[j]);
    }
    hide Matches, MatchedBy, SortedFrom, SortedMember, Decided;
    assert Same(a, b) <==> Covered(a.fields, b.fields) && Covered(b.fields, a.fields);
    CoveredIs(a.fields, b.fields);
    CoveredIs(b.fields, a.fields);
    SortedFieldsAscending(a.fields);
    SortedFieldsAscending(b.fields);
    hide Same, Covered, Within;
    if Same(a, b) {
      var s, t := SortedFields(a.fields), SortedFields(b.fields);
      AscendingUnique(s, t);
    }
  }

  /** Members in increasing order of name are determined by which they are. */
  lemma {:induction false} AscendingUnique(a: seq<Field>, b: seq<Field>)
    requires Ascending(a) && Ascending(b) && Within(a, b) && Within(b, a)
    ensures a == b
  {
    assert |b| > 0 ==> b[0] in b;
    assert |b| > 0 ==> b[0] in a;
    if |a| > 0 {
      assert a[0] in a && a[0] in b;
      var j :| 0 <= j < |b| && b[j] == a[0];
      var i :| 0 <= i < |a| && a[i] == b[0];
      if i > 0 && j > 0 {
        BelowTransitive(a[0].name, a[i].name, a[0].name);
        BelowIrreflexive(a[0].name);
      }
      assert a[0] == b[0];
      TailElements(a);
      TailElements(b);
      AscendingUnique(a[1..], b[1..]);
    }
  }

  lemma {:induction false} TailElements(a: seq<Field>)
    requires Ascending(a) && |a| > 0
    ensures forall f :: f in a[1..] <==> f in a && f != a[0]
  {
    assert a == [a[0]] + a[1..];
    BelowIrreflexive(a[0].name);
  }

  /** Two bodies are sent as one text exactly when they are the same value. */
  lemma {:induction false} CanonicalDecides(a: Value, b: Value)
    requires Clean(a) && Clean(b) && Unambiguous(a) && Unambiguous(b)
    ensures Canonical(a) == Canonical(b) <==> Same(a, b)
  {
    SortedDecides(a, b);
    if Canonical(a) == Canonical(b) {
      SortKeeps(a);
      SortKeeps(b);
      CleanPrintable(Sorted(a));
      CleanPrintable(Sorted(b));
      assert Print(Sorted(a)) + [] == Print(Sorted(b)) + [];
      PrintInjective(Sorted(a), [], Sorted(b), []);
    }
  }

  lemma {:induction false} CleanPrintable(v: Value)
    requires Clean(v)
    ensures Printable(v)
    decreases v
  {
    match v
    case Array(items) =>
      forall i | 0 <= i < |items| ensures Printable(items[i]) { CleanPrintable(items[i]); }
    case Object(fields) =>
      forall i | 0 <= i < |fields| ensures Printable(fields[i].value) { CleanPrintable(fields[i].value); }
    case _ =>
  }
}
