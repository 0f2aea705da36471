/** Laws of printed trees: their length is what was added up, and sorting members changes nothing but their order. */
module JSONTreeLaws {
  import opened Utf16
  import opened JSONTree

  // -------- strings and numbers --------

  /** What the first character of a string adds to its printed form. */
  function Cost(t: Text): nat
    requires |t| > 0
  {
    var u := t[0];
    if u == 0x22 || u == 0x5C || u == 0x08 || u == 0x09 || u == 0x0A || u == 0x0C || u == 0x0D then 2
    else if u < 0x20 then 6
    else StepBytes(t)
  }

  lemma {:induction false} EscapedStep(t: Text)
    requires ValidText(t) && |t| > 0
    ensures UTF8Length(Escaped(t)) == Cost(t) + UTF8Length(Escaped(t[Step(t)..]))
    ensures ValidText(Escaped(t)) <==> ValidText(Escaped(t[Step(t)..]))
    ensures Cost(t) >= StepBytes(t)
  {
    if Pair(t) {
      var rest := Escaped(t[2..]);
      assert Escape(t[0]) == [t[0]] && Escape(t[1]) == [t[1]] && t[1..][1..] == t[2..];
      assert Escaped(t[1..]) == [t[1]] + rest;
      assert Escaped(t) == [t[0], t[1]] + rest;
      assert ([t[0], t[1]] + rest)[2..] == rest;
    } else {
      var e := Escape(t[0]);
      assert Step(t) == 1;
      if t[0] < 0x80 {
        AsciiLength(e);
      } else {
        assert e == [t[0]] && [t[0]][1..] == [];
      }
      Join(e, Escaped(t[1..]));
    }
  }

  lemma {:induction false} EscapedLength(t: Text)
    requires ValidText(t)
    ensures ValidText(Escaped(t)) && UTF8Length(Escaped(t)) >= UTF8Length(t)
  {
    if |t| > 0 {
      EscapedStep(t);
      EscapedLength(t[Step(t)..]);
    }
  }

  lemma {:induction false} QuoteLength(t: Text)
    requires ValidText(t)
    ensures ValidText(Quote(t)) && UTF8Length(Quote(t)) == UTF8Length(Escaped(t)) + 2
    ensures UTF8Length(Quote(t)) >= UTF8Length(t) + 2
  {
    EscapedLength(t);
    Around(0x22, Escaped(t), 0x22);
  }

  /** Two ASCII marks around a valid text. */
  lemma {:induction false} Around(open: Unit, t: Text, close: Unit)
    requires open < 0x80 && close < 0x80 && ValidText(t)
    ensures ValidText([open] + t + [close]) && UTF8Length([open] + t + [close]) == 2 + UTF8Length(t)
  {
    AsciiLength([open]);
    AsciiLength([close]);
    Join([open], t);
    Join([open] + t, [close]);
  }

  lemma {:induction false} DigitsAscii(t: Text)
    requires Ascii(AfterDigits(t))
    ensures Ascii(t)
  {
    if |t| > 0 && Digit(t[0]) { 
      DigitsAscii(t[1..]);
      assert t == [t[0]] + t[1..];
    }
  }

  lemma TailAscii(t: Text)
    requires |t| > 0 && t[0] < 0x80 && Ascii(t[1..])
    ensures Ascii(t)
  {
    assert t == [t[0]] + t[1..];
  }

  lemma {:induction false} FractionAscii(t: Text)
    requires Ascii(AfterFraction(t))
    ensures Ascii(t)
  {
    if |t| > 1 && t[0] == 0x2E && Digit(t[1]) {
      DigitsAscii(t[1..]);
      TailAscii(t);
    }
  }

  lemma {:induction false} ExponentAscii(t: Text)
    requires Ascii(AfterExponent(t))
    ensures Ascii(t)
  {
    if |t| > 1 && (t[0] == 0x45 || t[0] == 0x65) {
      if Digit(t[1]) {
        DigitsAscii(t[1..]);
        TailAscii(t);
      } else if |t| > 2 && (t[1] == 0x2B || t[1] == 0x2D) && Digit(t[2]) {
        DigitsAscii(t[2..]);
        TailAscii(t[1..]);
        TailAscii(t);
      }
    }
  }

  lemma {:induction false} NumberAscii(t: NumberText)
    ensures |t| > 0 && Ascii(t)
  {
    var unsigned := AfterSign(t);
    var whole := AfterInteger(unsigned).value;
    ExponentAscii(AfterFraction(whole));
    FractionAscii(whole);
    if unsigned[0] != 0x30 { DigitsAscii(unsigned[1..]); }
    TailAscii(unsigned);
    if unsigned != t { TailAscii(t); }
  }

  // -------- sizes --------

  /** Adding up the pieces gives the length of the text. */
  lemma {:induction false} SizeIsLength(v: Value)
    requires Clean(v)
    ensures ValidText(Print(v)) && UTF8Length(Print(v)) == Size(v) && Size(v) >= 1
    decreases v
  {
    match v
    case Null => AsciiLength(NULL);
    case Bool(b) => AsciiLength(if b then TRUE else FALSE);
    case Number(printed) =>
      NumberAscii(printed.value);
      AsciiLength(printed.value);
    case String(text) => QuoteLength(text);
    case Array(items) =>
      ItemsSizeIsLength(items, false);
      Around(0x5B, PrintItems(items, false), 0x5D);
    case Object(fields) =>
      FieldsSizeIsLength(fields, false);
      Around(0x7B, PrintFields(fields, false), 0x7D);
  }

  lemma {:induction false} CommaLength(lead: bool, t: Text)
    ensures UTF8Length(Comma(lead) + t) == CommaSize(lead) + UTF8Length(t)
    ensures ValidText(Comma(lead) + t) <==> ValidText(t)
  {
    AsciiLength(Comma(lead));
    Join(Comma(lead), t);
  }

  lemma {:induction false} ItemsSizeIsLength(items: seq<Value>, lead: bool)
    requires forall i :: 0 <= i < |items| ==> Clean(items[i])
    ensures ValidText(PrintItems(items, lead)) && UTF8Length(PrintItems(items, lead)) == ItemsSize(items, lead)
    decreases items
  {
    if |items| > 0 {
      SizeIsLength(items[0]);
      ItemsSizeIsLength(items[1..], true);
      Join(Print(items[0]), PrintItems(items[1..], true));
      CommaLength(lead, Print(items[0]) + PrintItems(items[1..], true));
    }
  }

  lemma {:induction false} FieldsSizeIsLength(fields: seq<Field>, lead: bool)
    requires forall i :: 0 <= i < |fields| ==> ValidText(fields[i].name) && Clean(fields[i].value)
    ensures ValidText(PrintFields(fields, lead)) && UTF8Length(PrintFields(fields, lead)) == FieldsSize(fields, lead)
    decreases fields
  {
    if |fields| > 0 {
      var f := fields[0];
      SizeIsLength(f.value);
      FieldSizeIsLength(f);
      FieldsSizeIsLength(fields[1..], true);
      Join(PrintField(f), PrintFields(fields[1..], true));
      CommaLength(lead, PrintField(f) + PrintFields(fields[1..], true));
    }
  }

  lemma {:induction false} FieldSizeIsLength(f: Field)
    requires ValidText(f.name) && ValidText(Print(f.value)) && UTF8Length(Print(f.value)) == Size(f.value)
    ensures ValidText(PrintField(f)) && UTF8Length(PrintField(f)) == FieldSize(f)
  {
    QuoteLength(f.name);
    AsciiLength([0x3A]);
    Join([0x3A], Print(f.value));
    Join(Quote(f.name), [0x3A] + Print(f.value));
  }

  /** Every item takes at least a byte, and all but one a comma. */
  lemma {:induction false} ItemsMinimum(items: seq<Value>, lead: bool)
    requires forall i :: 0 <= i < |items| ==> Clean(items[i])
    ensures ItemsSize(items, lead) >= 2 * |items| - (if lead then 0 else 1)
  {
    if |items| > 0 {
      SizeIsLength(items[0]);
      ItemsMinimum(items[1..], true);
    }
  }

  // -------- sorting --------

  lemma {:induction false} InsertElements(fields: seq<Field>, f: Field)
    ensures forall g :: g in Insert(fields, f) <==> g == f || g in fields
    ensures |Insert(fields, f)| == |fields| + 1
  {
    if |fields| > 0 && !Below(f.name, fields[0].name) {
      InsertElements(fields[1..], f);
      assert fields == [fields[0]] + fields[1..];
    }
  }

  /** Strictly increasing names. */
  ghost predicate Ascending(fields: seq<Field>) {
    forall i, j :: 0 <= i < j < |fields| ==> Below(fields[i].name, fields[j].name)
  }

  lemma {:induction false} InsertAscending(fields: seq<Field>, f: Field)
    requires Ascending(fields) && forall g :: g in fields ==> g.name != f.name
    ensures Ascending(Insert(fields, f))
  {
    if |fields| > 0 {
      if Below(f.name, fields[0].name) {
        forall j | 0 <= j < |fields| ensures Below(f.name, fields[j].name) {
          if j > 0 { BelowTransitive(f.name, fields[0].name, fields[j].name); }
        }
      } else {
        assert fields[0] in fields;
        BelowTotal(f.name, fields[0].name);
        InsertAscending(fields[1..], f);
        InsertElements(fields[1..], f);
        var tail := Insert(fields[1..], f);
        forall j | 0 <= j < |tail| ensures Below(fields[0].name, tail[j].name) { assert tail[j] in tail; }
      }
    }
  }

  /** The members of a sorted object are the sorted members of the object. */
  ghost predicate SortedFrom(f: Field, fields: seq<Field>) {
    exists i :: 0 <= i < |fields| && f == Field(fields[i].name, Sorted(fields[i].value))
  }

  lemma {:induction false} SortedFieldsElements(fields: seq<Field>)
    ensures forall f :: f in SortedFields(fields) <==> SortedFrom(f, fields)
    ensures |SortedFields(fields)| == |fields|
  {
    if |fields| > 0 {
      var tail := fields[1..];
      SortedFieldsElements(tail);
      InsertElements(SortedFields(tail), Field(fields[0].name, Sorted(fields[0].value)));
      forall f
        ensures SortedFrom(f, fields) <==> f == Field(fields[0].name, Sorted(fields[0].value)) || SortedFrom(f, tail)
      {
        if SortedFrom(f, fields) {
          var i :| 0 <= i < |fields| && f == Field(fields[i].name, Sorted(fields[i].value));
          assert i > 0 ==> tail[i - 1] == fields[i];
        }
        if SortedFrom(f, tail) {
          var i :| 0 <= i < |tail| && f == Field(tail[i].name, Sorted(tail[i].value));
          assert fields[i + 1] == tail[i];
        }
      }
    }
  }

  lemma {:induction false} SortedFieldsAscending(fields: seq<Field>)
    requires DistinctNames(fields)
    ensures Ascending(SortedFields(fields))
  {
    if |fields| > 0 {
      var tail := fields[1..];
      SortedFieldsAscending(tail);
      SortedFieldsElements(tail);
      forall g | g in SortedFields(tail) ensures g.name != fields[0].name {
        var i :| 0 <= i < |tail| && g == Field(tail[i].name, Sorted(tail[i].value));
        assert tail[i] == fields[i + 1];
      }
      InsertAscending(SortedFields(tail), Field(fields[0].name, Sorted(fields[0].value)));
    }
  }

  lemma {:induction false} InsertSize(fields: seq<Field>, f: Field, lead: bool)
    ensures FieldsSize(Insert(fields, f), true) == FieldsSize(fields, true) + 1 + FieldSize(f)
    ensures FieldsSize(Insert(fields, f), lead) == FieldsSize([f] + fields, lead)
    ensures FieldsDepth(Insert(fields, f)) == FieldsDepth([f] + fields)
  {
    assert ([f] + fields)[1..] == fields;
    var r := Insert(fields, f);
    if |fields| > 0 && !Below(f.name, fields[0].name) {
      InsertSize(fields[1..], f, true);
      assert ([f] + fields[1..])[1..] == fields[1..];
      assert r[1..] == Insert(fields[1..], f);
    } else {
      assert r == [f] + fields;
    }
  }

  /** Sorting keeps the size, the depth and what makes a tree sendable, and leaves every object's names increasing. */
  lemma {:induction false} SortKeeps(v: Value)
    ensures Size(Sorted(v)) == Size(v) && Depth(Sorted(v)) == Depth(v)
    ensures Clean(v) ==> Clean(Sorted(v))
    ensures Unambiguous(v) ==> Unambiguous(Sorted(v))
    decreases v
  {
    match v
    case Array(items) => SortKeepsItems(items, false);
    case Object(fields) =>
      SortKeepsFields(fields, false);
      SortedFieldsElements(fields);
      var sorted := SortedFields(fields);
      forall f | f in sorted
        ensures Clean(v) ==> ValidText(f.name) && Clean(f.value)
        ensures Unambiguous(v) ==> Unambiguous(f.value)
      {
        var i :| 0 <= i < |fields| && f == Field(fields[i].name, Sorted(fields[i].value));
        SortKeeps(fields[i].value);
      }
      if Unambiguous(v) {
        SortedFieldsAscending(fields);
        AscendingDistinct(sorted);
      }
    case _ =>
  }

  lemma AscendingDistinct(fields: seq<Field>)
    requires Ascending(fields)
    ensures DistinctNames(fields)
  {
    forall i, j | 0 <= i < j < |fields| ensures fields[i].name != fields[j].name { BelowIrreflexive(fields[i].name); }
  }

  lemma {:induction false} SortKeepsItems(items: seq<Value>, lead: bool)
    ensures ItemsSize(SortedItems(items), lead) == ItemsSize(items, lead)
    ensures ItemsDepth(SortedItems(items)) == ItemsDepth(items)
    ensures (forall i :: 0 <= i < |items| ==> Clean(items[i])) ==> forall i ::
      0 <= i < |items| ==> Clean(SortedItems(items)[i])
    ensures (forall i :: 0 <= i < |items| ==> Unambiguous(items[i])) ==> forall i ::
      0 <= i < |items| ==> Unambiguous(SortedItems(items)[i])
    decreases items
  {
    if |items| > 0 {
      SortKeeps(items[0]);
      SortKeepsItems(items[1..], true);
      assert SortedItems(items)[1..] == SortedItems(items[1..]);
      assert forall i :: 0 < i < |items| ==> items[i] == items[1..][i - 1];
    }
  }

  lemma {:induction false} SortKeepsFields(fields: seq<Field>, lead: bool)
    ensures FieldsSize(SortedFields(fields), lead) == FieldsSize(fields, lead)
    ensures FieldsDepth(SortedFields(fields)) == FieldsDepth(fields)
    decreases fields
  {
    if |fields| > 0 {
      var f := Field(fields[0].name, Sorted(fields[0].value));
      SortKeeps(fields[0].value);
      SortKeepsFields(fields[1..], true);
      InsertSize(SortedFields(fields[1..]), f, lead);
      assert ([f] + SortedFields(fields[1..]))[1..] == SortedFields(fields[1..]);
    }
  }

  // -------- sorting one object at a time --------

  /** The members as they are, each value sorted. */
  function EachSorted(fields: seq<Field>): seq<Field> {
    if |fields| == 0 then [] else [Field(fields[0].name, Sorted(fields[0].value))] + EachSorted(fields[1..])
  }

  lemma {:induction false} InsertEach(fields: seq<Field>, f: Field)
    ensures EachSorted(Insert(fields, f)) == Insert(EachSorted(fields), Field(f.name, Sorted(f.value)))
  {
    var g := Field(f.name, Sorted(f.value));
    if |fields| > 0 && !Below(f.name, fields[0].name) {
      InsertEach(fields[1..], f);
      assert Insert(fields, f)[1..] == Insert(fields[1..], f);
      assert EachSorted(fields)[1..] == EachSorted(fields[1..]);
    } else {
      assert ([f] + fields)[1..] == fields;
    }
  }

  /** Sorting the members and then their values is sorting the whole. */
  lemma {:induction false} SortThenEach(fields: seq<Field>)
    ensures EachSorted(SortFields(fields)) == SortedFields(fields)
    ensures FieldsSize(SortFields(fields), false) == FieldsSize(fields, false)
    ensures FieldsSize(SortFields(fields), true) == FieldsSize(fields, true)
    ensures forall f :: f in SortFields(fields) <==> f in fields
  {
    if |fields| > 0 {
      var tail := fields[1..];
      SortThenEach(tail);
      InsertEach(SortFields(tail), fields[0]);
      InsertSize(SortFields(tail), fields[0], false);
      InsertSize(SortFields(tail), fields[0], true);
      InsertElements(SortFields(tail), fields[0]);
      assert ([fields[0]] + SortFields(tail))[1..] == SortFields(tail);
      assert fields == [fields[0]] + tail;
    }
  }
}
