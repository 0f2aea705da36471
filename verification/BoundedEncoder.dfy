/**
 The bounded encoder: a validation pass over a body's own key order, then an encoding pass over sorted keys, each with
 its own byte budget.  Both spend the same total, and neither gives up early on a body that fits.
 */
module BoundedEncoders {
  import opened Utf16
  import opened Wrappers
  import opened JSONTree
  import opened JSONTreeLaws

  const MAX_BODY_CONTAINER_DEPTH: nat := 62
  const MAX_SAFE_INTEGER: nat := 9_007_199_254_740_991

  /** Why encoding was given up: the body is not one a client may send, or it takes more bytes than allowed. */
  datatype Failure = Invalid | MaximumBytes

  datatype Canonicalized = Encoded(text: Text) | Rejected(failure: Failure)

  // -------- what may be encoded --------

  /** A value below `containerDepth` containers that may be sent. */
  predicate Sendable(v: Value, containerDepth: nat) {
    Clean(v) && (Depth(v) == 0 || containerDepth + Depth(v) <= MAX_BODY_CONTAINER_DEPTH)
  }

  predicate SendableItems(items: seq<Value>, depth: nat) {
    |items| == 0 || (Sendable(items[0], depth) && SendableItems(items[1..], depth))
  }

  predicate SendableField(f: Field, depth: nat) {
    ValidText(f.name) && Sendable(f.value, depth)
  }

  predicate SendableFields(fields: seq<Field>, depth: nat) {
    |fields| == 0 || (SendableField(fields[0], depth) && SendableFields(fields[1..], depth))
  }

  lemma {:induction false} ItemsSendable(items: seq<Value>, depth: nat)
    requires depth <= MAX_BODY_CONTAINER_DEPTH
    ensures SendableItems(items, depth) <==>
      (forall i :: 0 <= i < |items| ==> Clean(items[i])) && depth + ItemsDepth(items) <= MAX_BODY_CONTAINER_DEPTH
  {
    if |items| > 0 {
      ItemsSendable(items[1..], depth);
      assert forall i :: 0 < i < |items| ==> items[i] == items[1..][i - 1];
    }
  }

  lemma {:induction false} FieldsSendable(fields: seq<Field>, depth: nat)
    requires depth <= MAX_BODY_CONTAINER_DEPTH
    ensures SendableFields(fields, depth) <==>
      (forall i :: 0 <= i < |fields| ==> ValidText(fields[i].name) && Clean(fields[i].value)) &&
      depth + FieldsDepth(fields) <= MAX_BODY_CONTAINER_DEPTH
  {
    if |fields| > 0 {
      FieldsSendable(fields[1..], depth);
      assert forall i :: 0 < i < |fields| ==> fields[i] == fields[1..][i - 1];
    }
  }

  lemma {:induction false} FieldsSendableEach(fields: seq<Field>, depth: nat)
    ensures SendableFields(fields, depth) <==> forall f :: f in fields ==> SendableField(f, depth)
  {
    if |fields| > 0 {
      FieldsSendableEach(fields[1..], depth);
      assert fields == [fields[0]] + fields[1..];
    }
  }

  /** A container may be sent when it is not too deep and what it holds may be sent one level deeper. */
  lemma {:induction false} ContainerSendable(v: Value, containerDepth: nat)
    requires v.Array? || v.Object?
    ensures Sendable(v, containerDepth) <==>
      (containerDepth < MAX_BODY_CONTAINER_DEPTH &&
      if v.Array? then SendableItems(v.items, containerDepth + 1) else SendableFields(v.fields, containerDepth + 1))
  {
    if containerDepth < MAX_BODY_CONTAINER_DEPTH {
      if v.Array? { ItemsSendable(v.items, containerDepth + 1); } else { FieldsSendable(v.fields, containerDepth + 1); }
    }
  }

  lemma {:induction false} SortSendable(fields: seq<Field>, depth: nat)
    ensures SendableFields(SortFields(fields), depth) <==> SendableFields(fields, depth)
  {
    SortThenEach(fields);
    FieldsSendableEach(fields, depth);
    FieldsSendableEach(SortFields(fields), depth);
  }

  // -------- strings --------

  method RequireValidText(value: Text) returns (valid: bool)
    ensures valid <==> ValidText(value)
  {
    var index := 0;
    while index < |value|
      invariant index <= |value|
      invariant ValidText(value) <==> ValidText(value[index..])
    {
      var unit := value[index];
      var rest := value[index..];
      assert index + 1 < |value| ==> rest[1] == value[index + 1];
      assert rest[Step(rest)..] == value[index + Step(rest)..];
      if 0xD800 <= unit <= 0xDBFF {
        if index + 1 >= |value| || value[index + 1] < 0xDC00 || value[index + 1] > 0xDFFF {
          return false;
        }
        index := index + 1;
      } else if 0xDC00 <= unit <= 0xDFFF {
        return false;
      }
      index := index + 1;
    }
    valid := true;
  }

  /** The bytes a string takes when printed, or an early exit when it is not text or cannot fit. */
  method MeasureJSONStringBytes(value: Text, remainingBytes: nat) returns (bytes: nat, thrown: Option<Failure>)
    ensures thrown.None? <==> ValidText(value) && UTF8Length(Quote(value)) <= remainingBytes
    ensures thrown.None? ==> bytes == UTF8Length(Quote(value))
    ensures thrown == Some(Invalid) ==> !ValidText(value)
  {
    hide Quote, Escaped;
    bytes := 0;
    var valid := RequireValidText(value);
    if !valid {
      return 0, Some(Invalid);
    }
    QuoteLength(value);
    if UTF8Length(value) > remainingBytes {
      return 0, Some(MaximumBytes);
    }
    var encodedBytes := 2;
    if encodedBytes > remainingBytes {
      return 0, Some(MaximumBytes);
    }
    var index := 0;
    while index < |value|
      invariant index <= |value| && ValidText(value[index..])
      invariant encodedBytes + UTF8Length(Escaped(value[index..])) == UTF8Length(Quote(value))
      invariant encodedBytes <= remainingBytes
    {
      var unit := value[index];
      ghost var rest := value[index..];
      EscapedStep(rest);
      assert index + 1 < |value| ==> rest[1] == value[index + 1];
      assert rest[Step(rest)..] == value[index + Step(rest)..];
      if unit == 0x22 || unit == 0x5C || unit == 0x08 || unit == 0x09 || unit == 0x0A || unit == 0x0C || unit == 0x0D {
        encodedBytes := encodedBytes + 2;
      } else if unit < 0x20 {
        encodedBytes := encodedBytes + 6;
      } else if unit < 0x80 {
        encodedBytes := encodedBytes + 1;
      } else if unit < 0x800 {
        encodedBytes := encodedBytes + 2;
      } else if 0xD800 <= unit <= 0xDBFF {
        encodedBytes := encodedBytes + 4;
        index := index + 1;
      } else {
        encodedBytes := encodedBytes + 3;
      }
      index := index + 1;
      if encodedBytes > remainingBytes {
        return 0, Some(MaximumBytes);
      }
    }
    assert value[index..] == [];
    EscapedNothing();
    bytes, thrown := encodedBytes, None;
  }

  lemma EscapedNothing()
    ensures UTF8Length(Escaped([])) == 0
  {
  }

  /** The shortest text an array of this many items could have. */
  method RequirePossibleArrayLength(length: nat, remainingBytes: nat) returns (thrown: Option<Failure>)
    ensures thrown == if (if length == 0 then 2 else 2 * length + 1) > remainingBytes then Some(MaximumBytes) else None
  {
    var minimumBytes := if length == 0 then 2 else 2 * length + 1;
    thrown := if minimumBytes > remainingBytes then Some(MaximumBytes) else None;
  }

  // -------- the budget --------

  class ByteBudget {
    var remaining: nat

    constructor (maximumBytes: nat)
      ensures remaining == maximumBytes
    {
      remaining := maximumBytes;
    }

    method Consume(bytes: nat) returns (thrown: Option<Failure>)
      modifies this
      ensures bytes > old(remaining) ==> thrown == Some(MaximumBytes) && remaining == old(remaining)
      ensures bytes <= old(remaining) ==> thrown == None && remaining == old(remaining) - bytes
    {
      if bytes > remaining {
        return Some(MaximumBytes);
      }
      remaining := remaining - bytes;
      thrown := None;
    }
  }

  // -------- the validation pass --------

  /** Spends what the value costs, walking members in the order the object lists them. */
  method ValidateSafeJSON(v: Value, containerDepth: nat, budget: ByteBudget) returns (thrown: Option<Failure>)
    modifies budget
    ensures thrown.None? <==> Sendable(v, containerDepth) && Size(v) <= old(budget.remaining)
    ensures thrown.None? ==> budget.remaining == old(budget.remaining) - Size(v)
    ensures thrown == Some(Invalid) ==> !Sendable(v, containerDepth)
    decreases v, 2
  {
    match v
    case Null =>
      thrown := budget.Consume(4);
    case String(text) =>
      var bytes, unmeasured := MeasureJSONStringBytes(text, budget.remaining);
      if unmeasured.Some? {
        return unmeasured;
      }
      thrown := budget.Consume(bytes);
    case Bool(b) =>
      thrown := budget.Consume(if b then 4 else 5);
    case Number(printed) =>
      if printed.None? {
        return Some(Invalid);
      }
      thrown := budget.Consume(UTF8Length(printed.value));
    case Array(_) =>
      thrown := ValidateSafeContainer(v, containerDepth + 1, budget);
    case Object(_) =>
      thrown := ValidateSafeContainer(v, containerDepth + 1, budget);
  }

  method ValidateSafeContainer(v: Value, depth: nat, budget: ByteBudget) returns (thrown: Option<Failure>)
    requires (v.Array? || v.Object?) && depth > 0
    modifies budget
    ensures thrown.None? <==> Sendable(v, depth - 1) && Size(v) <= old(budget.remaining)
    ensures thrown.None? ==> budget.remaining == old(budget.remaining) - Size(v)
    ensures thrown == Some(Invalid) ==> !Sendable(v, depth - 1)
    decreases v, 1
  {
    ContainerSendable(v, depth - 1);
    hide Sendable, SendableItems, SendableFields;
    if depth > MAX_BODY_CONTAINER_DEPTH {
      return Some(Invalid);
    }
    if v.Array? {
      thrown := ValidateSafeArray(v, depth, budget);
    } else {
      thrown := ValidateSafeObject(v, depth, budget);
    }
  }

  method ValidateSafeArray(v: Value, depth: nat, budget: ByteBudget) returns (thrown: Option<Failure>)
    requires v.Array? && depth <= MAX_BODY_CONTAINER_DEPTH
    modifies budget
    ensures thrown.None? <==> SendableItems(v.items, depth) && Size(v) <= old(budget.remaining)
    ensures thrown.None? ==> budget.remaining == old(budget.remaining) - Size(v)
    ensures thrown == Some(Invalid) ==> !SendableItems(v.items, depth)
    decreases v, 0
  {
    ArrayMinimum(v, depth);
    var impossible := RequirePossibleArrayLength(|v.items|, budget.remaining);
    if impossible.Some? {
      return impossible;
    }
    thrown := budget.Consume(1);
    var index := 0;
    while index < |v.items|
      invariant index <= |v.items| && thrown.None?
      invariant SendableItems(v.items, depth) <==> SendableItems(v.items[index..], depth)
      invariant budget.remaining - ItemsSize(v.items[index..], index > 0) ==
        old(budget.remaining) - 1 - ItemsSize(v.items, false)
    {
      ghost var rest := v.items[index..];
      assert rest[1..] == v.items[index + 1..];
      if index > 0 {
        thrown := budget.Consume(1);
        if thrown.Some? {
          return;
        }
      }
      thrown := ValidateSafeJSON(v.items[index], depth, budget);
      if thrown.Some? {
        return;
      }
      index := index + 1;
    }
    thrown := budget.Consume(1);
  }

  lemma ArrayMinimum(v: Value, depth: nat)
    requires v.Array? && depth <= MAX_BODY_CONTAINER_DEPTH
    ensures SendableItems(v.items, depth) ==> Size(v) >= if |v.items| == 0 then 2 else 2 * |v.items| + 1
  {
    ItemsSendable(v.items, depth);
    if SendableItems(v.items, depth) { ItemsMinimum(v.items, false); }
  }

  method ValidateSafeObject(v: Value, depth: nat, budget: ByteBudget) returns (thrown: Option<Failure>)
    requires v.Object?
    modifies budget
    ensures thrown.None? <==> SendableFields(v.fields, depth) && Size(v) <= old(budget.remaining)
    ensures thrown.None? ==> budget.remaining == old(budget.remaining) - Size(v)
    ensures thrown == Some(Invalid) ==> !SendableFields(v.fields, depth)
    decreases v, 0
  {
    hide Quote;
    thrown := budget.Consume(1);
    if thrown.Some? {
      return;
    }
    var index := 0;
    while index < |v.fields|
      invariant index <= |v.fields| && thrown.None?
      invariant SendableFields(v.fields, depth) <==> SendableFields(v.fields[index..], depth)
      invariant budget.remaining - FieldsSize(v.fields[index..], index > 0) ==
        old(budget.remaining) - 1 - FieldsSize(v.fields, false)
    {
      ghost var rest := v.fields[index..];
      assert rest[1..] == v.fields[index + 1..];
      if index > 0 {
        thrown := budget.Consume(1);
        if thrown.Some? {
          return;
        }
      }
      var bytes, unmeasured := MeasureJSONStringBytes(v.fields[index].name, budget.remaining);
      if unmeasured.Some? {
        return unmeasured;
      }
      thrown := budget.Consume(bytes);  // measured within what remains, so this cannot throw
      thrown := budget.Consume(1);
      if thrown.Some? {
        return;
      }
      thrown := ValidateSafeJSON(v.fields[index].value, depth, budget);
      if thrown.Some? {
        return;
      }
      index := index + 1;
    }
    thrown := budget.Consume(1);
  }

  // -------- the encoding pass --------

  /** The chunks put together. */
  function Joined(chunks: seq<Text>): Text {
    if |chunks| == 0 then [] else Joined(chunks[..|chunks| - 1]) + chunks[|chunks| - 1]
  }

  /** What is still to be printed of an array's items, or of an object's sorted members. */
  ghost function ItemsLeft(items: seq<Value>, lead: bool): Text {
    PrintItems(SortedItems(items), lead)
  }

  ghost function FieldsLeft(sorted: seq<Field>, lead: bool): Text {
    PrintFields(EachSorted(sorted), lead)
  }

  lemma {:induction false} ItemsStep(items: seq<Value>, lead: bool, depth: nat)
    requires |items| > 0
    ensures ItemsLeft(items, lead) == Comma(lead) + (Canonical(items[0]) + ItemsLeft(items[1..], true))
    ensures ItemsSize(items, lead) == CommaSize(lead) + Size(items[0]) + ItemsSize(items[1..], true)
    ensures SendableItems(items, depth) <==> Sendable(items[0], depth) && SendableItems(items[1..], depth)
  {
    assert SortedItems(items)[1..] == SortedItems(items[1..]);
  }

  lemma {:induction false} FieldsStep(sorted: seq<Field>, lead: bool, depth: nat)
    requires |sorted| > 0
    ensures FieldsLeft(sorted, lead) == Comma(lead) + (PrintedField(sorted[0]) + FieldsLeft(sorted[1..], true))
    ensures FieldsSize(sorted, lead) == CommaSize(lead) + FieldSize(sorted[0]) + FieldsSize(sorted[1..], true)
    ensures SendableFields(sorted, depth) <==> SendableField(sorted[0], depth) && SendableFields(sorted[1..], depth)
  {
    assert EachSorted(sorted)[1..] == EachSorted(sorted[1..])
      && EachSorted(sorted)[0] == Field(sorted[0].name, Sorted(sorted[0].value));
    assert PrintField(EachSorted(sorted)[0]) == PrintedField(sorted[0]);
  }

  function PrintedField(f: Field): Text {
    Quote(f.name) + ([0x3A] + Canonical(f.value))
  }

  lemma NothingLeft(lead: bool, depth: nat)
    ensures ItemsLeft([], lead) == [] && FieldsLeft([], lead) == [] && ItemsSize([], lead) == FieldsSize([], lead) == 0
    ensures SendableItems([], depth) && SendableFields([], depth)
  {
  }

  class BoundedEncoder {
    const budget: ByteBudget
    var chunks: seq<Text>

    constructor (maximumBytes: nat)
      ensures fresh(budget) && budget.remaining == maximumBytes && Joined(chunks) == []
    {
      budget := new ByteBudget(maximumBytes);
      chunks := [];
    }

    /** Appends the canonical text of the value if it may be sent and fits. */
    method Encode(v: Value, containerDepth: nat) returns (thrown: Option<Failure>)
      modifies this, budget
      ensures thrown.None? <==> Sendable(v, containerDepth) && Size(v) <= old(budget.remaining)
      ensures thrown.None? ==> budget.remaining == old(budget.remaining) - Size(v)
      ensures thrown.None? ==> Joined(chunks) == old(Joined(chunks)) + Canonical(v)
      ensures thrown == Some(Invalid) ==> !Sendable(v, containerDepth)
      decreases v, 2
    {
      hide Joined, Escaped;
      match v
      case Null =>
        thrown := Append(NULL);
      case String(text) =>
        thrown := AppendJSONString(text);
      case Bool(b) =>
        thrown := Append(if b then TRUE else FALSE);
      case Number(printed) =>
        if printed.None? {
          return Some(Invalid);
        }
        NumberAscii(printed.value);
        AsciiLength(printed.value);
        thrown := Append(printed.value);
      case Array(_) =>
        thrown := EncodeContainer(v, containerDepth + 1);
      case Object(_) =>
        thrown := EncodeContainer(v, containerDepth + 1);
    }

    function Finish(): Text
      reads this
    {
      Joined(chunks)
    }

    method EncodeContainer(v: Value, depth: nat) returns (thrown: Option<Failure>)
      requires (v.Array? || v.Object?) && depth > 0
      modifies this, budget
      ensures thrown.None? <==> Sendable(v, depth - 1) && Size(v) <= old(budget.remaining)
      ensures thrown.None? ==> budget.remaining == old(budget.remaining) - Size(v)
      ensures thrown.None? ==> Joined(chunks) == old(Joined(chunks)) + Canonical(v)
      ensures thrown == Some(Invalid) ==> !Sendable(v, depth - 1)
      decreases v, 1
    {
      ContainerSendable(v, depth - 1);
      hide Sendable, SendableItems, SendableFields, Joined, Canonical;
      if depth > MAX_BODY_CONTAINER_DEPTH {
        return Some(Invalid);
      }
      if v.Array? {
        thrown := EncodeArray(v, depth);
      } else {
        thrown := EncodeObject(v, depth);
      }
    }

    method EncodeArray(v: Value, depth: nat) returns (thrown: Option<Failure>)
      requires v.Array? && depth <= MAX_BODY_CONTAINER_DEPTH
      modifies this, budget
      ensures thrown.None? <==> SendableItems(v.items, depth) && Size(v) <= old(budget.remaining)
      ensures thrown.None? ==> budget.remaining == old(budget.remaining) - Size(v)
      ensures thrown.None? ==> Joined(chunks) == old(Joined(chunks)) + Canonical(v)
      ensures thrown == Some(Invalid) ==> !SendableItems(v.items, depth)
      decreases v, 0, 2
    {
      ArrayMinimum(v, depth);
      ArrayText(v, old(Joined(chunks)));
      assert Ascii([0x5B]) && Ascii([0x5D]);
      hide *;
      var impossible := RequirePossibleArrayLength(|v.items|, budget.remaining);
      if impossible.Some? {
        return impossible;
      }
      thrown := Append([0x5B]);
      Assoc(old(Joined(chunks)), [0x5B], ItemsLeft(v.items, false));
      thrown := EncodeItems(v, depth);
      if thrown.Some? {
        return;
      }
      thrown := Append([0x5D]);
    }

    method EncodeItems(v: Value, depth: nat) returns (thrown: Option<Failure>)
      requires v.Array?
      modifies this, budget
      ensures thrown.None? <==> SendableItems(v.items, depth) && ItemsSize(v.items, false) <= old(budget.remaining)
      ensures thrown.None? ==> budget.remaining == old(budget.remaining) - ItemsSize(v.items, false)
      ensures thrown.None? ==> Joined(chunks) == old(Joined(chunks)) + ItemsLeft(v.items, false)
      ensures thrown == Some(Invalid) ==> !SendableItems(v.items, depth)
      decreases v, 0, 1
    {
      thrown := None;
      NothingLeft(|v.items| > 0, depth);
      hide *;
      assert v.items[0..] == v.items;
      var index := 0;
      while index < |v.items|
        invariant index <= |v.items| && thrown.None?
        invariant SendableItems(v.items, depth) <==> SendableItems(v.items[index..], depth)
        invariant budget.remaining - ItemsSize(v.items[index..], index > 0) ==
          old(budget.remaining) - ItemsSize(v.items, false)
        invariant Joined(chunks) + ItemsLeft(v.items[index..], index > 0) == old(Joined(chunks)) +
          ItemsLeft(v.items, false)
      {
        ghost var rest := v.items[index..];
        assert rest[1..] == v.items[index + 1..];
        ItemsStep(rest, index > 0, depth);
        Assoc3(Joined(chunks), Comma(index > 0), Canonical(v.items[index]), ItemsLeft(rest[1..], true));
        thrown := EncodeItem(index > 0, v.items[index], v, depth);
        if thrown.Some? {
          return;
        }
        index := index + 1;
      }
      assert v.items[index..] == [];
    }

    /** One item: a comma unless it is the first, and its value. */
    method EncodeItem(lead: bool, item: Value, ghost v: Value, depth: nat) returns (thrown: Option<Failure>)
      requires v.Array? && item in v.items
      modifies this, budget
      ensures thrown.None? <==> Sendable(item, depth) && CommaSize(lead) + Size(item) <= old(budget.remaining)
      ensures thrown.None? ==> budget.remaining == old(budget.remaining) - CommaSize(lead) - Size(item)
      ensures thrown.None? ==> Joined(chunks) == old(Joined(chunks)) + Comma(lead) + Canonical(item)
      ensures thrown == Some(Invalid) ==> !Sendable(item, depth)
      decreases v, 0, 0
    {
      hide Joined, Canonical, Size, Sendable, UTF8Length;
      if lead {
        thrown := Append([0x2C]);
        if thrown.Some? {
          return;
        }
      }
      thrown := Encode(item, depth);
    }

    method EncodeObject(v: Value, depth: nat) returns (thrown: Option<Failure>)
      requires v.Object?
      modifies this, budget
      ensures thrown.None? <==> SendableFields(v.fields, depth) && Size(v) <= old(budget.remaining)
      ensures thrown.None? ==> budget.remaining == old(budget.remaining) - Size(v)
      ensures thrown.None? ==> Joined(chunks) == old(Joined(chunks)) + Canonical(v)
      ensures thrown == Some(Invalid) ==> !SendableFields(v.fields, depth)
      decreases v, 0, 2
    {
      var sorted := SortFields(v.fields);
      SortThenEach(v.fields);
      SortSendable(v.fields, depth);
      ObjectText(v, old(Joined(chunks)));
      assert Ascii([0x7B]) && Ascii([0x7D]);
      hide *;
      thrown := Append([0x7B]);
      if thrown.Some? {
        return;
      }
      Assoc(old(Joined(chunks)), [0x7B], FieldsLeft(sorted, false));
      thrown := EncodeFields(sorted, v, depth);
      if thrown.Some? {
        return;
      }
      thrown := Append([0x7D]);
    }

    method EncodeFields(sorted: seq<Field>, ghost v: Value, depth: nat) returns (thrown: Option<Failure>)
      requires v.Object? && forall f :: f in sorted ==> f in v.fields
      modifies this, budget
      ensures thrown.None? <==> SendableFields(sorted, depth) && FieldsSize(sorted, false) <= old(budget.remaining)
      ensures thrown.None? ==> budget.remaining == old(budget.remaining) - FieldsSize(sorted, false)
      ensures thrown.None? ==> Joined(chunks) == old(Joined(chunks)) + FieldsLeft(sorted, false)
      ensures thrown == Some(Invalid) ==> !SendableFields(sorted, depth)
      decreases v, 0, 1
    {
      thrown := None;
      NothingLeft(|sorted| > 0, depth);
      hide *;
      assert sorted[0..] == sorted;
      var index := 0;
      while index < |sorted|
        invariant index <= |sorted| && thrown.None?
        invariant SendableFields(sorted, depth) <==> SendableFields(sorted[index..], depth)
        invariant budget.remaining - FieldsSize(sorted[index..], index > 0) ==
          old(budget.remaining) - FieldsSize(sorted, false)
        invariant Joined(chunks) + FieldsLeft(sorted[index..], index > 0) == old(Joined(chunks)) +
          FieldsLeft(sorted, false)
      {
        ghost var rest := sorted[index..];
        assert sorted[index] in sorted && rest[1..] == sorted[index + 1..];
        FieldsStep(rest, index > 0, depth);
        Assoc3(Joined(chunks), Comma(index > 0), PrintedField(sorted[index]), FieldsLeft(rest[1..], true));
        thrown := EncodeField(index > 0, sorted[index], v, depth);
        if thrown.Some? {
          return;
        }
        index := index + 1;
      }
      assert sorted[index..] == [];
    }

    /** One member: a comma unless it is the first, its name, a colon and its value. */
    method EncodeField(lead: bool, f: Field, ghost v: Value, depth: nat) returns (thrown: Option<Failure>)
      requires v.Object? && f in v.fields
      modifies this, budget
      ensures thrown.None? <==> SendableField(f, depth) && CommaSize(lead) + FieldSize(f) <= old(budget.remaining)
      ensures thrown.None? ==> budget.remaining == old(budget.remaining) - CommaSize(lead) - FieldSize(f)
      ensures thrown.None? ==> Joined(chunks) == old(Joined(chunks)) + Comma(lead) + PrintedField(f)
      ensures thrown == Some(Invalid) ==> !SendableField(f, depth)
      decreases v, 0, 0
    {
      hide Joined, Canonical, Quote, Size, Sendable, UTF8Length;
      if lead {
        thrown := Append([0x2C]);
        if thrown.Some? {
          return;
        }
      }
      Assoc3(Joined(chunks), Quote(f.name), [0x3A], Canonical(f.value));
      thrown := AppendJSONString(f.name);
      if thrown.Some? {
        return;
      }
      thrown := Append([0x3A]);
      if thrown.Some? {
        return;
      }
      thrown := Encode(f.value, depth);
    }

    method AppendJSONString(value: Text) returns (thrown: Option<Failure>)
      modifies this, budget
      ensures thrown.None? <==> ValidText(value) && UTF8Length(Quote(value)) <= old(budget.remaining)
      ensures thrown.None? ==> budget.remaining == old(budget.remaining) - UTF8Length(Quote(value))
      ensures thrown.None? ==> Joined(chunks) == old(Joined(chunks)) + Quote(value)
      ensures thrown == Some(Invalid) ==> !ValidText(value)
    {
      hide Joined, Quote;
      var measuredBytes, unmeasured := MeasureJSONStringBytes(value, budget.remaining);
      if unmeasured.Some? {
        return unmeasured;
      }
      thrown := AppendMeasured(Quote(value), measuredBytes);
    }

    method Append(value: Text) returns (thrown: Option<Failure>)
      requires Ascii(value)
      modifies this, budget
      ensures thrown == if |value| <= old(budget.remaining) then None else Some(MaximumBytes)
      ensures thrown.None? ==> budget.remaining == old(budget.remaining) - |value|
      ensures thrown.None? ==> Joined(chunks) == old(Joined(chunks)) + value
    {
      AsciiLength(value);
      thrown := AppendMeasured(value, UTF8Length(value));
    }

    method AppendMeasured(value: Text, bytes: nat) returns (thrown: Option<Failure>)
      modifies this, budget
      ensures thrown == if bytes <= old(budget.remaining) then None else Some(MaximumBytes)
      ensures thrown.None? ==> budget.remaining == old(budget.remaining) - bytes
      ensures thrown.None? ==> Joined(chunks) == old(Joined(chunks)) + value
    {
      thrown := budget.Consume(bytes);
      if thrown.Some? {
        return;
      }
      assert (chunks + [value])[..|chunks|] == chunks;
      chunks := chunks + [value];
    }
  }

  lemma Assoc(a: Text, b: Text, c: Text)
    ensures (a + b) + c == a + (b + c)
  {
  }

  lemma Assoc3(a: Text, comma: Text, b: Text, c: Text)
    ensures a + (comma + (b + c)) == (a + comma + b) + c
    ensures comma == [] ==> a + comma == a
  {
  }

  lemma ArrayText(v: Value, before: Text)
    requires v.Array?
    ensures before + ([0x5B] + ItemsLeft(v.items, false)) + [0x5D] == before + Canonical(v)
    ensures Size(v) == 2 + ItemsSize(v.items, false)
  {
  }

  lemma ObjectText(v: Value, before: Text)
    requires v.Object?
    ensures before + ([0x7B] + FieldsLeft(SortFields(v.fields), false)) + [0x7D] == before + Canonical(v)
    ensures Size(v) == 2 + FieldsSize(v.fields, false)
  {
    SortThenEach(v.fields);
  }

  // -------- both passes --------

  /**
   The canonical text of a body, exactly when the body may be sent and that text takes no more bytes than allowed; a
   body that may be sent is refused for its size alone.
   */
  method CanonicalCompactJSON(value: Value, maximumBytes: int) returns (r: Canonicalized)
    ensures r.Encoded? <==>
      0 <= maximumBytes <= MAX_SAFE_INTEGER && Sendable(value, 0) && UTF8Length(Canonical(value)) <= maximumBytes
    ensures r.Encoded? ==> r.text == Canonical(value)
    ensures 0 <= maximumBytes <= MAX_SAFE_INTEGER && Sendable(value, 0) ==>
      (r == Rejected(MaximumBytes) <==> UTF8Length(Canonical(value)) > maximumBytes)
    ensures r == Rejected(MaximumBytes) ==> 0 <= maximumBytes <= MAX_SAFE_INTEGER
  {
    if Sendable(value, 0) { CanonicalLength(value); }
    hide Canonical, Joined, UTF8Length, Sendable, Size;
    if maximumBytes < 0 || maximumBytes > MAX_SAFE_INTEGER {
      return Rejected(Invalid);
    }
    var validationBudget := new ByteBudget(maximumBytes);
    var thrown := ValidateSafeJSON(value, 0, validationBudget);
    if thrown.Some? {
      assert thrown.value.Invalid? || thrown.value.MaximumBytes?;
      return Rejected(thrown.value);
    }
    var encoder := new BoundedEncoder(maximumBytes);
    thrown := encoder.Encode(value, 0);
    r := Encoded(encoder.Finish());
  }

  lemma {:induction false} CanonicalLength(value: Value)
    requires Clean(value)
    ensures ValidText(Canonical(value)) && UTF8Length(Canonical(value)) == Size(value)
  {
    SortKeeps(value);
    SizeIsLength(Sorted(value));
  }
}
