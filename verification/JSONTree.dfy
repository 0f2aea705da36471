/**
 A message body as the client sees it: a finite JSON tree, the text it prints as, and the tree with its members sorted.
 */
module JSONTree {
  import opened Utf16
  import opened Wrappers

  // -------- scalars --------

  predicate Digit(u: Unit) {
    0x30 <= u <= 0x39
  }

  /** What is left after the digits `t` starts with. */
  function AfterDigits(t: Text): (rest: Text)
    ensures |rest| <= |t|
  {
    if |t| > 0 && Digit(t[0]) then AfterDigits(t[1..]) else t
  }

  function AfterSign(t: Text): (rest: Text)
    ensures |rest| <= |t|
  {
    if |t| > 0 && t[0] == 0x2D then t[1..] else t
  }

  function AfterInteger(t: Text): (rest: Option<Text>)
    ensures rest.Some? ==> |rest.value| < |t|
  {
    if |t| == 0 || !Digit(t[0]) then None
    else if t[0] == 0x30 then Some(t[1..])
    else Some(AfterDigits(t[1..]))
  }

  function AfterFraction(t: Text): (rest: Text)
    ensures |rest| <= |t|
  {
    if |t| > 1 && t[0] == 0x2E && Digit(t[1]) then AfterDigits(t[1..]) else t
  }

  function AfterExponent(t: Text): (rest: Text)
    ensures |rest| <= |t|
  {
    if |t| > 1 && (t[0] == 0x45 || t[0] == 0x65) then
      if Digit(t[1]) then AfterDigits(t[1..])
      else if |t| > 2 && (t[1] == 0x2B || t[1] == 0x2D) && Digit(t[2]) then AfterDigits(t[2..])
      else t
    else t
  }

  /** What is left after the number `t` starts with (section 6 of RFC 8259). */
  function AfterNumber(t: Text): (rest: Option<Text>)
    ensures rest.Some? ==> |rest.value| < |t|
  {
    var whole := AfterInteger(AfterSign(t));
    if whole.None? then None else Some(AfterExponent(AfterFraction(whole.value)))
  }

  predicate IsNumber(t: Text) {
    AfterNumber(t) == Some([])
  }

  /** What a finite number prints as. */
  type NumberText = t: Text | IsNumber(t) witness [0x30]

  const NULL: Text := [0x6E, 0x75, 0x6C, 0x6C]
  const TRUE: Text := [0x74, 0x72, 0x75, 0x65]
  const FALSE: Text := [0x66, 0x61, 0x6C, 0x73, 0x65]

  function Hex(n: nat): Unit
    requires n < 16
  {
    if n < 10 then 0x30 + n else 0x57 + n
  }

  /** One unit inside a printed string. */
  function Escape(u: Unit): Text {
    if u == 0x22 || u == 0x5C then [0x5C, u]
    else if u == 0x08 then [0x5C, 0x62]
    else if u == 0x09 then [0x5C, 0x74]
    else if u == 0x0A then [0x5C, 0x6E]
    else if u == 0x0C then [0x5C, 0x66]
    else if u == 0x0D then [0x5C, 0x72]
    else if u < 0x20 then [0x5C, 0x75, 0x30, 0x30, Hex(u / 16), Hex(u % 16)]
    else [u]
  }

  /** A string with paired surrogates as it is printed, without its quotes. */
  function Escaped(t: Text): Text {
    if |t| == 0 then [] else Escape(t[0]) + Escaped(t[1..])
  }

  function Quote(t: Text): Text {
    [0x22] + Escaped(t) + [0x22]
  }

  // -------- trees --------

  datatype Value =
    | Null
    | Bool(b: bool)
    | Number(printed: Option<NumberText>)  // None for a number that is not finite
    | String(text: Text)
    | Array(items: seq<Value>)
    | Object(fields: seq<Field>)           // in the order the object lists its own keys

  datatype Field = Field(name: Text, value: Value)

  function Comma(lead: bool): Text {
    if lead then [0x2C] else []
  }

  /** The compact text of a tree, members in the order they are in. */
  function Print(v: Value): Text
    decreases v
  {
    match v
    case Null => NULL
    case Bool(b) => if b then TRUE else FALSE
    case Number(printed) => if printed.Some? then printed.value else []
    case String(text) => Quote(text)
    case Array(items) => [0x5B] + PrintItems(items, false) + [0x5D]
    case Object(fields) => [0x7B] + PrintFields(fields, false) + [0x7D]
  }

  /** The items, with a comma before the first of them when others came before. */
  function PrintItems(items: seq<Value>, lead: bool): Text
    decreases items
  {
    if |items| == 0 then [] else Comma(lead) + (Print(items[0]) + PrintItems(items[1..], true))
  }

  function PrintField(f: Field): Text
    decreases f
  {
    Quote(f.name) + ([0x3A] + Print(f.value))
  }

  function PrintFields(fields: seq<Field>, lead: bool): Text
    decreases fields
  {
    if |fields| == 0 then [] else Comma(lead) + (PrintField(fields[0]) + PrintFields(fields[1..], true))
  }

  // -------- what the client will send --------

  /** Numbers are finite, and strings and names are proper text. */
  predicate Clean(v: Value)
    decreases v
  {
    match v
    case Number(printed) => printed.Some?
    case String(text) => ValidText(text)
    case Array(items) => forall i :: 0 <= i < |items| ==> Clean(items[i])
    case Object(fields) => forall i :: 0 <= i < |fields| ==> ValidText(fields[i].name) && Clean(fields[i].value)
    case _ => true
  }

  /** How deep containers nest. */
  function Depth(v: Value): nat
    decreases v
  {
    match v
    case Array(items) => 1 + ItemsDepth(items)
    case Object(fields) => 1 + FieldsDepth(fields)
    case _ => 0
  }

  function Larger(a: nat, b: nat): nat {
    if a < b then b else a
  }

  function ItemsDepth(items: seq<Value>): nat
    decreases items
  {
    if |items| == 0 then 0 else Larger(Depth(items[0]), ItemsDepth(items[1..]))
  }

  function FieldsDepth(fields: seq<Field>): nat
    decreases fields
  {
    if |fields| == 0 then 0 else Larger(Depth(fields[0].value), FieldsDepth(fields[1..]))
  }

  predicate DistinctNames(fields: seq<Field>) {
    forall i, j :: 0 <= i < j < |fields| ==> fields[i].name != fields[j].name
  }

  /** No object names a member twice; true of every JavaScript object. */
  predicate Unambiguous(v: Value)
    decreases v
  {
    match v
    case Array(items) => forall i :: 0 <= i < |items| ==> Unambiguous(items[i])
    case Object(fields) => DistinctNames(fields) && forall i :: 0 <= i < |fields| ==> Unambiguous(fields[i].value)
    case _ => true
  }

  // -------- members sorted --------

  function Insert(fields: seq<Field>, f: Field): seq<Field> {
    if |fields| == 0 || Below(f.name, fields[0].name) then [f] + fields else [fields[0]] + Insert(fields[1..], f)
  }

  /** The members of one object sorted by name, their values as they are. */
  function SortFields(fields: seq<Field>): seq<Field> {
    if |fields| == 0 then [] else Insert(SortFields(fields[1..]), fields[0])
  }

  /** The tree with the members of every object sorted by name. */
  function Sorted(v: Value): Value
    decreases v
  {
    match v
    case Array(items) => Array(SortedItems(items))
    case Object(fields) => Object(SortedFields(fields))
    case _ => v
  }

  function SortedItems(items: seq<Value>): (r: seq<Value>)
    ensures |r| == |items|
    decreases items
  {
    if |items| == 0 then [] else [Sorted(items[0])] + SortedItems(items[1..])
  }

  function SortedFields(fields: seq<Field>): seq<Field>
    decreases fields
  {
    if |fields| == 0 then [] else Insert(SortedFields(fields[1..]), Field(fields[0].name, Sorted(fields[0].value)))
  }

  /** The text a body is sent as. */
  function Canonical(v: Value): Text {
    Print(Sorted(v))
  }

  // -------- sizes --------

  /** What a tree costs in bytes, added up in the order its members are in. */
  function Size(v: Value): nat
    decreases v
  {
    match v
    case Null => 4
    case Bool(b) => if b then 4 else 5
    case Number(printed) => if printed.Some? then UTF8Length(printed.value) else 0
    case String(text) => UTF8Length(Quote(text))
    case Array(items) => 2 + ItemsSize(items, false)
    case Object(fields) => 2 + FieldsSize(fields, false)
  }

  function CommaSize(lead: bool): nat {
    if lead then 1 else 0
  }

  function ItemsSize(items: seq<Value>, lead: bool): nat
    decreases items
  {
    if |items| == 0 then 0 else CommaSize(lead) + Size(items[0]) + ItemsSize(items[1..], true)
  }

  function FieldSize(f: Field): nat
    decreases f
  {
    UTF8Length(Quote(f.name)) + 1 + Size(f.value)
  }

  function FieldsSize(fields: seq<Field>, lead: bool): nat
    decreases fields
  {
    if |fields| == 0 then 0 else CommaSize(lead) + FieldSize(fields[0]) + FieldsSize(fields[1..], true)
  }
}
