/**
 The server's inspection of a frame: one pass over the decoder's tokens that refuses nesting beyond 64 containers and
 notes whether any object, and the frame's own `request_id` in particular, names a member twice.
 */
module JSONInspection {
  import opened Utf16
  import opened Wrappers
  import opened JSONTree
  import Recogniser

  const MAX_NESTING: nat := 64
  const REQUEST_ID: Text := [0x72, 0x65, 0x71, 0x75, 0x65, 0x73, 0x74, 0x5F, 0x69, 0x64]

  // -------- tokens --------

  datatype Token = OpenObject | CloseObject | OpenArray | CloseArray | Str(text: Text) | Scalar

  /** What the decoder makes of the text of a tree. */
  function Tokens(v: Value): (r: seq<Token>)
    ensures |r| > 0
    decreases v
  {
    match v
    case String(text) => [Str(text)]
    case Array(items) => [OpenArray] + ItemTokens(items) + [CloseArray]
    case Object(fields) => [OpenObject] + FieldTokens(fields) + [CloseObject]
    case _ => [Scalar]
  }

  function ItemTokens(items: seq<Value>): seq<Token>
    decreases items
  {
    if |items| == 0 then [] else Tokens(items[0]) + ItemTokens(items[1..])
  }

  function FieldTokens(fields: seq<Field>): seq<Token>
    decreases fields
  {
    if |fields| == 0 then [] else [Str(fields[0].name)] + Tokens(fields[0].value) + FieldTokens(fields[1..])
  }

  class Decoder {
    const tokens: seq<Token>
    var at: nat

    ghost predicate Valid()
      reads this
    {
      at <= |tokens|
    }

    ghost function Left(): seq<Token>
      requires Valid()
      reads this
    {
      tokens[at..]
    }

    constructor (tokens: seq<Token>)
      ensures Valid() && Left() == tokens
    {
      this.tokens, at := tokens, 0;
    }

    method Token() returns (token: Option<Token>)
      requires Valid()
      modifies this
      ensures Valid()
      ensures old(Left()) == [] ==> token == None && Left() == []
      ensures old(Left()) != [] ==> token == Some(old(Left())[0]) && Left() == old(Left())[1..]
    {
      if at == |tokens| {
        return None;
      }
      token := Some(tokens[at]);
      at := at + 1;
    }

    /** Is there another element in the container being read? */
    function More(): (more: bool)
      requires Valid()
      reads this
      ensures more <==> |Left()| > 0 && Left()[0] != CloseObject && Left()[0] != CloseArray
    {
      at < |tokens| && tokens[at] != CloseObject && tokens[at] != CloseArray
    }
  }

  // -------- what the inspection notes --------

  /** Does a member repeat a name, or hold an object somewhere that does? */
  predicate Repeats(fields: seq<Field>, seen: set<Text>) {
    |fields| > 0 && (fields[0].name in seen || !Unambiguous(fields[0].value)
      || Repeats(fields[1..], seen + {fields[0].name}))
  }

  /** Is this name a member's more than once? */
  predicate RepeatsName(fields: seq<Field>, name: Text, already: bool) {
    |fields| > 0 && ((fields[0].name == name && already)
      || RepeatsName(fields[1..], name, already || fields[0].name == name))
  }

  predicate ItemsRepeat(items: seq<Value>) {
    |items| > 0 && (!Unambiguous(items[0]) || ItemsRepeat(items[1..]))
  }

  /** Does the root object itself repeat `request_id`? */
  predicate RepeatsRequestID(v: Value) {
    v.Object? && RepeatsName(v.fields, REQUEST_ID, false)
  }

  lemma {:induction false} ItemsRepeatIs(items: seq<Value>)
    ensures ItemsRepeat(items) <==> exists i :: 0 <= i < |items| && !Unambiguous(items[i])
  {
    if |items| > 0 {
      ItemsRepeatIs(items[1..]);
      assert forall i :: 0 < i < |items| ==> items[i] == items[1..][i - 1];
      if ItemsRepeat(items[1..]) {
        var i :| 0 <= i < |items| - 1 && !Unambiguous(items[1..][i]);
        assert !Unambiguous(items[i + 1]);
      }
    }
  }

  lemma {:induction false} RepeatsIs(fields: seq<Field>, seen: set<Text>)
    ensures !Repeats(fields, seen) <==>
      (DistinctNames(fields) && Recogniser.Unseen(fields, seen) && forall i :: 0 <= i < |fields| ==>
        Unambiguous(fields[i].value))
  {
    if |fields| > 0 {
      RepeatsIs(fields[1..], seen + {fields[0].name});
      Recogniser.NamesSplit(fields, seen);
      assert forall i :: 0 < i < |fields| ==> fields[i] == fields[1..][i - 1];
    }
  }

  /** Exactly when two members have the name. */
  lemma {:induction false} RepeatsNameIs(fields: seq<Field>, name: Text, already: bool)
    ensures RepeatsName(fields, name, already) <==>
      ((already && exists i :: 0 <= i < |fields| && fields[i].name == name) ||
      exists i, j :: 0 <= i < j < |fields| && fields[i].name == name == fields[j].name)
  {
    if |fields| > 0 {
      var tail := fields[1..];
      RepeatsNameIs(tail, name, already || fields[0].name == name);
      assert forall i :: 0 < i < |fields| ==> fields[i] == tail[i - 1];
      assert forall i :: 0 <= i < |tail| ==> tail[i] == fields[i + 1];
    }
  }

  // -------- the pass --------

  class Inspection {
    var object_: bool
    var duplicate: bool
    var duplicateRequestID: bool

    constructor ()
      ensures !object_ && !duplicate && !duplicateRequestID
    {
      object_, duplicate, duplicateRequestID := false, false, false;
    }
  }

  /** Reads the rest of the value whose first token is given; `v` is the tree those tokens are of. */
  method InspectJSONToken(decoder: Decoder, token: Token, parentDepth: nat, root: bool, inspection: Inspection,
                          ghost v: Value, ghost after: seq<Token>) returns (ok: bool)
    requires decoder.Valid() && [token] + decoder.Left() == Tokens(v) + after && parentDepth <= MAX_NESTING
    modifies decoder, inspection
    ensures decoder.Valid() && inspection.object_ == old(inspection.object_)
    ensures ok <==> Depth(v) == 0 || parentDepth + Depth(v) <= MAX_NESTING
    ensures ok ==> decoder.Left() == after
    ensures ok ==> (inspection.duplicate <==> old(inspection.duplicate) || !Unambiguous(v))
    ensures ok ==>
      (inspection.duplicateRequestID <==> old(inspection.duplicateRequestID) || (root && RepeatsRequestID(v)))
    decreases v, 1
  {
    assert token == Tokens(v)[0] by {
      assert ([token] + decoder.Left())[0] == token && (Tokens(v) + after)[0] == Tokens(v)[0];
    }
    assert decoder.Left() == Tokens(v)[1..] + after by {
      assert ([token] + decoder.Left())[1..] == decoder.Left();
      assert (Tokens(v) + after)[1..] == Tokens(v)[1..] + after;
    }
    match token {
      case OpenObject =>
        if parentDepth >= MAX_NESTING {
          return false;
        }
        assert Tokens(v)[1..] == FieldTokens(v.fields) + [CloseObject];
        RepeatsIs(v.fields, {});
        ok := InspectFields(decoder, parentDepth + 1, root, inspection, v, after);
      case OpenArray =>
        if parentDepth >= MAX_NESTING {
          return false;
        }
        assert Tokens(v)[1..] == ItemTokens(v.items) + [CloseArray];
        ItemsRepeatIs(v.items);
        ok := InspectItems(decoder, parentDepth + 1, root, inspection, v, after);
      case Str(_) =>
        ok := true;
      case Scalar =>
        ok := true;
    }
  }

  lemma {:induction false} FieldTokensSplit(fields: seq<Field>, after: seq<Token>)
    ensures var all := FieldTokens(fields) + [CloseObject] + after;
      && |all| > 0 && (all[0] == CloseObject <==> |fields| == 0) && all[0] != CloseArray
      && (|fields| == 0 ==> all == [CloseObject] + after)
      && (|fields| > 0 ==>
        all == [Str(fields[0].name)] + (Tokens(fields[0].value) + (FieldTokens(fields[1..]) + [CloseObject] + after)))
  {
    hide Tokens;
  }

  lemma {:induction false} ItemTokensSplit(items: seq<Value>, after: seq<Token>)
    ensures var all := ItemTokens(items) + [CloseArray] + after;
      && |all| > 0 && (all[0] == CloseArray <==> |items| == 0) && all[0] != CloseObject
      && (|items| == 0 ==> all == [CloseArray] + after)
      && (|items| > 0 ==> all == Tokens(items[0]) + (ItemTokens(items[1..]) + [CloseArray] + after))
  {
    if |items| > 0 {
      FirstToken(items[0]);
      hide Tokens;
      assert (ItemTokens(items) + [CloseArray] + after)[0] == Tokens(items[0])[0];
    }
  }

  lemma FirstToken(v: Value)
    ensures Tokens(v)[0] != CloseObject && Tokens(v)[0] != CloseArray
  {
  }

  method InspectFields(decoder: Decoder, depth: nat, root: bool, inspection: Inspection,
                       ghost v: Value, ghost after: seq<Token>) returns (ok: bool)
    requires v.Object? && depth <= MAX_NESTING
    requires decoder.Valid() && decoder.Left() == FieldTokens(v.fields) + [CloseObject] + after
    modifies decoder, inspection
    ensures decoder.Valid() && inspection.object_ == old(inspection.object_)
    ensures ok <==> depth + FieldsDepth(v.fields) <= MAX_NESTING
    ensures ok ==> decoder.Left() == after
    ensures ok ==> (inspection.duplicate <==> old(inspection.duplicate) || Repeats(v.fields, {}))
    ensures ok ==>
      (inspection.duplicateRequestID <==>
      old(inspection.duplicateRequestID) || (root && RepeatsName(v.fields, REQUEST_ID, false)))
    decreases v, 0, 1
  {
    var seen: set<Text> := {};
    ghost var rest := v.fields;
    hide *;
    FieldTokensSplit(rest, after);
    while decoder.More()
      invariant decoder.Valid() && inspection.object_ == old(inspection.object_) && forall f :: f in rest ==>
        f in v.fields
      invariant decoder.Left() == FieldTokens(rest) + [CloseObject] + after
      invariant depth + FieldsDepth(v.fields) <= MAX_NESTING <==> depth + FieldsDepth(rest) <= MAX_NESTING
      invariant (old(inspection.duplicate) || Repeats(v.fields, {})) <==> (inspection.duplicate || Repeats(rest, seen))
      invariant (old(inspection.duplicateRequestID) || (root && RepeatsName(v.fields, REQUEST_ID, false))) <==>
        (inspection.duplicateRequestID || (root && RepeatsName(rest, REQUEST_ID, REQUEST_ID in seen)))
      decreases |rest|
    {
      FieldTokensSplit(rest, after);
      FieldsStep(rest, seen, depth);
      ok, seen := InspectField(decoder, depth, root, inspection, seen, v, rest[0],
        FieldTokens(rest[1..]) + [CloseObject] + after);
      if !ok {
        return;
      }
      rest := rest[1..];
    }
    FieldTokensSplit(rest, after);
    FieldsEnd(depth, seen);
    assert rest == [];
    var closing := decoder.Token();
    ok := closing == Some(CloseObject);
  }

  lemma {:induction false} FieldsStep(fields: seq<Field>, seen: set<Text>, depth: nat)
    requires |fields| > 0
    ensures var f := fields[0];
      && (depth + FieldsDepth(fields) <= MAX_NESTING <==>
        depth + Depth(f.value) <= MAX_NESTING && depth + FieldsDepth(fields[1..]) <= MAX_NESTING)
      && (Repeats(fields, seen) <==> f.name in seen || !Unambiguous(f.value) || Repeats(fields[1..], seen + {f.name}))
      && (RepeatsName(fields, REQUEST_ID, REQUEST_ID in seen) <==>
        ((f.name == REQUEST_ID && f.name in seen)
          || RepeatsName(fields[1..], REQUEST_ID, REQUEST_ID in seen + {f.name})))
  {
    hide Unambiguous, Depth;
  }

  lemma FieldsEnd(depth: nat, seen: set<Text>)
    requires depth <= MAX_NESTING
    ensures depth + FieldsDepth([]) <= MAX_NESTING && !Repeats([], seen)
      && !RepeatsName([], REQUEST_ID, REQUEST_ID in seen)
  {
  }

  /** One member: its name, checked against those seen, and its value. */
  method InspectField(decoder: Decoder, depth: nat, root: bool, inspection: Inspection, seen: set<Text>,
                      ghost v: Value, ghost f: Field, ghost others: seq<Token>) returns (ok: bool, names: set<Text>)
    requires v.Object? && f in v.fields && depth <= MAX_NESTING
    requires decoder.Valid() && decoder.Left() == [Str(f.name)] + (Tokens(f.value) + others)
    modifies decoder, inspection
    ensures decoder.Valid() && inspection.object_ == old(inspection.object_) && names == seen + {f.name}
    ensures ok <==> depth + Depth(f.value) <= MAX_NESTING
    ensures ok ==> decoder.Left() == others
    ensures ok ==> (inspection.duplicate <==> old(inspection.duplicate) || f.name in seen || !Unambiguous(f.value))
    ensures ok ==> (inspection.duplicateRequestID <==>
      old(inspection.duplicateRequestID) || (root && f.name == REQUEST_ID && f.name in seen))
    decreases v, 0, 0
  {
    hide Tokens, Unambiguous, Depth;
    ghost var tokens := Tokens(f.value);
    var nameToken := decoder.Token();
    assert decoder.Left() == tokens + others;
    var name := nameToken.value.text;
    if name in seen {
      inspection.duplicate := true;
      if root && name == REQUEST_ID {
        inspection.duplicateRequestID := true;
      }
    }
    names := seen + {name};
    var value := decoder.Token();
    assert [value.value] + decoder.Left() == tokens + others;
    ok := InspectJSONToken(decoder, value.value, depth, false, inspection, f.value, others);
  }

  method InspectItems(decoder: Decoder, depth: nat, root: bool, inspection: Inspection,
                      ghost v: Value, ghost after: seq<Token>) returns (ok: bool)
    requires v.Array? && depth <= MAX_NESTING
    requires decoder.Valid() && decoder.Left() == ItemTokens(v.items) + [CloseArray] + after
    modifies decoder, inspection
    ensures decoder.Valid() && inspection.object_ == old(inspection.object_)
    ensures ok <==> depth + ItemsDepth(v.items) <= MAX_NESTING
    ensures ok ==> decoder.Left() == after
    ensures ok ==> (inspection.duplicate <==> old(inspection.duplicate) || ItemsRepeat(v.items))
    ensures ok ==> inspection.duplicateRequestID == old(inspection.duplicateRequestID)
    decreases v, 0
  {
    hide Tokens, ItemTokens, Unambiguous;
    ghost var rest := v.items;
    while decoder.More()
      invariant decoder.Valid() && inspection.object_ == old(inspection.object_) && forall item :: item in rest ==>
        item in v.items
      invariant decoder.Left() == ItemTokens(rest) + [CloseArray] + after
      invariant depth + ItemsDepth(v.items) <= MAX_NESTING <==> depth + ItemsDepth(rest) <= MAX_NESTING
      invariant (old(inspection.duplicate) || ItemsRepeat(v.items)) <==> (inspection.duplicate || ItemsRepeat(rest))
      invariant inspection.duplicateRequestID == old(inspection.duplicateRequestID)
      decreases |rest|
    {
      ItemTokensSplit(rest, after);
      ghost var others := ItemTokens(rest[1..]) + [CloseArray] + after;
      assert rest[0] in v.items;
      var value := decoder.Token();
      assert [value.value] + decoder.Left() == Tokens(rest[0]) + others;
      ok := InspectJSONToken(decoder, value.value, depth, false, inspection, rest[0], others);
      if !ok {
        return;
      }
      rest := rest[1..];
    }
    ItemTokensSplit(rest, after);
    assert rest == [];
    var closing := decoder.Token();
    ok := closing == Some(CloseArray);
  }

  datatype Inspected = Inspected(object_: bool, duplicate: bool, duplicateRequestID: bool)

  /** The whole frame: an error when it nests too deep or something follows the value. */
  method InspectJSON(tokens: seq<Token>, ghost v: Value, ghost after: seq<Token>) returns (r: Option<Inspected>)
    requires tokens == Tokens(v) + after
    ensures r.Some? <==> Depth(v) <= MAX_NESTING && after == []
    ensures r.Some? ==> r.value == Inspected(v.Object?, !Unambiguous(v), RepeatsRequestID(v))
  {
    var decoder := new Decoder(tokens);
    var token := decoder.Token();
    assert token == Some(tokens[0]) && tokens[0] == Tokens(v)[0];
    var inspection := new Inspection();
    inspection.object_ := token.value == OpenObject;
    assert v.Object? <==> token.value == OpenObject;
    hide Tokens, RepeatsRequestID;
    var ok := InspectJSONToken(decoder, token.value, 0, true, inspection, v, after);
    if !ok {
      return None;
    }
    var trailing := decoder.Token();
    if trailing.Some? {
      return None;
    }
    r := Some(Inspected(inspection.object_, inspection.duplicate, inspection.duplicateRequestID));
  }
}
