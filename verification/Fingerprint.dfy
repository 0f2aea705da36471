/**
 The byte stream a send is fingerprinted by, and why it is a canonical form.

 The server hashes this stream; the model keeps the stream itself.  A byte is a character below 256.
 */
module Fingerprint {
  import opened Wrappers
  import opened Messages
  import opened Decimals
  import DecimalNumber
  import ByteOrder

  // -------- the stream --------

  /** `n` as `count` bytes, most significant first. */
  function BigEndian(n: nat, count: nat): string {
    if count == 0 then "" else BigEndian(n / 256, count - 1) + [(n % 256) as char]
  }

  /** A length-prefixed part: its kind, eight bytes of length, its value. */
  function Part(kind: string, value: string): string {
    kind + (BigEndian(|value|, 8) + value)
  }

  function NumberText(text: string): string {
    match DecimalNumber.Normalize(text)
    case Success(normalized) => normalized
    case Failure(_) => ""
  }

  /** Every number inside normalises. */
  ghost predicate Encodable(v: JSON)
    decreases v, 1
  {
    match v
    case Number(text) => DecimalNumber.Normalize(text).Success?
    case Array(items) => ItemsEncodable(v, 0)
    case Object(members) => MembersEncodable(v, ByteOrder.Listing(members.Keys))
    case _ => true
  }

  ghost predicate ItemsEncodable(v: JSON, i: nat)
    requires v.Array? && i <= |v.items|
    decreases v, 0, |v.items| - i
  {
    i == |v.items| || (Encodable(v.items[i]) && ItemsEncodable(v, i + 1))
  }

  ghost predicate MembersEncodable(v: JSON, keys: seq<string>)
    requires v.Object?
    decreases v, 0, |keys|
  {
    |keys| == 0 || ((keys[0] in v.members ==> Encodable(v.members[keys[0]])) && MembersEncodable(v, keys[1..]))
  }

  /** The canonical stream of a value: members in key order, numbers in canonical spelling. */
  ghost function Stream(v: JSON): string
    decreases v, 1
  {
    match v
    case Null => Part("null", "")
    case Bool(b) => Part("bool", if b then "true" else "false")
    case String(text) => Part("string", text)
    case Number(text) => Part("number", NumberText(text))
    case Array(items) => Part("array", Itoa(|items|)) + ItemStream(v, 0)
    case Object(members) => Part("object", Itoa(|members|)) + MemberStream(v, ByteOrder.Listing(members.Keys))
  }

  /** The items of an array from the `i`th on. */
  ghost function ItemStream(v: JSON, i: nat): string
    requires v.Array? && i <= |v.items|
    decreases v, 0, |v.items| - i
  {
    if i == |v.items| then "" else Stream(v.items[i]) + ItemStream(v, i + 1)
  }

  /** The members of an object under the given keys, in that order. */
  ghost function MemberStream(v: JSON, keys: seq<string>): string
    requires v.Object?
    decreases v, 0, |keys|
  {
    if |keys| == 0 then ""
    else
      Part("key", keys[0]) + (if keys[0] in v.members then Stream(v.members[keys[0]]) else "") +
        MemberStream(v, keys[1..])
  }

  /** An absent `re` and an empty one are told apart by the kind of the part. */
  function ReStream(re: Option<string>): string {
    if re.Some? then Part("re", re.value) else Part("re-absent", "")
  }

  ghost function PayloadStream(p: SendPayload): string {
    Part("to", p.to) + (ReStream(p.re) + Stream(p.body))
  }

  /** The fingerprint of a send: an error when it is missing, or when a number in its body does not parse. */
  ghost function Of(payload: Option<SendPayload>): Result<string> {
    if payload.None? then Failure("missing send payload")
    else if Encodable(payload.value.body) then Success(PayloadStream(payload.value))
    else Failure("invalid JSON number exponent")
  }

  // -------- the writer --------

  class Writer {
    var data: string

    constructor ()
      ensures data == ""
    {
      data := "";
    }

    method Write(bytes: string)
      modifies this
      ensures data == old(data) + bytes
    {
      data := data + bytes;
    }

    method WritePart(kind: string, value: string)
      modifies this
      ensures data == old(data) + Part(kind, value)
    {
      Write(kind);
      Write(BigEndian(|value|, 8));
      Write(value);
    }

    /** Writes the canonical stream, or reports a number it cannot normalise. */
    method WriteCanonicalJSONValue(v: JSON) returns (ok: bool)
      modifies this
      ensures ok <==> Encodable(v)
      ensures ok ==> data == old(data) + Stream(v)
      decreases v, 1
    {
      match v
      case Null =>
        WritePart("null", "");
        ok := true;
      case Bool(b) =>
        WritePart("bool", if b then "true" else "false");
        ok := true;
      case String(text) =>
        WritePart("string", text);
        ok := true;
      case Number(text) =>
        var normalized := DecimalNumber.NormalizeJSONNumber(text);
        if normalized.Failure? {
          return false;
        }
        WritePart("number", normalized.value);
        ok := true;
      case Array(_) =>
        ok := WriteArray(v);
      case Object(_) =>
        ok := WriteObject(v);
    }

    method WriteArray(v: JSON) returns (ok: bool)
      requires v.Array?
      modifies this
      ensures ok <==> Encodable(v)
      ensures ok ==> data == old(data) + Stream(v)
      decreases v, 0
    {
      WritePart("array", Itoa(|v.items|));
      ghost var end := data + ItemStream(v, 0);
      for i := 0 to |v.items|
        invariant data + ItemStream(v, i) == end
        invariant ItemsEncodable(v, 0) <==> ItemsEncodable(v, i)
      {
        ghost var before := data;
        var written := WriteCanonicalJSONValue(v.items[i]);
        if !written {
          return false;
        }
        Regroup(before, Stream(v.items[i]), ItemStream(v, i + 1));
      }
      Regroup(old(data), Part("array", Itoa(|v.items|)), ItemStream(v, 0));
      assert data + "" == data;
      ok := true;
    }

    method WriteObject(v: JSON) returns (ok: bool)
      requires v.Object?
      modifies this
      ensures ok <==> Encodable(v)
      ensures ok ==> data == old(data) + Stream(v)
      decreases v, 0
    {
      var keys := SortedKeys(v.members);
      WritePart("object", Itoa(|keys|));
      ok := WriteMembers(v, keys);
      Regroup(old(data), Part("object", Itoa(|keys|)), MemberStream(v, keys));
    }

    method WriteMembers(v: JSON, keys: seq<string>) returns (ok: bool)
      requires v.Object? && forall k :: k in keys ==> k in v.members
      modifies this
      ensures ok <==> MembersEncodable(v, keys)
      ensures ok ==> data == old(data) + MemberStream(v, keys)
      decreases v, 0, 0
    {
      ghost var end := data + MemberStream(v, keys);
      assert keys[0..] == keys;
      var i := 0;
      while i < |keys|
        invariant 0 <= i <= |keys|
        invariant data + MemberStream(v, keys[i..]) == end
        invariant MembersEncodable(v, keys) <==> MembersEncodable(v, keys[i..])
      {
        ghost var before := data;
        WritePart("key", keys[i]);
        var written := WriteCanonicalJSONValue(v.members[keys[i]]);
        if !written {
          return false;
        }
        MemberStep(v, keys, i, before);
        assert keys[i..][1..] == keys[i + 1..];
        i := i + 1;
      }
      assert data + "" == data;
      ok := true;
    }
  }

  lemma Regroup(a: string, b: string, c: string)
    ensures a + (b + c) == (a + b) + c
  {
  }

  lemma MemberStep(v: JSON, keys: seq<string>, i: nat, before: string)
    requires v.Object? && i < |keys| && keys[i] in v.members
    ensures before + MemberStream(v, keys[i..]) == before + Part("key", keys[i]) + Stream(v.members[keys[i]]) +
      MemberStream(v, keys[i + 1..])
  {
    assert keys[i..][1..] == keys[i + 1..];
    var a, b, c := Part("key", keys[i]), Stream(v.members[keys[i]]), MemberStream(v, keys[i + 1..]);
    Regroup(before, a + b, c);
    Regroup(before, a, b);
  }

  /** A map's keys come in no particular order; sorting them gives its listing. */
  method SortedKeys(members: map<string, JSON>) returns (keys: seq<string>)
    ensures keys == ByteOrder.Listing(members.Keys)
    ensures |keys| == |members| && forall k :: k in keys <==> k in members
  {
    keys := [];
    var rest := members.Keys;
    while rest != {}
      invariant rest <= members.Keys
      invariant ByteOrder.NoRepeats(keys) && |keys| + |rest| == |members.Keys|
      invariant forall k :: k in keys <==> k in members.Keys && k !in rest
      decreases rest
    {
      var k :| k in rest;
      keys := keys + [k];
      rest := rest - {k};
    }
    ByteOrder.SortIsListing(keys, members.Keys);
    ByteOrder.ListingAscending(members.Keys);
    SortKeepsLength(keys);
    keys := ByteOrder.SortStrings(keys);
  }

  lemma {:induction false} InsertLength(s: seq<string>, x: string)
    ensures |ByteOrder.Insert(s, x)| == |s| + 1
  {
    if |s| > 0 && !ByteOrder.Below(x, s[0]) { InsertLength(s[1..], x); }
  }

  lemma {:induction false} SortKeepsLength(s: seq<string>)
    ensures |ByteOrder.SortStrings(s)| == |s|
  {
    if |s| > 0 {
      SortKeepsLength(s[1..]);
      InsertLength(ByteOrder.SortStrings(s[1..]), s[0]);
    }
  }

  /** The fingerprint of a send, as the server computes it. */
  method SendFingerprint(payload: Option<SendPayload>) returns (r: Result<string>)
    ensures r == Of(payload)
  {
    if payload.None? {
      return Failure("missing send payload");
    }
    var p := payload.value;
    var writer := new Writer();
    writer.WritePart("to", p.to);
    assert writer.data == Part("to", p.to);
    if p.re.Some? {
      writer.WritePart("re", p.re.value);
    } else {
      writer.WritePart("re-absent", "");
    }
    assert writer.data == Part("to", p.to) + ReStream(p.re);
    Regroup(Part("to", p.to), ReStream(p.re), Stream(p.body));
    var ok := writer.WriteCanonicalJSONValue(p.body);
    if !ok {
      return Failure("invalid JSON number exponent");
    }
    return Success(writer.data);
  }
}
