/** Two sends have the same fingerprint stream exactly when they mean the same send. */
module FingerprintCanonical {
  import opened Wrappers
  import opened Messages
  import opened Decimals
  import opened DecimalNumber
  import DecimalEquality
  import ByteOrder
  import opened Fingerprint

  // -------- meaning --------

  /** A number literal of section 6 of RFC 8259. */
  ghost predicate IsLiteral(text: string) {
    exists l :: Legal(l) && text == Spell(l)
  }

  /** The two literals denote one number. */
  ghost predicate SameNumberText(a: string, b: string) {
    exists l, m :: Legal(l) && Legal(m) && a == Spell(l) && b == Spell(m) && SameNumber(Value(l), Value(m))
  }

  /** The same JSON value, up to the order of members and the spelling of numbers. */
  ghost predicate Equivalent(a: JSON, b: JSON) {
    match (a, b)
    case (Null, Null) => true
    case (Bool(x), Bool(y)) => x == y
    case (String(s), String(t)) => s == t
    case (Number(s), Number(t)) => SameNumberText(s, t)
    case (Array(xs), Array(ys)) => |xs| == |ys| && forall i :: 0 <= i < |xs| ==> Equivalent(xs[i], ys[i])
    case (Object(ms), Object(ns)) => ms.Keys == ns.Keys && forall k :: k in ms ==> Equivalent(ms[k], ns[k])
    case _ => false
  }

  ghost predicate EquivalentPayloads(p: SendPayload, q: SendPayload) {
    p.to == q.to && p.re == q.re && Equivalent(p.body, q.body)
  }

  const LONGEST: nat := 0x100_0000_0000_0000

  /** Numbers are literals and no part reaches 2^56 bytes. */
  ghost predicate Fine(v: JSON)
    decreases v, 1
  {
    match v
    case Number(text) => IsLiteral(text) && |NumberText(text)| < LONGEST
    case String(text) => |text| < LONGEST
    case Array(items) => |Itoa(|items|)| < LONGEST && ItemsFine(v, 0)
    case Object(members) => |Itoa(|members|)| < LONGEST && MembersFine(v, ByteOrder.Listing(members.Keys))
    case _ => true
  }

  ghost predicate ItemsFine(v: JSON, i: nat)
    requires v.Array? && i <= |v.items|
    decreases v, 0, |v.items| - i
  {
    i == |v.items| || (Fine(v.items[i]) && ItemsFine(v, i + 1))
  }

  ghost predicate MembersFine(v: JSON, keys: seq<string>)
    requires v.Object?
    decreases v, 0, |keys|
  {
    |keys| == 0 ||
    (|keys[0]| < LONGEST && (keys[0] in v.members ==> Fine(v.members[keys[0]])) && MembersFine(v, keys[1..]))
  }

  // Each of these is stated as an equation so that it reaches the prover whole instead of clause by clause.
  ghost predicate BothFine(a: JSON, b: JSON) {
    (Fine(a) && Fine(b)) == true
  }

  ghost predicate BothItemsFine(a: JSON, b: JSON, i: nat) {
    (a.Array? && b.Array? && |a.items| == |b.items| && i <= |a.items| && ItemsFine(a, i) && ItemsFine(b, i)) == true
  }

  ghost predicate BothMembersFine(a: JSON, b: JSON, ks: seq<string>, ls: seq<string>) {
    (a.Object? && b.Object? && |ks| == |ls| && MembersFine(a, ks) && MembersFine(b, ls)) == true
  }

  ghost predicate FinePayload(p: SendPayload) {
    |p.to| < LONGEST && (p.re.Some? ==> |p.re.value| < LONGEST) && Fine(p.body)
  }

  // -------- parts --------

  function Pow256(n: nat): (p: nat)
    ensures p >= 1
  {
    if n == 0 then 1 else 256 * Pow256(n - 1)
  }

  lemma {:induction false} BigEndianLength(n: nat, count: nat)
    ensures |BigEndian(n, count)| == count
  {
    if count > 0 { BigEndianLength(n / 256, count - 1); }
  }

  lemma {:induction false} BigEndianInjective(a: nat, b: nat, count: nat)
    requires a < Pow256(count) && b < Pow256(count) && BigEndian(a, count) == BigEndian(b, count)
    ensures a == b
  {
    if count > 0 {
      var x, y := BigEndian(a / 256, count - 1), BigEndian(b / 256, count - 1);
      BigEndianLength(a / 256, count - 1);
      BigEndianLength(b / 256, count - 1);
      var s, t := BigEndian(a, count), BigEndian(b, count);
      assert s[..count - 1] == x && t[..count - 1] == y;
      assert s[count - 1] == (a % 256) as char && t[count - 1] == (b % 256) as char;
      BigEndianInjective(a / 256, b / 256, count - 1);
    }
  }

  /** A number with a byte to spare starts with a zero byte. */
  lemma {:induction false} BigEndianLeads(n: nat, count: nat)
    requires count > 0 && n < Pow256(count - 1)
    ensures |BigEndian(n, count)| == count && BigEndian(n, count)[0] == 0 as char
  {
    BigEndianLength(n, count);
    BigEndianLength(n / 256, count - 1);
    if count == 1 {
      assert n == 0;
      assert BigEndian(n / 256, 0) == "";
    } else {
      BigEndianLeads(n / 256, count - 1);
      assert BigEndian(n, count)[0] == BigEndian(n / 256, count - 1)[0];
    }
  }

  lemma LongestIsPow()
    ensures Pow256(7) == LONGEST && Pow256(8) == 256 * LONGEST
  {
    assert Pow256(1) == 256 && Pow256(2) == 0x1_0000 && Pow256(3) == 0x100_0000 && Pow256(4) == 0x1_0000_0000;
    assert Pow256(5) == 0x100_0000_0000 && Pow256(6) == 0x1_0000_0000_0000;
  }

  /** A kind names itself: it holds no zero byte, which is how its length starts. */
  predicate Kind(k: string) {
    forall i :: 0 <= i < |k| ==> k[i] != 0 as char
  }

  lemma KindPrefix(k: string, k': string, x: string, y: string)
    requires Kind(k) && Kind(k') && |k| < |k'| && |x| > 0 && x[0] == 0 as char
    ensures k + x != k' + y
  {
    var s, t := k + x, k' + y;
    assert s[|k|] == 0 as char;
    assert t[|k|] == k'[|k|];
  }

  lemma SplitAt(a: string, b: string, x: string, y: string)
    requires |a| == |b| && a + x == b + y
    ensures a == b && x == y
  {
    assert (a + x)[..|a|] == a && (b + y)[..|b|] == b;
    assert (a + x)[|a|..] == x && (b + y)[|b|..] == y;
  }

  /** A part at the front of a stream can be read back: its kind, its value and the rest. */
  lemma {:induction false} PartInjective(k: string, v: string, x: string, k': string, v': string, y: string)
    requires Kind(k) && Kind(k') && |v| < LONGEST && |v'| < LONGEST
    requires Part(k, v) + x == Part(k', v') + y
    ensures k == k' && v == v' && x == y
  {
    var n, n' := BigEndian(|v|, 8), BigEndian(|v'|, 8);
    LongestIsPow();
    BigEndianLeads(|v|, 8);
    BigEndianLeads(|v'|, 8);
    PartText(k, n, v, x);
    PartText(k', n', v', y);
    var r, r' := n + (v + x), n' + (v' + y);
    if |k| < |k'| { KindPrefix(k, k', r, r'); }
    if |k'| < |k| { KindPrefix(k', k, r', r); }
    SplitAt(k, k', r, r');
    SplitAt(n, n', v + x, v' + y);
    BigEndianInjective(|v|, |v'|, 8);
    SplitAt(v, v', x, y);
  }

  lemma PartText(k: string, n: string, v: string, x: string)
    ensures k + (n + v) + x == k + (n + (v + x))
  {
  }

  // -------- equal streams, equal meaning --------

  ghost function KindOf(v: JSON): string {
    match v
    case Null => "null"
    case Bool(_) => "bool"
    case String(_) => "string"
    case Number(_) => "number"
    case Array(_) => "array"
    case Object(_) => "object"
  }

  ghost function HeadOf(v: JSON): string {
    match v
    case Null => ""
    case Bool(b) => if b then "true" else "false"
    case String(text) => text
    case Number(text) => NumberText(text)
    case Array(items) => Itoa(|items|)
    case Object(members) => Itoa(|members|)
  }

  ghost function BodyOf(v: JSON): string {
    match v
    case Array(_) => ItemStream(v, 0)
    case Object(members) => MemberStream(v, ByteOrder.Listing(members.Keys))
    case _ => ""
  }

  lemma StreamParts(v: JSON)
    ensures Stream(v) == Part(KindOf(v), HeadOf(v)) + BodyOf(v)
  {
    assert Part(KindOf(v), HeadOf(v)) + "" == Part(KindOf(v), HeadOf(v));
  }

  lemma KindsDiffer(a: JSON, b: JSON)
    ensures Kind(KindOf(a))
    ensures KindOf(a) == KindOf(b) ==>
      && (a.Null? <==> b.Null?) && (a.Bool? <==> b.Bool?) && (a.String? <==> b.String?)
      && (a.Number? <==> b.Number?) && (a.Array? <==> b.Array?) && (a.Object? <==> b.Object?)
  {
    assert forall v: JSON :: KindOf(v)[0] == (match v case Null => 'n' case Bool(_) => 'b' case String(_) => 's'
      case Number(_) => 'n' case Array(_) => 'a' case Object(_) => 'o');
    assert forall v: JSON :: KindOf(v)[2] == (match v case Null => 'l' case Bool(_) => 'o' case String(_) => 'r'
      case Number(_) => 'm' case Array(_) => 'r' case Object(_) => 'j');
  }

  lemma HeadShort(v: JSON)
    requires Fine(v)
    ensures |HeadOf(v)| < LONGEST
  {
  }

  lemma {:induction false} SameNumbers(s: string, t: string)
    requires IsLiteral(s) && IsLiteral(t)
    ensures NumberText(s) == NumberText(t) <==> SameNumberText(s, t)
  {
    var l :| Legal(l) && s == Spell(l);
    var m :| Legal(m) && t == Spell(m);
    DecimalEquality.CanonicalLegal(l);
    DecimalEquality.CanonicalLegal(m);
    DecimalEquality.DecidesEquality(l, m);
    if SameNumberText(s, t) {
      var l', m' :| Legal(l') && Legal(m') && s == Spell(l') && t == Spell(m') && SameNumber(Value(l'), Value(m'));
      DecimalEquality.DecidesEquality(l', m');
    }
  }

  lemma {:induction false} StreamInjective(a: JSON, b: JSON, x: string, y: string)
    requires BothFine(a, b) && Stream(a) + x == Stream(b) + y
    ensures Equivalent(a, b) && x == y
    decreases a, 1
  {
    StreamParts(a);
    StreamParts(b);
    KindsDiffer(a, b);
    KindsDiffer(b, a);
    HeadShort(a);
    HeadShort(b);
    Regroup(Part(KindOf(a), HeadOf(a)), BodyOf(a), x);
    Regroup(Part(KindOf(b), HeadOf(b)), BodyOf(b), y);
    PartInjective(KindOf(a), HeadOf(a), BodyOf(a) + x, KindOf(b), HeadOf(b), BodyOf(b) + y);
    match a
    case Array(items) =>
      ItoaInjective(|items|, |b.items|);
      ItemsInjective(a, b, 0, x, y);
      ItemsEquivalentEach(a, b, 0);
    case Object(members) =>
      ItoaInjective(|members|, |b.members|);
      ObjectsInjective(a, b, x, y);
    case Number(text) =>
      SameNumbers(text, b.text);
      assert "" + x == x && "" + y == y;
    case Bool(p) =>
      assert "true"[0] == 't' && "false"[0] == 'f';
      assert "" + x == x && "" + y == y;
    case _ =>
      assert "" + x == x && "" + y == y;
  }

  ghost predicate ItemsEquivalent(a: JSON, b: JSON, i: nat)
    requires a.Array? && b.Array? && |a.items| == |b.items| && i <= |a.items|
    decreases |a.items| - i
  {
    i == |a.items| || (Equivalent(a.items[i], b.items[i]) && ItemsEquivalent(a, b, i + 1))
  }

  lemma {:induction false} ItemsEquivalentEach(a: JSON, b: JSON, i: nat)
    requires a.Array? && b.Array? && |a.items| == |b.items| && i <= |a.items|
    ensures ItemsEquivalent(a, b, i) <==> forall j :: i <= j < |a.items| ==> Equivalent(a.items[j], b.items[j])
    decreases |a.items| - i
  {
    if i < |a.items| { ItemsEquivalentEach(a, b, i + 1); }
  }

  lemma {:induction false} ItemsInjective(a: JSON, b: JSON, i: nat, x: string, y: string)
    requires BothItemsFine(a, b, i) && ItemStream(a, i) + x == ItemStream(b, i) + y
    ensures ItemsEquivalent(a, b, i) && x == y
    decreases a, 0, |a.items| - i
  {
    if i == |a.items| {
      assert "" + x == x && "" + y == y;
    } else {
      var p, q := ItemStream(a, i + 1) + x, ItemStream(b, i + 1) + y;
      Regroup(Stream(a.items[i]), ItemStream(a, i + 1), x);
      Regroup(Stream(b.items[i]), ItemStream(b, i + 1), y);
      StreamInjective(a.items[i], b.items[i], p, q);
      ItemsInjective(a, b, i + 1, x, y);
    }
  }

  lemma {:induction false} ListingLength(keys: set<string>)
    ensures |ByteOrder.Listing(keys)| == |keys|
    decreases keys
  {
    if keys != {} {
      var x :| x in keys && ByteOrder.Listing(keys) == ByteOrder.Insert(ByteOrder.Listing(keys - {x}), x);
      ListingLength(keys - {x});
      InsertLength(ByteOrder.Listing(keys - {x}), x);
    }
  }

  lemma {:induction false} ObjectsInjective(a: JSON, b: JSON, x: string, y: string)
    requires a.Object? && b.Object? && |a.members| == |b.members| && BothFine(a, b)
    requires BodyOf(a) + x == BodyOf(b) + y
    ensures Equivalent(a, b) && x == y
    decreases a, 0
  {
    var ks, ls := ByteOrder.Listing(a.members.Keys), ByteOrder.Listing(b.members.Keys);
    ByteOrder.ListingAscending(a.members.Keys);
    ByteOrder.ListingAscending(b.members.Keys);
    ListingLength(a.members.Keys);
    ListingLength(b.members.Keys);
    MembersInjective(a, b, ks, ls, x, y);
    SameMembers(a, b, ks);
    hide Equivalent, MembersEquivalent, MemberStream;
  }

  /** Objects with one list of keys, and equivalent values under each. */
  lemma {:induction false} SameMembers(a: JSON, b: JSON, keys: seq<string>)
    requires a.Object? && b.Object? && MembersEquivalent(a, b, keys)
    requires (forall k :: k in a.members.Keys <==> k in keys) && (forall k :: k in b.members.Keys <==> k in keys)
    ensures Equivalent(a, b)
  {
    MembersEquivalentEach(a, b, keys);
    assert a.members.Keys == b.members.Keys;
  }

  ghost predicate MembersEquivalent(a: JSON, b: JSON, keys: seq<string>)
    requires a.Object? && b.Object?
  {
    |keys| == 0 ||
    (keys[0] in a.members && keys[0] in b.members && Equivalent(a.members[keys[0]], b.members[keys[0]]) &&
     MembersEquivalent(a, b, keys[1..]))
  }

  lemma {:induction false} MembersEquivalentEach(a: JSON, b: JSON, keys: seq<string>)
    requires a.Object? && b.Object? && MembersEquivalent(a, b, keys)
    ensures forall k :: k in keys ==> k in a.members && k in b.members && Equivalent(a.members[k], b.members[k])
  {
    if |keys| > 0 {
      MembersEquivalentEach(a, b, keys[1..]);
      assert forall k :: k in keys ==> k == keys[0] || k in keys[1..];
    }
  }

  lemma {:induction false} MembersInjective(a: JSON, b: JSON, ks: seq<string>, ls: seq<string>, x: string, y: string)
    requires BothMembersFine(a, b, ks, ls)
    requires (forall k :: k in ks ==> k in a.members) && (forall k :: k in ls ==> k in b.members)
    requires MemberStream(a, ks) + x == MemberStream(b, ls) + y
    ensures ks == ls && x == y && MembersEquivalent(a, b, ks)
    decreases a, 0, |ks|
  {
    if |ks| == 0 {
      assert "" + x == x && "" + y == y;
    } else {
      var k, l := ks[0], ls[0];
      assert k in ks && l in ls;
      var p, q := MemberStream(a, ks[1..]) + x, MemberStream(b, ls[1..]) + y;
      MemberText(Part("key", k), Stream(a.members[k]), MemberStream(a, ks[1..]), x);
      MemberText(Part("key", l), Stream(b.members[l]), MemberStream(b, ls[1..]), y);
      PartInjective("key", k, Stream(a.members[k]) + p, "key", l, Stream(b.members[l]) + q);
      StreamInjective(a.members[k], b.members[l], p, q);
      MembersInjective(a, b, ks[1..], ls[1..], x, y);
      assert ks == [ks[0]] + ks[1..] && ls == [ls[0]] + ls[1..];
    }
  }

  lemma MemberText(part: string, s: string, m: string, x: string)
    ensures part + s + m + x == part + (s + (m + x))
  {
  }

  // -------- equal meaning, equal streams --------

  lemma {:induction false} StreamRespects(a: JSON, b: JSON)
    requires BothFine(a, b) && Equivalent(a, b)
    ensures Stream(a) == Stream(b)
    decreases a, 1
  {
    match a
    case Number(text) => SameNumbers(text, b.text);
    case Array(_) =>
      ItemsEquivalentEach(a, b, 0);
      ItemsRespect(a, b, 0);
    case Object(members) =>
      assert |members.Keys| == |b.members.Keys|;
      ByteOrder.ListingAscending(members.Keys);
      MembersRespect(a, b, ByteOrder.Listing(members.Keys));
    case _ =>
  }

  lemma {:induction false} ItemsRespect(a: JSON, b: JSON, i: nat)
    requires BothItemsFine(a, b, i) && ItemsEquivalent(a, b, i)
    ensures ItemStream(a, i) == ItemStream(b, i)
    decreases a, 0, |a.items| - i
  {
    if i < |a.items| {
      StreamRespects(a.items[i], b.items[i]);
      ItemsRespect(a, b, i + 1);
    }
  }

  lemma {:induction false} MembersRespect(a: JSON, b: JSON, ks: seq<string>)
    requires BothMembersFine(a, b, ks, ks)
    requires forall k :: k in ks ==> k in a.members && k in b.members && Equivalent(a.members[k], b.members[k])
    ensures MemberStream(a, ks) == MemberStream(b, ks)
    decreases a, 0, |ks|
  {
    if |ks| > 0 {
      assert ks[0] in ks;
      StreamRespects(a.members[ks[0]], b.members[ks[0]]);
      MembersRespect(a, b, ks[1..]);
    }
  }

  // -------- the theorem --------

  /** The stream is a canonical form of a send. */
  lemma {:induction false} PayloadsCanonical(p: SendPayload, q: SendPayload)
    requires FinePayload(p) && FinePayload(q)
    ensures PayloadStream(p) == PayloadStream(q) <==> EquivalentPayloads(p, q)
  {
    if PayloadStream(p) == PayloadStream(q) {
      PartInjective("to", p.to, ReStream(p.re) + Stream(p.body), "to", q.to, ReStream(q.re) + Stream(q.body));
      ReInjective(p.re, Stream(p.body), q.re, Stream(q.body));
      assert Stream(p.body) + "" == Stream(p.body) && Stream(q.body) + "" == Stream(q.body);
      StreamInjective(p.body, q.body, "", "");
    }
    if EquivalentPayloads(p, q) {
      StreamRespects(p.body, q.body);
    }
  }

  lemma {:induction false} ReInjective(r: Option<string>, x: string, s: Option<string>, y: string)
    requires (r.Some? ==> |r.value| < LONGEST) && (s.Some? ==> |s.value| < LONGEST)
    requires ReStream(r) + x == ReStream(s) + y
    ensures r == s && x == y
  {
    var k, v := if r.Some? then "re" else "re-absent", if r.Some? then r.value else "";
    var l, w := if s.Some? then "re" else "re-absent", if s.Some? then s.value else "";
    PartInjective(k, v, x, l, w, y);
    assert |"re"| == 2 && |"re-absent"| == 9;
  }

  /** Every fine value normalises, so its fingerprint exists. */
  lemma {:induction false} FineEncodable(v: JSON)
    requires Fine(v)
    ensures Encodable(v)
    decreases v, 1
  {
    match v
    case Number(text) =>
      var l :| Legal(l) && text == Spell(l);
      DecimalEquality.CanonicalLegal(l);
    case Array(_) => FineItems(v, 0);
    case Object(members) =>
      ByteOrder.ListingAscending(members.Keys);
      FineMembers(v, ByteOrder.Listing(members.Keys));
    case _ =>
  }

  lemma {:induction false} FineItems(v: JSON, i: nat)
    requires v.Array? && i <= |v.items| && ItemsFine(v, i)
    ensures ItemsEncodable(v, i)
    decreases v, 0, |v.items| - i
  {
    if i < |v.items| {
      FineEncodable(v.items[i]);
      FineItems(v, i + 1);
    }
  }

  lemma {:induction false} FineMembers(v: JSON, keys: seq<string>)
    requires v.Object? && MembersFine(v, keys)
    ensures MembersEncodable(v, keys)
    decreases v, 0, |keys|
  {
    if |keys| > 0 {
      if keys[0] in v.members { FineEncodable(v.members[keys[0]]); }
      FineMembers(v, keys[1..]);
    }
  }

  /** Equal fingerprints, equal sends: the server's test for a conflicting repeat is exact. */
  lemma FingerprintsDecide(p: SendPayload, q: SendPayload)
    requires FinePayload(p) && FinePayload(q)
    ensures Of(Some(p)).Success? && Of(Some(q)).Success?
    ensures Of(Some(p)) == Of(Some(q)) <==> EquivalentPayloads(p, q)
  {
    FineEncodable(p.body);
    FineEncodable(q.body);
    PayloadsCanonical(p, q);
  }
}
