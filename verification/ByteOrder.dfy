/** The order Go gives strings, and sorting by it. */
module ByteOrder {

  /** `a` comes strictly before `b`, byte by byte; a proper prefix comes first. */
  predicate Below(a: string, b: string) {
    if |b| == 0 then false
    else if |a| == 0 then true
    else if a[0] != b[0] then a[0] < b[0]
    else Below(a[1..], b[1..])
  }

  lemma {:induction false} BelowIrreflexive(a: string)
    ensures !Below(a, a)
  {
    if |a| > 0 { BelowIrreflexive(a[1..]); }
  }

  lemma {:induction false} BelowTransitive(a: string, b: string, c: string)
    requires Below(a, b) && Below(b, c)
    ensures Below(a, c)
  {
    if |a| > 0 && a[0] == b[0] == c[0] { BelowTransitive(a[1..], b[1..], c[1..]); }
  }

  lemma {:induction false} BelowTotal(a: string, b: string)
    ensures a == b || Below(a, b) || Below(b, a)
  {
    if |a| > 0 && |b| > 0 && a[0] == b[0] {
      BelowTotal(a[1..], b[1..]);
      if a[1..] == b[1..] { assert a == [a[0]] + a[1..] == [b[0]] + b[1..] == b; }
    }
  }

  lemma BelowAsymmetric(a: string, b: string)
    requires Below(a, b)
    ensures !Below(b, a) && a != b
  {
    if Below(b, a) { BelowTransitive(a, b, a); }
    BelowIrreflexive(a);
  }

  /** Strictly increasing: sorted and without repetition. */
  ghost predicate Ascending(s: seq<string>) {
    forall i, j :: 0 <= i < j < |s| ==> Below(s[i], s[j])
  }

  ghost predicate NoRepeats(s: seq<string>) {
    forall i, j :: 0 <= i < j < |s| ==> s[i] != s[j]
  }

  function Elements(s: seq<string>): set<string> {
    set x | x in s
  }

  function Insert(s: seq<string>, x: string): seq<string> {
    if |s| == 0 || Below(x, s[0]) then [x] + s else [s[0]] + Insert(s[1..], x)
  }

  /** The strings of `s` in byte order. */
  function SortStrings(s: seq<string>): seq<string> {
    if |s| == 0 then [] else Insert(SortStrings(s[1..]), s[0])
  }

  lemma {:induction false} InsertElements(s: seq<string>, x: string)
    ensures forall y :: y in Insert(s, x) <==> y == x || y in s
  {
    if |s| > 0 && !Below(x, s[0]) {
      InsertElements(s[1..], x);
      assert s == [s[0]] + s[1..];
    }
  }

  lemma {:induction false} InsertAscending(s: seq<string>, x: string)
    requires Ascending(s) && x !in s
    ensures Ascending(Insert(s, x))
  {
    var r := Insert(s, x);
    if |s| > 0 {
      if Below(x, s[0]) {
        forall j | 0 <= j < |s| ensures Below(x, s[j]) {
          if j > 0 { BelowTransitive(x, s[0], s[j]); }
        }
      } else {
        BelowTotal(x, s[0]);
        InsertAscending(s[1..], x);
        InsertElements(s[1..], x);
        var tail := Insert(s[1..], x);
        forall j | 0 <= j < |tail| ensures Below(s[0], tail[j]) { assert tail[j] in tail; }
      }
    }
  }

  lemma {:induction false} SortElements(s: seq<string>)
    ensures forall y :: y in SortStrings(s) <==> y in s
  {
    if |s| > 0 {
      SortElements(s[1..]);
      InsertElements(SortStrings(s[1..]), s[0]);
      assert s == [s[0]] + s[1..];
    }
  }

  lemma {:induction false} SortAscending(s: seq<string>)
    requires NoRepeats(s)
    ensures Ascending(SortStrings(s))
  {
    if |s| > 0 {
      SortAscending(s[1..]);
      SortElements(s[1..]);
      InsertAscending(SortStrings(s[1..]), s[0]);
    }
  }

  /** A set of strings has one strictly increasing listing. */
  lemma {:induction false} AscendingUnique(a: seq<string>, b: seq<string>)
    requires Ascending(a) && Ascending(b)
    requires forall y :: y in a <==> y in b
    ensures a == b
  {
    assert |b| > 0 ==> b[0] in b;
    assert |b| > 0 ==> b[0] in a;
    if |a| > 0 {
      assert a[0] in a;
      var j :| 0 <= j < |b| && b[j] == a[0];
      assert b[0] in b;
      var i :| 0 <= i < |a| && a[i] == b[0];
      if i > 0 && j > 0 { BelowAsymmetric(a[0], a[i]); }
      assert a[0] == b[0];
      TailElements(a);
      TailElements(b);
      AscendingUnique(a[1..], b[1..]);
    }
  }

  lemma {:induction false} TailElements(a: seq<string>)
    requires Ascending(a) && |a| > 0
    ensures forall y :: y in a[1..] <==> y in a && y != a[0]
  {
    assert a == [a[0]] + a[1..];
    forall y | y in a[1..] ensures y != a[0] {
      var i :| 0 <= i < |a| - 1 && a[1..][i] == y;
      BelowAsymmetric(a[0], a[i + 1]);
    }
  }

  /** The strictly increasing listing of a set. */
  ghost function Listing(keys: set<string>): seq<string>
    decreases keys
  {
    if keys == {} then [] else var x :| x in keys; Insert(Listing(keys - {x}), x)
  }

  lemma {:induction false} ListingAscending(keys: set<string>)
    ensures Ascending(Listing(keys))
    ensures forall y :: y in Listing(keys) <==> y in keys
    decreases keys
  {
    if keys != {} {
      var x :| x in keys && Listing(keys) == Insert(Listing(keys - {x}), x);
      ListingAscending(keys - {x});
      InsertAscending(Listing(keys - {x}), x);
      InsertElements(Listing(keys - {x}), x);
    }
  }

  /** Whatever order the keys of a map come in, sorting them gives its listing. */
  lemma SortIsListing(s: seq<string>, keys: set<string>)
    requires NoRepeats(s) && (forall y :: y in s <==> y in keys)
    ensures SortStrings(s) == Listing(keys)
  {
    SortAscending(s);
    SortElements(s);
    ListingAscending(keys);
    AscendingUnique(SortStrings(s), Listing(keys));
  }
}
