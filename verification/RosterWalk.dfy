/** Serving one page of a roster, and walking the pages while sessions come and go between them. */
module RosterWalk {
  import opened Wrappers
  import opened ByteOrder
  import opened RosterPage
  import Messages
  import Registry

  // -------- serving a page --------

  /** The addresses after the cursor's, in byte order. */
  ghost function Rest(online: set<string>, after: string): seq<string> {
    Listing(set a | a in online && Below(after, a))
  }

  lemma {:induction false} RestIs(online: set<string>, after: string)
    ensures Ascending(Rest(online, after))
    ensures forall a :: a in Rest(online, after) <==> a in online && Below(after, a)
  {
    ListingAscending(set a | a in online && Below(after, a));
  }

  /** The first index whose string is not below `x`. */
  method SearchStrings(sorted: seq<string>, x: string) returns (first: nat)
    requires Ascending(sorted)
    ensures first <= |sorted|
    ensures forall i :: 0 <= i < first ==> Below(sorted[i], x)
    ensures forall i :: first <= i < |sorted| ==> !Below(sorted[i], x)
  {
    var low, high := 0, |sorted|;
    while low < high
      invariant 0 <= low <= high <= |sorted|
      invariant forall i :: 0 <= i < low ==> Below(sorted[i], x)
      invariant forall i :: high <= i < |sorted| ==> !Below(sorted[i], x)
    {
      var middle := (low + high) / 2;
      if Below(sorted[middle], x) {
        forall i | 0 <= i < middle ensures Below(sorted[i], x) { BelowTransitive(sorted[i], sorted[middle], x); }
        low := middle + 1;
      } else {
        forall i | middle < i < |sorted| ensures !Below(sorted[i], x) {
          if Below(sorted[i], x) { BelowTransitive(sorted[middle], sorted[i], x); }
        }
        high := middle;
      }
    }
    first := low;
  }

  /** Everything from `first` on is the rest, when `first` is past everything up to `after`. */
  lemma {:induction false} TailIsRest(sorted: seq<string>, online: set<string>, after: string, first: nat)
    requires Ascending(sorted) && (forall a :: a in sorted <==> a in online) && first <= |sorted|
    requires forall i :: 0 <= i < first ==> !Below(after, sorted[i])
    requires forall i :: first <= i < |sorted| ==> Below(after, sorted[i])
    ensures sorted[first..] == Rest(online, after)
  {
    RestIs(online, after);
    var tail := sorted[first..];
    forall a ensures a in tail <==> a in Rest(online, after) {
      if a in tail {
        var i :| 0 <= i < |tail| && tail[i] == a;
        assert sorted[first + i] == a;
      }
      if a in Rest(online, after) {
        var i :| 0 <= i < |sorted| && sorted[i] == a;
        assert i >= first && tail[i - first] == a;
      }
    }
    AscendingUnique(tail, Rest(online, after));
  }

  /** The roster answer to one list request: the page of everybody after the cursor. */
  method ServePage(requestID: string, snapshot: seq<string>, after: string) returns (r: Result<Page>)
    requires NoRepeats(snapshot) && AllLegal(snapshot) && |requestID| <= 36
    ensures r.Success? && IsPage(requestID, Rest(Elements(snapshot), after), r.value)
    ensures Rest(Elements(snapshot), after) != [] ==> r.value.peers != []
  {
    hide RosterPage.IsPage, Legal;
    var addresses := SortStrings(snapshot);
    SortAscending(snapshot);
    SortElements(snapshot);
    var first := SearchStrings(addresses, after);
    forall i | 0 <= i < first ensures !Below(after, addresses[i]) { BelowAsymmetric(addresses[i], after); }
    while first < |addresses| && !Below(after, addresses[first])
      invariant first <= |addresses|
      invariant forall i :: 0 <= i < first ==> !Below(after, addresses[i])
      invariant forall i :: first <= i < |addresses| ==> !Below(addresses[i], after)
    {
      first := first + 1;
    }
    forall i | first <= i < |addresses| ensures Below(after, addresses[i]) {
      if i > first { BelowTransitive(after, addresses[first], addresses[i]); }
    }
    TailIsRest(addresses, Elements(snapshot), after, first);
    LegalSorted(snapshot, addresses, first);
    r := BuildRosterPage(requestID, addresses[first..]);
  }

  lemma {:induction false} LegalSorted(snapshot: seq<string>, addresses: seq<string>, first: nat)
    requires AllLegal(snapshot) && (forall a :: a in addresses <==> a in snapshot) && first <= |addresses|
    ensures AllLegal(addresses[first..])
  {
    forall i | 0 <= i < |addresses[first..]| ensures Legal(addresses[first..][i]) {
      assert addresses[first..][i] in addresses;
      var j :| 0 <= j < |snapshot| && snapshot[j] == addresses[first..][i];
    }
  }

  // -------- walking --------

  const MAX_ROSTER_PAGES: nat := 8

  /** What the roster looks like each time a page is asked for. */
  ghost predicate Churn(snapshots: seq<seq<string>>) {
    forall p :: 0 <= p < |snapshots| ==> NoRepeats(snapshots[p]) && AllLegal(snapshots[p])
  }

  ghost predicate OnlineThroughout(snapshots: seq<seq<string>>, a: string) {
    |snapshots| > 0 && forall p :: 0 <= p < |snapshots| ==> a in snapshots[p]
  }

  ghost predicate OnlineSometime(snapshots: seq<seq<string>>, a: string) {
    exists p :: 0 <= p < |snapshots| && a in snapshots[p]
  }

  predicate UpTo(a: string, last: string) {
    a == last || Below(a, last)
  }

  /** The pages so far hold addresses in order, none beyond `after`, and everybody online throughout up to it. */
  ghost predicate Walked(snapshots: seq<seq<string>>, addresses: seq<string>, after: string) {
    && Ascending(addresses)
    && (forall a :: a in addresses ==> UpTo(a, after) && OnlineSometime(snapshots, a))
    && (forall a :: OnlineThroughout(snapshots, a) && UpTo(a, after) ==> a in addresses)
  }

  lemma {:induction false} PageEnds(requestID: string, rest: seq<string>, page: Page, a: string)
    requires IsPage(requestID, rest, page) && Ascending(rest)
    ensures |page.nextCursor| == 0 ==> page.peers == rest
    ensures |page.nextCursor| > 0 ==>
      page.peers != [] && page.peers <= rest && page.nextCursor == Cursor(page.peers[|page.peers| - 1])
    ensures |page.nextCursor| > 0 && a in rest && UpTo(a, page.peers[|page.peers| - 1]) ==> a in page.peers
  {
    hide RosterPage.Fits, RosterPage.AllFit;
    if !AllFit(requestID, rest) {
      FitsHasOne(requestID, rest, |page.peers|);
      var k := |page.peers|;
      CursorLonger(rest[k - 1]);
      if a in rest && UpTo(a, page.peers[k - 1]) {
        var i :| 0 <= i < |rest| && rest[i] == a;
        if i >= k {
          BelowAsymmetric(rest[k - 1], rest[i]);
        }
        assert page.peers[i] == a;
      }
    }
  }

  lemma FitsHasOne(requestID: string, rest: seq<string>, k: nat)
    requires Fits(requestID, rest, k)
    ensures 0 < k <= |rest|
  {
  }

  /** Adding a page: its addresses come after those before, and `last` bounds them all. */
  lemma {:induction false} Extend(snapshots: seq<seq<string>>, p: nat, addresses: seq<string>, after: string,
    peers: seq<string>, last: string)
    requires p < |snapshots| && Walked(snapshots, addresses, after)
    requires peers <= Rest(Elements(snapshots[p]), after)
    requires forall a :: a in peers ==> UpTo(a, last)
    requires after == last || Below(after, last)
    requires forall a :: a in Rest(Elements(snapshots[p]), after) && UpTo(a, last) ==> a in peers
    ensures Walked(snapshots, addresses + peers, last)
  {
    var rest := Rest(Elements(snapshots[p]), after);
    RestIs(Elements(snapshots[p]), after);
    var all := addresses + peers;
    forall i, j | 0 <= i < j < |all| ensures Below(all[i], all[j]) {
      if i >= |addresses| {
        assert all[i] == rest[i - |addresses|] && all[j] == rest[j - |addresses|];
      } else if j >= |addresses| {
        assert all[i] in addresses && all[j] == rest[j - |addresses|] && rest[j - |addresses|] in rest;
        if all[i] != after { BelowTransitive(all[i], after, all[j]); }
      }
    }
    forall a | a in all ensures UpTo(a, last) && OnlineSometime(snapshots, a) {
      if a in addresses {
        if a != last && a != after && after != last { BelowTransitive(a, after, last); }
      } else {
        assert a in peers && a in rest;
      }
    }
    forall a | OnlineThroughout(snapshots, a) && UpTo(a, last) ensures a in all {
      BelowTotal(a, after);
      if !UpTo(a, after) { assert a in rest; }
    }
  }

  /** The last page: everything that was left. */
  lemma {:induction false} Conclude(snapshots: seq<seq<string>>, p: nat, addresses: seq<string>, after: string,
    peers: seq<string>)
    requires p < |snapshots| && Walked(snapshots, addresses, after) && peers == Rest(Elements(snapshots[p]), after)
    ensures Ascending(addresses + peers)
    ensures forall a :: a in addresses + peers ==> OnlineSometime(snapshots, a)
    ensures forall a :: OnlineThroughout(snapshots, a) ==> a in addresses + peers
  {
    RestIs(Elements(snapshots[p]), after);
    var all := addresses + peers;
    forall i, j | 0 <= i < j < |all| ensures Below(all[i], all[j]) {
      if i >= |addresses| {
        assert all[i] == peers[i - |addresses|] && all[j] == peers[j - |addresses|];
      } else if j >= |addresses| {
        assert all[i] in addresses && all[j] == peers[j - |addresses|] && peers[j - |addresses|] in peers;
        if all[i] != after { BelowTransitive(all[i], after, all[j]); }
      }
    }
    forall a | OnlineThroughout(snapshots, a) ensures a in all {
      BelowTotal(a, after);
      if !UpTo(a, after) { assert a in peers; }
    }
  }

  /** The address a cursor was made from was served, so it is legal. */
  lemma {:induction false} ServedLegal(snapshots: seq<seq<string>>, p: nat, after: string, a: string)
    requires Churn(snapshots) && p < |snapshots| && a in Rest(Elements(snapshots[p]), after)
    ensures Legal(a)
  {
    RestIs(Elements(snapshots[p]), after);
    var i :| 0 <= i < |snapshots[p]| && snapshots[p][i] == a;
  }

  /**
   The client's walk: up to eight pages, each continuing after the cursor of the one before, over any churn between
   them.  The addresses are strictly increasing; they were online when served; and when the walk was not truncated
   everybody online throughout is among them.
   */
  method CollectRosterAddresses(requestIDs: seq<string>, snapshots: seq<seq<string>>)
    returns (addresses: seq<string>, truncated: bool)
    requires |snapshots| == |requestIDs| == MAX_ROSTER_PAGES && Churn(snapshots)
    requires forall p :: 0 <= p < |requestIDs| ==> |requestIDs[p]| <= 36
    ensures Ascending(addresses)
    ensures forall a :: a in addresses ==> OnlineSometime(snapshots, a)
    ensures !truncated ==> forall a :: OnlineThroughout(snapshots, a) ==> a in addresses
    ensures truncated && addresses != [] ==>
      forall a :: OnlineThroughout(snapshots, a) && UpTo(a, addresses[|addresses| - 1]) ==> a in addresses
  {
    hide RosterPage.IsPage, RosterPage.Cursor, Legal, NoRepeats;
    addresses, truncated := [], true;
    var cursor: Option<string> := None;
    ghost var after := "";
    WalkStarts(snapshots);
    hide Walked;
    for page := 0 to MAX_ROSTER_PAGES
      invariant DecodeListCursor(cursor) == Success(after)
      invariant Walked(snapshots, addresses, after)
      invariant addresses == [] || addresses[|addresses| - 1] == after
    {
      var decoded := DecodeListCursor(cursor);
      var result := ServePage(requestIDs[page], snapshots[page], decoded.value);
      var it := result.value;
      ghost var rest := Rest(Elements(snapshots[page]), after);
      RestIs(Elements(snapshots[page]), after);
      if |it.nextCursor| == 0 {
        PageEnds(requestIDs[page], rest, it, "");
        Conclude(snapshots, page, addresses, after, it.peers);
        addresses := addresses + it.peers;
        truncated := false;
        return;
      }
      NextPage(requestIDs[page], snapshots, page, addresses, after, it);
      addresses := addresses + it.peers;
      after := it.peers[|it.peers| - 1];
      cursor := Some(it.nextCursor);
    }
    WalkEnds(snapshots, addresses, after);
  }

  lemma {:induction false} WalkStarts(snapshots: seq<seq<string>>)
    requires Churn(snapshots)
    ensures Walked(snapshots, [], "")
  {
    forall a | OnlineThroughout(snapshots, a) ensures !UpTo(a, "") {
      var i :| 0 <= i < |snapshots[0]| && snapshots[0][i] == a;
      assert Legal(snapshots[0][i]);
    }
  }

  lemma WalkEnds(snapshots: seq<seq<string>>, addresses: seq<string>, after: string)
    requires Walked(snapshots, addresses, after)
    ensures Ascending(addresses) && forall a :: a in addresses ==> OnlineSometime(snapshots, a)
    ensures forall a :: OnlineThroughout(snapshots, a) && UpTo(a, after) ==> a in addresses
  {
  }

  lemma {:induction false} NextPage(requestID: string, snapshots: seq<seq<string>>, p: nat, addresses: seq<string>,
    after: string, page: Page)
    requires Churn(snapshots) && p < |snapshots| && Walked(snapshots, addresses, after)
    requires IsPage(requestID, Rest(Elements(snapshots[p]), after), page) && |page.nextCursor| > 0
    ensures |page.peers| > 0
    ensures var last := page.peers[|page.peers| - 1];
      Walked(snapshots, addresses + page.peers, last) && DecodeListCursor(Some(page.nextCursor)) == Success(last)
  {
    hide RosterPage.IsPage, RosterPage.Cursor, Legal, NoRepeats, DecodeListCursor, Walked;
    var rest := Rest(Elements(snapshots[p]), after);
    RestIs(Elements(snapshots[p]), after);
    PageEnds(requestID, rest, page, "");
    var last := page.peers[|page.peers| - 1];
    assert last in page.peers && last == rest[|page.peers| - 1];
    forall a | a in page.peers ensures UpTo(a, last) {
      var i :| 0 <= i < |page.peers| && page.peers[i] == a;
      assert rest[i] == a;
    }
    forall a | a in rest && UpTo(a, last) ensures a in page.peers { PageEnds(requestID, rest, page, a); }
    Extend(snapshots, p, addresses, after, page.peers, last);
    ServedLegal(snapshots, p, after, last);
    LegalNonempty(last);
    CursorsExact(page.nextCursor, last);
  }

  lemma LegalNonempty(a: string)
    requires Legal(a)
    ensures |a| > 0
  {
  }

  // -------- over the registry --------

  /** Each page's snapshot is what the registry shows this caller at that moment. */
  ghost predicate ServedFrom(registries: seq<Registry.Registry>, caller: Messages.Session, snapshots: seq<seq<string>>)
  {
    |registries| == |snapshots| && forall p, a :: 0 <= p < |snapshots| ==>
      (a in snapshots[p] <==> Registry.Offered(registries[p], caller, a))
  }

  /** A peer: some other session, shown at that moment, with another address. */
  ghost predicate PeerShown(r: Registry.Registry, caller: Messages.Session, peer: Messages.Session) {
    Registry.IsPublished(r, peer) && peer.address != caller.address
  }

  /** The peer is shown at every page. */
  ghost predicate ShownThroughout(registries: seq<Registry.Registry>, caller: Messages.Session, peer: Messages.Session)
  {
    forall p :: 0 <= p < |registries| ==> PeerShown(registries[p], caller, peer)
  }

  ghost predicate ListedOnce(addresses: seq<string>, a: string) {
    exists i ::
      && 0 <= i < |addresses| && addresses[i] == a
      && forall j :: 0 <= j < |addresses| && addresses[j] == a ==> j == i
  }

  /** The walk was not truncated, or got as far as the address. */
  predicate Reached(addresses: seq<string>, truncated: bool, a: string) {
    !truncated || (addresses != [] && UpTo(a, addresses[|addresses| - 1]))
  }

  /**
   Over any run of the registry between the pages: the caller is never listed, whoever is listed was a published peer at
   some page, and every peer published at every page is listed, once, as far as the walk went.
   */
  lemma {:induction false} WalkOverRegistry(registries: seq<Registry.Registry>, caller: Messages.Session,
    snapshots: seq<seq<string>>, addresses: seq<string>, truncated: bool, peer: Messages.Session)
    requires |snapshots| > 0 && ServedFrom(registries, caller, snapshots)
    requires Ascending(addresses) && forall a :: a in addresses ==> OnlineSometime(snapshots, a)
    requires forall a :: OnlineThroughout(snapshots, a) && Reached(addresses, truncated, a) ==> a in addresses
    ensures caller.address !in addresses
    ensures forall a :: a in addresses ==> exists p, s ::
      0 <= p < |registries| && PeerShown(registries[p], caller, s) && s.address == a
    ensures ShownThroughout(registries, caller, peer) && Reached(addresses, truncated, peer.address) ==>
      ListedOnce(addresses, peer.address)
  {
    forall a | a in addresses
      ensures a != caller.address
      ensures exists p, s :: 0 <= p < |registries| && PeerShown(registries[p], caller, s) && s.address == a
    {
      var p :| 0 <= p < |snapshots| && a in snapshots[p];
      assert Registry.Offered(registries[p], caller, a);
      OfferedIsShown(registries[p], caller, a);
    }
    if ShownThroughout(registries, caller, peer) && Reached(addresses, truncated, peer.address) {
      forall p | 0 <= p < |snapshots| ensures peer.address in snapshots[p] {
        assert PeerShown(registries[p], caller, peer);
        ShownIsOffered(registries[p], caller, peer);
        assert Registry.Offered(registries[p], caller, peer.address);
      }
      assert OnlineThroughout(snapshots, peer.address);
      var i :| 0 <= i < |addresses| && addresses[i] == peer.address;
      forall j | 0 <= j < |addresses| && addresses[j] == peer.address ensures j == i {
        BelowIrreflexive(peer.address);
      }
    }
  }

  /** What the registry answers a caller's `list` from: every address it may see, once, in some order. */
  ghost predicate SnapshotOf(r: Registry.Registry, caller: Messages.Session, addresses: seq<string>) {
    NoRepeats(addresses) && forall a :: a in addresses <==> Registry.Offered(r, caller, a)
  }

  ghost predicate LegalPeers(r: Registry.Registry, caller: Messages.Session) {
    forall peer :: PeerShown(r, caller, peer) ==> Legal(peer.address)
  }

  /**
   The client's walk over the registry as it changes from page to page: the caller is never listed; whoever is listed
   was a published peer at some page; and a peer published at every page is listed exactly once, unless the walk ended
   before its address.
   */
  method CollectPeers(requestIDs: seq<string>, snapshots: seq<seq<string>>, ghost registries: seq<Registry.Registry>,
    ghost caller: Messages.Session)
    returns (addresses: seq<string>, truncated: bool)
    requires |snapshots| == |registries| == |requestIDs| == MAX_ROSTER_PAGES
    requires forall p :: 0 <= p < |requestIDs| ==> |requestIDs[p]| <= 36
    requires forall p :: 0 <= p < |snapshots| ==>
      SnapshotOf(registries[p], caller, snapshots[p]) && LegalPeers(registries[p], caller)
    ensures caller.address !in addresses && Ascending(addresses)
    ensures forall a :: a in addresses ==> exists p, s ::
      0 <= p < |registries| && PeerShown(registries[p], caller, s) && s.address == a
    ensures forall peer ::
      ShownThroughout(registries, caller, peer) && Reached(addresses, truncated, peer.address) ==>
        ListedOnce(addresses, peer.address)
  {
    SnapshotsChurn(registries, caller, snapshots);
    addresses, truncated := CollectRosterAddresses(requestIDs, snapshots);
    WalkOverRegistry(registries, caller, snapshots, addresses, truncated, caller);
    forall peer | ShownThroughout(registries, caller, peer) && Reached(addresses, truncated, peer.address)
      ensures ListedOnce(addresses, peer.address)
    {
      WalkOverRegistry(registries, caller, snapshots, addresses, truncated, peer);
    }
  }

  lemma {:induction false} SnapshotsChurn(registries: seq<Registry.Registry>, caller: Messages.Session,
    snapshots: seq<seq<string>>)
    requires |snapshots| == |registries| > 0
    requires forall p :: 0 <= p < |snapshots| ==>
      SnapshotOf(registries[p], caller, snapshots[p]) && LegalPeers(registries[p], caller)
    ensures Churn(snapshots) && ServedFrom(registries, caller, snapshots)
  {
    forall p, i | 0 <= p < |snapshots| && 0 <= i < |snapshots[p]| ensures Legal(snapshots[p][i]) {
      assert snapshots[p][i] in snapshots[p];
      OfferedIsShown(registries[p], caller, snapshots[p][i]);
    }
    forall p, a | 0 <= p < |snapshots| ensures a in snapshots[p] <==> Registry.Offered(registries[p], caller, a) {
      assert SnapshotOf(registries[p], caller, snapshots[p]);
    }
  }

  lemma OfferedIsShown(r: Registry.Registry, caller: Messages.Session, a: string)
    requires Registry.Offered(r, caller, a)
    ensures a != caller.address && exists s :: PeerShown(r, caller, s) && s.address == a
  {
    var e :| e in r.tracked && Registry.ShowsAddress(r, e, caller, a);
    var s := r.entries[e].session.value;
    assert Registry.Shows(r, e, s);
    assert PeerShown(r, caller, s);
  }

  lemma ShownIsOffered(r: Registry.Registry, caller: Messages.Session, s: Messages.Session)
    requires PeerShown(r, caller, s)
    ensures Registry.Offered(r, caller, s.address)
  {
    var e :| e in r.tracked && Registry.Shows(r, e, s);
    assert Registry.ShowsAddress(r, e, caller, s.address);
  }
}
