/**
 The registry of session connections: its lock sections as functions on a value, and the class that runs them.

 An entry outlives its place in the registry (its handler still holds it), so `entries` keeps every entry ever made
 and `tracked` says which of them the registry holds now.
 */
module Registry {
  import opened Wrappers
  import opened Messages

  type EntryRef = nat

  datatype Entry = Entry(connection: Option<nat>, session: Option<Session>, visible: bool)

  datatype Registry = Registry(closing: bool, limit: nat, entries: map<EntryRef, Entry>, tracked: set<EntryRef>)

  datatype Authentication = SessionAuthenticated | RegistryClosing | RouteConflict

  predicate Tracks(r: Registry, e: EntryRef) {
    e in r.tracked && e in r.entries
  }

  /** Does the entry show this session to other peers? */
  predicate Shows(r: Registry, e: EntryRef, s: Session) {
    Tracks(r, e) && r.entries[e].visible && r.entries[e].session == Some(s)
  }

  ghost predicate IsPublished(r: Registry, s: Session) {
    exists e :: e in r.tracked && Shows(r, e, s)
  }

  /** A session some entry holds, with the same route or the same address. */
  predicate Clashes(r: Registry, e: EntryRef, s: Session) {
    Tracks(r, e) && r.entries[e].session.Some? &&
    (r.entries[e].session.value.route == s.route || r.entries[e].session.value.address == s.address)
  }

  ghost predicate HasConflict(r: Registry, e: EntryRef, s: Session) {
    exists other :: other in r.tracked && other != e && Clashes(r, other, s)
  }

  // -------- the lock sections --------

  function CanReserve(r: Registry): bool {
    !r.closing && |r.tracked| < r.limit
  }

  function Reserve(r: Registry, e: EntryRef): Registry {
    if CanReserve(r) then r.(entries := r.entries[e := Entry(None, None, false)], tracked := r.tracked + {e}) else r
  }

  function Attach(r: Registry, e: EntryRef, connection: nat): Registry {
    if Tracks(r, e) then r.(entries := r.entries[e := r.entries[e].(connection := Some(connection))]) else r
  }

  ghost function Judge(r: Registry, e: EntryRef, s: Session): Authentication {
    if r.closing || !Tracks(r, e) || r.entries[e].connection.None? then RegistryClosing
    else if HasConflict(r, e, s) then RouteConflict
    else SessionAuthenticated
  }

  ghost function ReserveAuthentication(r: Registry, e: EntryRef, s: Session): Registry {
    if Judge(r, e, s) == SessionAuthenticated
      then r.(entries := r.entries[e := r.entries[e].(session := Some(s), visible := false)])
    else r
  }

  predicate CanPublish(r: Registry, e: EntryRef, s: Session) {
    !r.closing && Tracks(r, e) && r.entries[e].connection.Some? && r.entries[e].session == Some(s)
  }

  function Publish(r: Registry, e: EntryRef, s: Session): Registry {
    if CanPublish(r, e, s) then r.(entries := r.entries[e := r.entries[e].(visible := true)]) else r
  }

  /** The first section of `clearAuthentication`: no new write may select the entry. */
  function Hide(r: Registry, e: EntryRef): Registry {
    if Tracks(r, e) then r.(entries := r.entries[e := r.entries[e].(visible := false)]) else r
  }

  /** Its second section, run with the entry's write lock held: no write that was selected earlier is left. */
  function Fence(r: Registry, e: EntryRef, s: Session): Registry {
    if Tracks(r, e) && r.entries[e].session == Some(s)
      then r.(entries := r.entries[e := r.entries[e].(session := None)]) else r
  }

  function Remove(r: Registry, e: EntryRef): Registry {
    r.(tracked := r.tracked - {e})
  }

  // -------- uniqueness --------

  ghost predicate Apart(r: Registry, e: EntryRef, other: EntryRef) {
    Tracks(r, e) && Tracks(r, other) && e != other && r.entries[e].session.Some? && r.entries[other].session.Some? ==>
      && r.entries[e].session.value.route != r.entries[other].session.value.route
      && r.entries[e].session.value.address != r.entries[other].session.value.address
  }

  /** No two entries hold one route or one address, whether they are shown or not. */
  ghost predicate Unique(r: Registry) {
    r.tracked <= r.entries.Keys && forall e, other :: Apart(r, e, other)
  }

  lemma ReservationKeepsUnique(r: Registry, e: EntryRef, s: Session)
    requires Unique(r)
    ensures Unique(ReserveAuthentication(r, e, s))
  {
    var r' := ReserveAuthentication(r, e, s);
    forall a, b ensures Apart(r', a, b) {
      assert Apart(r, a, b);
      if Judge(r, e, s) == SessionAuthenticated {
        if a == e && b in r.tracked && b != e { assert !Clashes(r, b, s); }
        if b == e && a in r.tracked && a != e { assert !Clashes(r, a, s); }
      }
    }
  }

  /** A change that gives no entry a session keeps uniqueness. */
  lemma FewerKeepUnique(r: Registry, r': Registry)
    requires Unique(r) && r'.tracked <= r'.entries.Keys
    requires forall e ::
      Tracks(r', e) && r'.entries[e].session.Some? ==> Tracks(r, e) && r'.entries[e].session == r.entries[e].session
    ensures Unique(r')
  {
    forall a, b ensures Apart(r', a, b) { assert Apart(r, a, b); }
  }

  // -------- the class --------

  class SessionConnectionRegistry {
    var closing: bool
    const limit: nat
    var entries: map<EntryRef, Entry>
    var tracked: set<EntryRef>
    var next: EntryRef

    function Now(): Registry
      reads this
    {
      Registry(closing, limit, entries, tracked)
    }

    ghost predicate Valid()
      reads this
    {
      Unique(Now()) && forall e :: e in entries ==> e < next
    }

    constructor (limit: nat)
      ensures Valid() && Now() == Registry(false, limit, map[], {})
    {
      this.limit := limit;
      closing, entries, tracked, next := false, map[], {}, 0;
    }

    method ReserveEntry() returns (entry: Option<EntryRef>)
      requires Valid()
      modifies this
      ensures Valid()
      ensures entry.Some? <==> CanReserve(old(Now()))
      ensures entry.Some? ==> entry.value !in old(entries) && Now() == Reserve(old(Now()), entry.value)
      ensures entry.None? ==> Now() == old(Now())
      ensures old(|tracked| <= limit) ==> |tracked| <= limit
    {
      if closing || |tracked| >= limit {
        return None;
      }
      entries := entries[next := Entry(None, None, false)];
      tracked := tracked + {next};
      entry := Some(next);
      next := next + 1;
      FewerKeepUnique(old(Now()), Now());
    }

    method AttachConnection(entry: EntryRef, connection: nat) returns (open: bool)
      requires Valid()
      modifies this
      ensures Valid() && Now() == Attach(old(Now()), entry, connection)
      ensures open <==> Tracks(old(Now()), entry) && !closing
    {
      if !(entry in tracked) {
        return false;
      }
      entries := entries[entry := entries[entry].(connection := Some(connection))];
      FewerKeepUnique(old(Now()), Now());
      open := !closing;
    }

    /** The session may enter only if no other entry holds its route or its address. */
    method ReserveSession(entry: EntryRef, session: Session) returns (answer: Authentication)
      requires Valid()
      modifies this
      ensures Valid()
      ensures answer == Judge(old(Now()), entry, session)
      ensures Now() == ReserveAuthentication(old(Now()), entry, session)
    {
      if closing || entry !in tracked || entries[entry].connection.None? {
        return RegistryClosing;
      }
      var rest := tracked;
      while rest != {}
        invariant rest <= tracked && Now() == old(Now())
        invariant forall other ::
          other in tracked && other !in rest && other != entry ==> !Clashes(Now(), other, session)
        decreases |rest|
      {
        var active :| active in rest;
        rest := rest - {active};
        if active == entry || entries[active].session.None? {
          continue;
        }
        var held := entries[active].session.value;
        if held.route == session.route || held.address == session.address {
          assert Clashes(Now(), active, session);
          return RouteConflict;
        }
      }
      ReservationKeepsUnique(Now(), entry, session);
      entries := entries[entry := entries[entry].(session := Some(session), visible := false)];
      answer := SessionAuthenticated;
    }

    method PublishSession(entry: EntryRef, session: Session) returns (published: bool)
      requires Valid()
      modifies this
      ensures Valid() && Now() == Publish(old(Now()), entry, session)
      ensures published <==> CanPublish(old(Now()), entry, session)
    {
      if closing {
        return false;
      }
      if entry !in tracked || entries[entry].connection.None? || entries[entry].session != Some(session) {
        return false;
      }
      entries := entries[entry := entries[entry].(visible := true)];
      FewerKeepUnique(old(Now()), Now());
      published := true;
    }

    /** The sections of `clearAuthentication`; the caller holds the entry's write lock around the second. */
    method HideSession(entry: EntryRef) returns (unavailable: Option<Session>)
      requires Valid()
      modifies this
      ensures Valid() && Now() == Hide(old(Now()), entry)
      ensures unavailable == if Tracks(old(Now()), entry) then old(entries)[entry].session else None
    {
      unavailable := None;
      if entry in tracked {
        unavailable := entries[entry].session;
        entries := entries[entry := entries[entry].(visible := false)];
      }
      FewerKeepUnique(old(Now()), Now());
    }

    method FenceSession(entry: EntryRef, unavailable: Session)
      requires Valid()
      modifies this
      ensures Valid() && Now() == Fence(old(Now()), entry, unavailable)
    {
      if entry in tracked && entries[entry].session == Some(unavailable) {
        entries := entries[entry := entries[entry].(session := None)];
      }
      FewerKeepUnique(old(Now()), Now());
    }

    method RemoveEntry(entry: EntryRef) returns (unavailable: Option<Session>, empty: bool)
      requires Valid() && entry in entries
      modifies this
      ensures Valid() && Now() == Remove(old(Now()), entry)
      ensures unavailable == old(entries)[entry].session && (empty <==> tracked == {})
    {
      unavailable := entries[entry].session;
      tracked := tracked - {entry};
      empty := |tracked| == 0;
      FewerKeepUnique(old(Now()), Now());
    }

    method BeginShutdown()
      requires Valid()
      modifies this
      ensures Valid() && Now() == old(Now()).(closing := true)
    {
      closing := true;
      FewerKeepUnique(old(Now()), Now());
    }

    /** At most one session is published under an address, so whichever entry the loop meets is the one. */
    method PublishedSession(address: string) returns (found: Option<Session>)
      requires Valid()
      ensures found.Some? ==> found.value.address == address && IsPublished(Now(), found.value)
      ensures forall s :: IsPublished(Now(), s) && s.address == address ==> found == Some(s)
    {
      var rest := tracked;
      while rest != {}
        invariant rest <= tracked
        invariant forall e, s :: e in tracked && e !in rest && Shows(Now(), e, s) ==> s.address != address
        decreases |rest|
      {
        var entry :| entry in rest;
        rest := rest - {entry};
        if entries[entry].visible && entries[entry].session.Some? && entries[entry].session.value.address == address {
          ghost var s := entries[entry].session.value;
          assert Shows(Now(), entry, s);
          forall t | IsPublished(Now(), t) && t.address == address ensures t == s {
            var other :| other in tracked && Shows(Now(), other, t);
            assert Apart(Now(), entry, other);
          }
          return entries[entry].session;
        }
      }
      found := None;
    }

    method IsPublishedSession(session: Session) returns (published: bool)
      requires Valid()
      ensures published <==> IsPublished(Now(), session)
    {
      var rest := tracked;
      while rest != {}
        invariant rest <= tracked
        invariant forall e :: e in tracked && e !in rest ==> !Shows(Now(), e, session)
        decreases |rest|
      {
        var entry :| entry in rest;
        rest := rest - {entry};
        if entries[entry].visible && entries[entry].session == Some(session) {
          assert Shows(Now(), entry, session);
          return true;
        }
      }
      published := false;
    }

    /** The addresses a caller may see: everybody published but itself.  None is listed twice. */
    method AddressSnapshot(caller: Session) returns (addresses: seq<string>)
      requires Valid()
      ensures forall a :: a in addresses <==> Offered(Now(), caller, a)
      ensures forall i, j :: 0 <= i < j < |addresses| ==> addresses[i] != addresses[j]
      ensures caller.address !in addresses
    {
      addresses := [];
      var rest := tracked;
      while rest != {}
        invariant rest <= tracked
        invariant forall a :: a in addresses <==> exists e ::
          e in tracked && e !in rest && ShowsAddress(Now(), e, caller, a)
        invariant forall i, j :: 0 <= i < j < |addresses| ==> addresses[i] != addresses[j]
        decreases |rest|
      {
        var entry :| entry in rest;
        ghost var before := addresses;
        rest := rest - {entry};
        var it := entries[entry];
        if !it.visible || it.session.None? || it.session.value == caller || it.session.value.address == caller.address {
          assert forall a :: !ShowsAddress(Now(), entry, caller, a);
          continue;
        }
        var address := it.session.value.address;
        forall other | other in tracked && other != entry ensures !ShowsAddress(Now(), other, caller, address) {
          assert Apart(Now(), entry, other);
        }
        assert address !in addresses;
        assert forall a :: ShowsAddress(Now(), entry, caller, a) <==> a == address;
        addresses := addresses + [address];
        assert forall a :: a in addresses <==> a in before || a == address;
      }
    }
  }

  predicate ShowsAddress(r: Registry, e: EntryRef, caller: Session, address: string) {
    Tracks(r, e) && r.entries[e].visible && r.entries[e].session.Some? && r.entries[e].session.value != caller &&
    r.entries[e].session.value.address != caller.address && r.entries[e].session.value.address == address
  }

  /** An address a caller's roster holds. */
  ghost predicate Offered(r: Registry, caller: Session, address: string) {
    exists e :: e in r.tracked && ShowsAddress(r, e, caller, address)
  }
}
