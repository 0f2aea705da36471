/**
 What one connection guarantees: a send is offered to a recipient at most once; until the relay clears its ledger
 both results of a retried send are equal; and the branches for misbehaving clients are never taken.
 */
module EndToEndSafety {
  import opened Wrappers
  import opened Messages
  import opened LedgerSpec
  import LedgerInvariant
  import opened EndToEnd
  import opened EndToEndInvariant
  import opened EndToEndLedger
  import opened EndToEndReader

  // -------- the client's list of operations grows --------

  ghost predicate Grown(c: Client, c': Client) {
    && |c.ops| <= |c'.ops| && c'.ops[..|c.ops|] == c.ops
    && |c.issued| <= |c'.issued| && c'.issued[..|c.issued|] == c.issued
  }

  lemma {:induction false} GrownOp(c: Client, c': Client, n: nat)
    requires Grown(c, c') && n < |c.ops|
    ensures c'.ops[n] == c.ops[n]
  {
    assert c'.ops[..|c.ops|][n] == c.ops[n];
  }

  lemma {:induction false} StepGrows(w: World, e: Step)
    ensures Grown(w.client, ClientStep(w, e))
  {
  }

  lemma {:induction false} GrownLedger(me: Session, c: Client, c': Client, s: Server)
    requires Grown(c, c') && LedgerOK(me, c, s)
    ensures LedgerOK(me, c', s)
  {
    hide Valid;
    forall n: nat | n < |c.ops| ensures c'.ops[n] == c.ops[n] { GrownOp(c, c', n); }
    assert c'.issued[..|s.seen|] == c.issued[..|s.seen|];
    forall k ensures SentRecord(me, c', s, k) { assert SentRecord(me, c, s, k); }
    forall id ensures WorkerOK(me, c', s, id) && CurrentSend(me, c', s, id) {
      assert WorkerOK(me, c, s, id) && CurrentSend(me, c, s, id);
    }
  }

  lemma {:induction false} GrownItems(c: Client, c': Client, s: Server)
    requires Grown(c, c') && ItemsOK(c, s)
    ensures ItemsOK(c', s)
  {
    forall n: nat | n < |c.ops| ensures c'.ops[n] == c.ops[n] { GrownOp(c, c', n); }
    forall j: nat ensures ItemOK(c', s, j) { assert ItemOK(c, s, j); }
  }

  lemma {:induction false} BeginIssued(c: Client, op: Op)
    requires IssuedOK(c) && (op.SendOp? ==> !UsedID(c.ops, op.payload.messageID))
    ensures IssuedOK(Issue(c, op))
  {
    var c' := Issue(c, op);
    forall i: nat ensures IssuedAt(c', i) { assert IssuedAt(c, i); }
    forall i: nat, j: nat ensures InOrder(c', i, j) { assert InOrder(c, i, j) && IssuedAt(c, i); }
    forall n: nat, m: nat ensures OwnIDs(c', n, m) { assert OwnIDs(c, n, m); }
  }

  lemma {:induction false} RetryIssued(c: Client, c': Client)
    requires IssuedOK(c) && c.ops != [] && c.ops[|c.ops| - 1].SendOp? && Frame(|c.ops| - 1, true) !in c.issued
    requires c' == c.(armed := false, issued := c.issued + [Frame(|c.ops| - 1, true)])
    ensures IssuedOK(c')
  {
    var n := |c.issued|;
    assert IssuedAt(c, n - 1);
    forall i: nat ensures IssuedAt(c', i) { assert IssuedAt(c, i); }
    forall i: nat, j: nat ensures InOrder(c', i, j) {
      assert InOrder(c, i, j) && InOrder(c, i, n - 1) && IssuedAt(c, i);
    }
    forall a: nat, b: nat ensures OwnIDs(c', a, b) { assert OwnIDs(c, a, b); }
  }

  lemma {:induction false} SameIssued(c: Client, c': Client)
    requires IssuedOK(c) && c'.ops == c.ops && c'.issued == c.issued
    ensures IssuedOK(c')
  {
    forall i: nat ensures IssuedAt(c', i) { assert IssuedAt(c, i); }
    forall i: nat, j: nat ensures InOrder(c', i, j) { assert InOrder(c, i, j); }
    forall n: nat, m: nat ensures OwnIDs(c', n, m) { assert OwnIDs(c, n, m); }
  }

  lemma {:induction false} ClientIssued(w: World, e: Step)
    requires IssuedOK(w.client) && ArmedOK(w.client)
    ensures IssuedOK(ClientStep(w, e))
  {
    hide IssuedOK;
    var c := w.client;
    if ClientStep(w, e).issued == c.issued && ClientStep(w, e).ops == c.ops {
      SameIssued(c, ClientStep(w, e));
    } else {
      match e
      case StartSend(payload, tooLarge) => BeginIssued(c, SendOp(payload, tooLarge));
      case StartList => BeginIssued(c, ListOp);
      case Retry(_) => RetryIssued(c, ClientStep(w, e));
      case _ =>
    }
  }

  // -------- responses --------

  /** Workers only go on, and new ones answer frames that were not read before. */
  ghost predicate Onward(s: Server, s': Server) {
    && |s.seen| <= |s'.seen| && s'.seen[..|s.seen|] == s.seen
    && (forall id :: id in s.workers ==>
          && id in s'.workers && s'.workers[id].frame == s.workers[id].frame
          && (s.workers[id].response.Some? ==> s'.workers[id].response == s.workers[id].response)
          && (s.workers[id].stage.Published? || s.workers[id].stage.Finished? ==>
            s'.workers[id].stage.Published? || s'.workers[id].stage.Finished?)
          && (s.workers[id].stage.Finished? ==> s'.workers[id].stage.Finished?))
    && (forall id :: id in s'.workers && id !in s.workers ==> s'.workers[id].frame !in s.seen)
  }

  ghost predicate Forth(s: Server, s': Server) {
    Onward(s, s') == true
  }

  lemma {:induction false} SeenStays(s: Server, s': Server, f: Frame)
    requires Forth(s, s') && f in s.seen
    ensures f in s'.seen
  {
    assert f in s'.seen[..|s.seen|];
  }

  lemma {:induction false} ItemsKept(c: Client, s: Server, s': Server, more: seq<Item>)
    requires ItemsOK(c, s) && Forth(s, s') && s'.items == s.items + more
    requires forall j: nat :: |s.items| <= j ==> ItemOK(c, s', j)
    requires forall j: nat, id :: |s.items| <= j ==> AnsweredByOwn(s', j, id)
    ensures ItemsOK(c, s')
  {
    forall j: nat ensures ItemOK(c, s', j) {
      assert ItemOK(c, s, j);
      if j < |s.items| { SeenStays(s, s', s.items[j].to); }
    }
    forall j: nat, id ensures AnsweredByOwn(s', j, id) { assert AnsweredByOwn(s, j, id) && ItemOK(c, s, j); }
  }

  lemma {:induction false} DeliveredKept(s: Server, s': Server)
    requires DeliveredOK(s) && Forth(s, s') && s'.delivered == s.delivered
    requires |s.items| <= |s'.items| && s'.items[..|s.items|] == s.items && s'.popped == s.popped
    requires s.flags.cleared ==> s'.flags.cleared
    ensures DeliveredOK(s')
  {
    forall i: nat ensures DeliveredAt(s', i) {
      assert DeliveredAt(s, i);
      if i < |s.delivered| { assert s.delivered[i] in s'.items[..|s.items|]; }
    }
  }

  lemma {:induction false} WorkerForth(me: Session, w: World, e: Step)
    requires OfWorker(e) && LedgerOK(me, w.client, w.server)
    ensures Forth(w.server, WorkerStep(me, w, e))
    ensures WorkerStep(me, w, e).delivered == w.server.delivered && WorkerStep(me, w, e).popped == w.server.popped
    ensures WorkerStep(me, w, e).flags == w.server.flags && WorkerStep(me, w, e).odd == w.server.odd
    ensures !e.Publish? ==> WorkerStep(me, w, e).items == w.server.items
    ensures !e.WriteOffer? ==> WorkerStep(me, w, e).offers == w.server.offers
  {
    hide LedgerSpec.Complete, BindRecipient, ReleaseCurrent, Valid, RecordsOK, CurrentsOK, PairsOK;
    assert e.Complete? ==> WorkerOK(me, w.client, w.server, e.id);
  }

  lemma {:induction false} PublishItems(me: Session, w: World, id: Id, accepted: bool)
    requires LedgerOK(me, w.client, w.server) && ItemsOK(w.client, w.server)
    ensures ItemsOK(w.client, WorkerStep(me, w, Publish(id, accepted)))
    ensures |w.server.items| <= |WorkerStep(me, w, Publish(id, accepted)).items|
    ensures WorkerStep(me, w, Publish(id, accepted)).items[..|w.server.items|] == w.server.items
  {
    hide ReleaseCurrent, Valid, RecordsOK, CurrentsOK;
    var c, s := w.client, w.server;
    var s' := WorkerStep(me, w, Publish(id, accepted));
    WorkerForth(me, w, Publish(id, accepted));
    if Runs(w, id) && s.workers[id].stage.Completed? && s.workers[id].response.Some? && accepted {
      var n := |s.items|;
      assert WorkerOK(me, c, s, id);
      assert s'.items == s.items + s'.items[n..];
      forall j: nat | n <= j ensures ItemOK(c, s', j) {}
      forall j: nat, x | n <= j ensures AnsweredByOwn(s', j, x) { assert OneWorker(s, x, id); }
      ItemsKept(c, s, s', s'.items[n..]);
    } else {
      assert s'.items == s.items + [];
      ItemsKept(c, s, s', []);
    }
  }

  lemma {:induction false} WorkerItems(me: Session, w: World, e: Step)
    requires LedgerOK(me, w.client, w.server) && ItemsOK(w.client, w.server) && DeliveredOK(w.server) && OfWorker(e)
    ensures ItemsOK(w.client, WorkerStep(me, w, e)) && DeliveredOK(WorkerStep(me, w, e))
  {
    hide LedgerOK, ItemsOK, DeliveredOK, WorkerStep, Forth;
    var s' := WorkerStep(me, w, e);
    WorkerForth(me, w, e);
    if e.Publish? {
      PublishItems(me, w, e.id, e.accepted);
    } else {
      assert s'.items == w.server.items + [] && s'.items[..|w.server.items|] == w.server.items;
      ItemsKept(w.client, w.server, s', []);
    }
    DeliveredKept(w.server, s');
  }

  // -------- offers --------

  lemma {:induction false} WorkerOffers(me: Session, w: World, e: Step)
    requires OffersOK(w.server) && OfWorker(e)
    ensures OffersOK(WorkerStep(me, w, e))
  {
    hide LedgerSpec.Complete, BindRecipient, ReleaseCurrent;
  }

  // -------- delivery --------

  /** Two responses to one send carry one result, as long as the session is published and the ledger stands. */
  lemma {:induction false} SameResult(me: Session, c: Client, s: Server, i: nat, j: nat)
    requires LedgerOK(me, c, s) && ItemsOK(c, s) && i < |s.items| && j < |s.items| && s.items[i].to.n == s.items[j].to.n
    requires s.flags.published && !s.flags.cleared
    ensures s.items[i].code == s.items[j].code
  {
    hide Valid, RecordsOK, CurrentsOK;
    assert ItemOK(c, s, i) && ItemOK(c, s, j);
    if c.ops[s.items[i].to.n].SendOp? && !c.ops[s.items[i].to.n].tooLarge {
      var a, b := s.items[i].source.value, s.items[j].source.value;
      assert OneWorker(s, a, b) && PairOK(s, a, b) && PairOK(s, b, a);
    }
  }

  lemma {:induction false} DeliverKeeps(me: Session, c: Client, s: Server, s': Server)
    requires LedgerOK(me, c, s) && ItemsOK(c, s) && DeliveredOK(s)
    requires s.popped < |s.items| && s.flags.published && GateOpen(s, s.items[s.popped])
    requires s' == s.(popped := s.popped + 1, delivered := s.delivered + [s.items[s.popped]])
    ensures DeliveredOK(s')
  {
    hide LedgerOK;
    var d := s.items[s.popped];
    forall i: nat ensures DeliveredAt(s', i) { assert DeliveredAt(s, i); }
    if !s.flags.cleared {
      forall i | 0 <= i < |s.delivered| && s.delivered[i].to.n == d.to.n ensures s.delivered[i].code == d.code {
        assert DeliveredAt(s, i);
        var j: nat :| j < |s.items| && s.items[j] == s.delivered[i];
        SameResult(me, c, s, j, s.popped);
      }
    }
  }

  lemma {:induction false} SessionItems(me: Session, w: World, e: Step)
    requires LedgerOK(me, w.client, w.server) && ItemsOK(w.client, w.server) && DeliveredOK(w.server)
      && OffersOK(w.server)
    requires !OfClient(e) && !OfWorker(e) && !e.ReadFrame?
    ensures var s' := SessionStep(me, w, e);
      ItemsOK(w.client, s') && DeliveredOK(s') && OffersOK(s') && s'.odd == w.server.odd
    ensures var s' := SessionStep(me, w, e);
      |w.server.delivered| <= |s'.delivered| && s'.delivered[..|w.server.delivered|] == w.server.delivered
        && (w.server.flags.cleared ==> s'.flags.cleared)
  {
    hide LedgerOK, ForgetSender, LedgerInvariant.Apply;
    var s, s' := w.server, SessionStep(me, w, e);
    assert s'.items == s.items + [];
    ItemsKept(w.client, s, s', []);
    if e.Deliver? {
      if s' != s { DeliverKeeps(me, w.client, s, s'); }
    } else {
      forall i: nat ensures DeliveredAt(s', i) { assert DeliveredAt(s, i); }
    }
  }

  // -------- reading --------

  /** What reading does to everything but the ledger. */
  ghost predicate ReadShape(c: Client, s: Server, s': Server, id: Id) {
    && s'.delivered == s.delivered && s'.popped == s.popped && s'.offers == s.offers
    && s'.flags.cleared == s.flags.cleared
    && (s' == s || (|s.seen| < |c.issued| && s'.seen == s.seen + [Upcoming(c, s)]))
    && (s'.workers == s.workers
        || (id !in s.workers && |s.seen| < |c.issued| && s'.items == s.items
            && s'.workers == s.workers[id := Worker(Upcoming(c, s), Dispatching, false, false, None)]))
    && (s'.items == s.items || (|s.seen| < |c.issued| && exists it: Item :: s'.items == s.items + [it]))
  }

  lemma {:induction false} ReadShaped(me: Session, w: World, id: Id, accepted: bool, s': Server)
    requires ReadsAs(me, w, id, accepted, s')
    ensures ReadShape(w.client, w.server, s', id)
  {
    hide LedgerSpec.Begin, ReleaseCurrent, AdvanceSender, Print, AttachedLedger;
  }

  lemma {:induction false} ReadEffect(me: Session, w: World, id: Id, accepted: bool, s': Server)
    requires IssuedOK(w.client) && LedgerOK(me, w.client, w.server) && ReadsAs(me, w, id, accepted, s')
    ensures Forth(w.server, s')
    ensures s'.delivered == w.server.delivered && s'.popped == w.server.popped && s'.offers == w.server.offers
    ensures s'.flags.cleared == w.server.flags.cleared
    ensures |w.server.items| <= |s'.items| <= |w.server.items| + 1 && s'.items[..|w.server.items|] == w.server.items
    ensures forall x :: x in s'.workers ==> if x in w.server.workers then s'.workers[x] == w.server.workers[x]
      else !s'.workers[x].offered
    ensures |s'.items| > |w.server.items| ==> s'.workers == w.server.workers && |w.server.seen| < |w.client.issued|
  {
    ReadShaped(me, w, id, accepted, s');
    hide ReadsAs;
    if |w.server.seen| < |w.client.issued| { NextUnseen(w.client, w.server); }
  }

  lemma {:induction false} ReadItem(me: Session, w: World, id: Id, accepted: bool, s': Server)
    requires IssuedOK(w.client) && LedgerOK(me, w.client, w.server) && ReadsAs(me, w, id, accepted, s')
      && |s'.items| == |w.server.items| + 1
    ensures ItemOK(w.client, s', |w.server.items|)
    ensures forall x :: AnsweredByOwn(s', |w.server.items|, x)
  {
    var c, s := w.client, w.server;
    var n := |s.items|;
    ReadEffect(me, w, id, accepted, s');
    NextUnseen(c, s);
    var f := Upcoming(c, s);
    assert s'.items[n].to == f && f in s'.seen by { assert s'.seen[|s.seen|] == f; }
    forall x ensures AnsweredByOwn(s', n, x) { assert WorkerOK(me, c, s, x); }
    if Reading(me, c, s, id).Replays? {
      RecordExpected(me, c, s);
    }
  }

  lemma {:induction false} ReadItems(me: Session, w: World, id: Id, accepted: bool, s': Server)
    requires IssuedOK(w.client) && LedgerOK(me, w.client, w.server) && ReadsAs(me, w, id, accepted, s')
    requires ItemsOK(w.client, w.server) && DeliveredOK(w.server) && OffersOK(w.server)
    ensures ItemsOK(w.client, s') && DeliveredOK(s') && OffersOK(s')
  {
    ReadEffect(me, w, id, accepted, s');
    if |s'.items| > |w.server.items| { ReadItem(me, w, id, accepted, s'); }
    hide ReadsAs, LedgerOK, IssuedOK, Forth;
    assert s'.items == w.server.items + s'.items[|w.server.items|..];
    ItemsKept(w.client, w.server, s', s'.items[|w.server.items|..]);
    DeliveredKept(w.server, s');
    ReadOffers(w.server, s');
  }

  lemma {:induction false} ReadOffers(s: Server, s': Server)
    requires OffersOK(s) && s'.offers == s.offers
    requires forall x :: x in s'.workers ==> if x in s.workers then s'.workers[x] == s.workers[x]
      else !s'.workers[x].offered
    requires forall x :: x in s.workers ==> x in s'.workers
    ensures OffersOK(s')
  {
  }

  // -------- the client --------

  lemma {:induction false} ServerClient(c: Client, s: Server, s': Server)
    requires ClientOK(c, s) && |s.delivered| <= |s'.delivered| && s'.delivered[..|s.delivered|] == s.delivered
    requires s.flags.cleared ==> s'.flags.cleared
    ensures ClientOK(c, s')
  {
    assert s'.delivered[..|c.got|] == s.delivered[..|c.got|];
  }

  lemma {:induction false} FailKeeps(c: Client, s: Server)
    requires ClientOK(c, s)
    ensures ClientOK(Fail(c), s)
  {
    forall i: nat ensures AskedAt(Fail(c), i) {
      assert AskedAt(c, i);
      if i < |c.issued| && Answered(c, c.issued[i]) { assert Answered(Fail(c), c.issued[i]); }
    }
  }

  lemma {:induction false} DisarmKeeps(c: Client, s: Server)
    requires ClientOK(c, s)
    ensures ClientOK(c.(armed := false), s)
  {
    var c' := c.(armed := false);
    forall i: nat ensures AskedAt(c', i) {
      assert AskedAt(c, i);
      if i < |c.issued| && Answered(c, c.issued[i]) { assert Answered(c', c.issued[i]); }
    }
  }

  lemma {:induction false} BeginClient(c: Client, s: Server, op: Op)
    requires ClientOK(c, s) && IssuedOK(c) && !c.terminal && !c.waiting
    ensures ClientOK(Issue(c, op), s)
  {
    var c' := Issue(c, op);
    forall i: nat ensures AskedAt(c', i) {
      assert AskedAt(c, i);
      if i < |c.issued| && Answered(c, c.issued[i]) { assert Answered(c', c.issued[i]); }
    }
  }

  lemma {:induction false} RetryClient(c: Client, s: Server, c': Client)
    requires ClientOK(c, s) && c.waiting && c' == c.(armed := false, issued := c.issued + [Frame(|c.ops| - 1, true)])
    ensures ClientOK(c', s)
  {
    forall i: nat ensures AskedAt(c', i) {
      assert AskedAt(c, i);
      if i < |c.issued| && Answered(c, c.issued[i]) { assert Answered(c', c.issued[i]); }
    }
  }

  lemma {:induction false} RetryOfSend(c: Client)
    requires IssuedOK(c)
    ensures forall n: nat :: Frame(n, true) in c.issued ==> IsSend(c, n)
  {
    forall n: nat | Frame(n, true) in c.issued ensures IsSend(c, n) {
      var j: nat :| j < |c.issued| && c.issued[j] == Frame(n, true);
      assert IssuedAt(c, j);
    }
  }

  /** A response was taken: what was asked is still accounted for. */
  lemma {:induction false} TakeAskedAt(c: Client, d: Item, i: nat)
    requires i < |c.issued| && AskedAt(c, i) && (c.waiting ==> !c.terminal)
    requires forall n: nat :: Frame(n, true) in c.issued ==> IsSend(c, n)
    ensures AskedAt(Take(c, d), i)
  {
    var c' := Take(c, d);
    var f := c.issued[i];
    assert f == Frame(f.n, f.retry) && f in c.issued;
    AnsweredMore(c, c', d, f);
    hide Answered;
  }

  lemma {:induction false} AnsweredMore(c: Client, c': Client, d: Item, f: Frame)
    requires c'.got == c.got + [d]
    ensures Answered(c, f) ==> Answered(c', f)
    ensures d.to == f ==> Answered(c', f)
  {
    if Answered(c, f) {
      var i :| 0 <= i < |c.got| && c.got[i].to == f;
      assert c'.got[i].to == f;
    }
    assert c'.got[|c.got|] == d;
  }

  lemma {:induction false} TakeAsked(c: Client, s: Server, d: Item)
    requires ClientOK(c, s) && IssuedOK(c)
    ensures forall i: nat :: AskedAt(Take(c, d), i)
  {
    RetryOfSend(c);
    forall i: nat | i < |c.issued| ensures AskedAt(Take(c, d), i) { TakeAskedAt(c, d, i); }
  }

  lemma {:induction false} TakeKeeps(c: Client, s: Server)
    requires ClientOK(c, s) && IssuedOK(c) && DeliveredOK(s) && |c.got| < |s.delivered|
    ensures ClientOK(Take(c, s.delivered[|c.got|]), s)
  {
    var d := s.delivered[|c.got|];
    TakeAsked(c, s, d);
    TakeLate(c, s, d);
    TakeMatches(c, s, d);
    TakenShape(c, d);
    assert |c.got| <= |s.delivered| && c.got == s.delivered[..|c.got|] && (c.waiting ==> !c.terminal && c.ops != []);
    hide IssuedOK, DeliveredOK, Take, AskedAt, LateOK;
    assert c.got + [d] == s.delivered[..|c.got| + 1];
  }

  lemma TakenShape(c: Client, d: Item)
    ensures var c' := Take(c, d);
      && c'.got == c.got + [d] && c'.ops == c.ops && c'.issued == c.issued
      && (c'.waiting ==> c.waiting && c'.terminal == c.terminal)
  {
  }

  /** The drained response repeats the one before it, so it never mismatches while the ledger stands. */
  lemma {:induction false} TakeMatches(c: Client, s: Server, d: Item)
    requires ClientOK(c, s) && DeliveredOK(s) && |c.got| < |s.delivered| && d == s.delivered[|c.got|]
    ensures Take(c, d).mismatch ==> s.flags.cleared
  {
    if c.late.Some? && c.late.value.frame == d.to && !s.flags.cleared {
      var i :| 0 <= i < |c.got| && c.got[i].to.n == c.late.value.frame.n && c.got[i].code == Some(c.late.value.code);
      assert s.delivered[i] == c.got[i];
    }
    hide AskedAt;
  }

  lemma {:induction false} TakeLate(c: Client, s: Server, d: Item)
    requires ClientOK(c, s) && IssuedOK(c)
    ensures LateOK(Take(c, d))
    ensures Take(c, d).late.Some? ==> Take(c, d).late.value.frame in c.issued
  {
    if c.ops != [] { FirstIssued(c, |c.ops| - 1); }
    assert LateOK(c) && (c.late.Some? ==> c.late.value.frame in c.issued);
    hide ClientOK, IssuedOK;
    TakenLate(c, d);
    var c' := Take(c, d);
    if c'.late.Some? {
      assert c'.got == c.got + [d];
      if c'.late == c.late {
        var i :| 0 <= i < |c.got| && c.got[i].to.n == c.late.value.frame.n && c.got[i].code == Some(c.late.value.code);
        assert c'.got[i] == c.got[i];
      } else {
        assert c'.got[|c.got|] == d;
      }
    }
  }

  /** The response still to come is the one awaited before, or the other one of the send just answered. */
  lemma TakenLate(c: Client, d: Item)
    ensures var c' := Take(c, d);
      c'.late.Some? && c'.late != c.late ==>
        && c.ops != [] && c'.late.value.frame.n == d.to.n == |c.ops| - 1 && d.code == Some(c'.late.value.code)
        && (c'.late.value.frame == Frame(|c.ops| - 1, false) || c'.late.value.frame in c.issued)
  {
  }

  /** The latest operation's first frame was issued. */
  lemma {:induction false} FirstIssued(c: Client, n: nat)
    requires IssuedOK(c) && n == |c.ops| - 1
    ensures Frame(n, false) in c.issued
  {
    var m := |c.issued| - 1;
    assert IssuedAt(c, m);
    if c.issued[m].retry { assert c.issued[m - 1] == Frame(n, false); } else { assert c.issued[m] == Frame(n, false); }
  }

  lemma {:induction false} ClientArmed(w: World, e: Step)
    requires ArmedOK(w.client) && IssuedOK(w.client)
    ensures ArmedOK(ClientStep(w, e))
  {
    var c := w.client;
    forall i: nat | i < |c.issued| ensures c.issued[i] != Frame(|c.ops|, true) { assert IssuedAt(c, i); }
    hide IssuedOK, Take;
    if e.Receive? && |c.got| < |w.server.delivered| { TakeArmed(c, w.server.delivered[|c.got|]); }
  }

  lemma TakeArmed(c: Client, d: Item)
    requires ArmedOK(c)
    ensures ArmedOK(Take(c, d))
  {
  }

  lemma {:induction false} ClientKeeps(w: World, e: Step)
    requires ClientOK(w.client, w.server) && IssuedOK(w.client) && DeliveredOK(w.server) && OfClient(e)
    ensures ClientOK(ClientStep(w, e), w.server)
  {
    hide ClientOK, IssuedOK, DeliveredOK, Take, Issue, Fail;
    var c, s := w.client, w.server;
    if ClientStep(w, e) != c {
      match e
      case StartSend(payload, tooLarge) => BeginClient(c, s, SendOp(payload, tooLarge));
      case StartList => BeginClient(c, s, ListOp);
      case Retry(_) =>
        if ClientStep(w, e).issued != c.issued {
          RetryClient(c, s, ClientStep(w, e));
        } else {
          DisarmKeeps(c, s);
        }
      case ClientFails => FailKeeps(c, s);
      case Receive => TakeKeeps(c, s);
    }
  }

  // -------- capacity --------

  lemma {:induction false} InjectiveBound(ids: set<Id>, workers: map<Id, Worker>, frames: set<Frame>)
    requires forall id :: id in ids ==> id in workers && workers[id].frame in frames
    requires forall a, b :: a in ids && b in ids && a != b ==> workers[a].frame != workers[b].frame
    ensures |ids| <= |frames|
    decreases |ids|
  {
    if ids != {} {
      var id :| id in ids;
      InjectiveBound(ids - {id}, workers, frames - {workers[id].frame});
    }
  }

  /** A worker still running has not been answered, so it serves the latest operation or the response being drained. */
  lemma {:induction false} UnfinishedUnanswered(me: Session, w: World, id: Id)
    requires LedgerOK(me, w.client, w.server) && ItemsOK(w.client, w.server) && DeliveredOK(w.server)
      && ClientOK(w.client, w.server)
    requires id in w.server.workers && !w.server.workers[id].stage.Finished?
    ensures var f := w.server.workers[id].frame; f.n == |w.client.ops| - 1 || IsLate(w.client, f)
  {
    var c, s := w.client, w.server;
    var f := s.workers[id].frame;
    assert WorkerOK(me, c, s, id);
    SeenAt(c, s, f);
    var i: nat :| i < |s.seen| && c.issued[i] == f;
    assert AskedAt(c, i);
    forall j | 0 <= j < |c.got| ensures c.got[j].to != f {
      assert c.got[j] == s.delivered[j] && DeliveredAt(s, j);
      var k: nat :| k < |s.items| && s.items[k] == s.delivered[j];
      assert AnsweredByOwn(s, k, id);
    }
  }

  lemma {:induction false} FewUnfinished(me: Session, w: World)
    requires LedgerOK(me, w.client, w.server) && ItemsOK(w.client, w.server) && DeliveredOK(w.server)
      && ClientOK(w.client, w.server)
    ensures |Unfinished(w.server.workers)| <= 3
  {
    var c, s := w.client, w.server;
    var n: nat := if c.ops == [] then 0 else |c.ops| - 1;
    var late := if c.late.Some? then c.late.value.frame else Frame(n, false);
    var frames := {Frame(n, false), Frame(n, true), late};
    forall id | id in Unfinished(s.workers) ensures s.workers[id].frame in frames {
      UnfinishedUnanswered(me, w, id);
      assert WorkerOK(me, c, s, id);
      var f := s.workers[id].frame;
      assert f == Frame(f.n, f.retry);
    }
    forall a, b | a in Unfinished(s.workers) && b in Unfinished(s.workers) && a != b
      ensures s.workers[a].frame != s.workers[b].frame
    {
      assert OneWorker(s, a, b);
    }
    InjectiveBound(Unfinished(s.workers), s.workers, frames);
    assert |frames| <= 3;
  }

  // -------- every run --------

  lemma {:induction false} StartInvariant(me: Session)
    ensures Invariant(me, Start())
  {
  }

  lemma {:induction false} NextInvariant(me: Session, w: World, e: Step)
    requires Invariant(me, w)
    ensures Invariant(me, Next(me, w, e))
  {
    hide IssuedOK, LedgerOK, ItemsOK, DeliveredOK, OffersOK, ClientOK, ClientStep, WorkerStep, SessionStep, ReadNext,
      ReadsAs, Forth;
    var c, s := w.client, w.server;
    if OfClient(e) {
      ClientIssued(w, e);
      StepGrows(w, e);
      GrownLedger(me, c, ClientStep(w, e), s);
      GrownItems(c, ClientStep(w, e), s);
      ClientKeeps(w, e);
      ClientArmed(w, e);
    } else if e.ReadFrame? {
      FewUnfinished(me, w);
      ReadKeeps(me, w, e.id, e.accepted);
      ReadCases(me, w, e.id, e.accepted);
      var s' := ReadNext(me, w, e.id, e.accepted);
      ReadItems(me, w, e.id, e.accepted, s');
      ReadEffect(me, w, e.id, e.accepted, s');
      assert s'.delivered[..|s.delivered|] == s.delivered;
      ServerClient(c, s, s');
    } else if OfWorker(e) {
      var s' := WorkerStep(me, w, e);
      WorkerKeeps(me, w, e);
      WorkerItems(me, w, e);
      WorkerOffers(me, w, e);
      WorkerForth(me, w, e);
      assert s'.delivered[..|s.delivered|] == s.delivered;
      ServerClient(c, s, s');
    } else {
      SessionKeeps(me, w, e);
      SessionItems(me, w, e);
      ServerClient(c, s, SessionStep(me, w, e));
    }
  }

  lemma {:induction false} RunInvariant(me: Session, steps: seq<Step>)
    ensures Invariant(me, Run(me, steps))
  {
    hide Invariant, Next, Start;
    if steps == [] {
      StartInvariant(me);
    } else {
      RunInvariant(me, steps[..|steps| - 1]);
      NextInvariant(me, Run(me, steps[..|steps| - 1]), steps[|steps| - 1]);
    }
  }

  // -------- what it comes to --------

  /** Each logical send is offered at most once, whatever is retried, lost or shut down. */
  lemma {:induction false} OfferedAtMostOnce(me: Session, steps: seq<Step>, i: nat, j: nat)
    requires i < j < |Run(me, steps).server.offers|
    ensures var s := Run(me, steps).server;
      && s.offers[i] in s.workers && s.offers[j] in s.workers
      && s.workers[s.offers[i]].frame.n != s.workers[s.offers[j]].frame.n
  {
    RunInvariant(me, steps);
    var c, s := Run(me, steps).client, Run(me, steps).server;
    var a, b := s.offers[i], s.offers[j];
    assert OneWorker(s, a, b) && PairOK(s, a, b) && PairOK(s, b, a);
    assert WorkerOK(me, c, s, a) && WorkerOK(me, c, s, b);
  }

  /**
   Until the relay clears its ledger, every response to one operation carries the same result, so no pair conflicts.
   */
  lemma {:induction false} PairedResultsAgree(me: Session, steps: seq<Step>)
    requires !Run(me, steps).server.flags.cleared
    ensures !Run(me, steps).client.mismatch
    ensures var got := Run(me, steps).client.got;
      forall i, j :: 0 <= i < |got| && 0 <= j < |got| && got[i].to.n == got[j].to.n ==> got[i].code == got[j].code
  {
    RunInvariant(me, steps);
    var w := Run(me, steps);
    assert forall i :: 0 <= i < |w.client.got| ==> w.client.got[i] == w.server.delivered[i];
  }

  /** The reader never denies this client for capacity, never meets a conflicting repeat and never a third one. */
  lemma {:induction false} OrderlyClient(me: Session, steps: seq<Step>)
    ensures Orderly(Run(me, steps).server.odd)
    ensures |Unfinished(Run(me, steps).server.workers)| <= 3
  {
    RunInvariant(me, steps);
    FewUnfinished(me, Run(me, steps));
  }
}
