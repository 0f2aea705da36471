/** The invariant of one client connection. */
module EndToEndInvariant {
  import opened Wrappers
  import opened Messages
  import opened LedgerSpec
  import opened EndToEnd

  // -------- frames --------

  predicate Before(f: Frame, g: Frame) {
    f.n < g.n || (f.n == g.n && !f.retry && g.retry)
  }

  /** Frames are issued in order; a retry comes right after the first frame of its send. */
  ghost predicate IssuedAt(c: Client, i: nat) {
    i < |c.issued| ==>
      && c.issued[i].n < |c.ops|
      && (c.issued[i].retry ==> i > 0 && c.issued[i - 1] == Frame(c.issued[i].n, false) && c.ops[c.issued[i].n].SendOp?)
  }

  ghost predicate InOrder(c: Client, i: nat, j: nat) {
    i < j < |c.issued| ==> Before(c.issued[i], c.issued[j])
  }

  ghost predicate OwnIDs(c: Client, n: nat, m: nat) {
    n < m < |c.ops| && c.ops[n].SendOp? && c.ops[m].SendOp? ==> c.ops[n].payload.messageID != c.ops[m].payload.messageID
  }

  ghost predicate IssuedOK(c: Client) {
    (&& (forall i: nat :: IssuedAt(c, i))
     && (forall i: nat, j: nat :: InOrder(c, i, j))
     && (forall n: nat, m: nat :: OwnIDs(c, n, m))
     && (c.ops == [] <==> c.issued == [])
     && (c.issued != [] ==> c.issued[|c.issued| - 1].n == |c.ops| - 1)) == true
  }

  ghost predicate SeenOK(c: Client, s: Server) {
    |s.seen| <= |c.issued| && s.seen == c.issued[..|s.seen|]
  }

  // -------- records and workers --------

  predicate IsSend(c: Client, n: nat) {
    n < |c.ops| && c.ops[n].SendOp?
  }

  ghost predicate NoWorker(s: Server, f: Frame) {
    forall id :: id in s.workers ==> s.workers[id].frame != f
  }

  /** A record of this session was begun for one of its sends, and says what that send's worker knows. */
  ghost predicate SentRecord(me: Session, c: Client, s: Server, k: Key) {
    k in s.ledger.records && k.sender == me ==>
      var r := s.ledger.records[k];
      && r.id in s.workers
      && var w := s.workers[r.id];
      && var n := w.frame.n;
      && IsSend(c, n) && k == KeyOf(me, c.ops, n) && Print(c.ops[n].payload) == Success(r.fingerprint)
      && (r.Pending() ==> w.stage.Dispatching?)
      && (!r.Pending() ==> w.response == r.response)
      && (r.repeatUsed ==> Frame(n, true) in s.seen)
      && (r.attached.Some? ==> Frame(n, true) in s.seen && !w.frame.retry && NoWorker(s, Frame(n, true)))
  }

  ghost predicate WorkerOK(me: Session, c: Client, s: Server, id: Id) {
    id in s.workers ==>
      var w := s.workers[id];
      var n := w.frame.n;
      && w.frame in s.seen && IsSend(c, n) && !c.ops[n].tooLarge
      && (w.offered ==> w.installed)
      && (w.stage.Dispatching? ==> w.response.None?)
      && (w.response.Some? ==> (w.response.value.code == Offline <==> !w.installed))
      && (w.stage.Dispatching? && !s.flags.swept && !s.flags.cleared ==>
            var k := KeyOf(me, c.ops, n);
            k in s.ledger.records && s.ledger.records[k].id == id && s.ledger.records[k].Pending())
      && (w.stage.Completed? || w.stage.Published? ==> w.response.Some?)
      && (w.stage.Completed? && w.stage.attached ==>
            Frame(n, true) in s.seen && !w.frame.retry && NoWorker(s, Frame(n, true)))
      && (w.response.None? && !w.stage.Dispatching? && w.offered ==> Lost(s.flags))
  }

  ghost predicate OneWorker(s: Server, a: Id, b: Id) {
    a in s.workers && b in s.workers && a != b ==> s.workers[a].frame != s.workers[b].frame
  }

  predicate Silent(w: Worker) {
    w.response.None? && !w.stage.Dispatching?
  }

  /**
   A retry gets a worker of its own only when the first frame's came to nothing, or the session or the relay is going.
   */
  ghost predicate PairOK(s: Server, a: Id, b: Id) {
    a in s.workers && b in s.workers && !s.workers[a].frame.retry
      && s.workers[b].frame == Frame(s.workers[a].frame.n, true) ==>
      && (s.flags.published && !s.flags.cleared ==> Silent(s.workers[a]))
      && (s.workers[a].offered ==> s.flags.stopping || !s.flags.published)
      && (s.workers[b].installed ==> !s.workers[a].offered && Silent(s.workers[a]))
  }

  /**
   Between a send's first frame and the next one, its record is current and unrepeated; or its worker came to nothing.
   */
  ghost predicate CurrentSend(me: Session, c: Client, s: Server, id: Id) {
    s.seen != [] && !s.flags.swept && !s.flags.cleared && id in s.workers
    && s.workers[id].frame == s.seen[|s.seen| - 1] && !s.workers[id].frame.retry && IsSend(c, s.workers[id].frame.n) ==>
      var k := KeyOf(me, c.ops, s.workers[id].frame.n);
      || (k in s.ledger.records && s.ledger.records[k].id == id && IsCurrent(s.ledger, k)
        && !s.ledger.records[k].repeatUsed)
      || (k !in s.ledger.records && Silent(s.workers[id]))
  }

  ghost predicate FlagsOK(f: Flags) {
    (f.swept ==> !f.published) && (f.cleared ==> f.stopping) && (f.cancelled ==> !f.reading || !f.published)
  }

  ghost predicate RecordsOK(me: Session, c: Client, s: Server) {
    (forall k :: SentRecord(me, c, s, k)) == true
  }

  ghost predicate WorkersOK(me: Session, c: Client, s: Server) {
    (forall id :: WorkerOK(me, c, s, id)) == true
  }

  ghost predicate PairsOK(s: Server) {
    ((forall a, b :: OneWorker(s, a, b)) && (forall a, b :: PairOK(s, a, b))) == true
  }

  ghost predicate CurrentsOK(me: Session, c: Client, s: Server) {
    (forall id :: CurrentSend(me, c, s, id)) == true
  }

  ghost predicate LedgerOK(me: Session, c: Client, s: Server) {
    && Valid(s.ledger) == true && SeenOK(c, s) && FlagsOK(s.flags)
    && RecordsOK(me, c, s) && WorkersOK(me, c, s) && PairsOK(s) && CurrentsOK(me, c, s)
  }

  // -------- responses --------

  /**
   A response carries the result of a worker of the same send; a frame's own worker has published when it is answered.
   */
  ghost predicate ItemOK(c: Client, s: Server, j: nat) {
    j < |s.items| ==>
      var it := s.items[j];
      && it.to in s.seen && it.to.n < |c.ops|
      && (c.ops[it.to.n].ListOp? <==> it.code.None?)
      && (it.source.Some? ==> c.ops[it.to.n].SendOp? && !c.ops[it.to.n].tooLarge)
      && (c.ops[it.to.n].SendOp? && c.ops[it.to.n].tooLarge ==> it.code == Some(BodyTooLarge))
      && (c.ops[it.to.n].SendOp? && !c.ops[it.to.n].tooLarge ==>
            && it.source.Some? && it.source.value in s.workers
            && var w := s.workers[it.source.value];
            && w.frame.n == it.to.n && w.response.Some? && it.code == Some(w.response.value.code))
  }

  ghost predicate AnsweredByOwn(s: Server, j: nat, id: Id) {
    j < |s.items| && id in s.workers && s.workers[id].frame == s.items[j].to ==>
      (s.workers[id].stage.Published? || s.workers[id].stage.Finished?) && s.items[j].gate == Some(id)
  }

  ghost predicate ItemsOK(c: Client, s: Server) {
    ((forall j: nat :: ItemOK(c, s, j)) && (forall j: nat, id :: AnsweredByOwn(s, j, id))) == true
  }

  ghost predicate DeliveredAt(s: Server, i: nat) {
    i < |s.delivered| ==> s.delivered[i] in s.items && GateOpen(s, s.delivered[i])
  }

  /** Until the ledger is cleared, what is delivered for one operation is one and the same result. */
  ghost predicate Consistent(s: Server) {
    !s.flags.cleared ==>
      forall i, j :: 0 <= i < |s.delivered| && 0 <= j < |s.delivered| && s.delivered[i].to.n == s.delivered[j].to.n ==>
        s.delivered[i].code == s.delivered[j].code
  }

  ghost predicate DeliveredOK(s: Server) {
    (s.popped <= |s.items| && (forall i: nat :: DeliveredAt(s, i)) && Consistent(s)) == true
  }

  ghost predicate OffersOK(s: Server) {
    (&& (forall id :: id in s.workers ==> (s.workers[id].offered <==> id in s.offers))
     && (forall id :: id in s.offers ==> id in s.workers)
     && (forall i, j :: 0 <= i < j < |s.offers| ==> s.offers[i] != s.offers[j])) == true
  }

  // -------- the client --------

  predicate IsLate(c: Client, f: Frame) {
    c.late.Some? && c.late.value.frame == f
  }

  ghost predicate Answered(c: Client, f: Frame) {
    exists i :: 0 <= i < |c.got| && c.got[i].to == f
  }

  /**
   What the client has asked and not been told concerns its latest operation, or is the one response it waits to
   drain.
   */
  ghost predicate AskedAt(c: Client, i: nat) {
    i < |c.issued| ==>
      || Answered(c, c.issued[i]) || IsLate(c, c.issued[i])
      || (c.issued[i].n == |c.ops| - 1 && (c.terminal || c.waiting))
  }

  ghost predicate LateOK(c: Client) {
    c.late.Some? ==> exists i ::
      0 <= i < |c.got| && c.got[i].to.n == c.late.value.frame.n && c.got[i].code == Some(c.late.value.code)
  }

  ghost predicate ClientOK(c: Client, s: Server) {
    (&& (forall i: nat :: AskedAt(c, i))
     && LateOK(c)
     && (c.late.Some? ==> c.late.value.frame in c.issued)
     && |c.got| <= |s.delivered| && c.got == s.delivered[..|c.got|]
     && (c.waiting ==> !c.terminal && c.ops != [])
     && (c.mismatch ==> s.flags.cleared)) == true
  }

  /** An armed timer is the pending send's, and that send was not retried yet. */
  ghost predicate ArmedOK(c: Client) {
    (c.armed ==> c.waiting && c.ops != [] && c.ops[|c.ops| - 1].SendOp? && Frame(|c.ops| - 1, true) !in c.issued) ==
      true
  }

  predicate Orderly(o: Anomalies) {
    !o.denied && !o.overflowed && !o.conflicted
  }

  ghost predicate Invariant(me: Session, w: World) {
    && IssuedOK(w.client) && LedgerOK(me, w.client, w.server) && ItemsOK(w.client, w.server) && DeliveredOK(w.server)
    && OffersOK(w.server) && ClientOK(w.client, w.server) && ArmedOK(w.client) && Orderly(w.server.odd)
  }
}
