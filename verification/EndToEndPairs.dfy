/**
 When the results of one send differ.  They carry one result unless the relay cleared its ledger between the two frames,
 and even then only if the first frame's delivery had been installed: the retry, admitted anew, installs nothing.
 */
module EndToEndPairs {
  import opened Wrappers
  import opened Messages
  import opened EndToEnd
  import opened EndToEndInvariant
  import opened EndToEndSafety

  /** The two results come from different dispatches, one of which installed a delivery. */
  predicate AnsweredApart(s: Server, x: Item, y: Item) {
    && x.source.Some? && y.source.Some? && x.source != y.source
    && x.source.value in s.workers && y.source.value in s.workers
    && (s.workers[x.source.value].installed || s.workers[y.source.value].installed)
  }

  /** The result of a retry that was admitted anew, found nobody online and installed nothing. */
  predicate RetryOffline(s: Server, x: Item) {
    && x.code == Some(Offline) && x.source.Some? && x.source.value in s.workers
    && s.workers[x.source.value].frame.retry && !s.workers[x.source.value].installed
  }

  lemma {:induction false} ItemsDiffer(me: Session, c: Client, s: Server, i: nat, j: nat)
    requires LedgerOK(me, c, s) && ItemsOK(c, s) && i < |s.items| && j < |s.items| && s.items[i].to.n == s.items[j].to.n
    ensures s.items[i].code != s.items[j].code <==> AnsweredApart(s, s.items[i], s.items[j])
    ensures s.items[i].code != s.items[j].code ==> RetryOffline(s, s.items[i]) || RetryOffline(s, s.items[j])
  {
    hide LedgerSpec.Valid, RecordsOK, CurrentsOK;
    var x, y := s.items[i], s.items[j];
    assert ItemOK(c, s, i) && ItemOK(c, s, j);
    if c.ops[x.to.n].SendOp? && !c.ops[x.to.n].tooLarge {
      var a, b := x.source.value, y.source.value;
      assert WorkerOK(me, c, s, a) && WorkerOK(me, c, s, b);
      assert OneWorker(s, a, b) && PairOK(s, a, b) && PairOK(s, b, a);
      assert s.workers[a].frame == Frame(x.to.n, s.workers[a].frame.retry);
      assert s.workers[b].frame == Frame(x.to.n, s.workers[b].frame.retry);
    }
  }

  /**
   Over every run, two results the client has received for one operation differ if and only if different dispatches of
   the server produced them, one of which had installed a delivery.  Then the ledger was cleared in between, and the
   retry's result is "offline".
   */
  lemma {:induction false} ResultsDifferExactly(me: Session, steps: seq<Step>, i: nat, j: nat)
    requires var got := Run(me, steps).client.got; i < |got| && j < |got| && got[i].to.n == got[j].to.n
    ensures var w := Run(me, steps);
      var x, y := w.client.got[i], w.client.got[j];
      && (x.code != y.code <==> AnsweredApart(w.server, x, y))
      && (x.code != y.code ==> w.server.flags.cleared && (RetryOffline(w.server, x) || RetryOffline(w.server, y)))
  {
    RunInvariant(me, steps);
    var w := Run(me, steps);
    var c, s := w.client, w.server;
    if !s.flags.cleared { PairedResultsAgree(me, steps); }
    assert c.got[i] == s.delivered[i] && c.got[j] == s.delivered[j];
    assert DeliveredAt(s, i) && DeliveredAt(s, j);
    var k: nat :| k < |s.items| && s.items[k] == c.got[i];
    var l: nat :| l < |s.items| && s.items[l] == c.got[j];
    ItemsDiffer(me, c, s, k, l);
    hide Run, LedgerOK, ItemsOK, ClientOK;
  }

  // -------- what the client makes of it --------

  ghost predicate AgreeAt(c: Client, i: nat, j: nat) {
    i < |c.got| && j < |c.got| && c.got[i].to.n == c.got[j].to.n ==> c.got[i].code == c.got[j].code
  }

  /** The operation is behind the client: it has had a result. */
  predicate Past(c: Client, n: nat) {
    n < |c.ops| && (c.waiting ==> n < |c.ops| - 1)
  }

  ghost predicate KnownAt(c: Client, i: nat) {
    i < |c.got| ==>
      && Past(c, c.got[i].to.n)
      && (c.late.Some? && c.late.value.frame.n == c.got[i].to.n ==> c.got[i].code == Some(c.late.value.code))
  }

  /** A client that goes on has seen no two results of one operation that differ. */
  ghost predicate Trusting(c: Client) {
    && (c.waiting ==> c.ops != [])
    && (!c.terminal ==>
          && (c.late.Some? ==> Past(c, c.late.value.frame.n))
          && ((forall i: nat, j: nat :: AgreeAt(c, i, j)) && (forall i: nat :: KnownAt(c, i))) == true)
  }

  /** A client that reports a conflict has ended, and has seen one. */
  ghost predicate Justified(c: Client) {
    c.mismatch ==> c.terminal && exists i: nat, j: nat :: !AgreeAt(c, i, j)
  }

  /** A client goes on after the result it drains, equal to the one before, or after the pending operation's first. */
  lemma TakenOn(c: Client, d: Item)
    requires !Take(c, d).terminal
    ensures var c' := Take(c, d);
      && !c.terminal && c'.got == c.got + [d] && c'.ops == c.ops
      && (|| (c.late.Some? && c.late.value.frame == d.to && d.code == Some(c.late.value.code) && c'.late.None?
              && c'.waiting == c.waiting)
          || (c.waiting && d.to.n == |c.ops| - 1 && !c'.waiting
              && (c'.late == c.late
                  || (c'.late.Some? && c'.late.value.frame.n == d.to.n && d.code == Some(c'.late.value.code)))))
  {
  }

  /** A conflict is between the result that is drained and the one before. */
  lemma TakenConflict(c: Client, d: Item)
    requires Take(c, d).mismatch && !c.mismatch
    ensures Take(c, d).terminal && c.late.Some? && c.late.value.frame == d.to && d.code != Some(c.late.value.code)
  {
  }

  lemma {:induction false} TakeTrusts(c: Client, d: Item)
    requires Trusting(c)
    ensures Trusting(Take(c, d))
  {
    var c' := Take(c, d);
    TakenShape(c, d);
    if !c'.terminal { TakenOn(c, d); }
    hide Take;
    if !c'.terminal {
      forall i: nat ensures KnownAt(c', i) { assert KnownAt(c, i); }
      forall i: nat, j: nat ensures AgreeAt(c', i, j) { assert AgreeAt(c, i, j) && KnownAt(c, i) && KnownAt(c, j); }
    }
  }

  lemma EndsForGood(c: Client, d: Item)
    requires c.terminal
    ensures Take(c, d).terminal
  {
  }

  lemma {:induction false} TakeJustified(c: Client, d: Item)
    requires LateOK(c) && Justified(c)
    ensures Justified(Take(c, d))
  {
    var c' := Take(c, d);
    TakenShape(c, d);
    if c.mismatch { EndsForGood(c, d); } else if c'.mismatch { TakenConflict(c, d); }
    hide Take;
    if c.mismatch {
      var i: nat, j: nat :| !AgreeAt(c, i, j);
      assert !AgreeAt(c', i, j);
    } else if c'.mismatch {
      var i :| 0 <= i < |c.got| && c.got[i].to.n == c.late.value.frame.n && c.got[i].code == Some(c.late.value.code);
      assert c'.got[i] == c.got[i] && c'.got[|c.got|] == d;
      assert !AgreeAt(c', i, |c.got|);
    }
  }

  lemma {:induction false} ClientTrusts(w: World, e: Step)
    requires Trusting(w.client) && Justified(w.client) && LateOK(w.client)
    ensures Trusting(ClientStep(w, e)) && Justified(ClientStep(w, e))
  {
    var c, c' := w.client, ClientStep(w, e);
    if e.Receive? {
      if |c.got| < |w.server.delivered| {
        TakeTrusts(c, w.server.delivered[|c.got|]);
        TakeJustified(c, w.server.delivered[|c.got|]);
        hide Take;
      }
    } else {
      hide Take;
      forall i: nat | KnownAt(c, i) ensures KnownAt(c', i) {}
      forall i: nat, j: nat ensures AgreeAt(c', i, j) <==> AgreeAt(c, i, j) {}
    }
  }

  lemma {:induction false} RunTrusts(me: Session, steps: seq<Step>)
    ensures Trusting(Run(me, steps).client) && Justified(Run(me, steps).client)
  {
    if steps != [] {
      var w := Run(me, steps[..|steps| - 1]);
      RunTrusts(me, steps[..|steps| - 1]);
      RunInvariant(me, steps[..|steps| - 1]);
      if OfClient(steps[|steps| - 1]) { ClientTrusts(w, steps[|steps| - 1]); }
      hide ClientStep, ReadNext, WorkerStep, SessionStep, LedgerOK, IssuedOK, ItemsOK, Trusting, Justified;
    }
  }

  /** Two results of one operation that differ. */
  predicate Differ(got: seq<Item>, i: nat, j: nat) {
    i < |got| && j < |got| && got[i].to.n == got[j].to.n && got[i].code != got[j].code
  }

  /**
   Over every run: a client that has received two results of one operation that differ has ended; and one that ended for
   a conflict has received such a pair, of which the retry's is "offline".
   */
  lemma {:induction false} ConflictEndsClient(me: Session, steps: seq<Step>)
    ensures var w := Run(me, steps);
      var got := w.client.got;
      && (forall i: nat, j: nat :: Differ(got, i, j) ==> w.client.terminal)
      && (w.client.mismatch ==>
            w.client.terminal && exists i: nat, j: nat :: Differ(got, i, j) && RetryOffline(w.server, got[j]))
  {
    RunTrusts(me, steps);
    var w := Run(me, steps);
    var c := w.client;
    forall i: nat, j: nat | Differ(c.got, i, j) ensures c.terminal {
      assert !AgreeAt(c, i, j);
    }
    if c.mismatch {
      var i: nat, j: nat :| !AgreeAt(c, i, j);
      ResultsDifferExactly(me, steps, i, j);
      assert Differ(c.got, i, j) && Differ(c.got, j, i);
    }
    hide Run;
  }
}
