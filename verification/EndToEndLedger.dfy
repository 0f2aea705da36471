/** Every step keeps the ledger's side of the connection's invariant. */
module EndToEndLedger {
  import opened Wrappers
  import opened Messages
  import opened LedgerSpec
  import LedgerInvariant
  import opened SenderView
  import opened EndToEnd
  import opened EndToEndInvariant

  // -------- frames already read --------

  lemma {:induction false} SeenAt(c: Client, s: Server, f: Frame)
    requires SeenOK(c, s) && f in s.seen
    ensures exists i: nat :: i < |s.seen| && c.issued[i] == f
  {
    var i :| 0 <= i < |s.seen| && s.seen[i] == f;
    assert c.issued[i] == f;
  }

  /** The next frame has not been read, nor has the retry of the last one. */
  lemma {:induction false} NextUnseen(c: Client, s: Server)
    requires IssuedOK(c) && SeenOK(c, s) && |s.seen| < |c.issued|
    ensures c.issued[|s.seen|] !in s.seen
    ensures !c.issued[|s.seen|].retry ==> Frame(c.issued[|s.seen|].n, true) !in s.seen
    ensures c.issued[|s.seen|].retry ==> s.seen != [] && s.seen[|s.seen| - 1] == Frame(c.issued[|s.seen|].n, false)
    ensures c.issued[|s.seen|].n < |c.ops|
    ensures c.issued[|s.seen|].retry ==> c.ops[c.issued[|s.seen|].n].SendOp?
  {
    var f := c.issued[|s.seen|];
    assert IssuedAt(c, |s.seen|);
    forall g | g in s.seen ensures Before(g, f) {
      SeenAt(c, s, g);
      var i: nat :| i < |s.seen| && c.issued[i] == g;
      assert InOrder(c, i, |s.seen|);
    }
  }

  /** The last frame read is a first frame: its retry has not been read. */
  lemma {:induction false} LastFirst(c: Client, s: Server)
    requires IssuedOK(c) && SeenOK(c, s) && s.seen != [] && !s.seen[|s.seen| - 1].retry
    ensures Frame(s.seen[|s.seen| - 1].n, true) !in s.seen
  {
    var f := s.seen[|s.seen| - 1];
    assert c.issued[|s.seen| - 1] == f;
    forall i | 0 <= i < |s.seen| ensures s.seen[i] != Frame(f.n, true) { assert InOrder(c, i, |s.seen| - 1); }
  }

  /** One message ID, one send. */
  lemma {:induction false} KeyNames(me: Session, c: Client, n: nat, m: nat)
    requires IssuedOK(c) && IsSend(c, n) && IsSend(c, m) && KeyOf(me, c.ops, n) == KeyOf(me, c.ops, m)
    ensures n == m
  {
    assert OwnIDs(c, n, m) && OwnIDs(c, m, n);
  }

  // -------- steps that only thin the ledger --------

  /** The ledger was thinned and the current send kept; nothing else the ledger's side looks at changed. */
  ghost predicate Quieter(me: Session, s: Server, s': Server) {
    && Valid(s'.ledger) == true && Thinned(s.ledger, s'.ledger, me) && CurrentKept(s.ledger, s'.ledger, me)
    && s'.workers == s.workers && s'.seen == s.seen && s'.flags == s.flags
  }

  lemma {:induction false} QuieterKeeps(me: Session, c: Client, s: Server, s': Server)
    requires LedgerOK(me, c, s) && Quieter(me, s, s')
    ensures LedgerOK(me, c, s')
  {
    hide Valid;
    forall k ensures SentRecord(me, c, s', k) {
      assert SentRecord(me, c, s, k) && ThinnedAt(s.ledger, s'.ledger, Key(me, k.messageID));
    }
    forall id ensures WorkerOK(me, c, s', id) {
      assert WorkerOK(me, c, s, id);
      if id in s.workers { assert ThinnedAt(s.ledger, s'.ledger, KeyOf(me, c.ops, s.workers[id].frame.n)); }
    }
    forall a, b ensures OneWorker(s', a, b) && PairOK(s', a, b) { assert OneWorker(s, a, b) && PairOK(s, a, b); }
    forall id ensures CurrentSend(me, c, s', id) {
      assert CurrentSend(me, c, s, id) && WorkerOK(me, c, s, id);
      if id in s.workers { assert ThinnedAt(s.ledger, s'.ledger, KeyOf(me, c.ops, s.workers[id].frame.n)); }
    }
  }

  // -------- flags --------

  /** Flags go one way. */
  ghost predicate Later(f: Flags, f': Flags) {
    && (f'.published ==> f.published) && (f'.reading ==> f.reading)
    && f'.swept == f.swept && f'.cleared == f.cleared
    && (f.cancelled ==> f'.cancelled) && (f.stopping ==> f'.stopping)
  }

  lemma {:induction false} FlagsKeep(me: Session, c: Client, s: Server, f': Flags)
    requires LedgerOK(me, c, s) && Later(s.flags, f') && FlagsOK(f')
    ensures LedgerOK(me, c, s.(flags := f'))
  {
    hide Valid;
    var s' := s.(flags := f');
    forall k ensures SentRecord(me, c, s', k) { assert SentRecord(me, c, s, k); }
    forall id ensures WorkerOK(me, c, s', id) && CurrentSend(me, c, s', id) {
      assert WorkerOK(me, c, s, id) && CurrentSend(me, c, s, id);
    }
    forall a, b ensures OneWorker(s', a, b) && PairOK(s', a, b) { assert OneWorker(s, a, b) && PairOK(s, a, b); }
  }

  lemma {:induction false} EmptiedKeeps(me: Session, c: Client, s: Server, s': Server)
    requires LedgerOK(me, c, s) && Valid(s'.ledger) && forall k :: k in s'.ledger.records ==> k.sender != me
    requires s'.workers == s.workers && s'.seen == s.seen && FlagsOK(s'.flags)
    requires s'.flags.swept || s'.flags.cleared
    requires (s'.flags.published ==> s.flags.published) && (s.flags.stopping ==> s'.flags.stopping)
      && (s.flags.cancelled ==> s'.flags.cancelled)
    requires s.flags.cleared ==> s'.flags.cleared
    ensures LedgerOK(me, c, s')
  {
    hide Valid;
    forall k ensures SentRecord(me, c, s', k) {}
    forall id ensures WorkerOK(me, c, s', id) && CurrentSend(me, c, s', id) { assert WorkerOK(me, c, s, id); }
    forall a, b ensures OneWorker(s', a, b) && PairOK(s', a, b) { assert OneWorker(s, a, b) && PairOK(s, a, b); }
  }

  lemma {:induction false} SessionKeeps(me: Session, w: World, e: Step)
    requires LedgerOK(me, w.client, w.server) && !OfClient(e) && !OfWorker(e) && !e.ReadFrame?
    ensures LedgerOK(me, w.client, SessionStep(me, w, e))
  {
    var c, s := w.client, w.server;
    var s' := SessionStep(me, w, e);
    match e
    case Elsewhere(event) =>
      if Foreign(event, me) {
        LedgerInvariant.ApplyValid(s.ledger, event);
        ForeignThinned(s.ledger, event, me);
        QuieterKeeps(me, c, s, s');
      }
    case SweepSender =>
      if !s.flags.published {
        LedgerInvariant.DropValid(s.ledger, set k | k in s.ledger.records && k.sender == me);
        EmptiedKeeps(me, c, s, s');
      }
    case ClearLedger => if s.flags.stopping { EmptiedKeeps(me, c, s, s'); }
    case Deliver => SameLedger(me, c, s, s');
    case DropHead => SameLedger(me, c, s, s');
    case _ => FlagsKeep(me, c, s, s'.flags);
  }

  lemma {:induction false} SameLedger(me: Session, c: Client, s: Server, s': Server)
    requires LedgerOK(me, c, s) && s'.ledger == s.ledger && s'.workers == s.workers && s'.seen == s.seen
      && s'.flags == s.flags
    ensures LedgerOK(me, c, s')
  {
    forall k: Key | k.sender == me ensures ThinnedAt(s.ledger, s'.ledger, k) {}
    QuieterKeeps(me, c, s, s');
  }

  // -------- one worker moves --------

  /** A worker moved without touching what its record speaks of. */
  ghost predicate Steady(w: Worker, w': Worker) {
    && w'.frame == w.frame && w'.response == w.response && (w'.stage.Dispatching? <==> w.stage.Dispatching?)
    && (w'.stage.Completed? ==> w.stage == w'.stage) && (w'.stage.Published? ==> w.response.Some?)
    && (w'.offered ==> w'.installed) && (w.response.Some? ==> w'.installed == w.installed)
  }

  lemma {:induction false} SteadyKeeps(me: Session, c: Client, s: Server, id: Id, w': Worker)
    requires LedgerOK(me, c, s) && id in s.workers && Steady(s.workers[id], w')
    requires Silent(w') && w'.offered ==> Lost(s.flags)
    requires PairsOK(Set(s, id, w'))
    ensures LedgerOK(me, c, Set(s, id, w'))
  {
    hide Valid, PairsOK;
    var s' := Set(s, id, w');
    assert WorkerOK(me, c, s, id);
    assert forall f :: NoWorker(s, f) ==> NoWorker(s', f);
    forall k ensures SentRecord(me, c, s', k) { assert SentRecord(me, c, s, k); }
    forall x ensures WorkerOK(me, c, s', x) && CurrentSend(me, c, s', x) {
      assert WorkerOK(me, c, s, x) && CurrentSend(me, c, s, x);
    }
  }

  lemma {:induction false} InstallPairs(me: Session, c: Client, s: Server, id: Id)
    requires LedgerOK(me, c, s) && id in s.workers && s.flags.published && !s.flags.stopping
    ensures PairsOK(Set(s, id, s.workers[id].(installed := true)))
  {
    var s' := Set(s, id, s.workers[id].(installed := true));
    forall a, b ensures OneWorker(s', a, b) && PairOK(s', a, b) { assert OneWorker(s, a, b) && PairOK(s, a, b); }
  }

  lemma {:induction false} OfferPairs(me: Session, c: Client, s: Server, id: Id)
    requires LedgerOK(me, c, s) && id in s.workers && s.workers[id].stage.Dispatching?
    ensures PairsOK(Set(s, id, s.workers[id].(offered := true)))
  {
    var s' := Set(s, id, s.workers[id].(offered := true));
    forall a, b ensures OneWorker(s', a, b) && PairOK(s', a, b) { assert OneWorker(s, a, b) && PairOK(s, a, b); }
  }

  lemma {:induction false} FinishPairs(s: Server, id: Id, w': Worker)
    requires PairsOK(s) && id in s.workers && Steady(s.workers[id], w')
    requires w'.offered == s.workers[id].offered && w'.installed == s.workers[id].installed
    ensures PairsOK(Set(s, id, w'))
  {
    var s' := Set(s, id, w');
    forall a, b ensures OneWorker(s', a, b) && PairOK(s', a, b) { assert OneWorker(s, a, b) && PairOK(s, a, b); }
  }

  // -------- settling --------

  lemma {:induction false} CompleteKeeps(me: Session, w: World, id: Id, response: Response, respond: bool)
    requires LedgerOK(me, w.client, w.server) && IssuedOK(w.client)
    requires Runs(w, id) && MayComplete(w.server, id, response, respond)
    ensures LedgerOK(me, w.client, WorkerStep(me, w, Complete(id, response, respond)))
  {
    var c, s := w.client, w.server;
    var k := KeyOf(me, c.ops, s.workers[id].frame.n);
    LedgerInvariant.CompleteValid(s.ledger, k, id, response, respond);
    CompletedServer(me, w, id, response, respond);
    CompletedLedger(me, c, s, WorkerStep(me, w, Complete(id, response, respond)), id, response, respond);
  }

  lemma {:induction false} CompletedServer(me: Session, w: World, id: Id, response: Response, respond: bool)
    requires Valid(w.server.ledger) == true
    requires Runs(w, id) && MayComplete(w.server, id, response, respond)
    ensures var s' := WorkerStep(me, w, Complete(id, response, respond));
      && SettledServer(me, w.client, w.server, s', id, response, respond)
      && s'.ledger ==
        LedgerSpec.Complete(w.server.ledger, KeyOf(me, w.client.ops, w.server.workers[id].frame.n), id, response,
        respond).0
  {
    CompletedEffect(me, w.client, w.server, id, response, respond);
    hide Valid, SettledLedger, LedgerSpec.Complete;
  }

  /** What settling does to this session's records. */
  ghost predicate SettledLedger(me: Session, c: Client, s: Server, l': Ledger<Id>, attached: bool, id: Id,
    response: Response, respond: bool)
    requires id in s.workers && IsSend(c, s.workers[id].frame.n)
  {
    var k := KeyOf(me, c.ops, s.workers[id].frame.n);
    && (forall x: Key :: x.sender == me && x != k ==> ThinnedAt(s.ledger, l', x))
    && (forall x: Key :: x.sender == me && x != k && x in s.ledger.records && IsCurrent(s.ledger, x) ==>
      x in l'.records && IsCurrent(l', x))
    && (Live(s.ledger, k, id) && s.ledger.records[k].Pending() ==>
          && attached == s.ledger.records[k].attached.Some?
          && (!respond ==> k !in l'.records)
          && (respond ==>
                && (k in l'.records ==>
                  SameCore(s.ledger.records[k].(response := Some(response), attached := None), l'.records[k]))
                && (IsCurrent(s.ledger, k) ==> k in l'.records && IsCurrent(l', k))))
    && (!(Live(s.ledger, k, id) && s.ledger.records[k].Pending()) ==> l' == s.ledger && !attached)
  }

  lemma {:induction false} CompletedEffect(me: Session, c: Client, s: Server, id: Id, response: Response, respond: bool)
    requires Valid(s.ledger) && id in s.workers && IsSend(c, s.workers[id].frame.n)
    ensures var (l', attached) :=
      LedgerSpec.Complete(s.ledger, KeyOf(me, c.ops, s.workers[id].frame.n), id, response, respond);
      SettledLedger(me, c, s, l', attached.Some?, id, response, respond)
  {
    var k := KeyOf(me, c.ops, s.workers[id].frame.n);
    var l' := LedgerSpec.Complete(s.ledger, k, id, response, respond).0;
    if Live(s.ledger, k, id) && s.ledger.records[k].Pending() { CompleteOwn(s.ledger, k, id, response, respond); }
    CompleteCurrent(s.ledger, k, id, response, respond, me);
    hide Valid, LedgerSpec.Complete;
    forall x: Key | x.sender == me && x != k ensures ThinnedAt(s.ledger, l', x)
      ensures x in s.ledger.records && IsCurrent(s.ledger, x) ==> x in l'.records && IsCurrent(l', x)
    {
      CompleteOthers(s.ledger, k, id, response, respond, x);
      if x in s.ledger.records && IsCurrent(s.ledger, x) { DropsOnlyItself(s.ledger, k, id, response, respond, x); }
    }
  }

  lemma {:induction false} DropsOnlyItself(l: Ledger<Id>, k: Key, id: Id, response: Response, respond: bool, x: Key)
    requires Valid(l) && x != k && IsCurrent(l, x)
    ensures IsCurrent(LedgerSpec.Complete(l, k, id, response, respond).0, x)
  {
    CompleteCurrent(l, k, id, response, respond, x.sender);
  }

  ghost predicate SettledServer(me: Session, c: Client, s: Server, s': Server, id: Id, response: Response,
    respond: bool)
  {
    && id in s.workers && s.workers[id].stage.Dispatching? && IsSend(c, s.workers[id].frame.n)
    && MayComplete(s, id, response, respond)
    && s'.workers.Keys == s.workers.Keys && (forall x :: x in s.workers && x != id ==> s'.workers[x] == s.workers[x])
    && s'.seen == s.seen && s'.flags == s.flags
    && (var w, w' := s.workers[id], s'.workers[id];
        w' == if respond
          then w.(stage := Completed(w'.stage.Completed? && w'.stage.attached), response := Some(response))
          else w.(stage := Ending))
    && (SettledLedger(me, c, s, s'.ledger, s'.workers[id].stage.Completed? && s'.workers[id].stage.attached,
                      id, response, respond)
        || (!respond && SettledLedger(me, c, s, s'.ledger, true, id, response, respond)))
  }

  lemma {:induction false} CompletedRecords(me: Session, c: Client, s: Server, s': Server, id: Id, response: Response,
    respond: bool)
    requires LedgerOK(me, c, s) && IssuedOK(c) && SettledServer(me, c, s, s', id, response, respond)
    ensures RecordsOK(me, c, s')
  {
    hide Valid, PairsOK, CurrentsOK;
    var k := KeyOf(me, c.ops, s.workers[id].frame.n);
    assert forall f :: NoWorker(s, f) ==> NoWorker(s', f);
    assert WorkerOK(me, c, s, id);
    forall x ensures SentRecord(me, c, s', x) {
      CompletedRecord(me, c, s, s', id, response, respond, x);
    }
  }

  lemma {:induction false} CompletedRecord(me: Session, c: Client, s: Server, s': Server, id: Id, response: Response,
    respond: bool, x: Key)
    requires RecordsOK(me, c, s) && WorkerOK(me, c, s, id) && SettledServer(me, c, s, s', id, response, respond)
    requires forall f :: NoWorker(s, f) ==> NoWorker(s', f)
    ensures SentRecord(me, c, s', x)
  {
    var k := KeyOf(me, c.ops, s.workers[id].frame.n);
    assert SentRecord(me, c, s, x) && SentRecord(me, c, s, k);
    hide RecordsOK, NoWorker;
    if x.sender == me && x != k {
      assert ThinnedAt(s.ledger, s'.ledger, x);
    }
  }

  lemma {:induction false} CompletedWorkers(me: Session, c: Client, s: Server, s': Server, id: Id, response: Response,
    respond: bool)
    requires LedgerOK(me, c, s) && IssuedOK(c) && SettledServer(me, c, s, s', id, response, respond)
    ensures WorkersOK(me, c, s')
  {
    hide Valid, PairsOK, CurrentsOK;
    var k := KeyOf(me, c.ops, s.workers[id].frame.n);
    assert forall f :: NoWorker(s, f) ==> NoWorker(s', f);
    assert WorkerOK(me, c, s, id) && SentRecord(me, c, s, k);
    forall x ensures WorkerOK(me, c, s', x) {
      assert WorkerOK(me, c, s, x);
      if x in s.workers && x != id {
        var kx := KeyOf(me, c.ops, s.workers[x].frame.n);
        if kx != k { assert ThinnedAt(s.ledger, s'.ledger, kx); }
      }
    }
  }

  lemma {:induction false} CompletedCurrents(me: Session, c: Client, s: Server, s': Server, id: Id, response: Response,
    respond: bool)
    requires LedgerOK(me, c, s) && IssuedOK(c) && SettledServer(me, c, s, s', id, response, respond)
    ensures CurrentsOK(me, c, s')
  {
    hide Valid, RecordsOK;
    var k := KeyOf(me, c.ops, s.workers[id].frame.n);
    assert WorkerOK(me, c, s, id);
    forall x ensures CurrentSend(me, c, s', x) {
      assert CurrentSend(me, c, s, x) && WorkerOK(me, c, s, x) && OneWorker(s, x, id);
      if x in s.workers && x != id {
        var kx := KeyOf(me, c.ops, s.workers[x].frame.n);
        if kx == k {
          KeyNames(me, c, s.workers[x].frame.n, s.workers[id].frame.n);
        } else {
          assert ThinnedAt(s.ledger, s'.ledger, kx);
        }
      }
    }
  }

  lemma {:induction false} CompletedLedger(me: Session, c: Client, s: Server, s': Server, id: Id, response: Response,
    respond: bool)
    requires LedgerOK(me, c, s) && IssuedOK(c) && Valid(s'.ledger) == true
      && SettledServer(me, c, s, s', id, response, respond)
    ensures LedgerOK(me, c, s')
  {
    CompletedRecords(me, c, s, s', id, response, respond);
    CompletedWorkers(me, c, s, s', id, response, respond);
    CompletedCurrents(me, c, s, s', id, response, respond);
    hide Valid, RecordsOK, WorkersOK, CurrentsOK;
    forall a, b ensures OneWorker(s', a, b) && PairOK(s', a, b) { assert OneWorker(s, a, b) && PairOK(s, a, b); }
  }

  // -------- publishing --------

  /** Giving up the claim on a send whose retry was read does not touch the current send. */
  lemma {:induction false} ReleaseOld(me: Session, c: Client, s: Server, id: Id, x: Id)
    requires LedgerOK(me, c, s) && IssuedOK(c) && id in s.workers && IsSend(c, s.workers[id].frame.n)
    requires Frame(s.workers[id].frame.n, true) in s.seen && NoWorker(s, Frame(s.workers[id].frame.n, true))
    ensures CurrentSend(me, c, s.(ledger := ReleaseCurrent(s.ledger, KeyOf(me, c.ops, s.workers[id].frame.n), id)), x)
  {
    var k := KeyOf(me, c.ops, s.workers[id].frame.n);
    var l' := ReleaseCurrent(s.ledger, k, id);
    assert CurrentSend(me, c, s, x) && WorkerOK(me, c, s, x);
    ReleaseThins(s.ledger, k, id);
    if x in s.workers && s.seen != [] && s.workers[x].frame == s.seen[|s.seen| - 1] && !s.workers[x].frame.retry {
      LastFirst(c, s);
      var kx := KeyOf(me, c.ops, s.workers[x].frame.n);
      if kx == k { KeyNames(me, c, s.workers[x].frame.n, s.workers[id].frame.n); }
      assert ThinnedAt(s.ledger, l', kx);
    }
  }

  lemma {:induction false} ReleaseThins(l: Ledger<Id>, k: Key, id: Id)
    requires Valid(l)
    ensures Valid(ReleaseCurrent(l, k, id)) && Thinned(l, ReleaseCurrent(l, k, id), k.sender)
    ensures !IsCurrent(l, k) ==> ReleaseCurrent(l, k, id) == l
  {
    if Live(l, k, id) && IsCurrent(l, k) {
      LedgerInvariant.AdvanceValid(l, k.sender);
      AdvanceOwn(l, k.sender);
    } else {
      forall x: Key | x.sender == k.sender ensures ThinnedAt(l, l, x) {}
    }
  }

  lemma {:induction false} ReleaseKeeps(me: Session, c: Client, s: Server, id: Id)
    requires LedgerOK(me, c, s) && IssuedOK(c) && id in s.workers && IsSend(c, s.workers[id].frame.n)
    requires Frame(s.workers[id].frame.n, true) in s.seen && NoWorker(s, Frame(s.workers[id].frame.n, true))
    ensures LedgerOK(me, c, s.(ledger := ReleaseCurrent(s.ledger, KeyOf(me, c.ops, s.workers[id].frame.n), id)))
  {
    var k := KeyOf(me, c.ops, s.workers[id].frame.n);
    var s' := s.(ledger := ReleaseCurrent(s.ledger, k, id));
    ReleaseThins(s.ledger, k, id);
    forall x ensures CurrentSend(me, c, s', x) { ReleaseOld(me, c, s, id, x); }
    ThinnedKeeps(me, c, s, s');
  }

  /** Thinning is enough for the records and the workers. */
  lemma {:induction false} ThinnedKeeps(me: Session, c: Client, s: Server, s': Server)
    requires LedgerOK(me, c, s) && Valid(s'.ledger) && Thinned(s.ledger, s'.ledger, me)
    requires s'.workers == s.workers && s'.seen == s.seen && s'.flags == s.flags
    ensures RecordsOK(me, c, s') && WorkersOK(me, c, s') && PairsOK(s')
  {
    hide Valid, CurrentsOK;
    forall k ensures SentRecord(me, c, s', k) {
      assert SentRecord(me, c, s, k) && ThinnedAt(s.ledger, s'.ledger, Key(me, k.messageID));
    }
    forall id ensures WorkerOK(me, c, s', id) {
      assert WorkerOK(me, c, s, id);
      if id in s.workers { assert ThinnedAt(s.ledger, s'.ledger, KeyOf(me, c.ops, s.workers[id].frame.n)); }
    }
    forall a, b ensures OneWorker(s', a, b) && PairOK(s', a, b) { assert OneWorker(s, a, b) && PairOK(s, a, b); }
  }

  lemma {:induction false} PublishKeeps(me: Session, w: World, id: Id, accepted: bool)
    requires LedgerOK(me, w.client, w.server) && IssuedOK(w.client)
    requires Runs(w, id) && w.server.workers[id].stage.Completed? && w.server.workers[id].response.Some?
    ensures LedgerOK(me, w.client, WorkerStep(me, w, Publish(id, accepted)))
  {
    var c, s := w.client, w.server;
    var it := s.workers[id];
    var moved := it.(stage := if accepted then Published else Ending);
    assert WorkerOK(me, c, s, id);
    FinishPairs(s, id, moved);
    SteadyKeeps(me, c, s, id, moved);
    if accepted && it.stage.attached {
      ReleaseKeeps(me, c, Set(s, id, moved), id);
      SameLedger(me, c, Set(s, id, moved).(ledger := ReleaseCurrent(s.ledger, KeyOf(me, c.ops, it.frame.n), id)),
        WorkerStep(me, w, Publish(id, accepted)));
    } else {
      SameLedger(me, c, Set(s, id, moved), WorkerStep(me, w, Publish(id, accepted)));
    }
  }

  lemma {:induction false} WorkerKeeps(me: Session, w: World, e: Step)
    requires LedgerOK(me, w.client, w.server) && IssuedOK(w.client) && OfWorker(e)
    ensures LedgerOK(me, w.client, WorkerStep(me, w, e))
  {
    hide LedgerOK, IssuedOK;
    var c, s := w.client, w.server;
    if WorkerStep(me, w, e) != s {
      match e
      case Bind(id, recipient) => BindKeeps(me, w, id, recipient);
      case Install(id) => InstallKeeps(me, w, id);
      case WriteOffer(id) => OfferKeeps(me, w, id);
      case Complete(id, response, respond) => CompleteKeeps(me, w, id, response, respond);
      case Publish(id, accepted) => PublishKeeps(me, w, id, accepted);
      case Finish(id) => FinishKeeps(me, w, id);
    }
  }

  lemma {:induction false} BindKeeps(me: Session, w: World, id: Id, recipient: Session)
    requires LedgerOK(me, w.client, w.server) && Runs(w, id)
    ensures LedgerOK(me, w.client, WorkerStep(me, w, Bind(id, recipient)))
  {
    var c, s := w.client, w.server;
    var k := KeyOf(me, c.ops, s.workers[id].frame.n);
    LedgerInvariant.BindValid(s.ledger, k, id, recipient);
    BindOwn(s.ledger, k, id, recipient, me);
    QuieterKeeps(me, c, s, s.(ledger := BindRecipient(s.ledger, k, id, recipient)));
  }

  lemma {:induction false} InstallKeeps(me: Session, w: World, id: Id)
    requires LedgerOK(me, w.client, w.server) && Runs(w, id)
    ensures LedgerOK(me, w.client, WorkerStep(me, w, Install(id)))
  {
    var c, s := w.client, w.server;
    assert WorkerOK(me, c, s, id);
    if s.workers[id].stage.Dispatching? && s.flags.published && !s.flags.stopping {
      InstallPairs(me, c, s, id);
      SteadyKeeps(me, c, s, id, s.workers[id].(installed := true));
    }
  }

  lemma {:induction false} OfferKeeps(me: Session, w: World, id: Id)
    requires LedgerOK(me, w.client, w.server) && Runs(w, id)
    ensures LedgerOK(me, w.client, WorkerStep(me, w, WriteOffer(id)))
  {
    var c, s := w.client, w.server;
    assert WorkerOK(me, c, s, id);
    var moved := s.workers[id].(offered := true);
    if s.workers[id].stage.Dispatching? && s.workers[id].installed && !s.workers[id].offered {
      OfferPairs(me, c, s, id);
      SteadyKeeps(me, c, s, id, moved);
      SameLedger(me, c, Set(s, id, moved), WorkerStep(me, w, WriteOffer(id)));
    }
  }

  lemma {:induction false} FinishKeeps(me: Session, w: World, id: Id)
    requires LedgerOK(me, w.client, w.server)
    ensures LedgerOK(me, w.client, WorkerStep(me, w, Finish(id)))
  {
    var c, s := w.client, w.server;
    assert WorkerOK(me, c, s, id);
    if id in s.workers && (s.workers[id].stage.Published? || s.workers[id].stage.Ending?) {
      FinishPairs(s, id, s.workers[id].(stage := Finished));
      SteadyKeeps(me, c, s, id, s.workers[id].(stage := Finished));
    }
  }
}
