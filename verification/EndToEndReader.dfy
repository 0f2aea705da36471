/** Reading a frame keeps the ledger's side, and never takes a branch meant for misbehaving clients. */
module EndToEndReader {
  import opened Wrappers
  import opened Messages
  import opened LedgerSpec
  import LedgerInvariant
  import opened SenderView
  import opened EndToEnd
  import opened EndToEndInvariant
  import opened EndToEndLedger
  import Canonical = Fingerprint

  /** There is a frame to read. */
  ghost predicate CanRead(c: Client, s: Server) {
    s.flags.reading && |s.seen| < |c.issued|
  }

  function Upcoming(c: Client, s: Server): Frame
    requires |s.seen| < |c.issued|
  {
    c.issued[|s.seen|]
  }

  function Looked(c: Client, s: Server): Server
    requires |s.seen| < |c.issued|
  {
    s.(seen := s.seen + [Upcoming(c, s)])
  }

  /** Reading a frame changes nothing by itself: no worker is its own yet. */
  lemma {:induction false} LookKeeps(me: Session, c: Client, s: Server)
    requires IssuedOK(c) && LedgerOK(me, c, s) && |s.seen| < |c.issued|
    ensures LedgerOK(me, c, Looked(c, s)) && NoWorker(Looked(c, s), Upcoming(c, s))
  {
    var s' := Looked(c, s);
    var f := Upcoming(c, s);
    NextUnseen(c, s);
    hide Valid;
    assert s'.seen == c.issued[..|s'.seen|];
    forall id ensures WorkerOK(me, c, s', id) && (id in s.workers ==> s.workers[id].frame != f) {
      assert WorkerOK(me, c, s, id);
    }
    forall k ensures SentRecord(me, c, s', k) { assert SentRecord(me, c, s, k); }
    forall a, b ensures OneWorker(s', a, b) && PairOK(s', a, b) { assert OneWorker(s, a, b) && PairOK(s, a, b); }
    forall id ensures CurrentSend(me, c, s', id) {}
  }

  /** While the frame just read has no worker, thinning the ledger is harmless. */
  lemma {:induction false} ThinnedAfterLook(me: Session, c: Client, s: Server, s': Server)
    requires LedgerOK(me, c, s) && Valid(s'.ledger) && Thinned(s.ledger, s'.ledger, me)
    requires s'.workers == s.workers && s'.seen == s.seen && s'.flags == s.flags
    requires s.seen != [] && NoWorker(s, s.seen[|s.seen| - 1])
    ensures LedgerOK(me, c, s')
  {
    ThinnedKeeps(me, c, s, s');
    hide Valid, RecordsOK, WorkersOK, PairsOK;
    forall id ensures CurrentSend(me, c, s', id) {}
  }

  /** A record already under the key is the first frame's, unrepeated and with the same fingerprint. */
  lemma {:induction false} RecordExpected(me: Session, c: Client, s: Server)
    requires IssuedOK(c) && LedgerOK(me, c, s) && |s.seen| < |c.issued| && IsSend(c, Upcoming(c, s).n)
    requires KeyOf(me, c.ops, Upcoming(c, s).n) in s.ledger.records
    ensures var f := Upcoming(c, s);
      var r := s.ledger.records[KeyOf(me, c.ops, f.n)];
      && f.retry && !r.repeatUsed && r.id in s.workers && s.workers[r.id].frame == Frame(f.n, false)
      && Print(c.ops[f.n].payload) == Success(r.fingerprint)
      && (!r.Pending() ==> s.workers[r.id].response == r.response)
  {
    hide Valid, CurrentsOK, PairsOK;
    var f := Upcoming(c, s);
    var k := KeyOf(me, c.ops, f.n);
    NextUnseen(c, s);
    assert SentRecord(me, c, s, k);
    var id := s.ledger.records[k].id;
    assert WorkerOK(me, c, s, id);
    KeyNames(me, c, s.workers[id].frame.n, f.n);
    assert s.workers[id].frame == Frame(f.n, s.workers[id].frame.retry);
  }

  // -------- a retry meets its record --------

  function AttachedLedger(l: Ledger<Id>, k: Key, op: Operation): Ledger<Id>
    requires k in l.records
  {
    l.(records := l.records[k := l.records[k].(repeatUsed := true, attached := Some(op))])
  }

  lemma {:induction false} AttachKeeps(me: Session, c: Client, s: Server, op: Operation)
    requires IssuedOK(c) && LedgerOK(me, c, s) && |s.seen| < |c.issued| && IsSend(c, Upcoming(c, s).n)
    requires var k := KeyOf(me, c.ops, Upcoming(c, s).n);
      k in s.ledger.records && s.ledger.records[k].Pending() && Valid(AttachedLedger(s.ledger, k, op))
    ensures LedgerOK(me, c, Looked(c, s).(ledger := AttachedLedger(s.ledger, KeyOf(me, c.ops, Upcoming(c, s).n), op)))
  {
    var f := Upcoming(c, s);
    var k := KeyOf(me, c.ops, f.n);
    var s1 := Looked(c, s);
    var s' := s1.(ledger := AttachedLedger(s.ledger, k, op));
    LookKeeps(me, c, s);
    RecordExpected(me, c, s);
    hide Valid;
    forall x ensures SentRecord(me, c, s', x) { assert SentRecord(me, c, s1, x); }
    forall id ensures WorkerOK(me, c, s', id) && CurrentSend(me, c, s', id) { assert WorkerOK(me, c, s1, id); }
    forall a, b ensures OneWorker(s', a, b) && PairOK(s', a, b) { assert OneWorker(s1, a, b) && PairOK(s1, a, b); }
  }

  // -------- a frame is admitted --------

  /** Why a retry that finds no record may get a worker of its own. */
  lemma {:induction false} RetryAlone(me: Session, c: Client, s: Server, a: Id)
    requires IssuedOK(c) && LedgerOK(me, c, s) && CanRead(c, s) && Upcoming(c, s).retry && IsSend(c, Upcoming(c, s).n)
    requires KeyOf(me, c.ops, Upcoming(c, s).n) !in s.ledger.records
    requires a in s.workers && s.workers[a].frame == Frame(Upcoming(c, s).n, false)
    ensures s.flags.published && !s.flags.cleared ==> Silent(s.workers[a])
    ensures s.workers[a].offered ==> s.flags.stopping || !s.flags.published
  {
    NextUnseen(c, s);
    assert CurrentSend(me, c, s, a) && WorkerOK(me, c, s, a);
  }

  lemma {:induction false} AdmitPairs(me: Session, c: Client, s: Server, id: Id)
    requires IssuedOK(c) && LedgerOK(me, c, s) && CanRead(c, s) && IsSend(c, Upcoming(c, s).n) && id !in s.workers
    requires KeyOf(me, c.ops, Upcoming(c, s).n) !in s.ledger.records
    ensures PairsOK(Set(s, id, Worker(Upcoming(c, s), Dispatching, false, false, None)))
  {
    var f := Upcoming(c, s);
    var s' := Set(s, id, Worker(f, Dispatching, false, false, None));
    NextUnseen(c, s);
    hide Valid, RecordsOK, CurrentsOK;
    forall a, b ensures OneWorker(s', a, b) && PairOK(s', a, b) {
      assert OneWorker(s, a, b) && PairOK(s, a, b) && WorkerOK(me, c, s, a) && WorkerOK(me, c, s, b);
      if b == id && a in s.workers && f.retry && s.workers[a].frame == Frame(f.n, false) { RetryAlone(me, c, s, a); }
    }
  }

  lemma {:induction false} BegunRecord(l: Ledger<Id>, k: Key, mark: Fingerprint, id: Id)
    requires Valid(l) && k !in l.records
    ensures LedgerSpec.Begin(l, k, mark, id).Some?
    ensures var l' := LedgerSpec.Begin(l, k, mark, id).value;
      && Valid(l') && k in l'.records && l'.records[k] == NewRecord(id, mark) && IsCurrent(l', k)
      && (forall x: Key :: x.sender == k.sender && x != k ==> ThinnedAt(l, l', x))
  {
    LedgerInvariant.BeginValid(l, k, mark, id);
    AdvanceOwn(l, k.sender);
    var l' := LedgerSpec.Begin(l, k, mark, id).value;
    forall x: Key | x.sender == k.sender && x != k ensures ThinnedAt(l, l', x) {
      assert ThinnedAt(l, AdvanceSender(l, k.sender), x);
    }
  }

  lemma {:induction false} AdmitKeeps(me: Session, c: Client, s: Server, mark: Fingerprint, id: Id, s': Server)
    requires IssuedOK(c) && LedgerOK(me, c, s) && CanRead(c, s) && IsSend(c, Upcoming(c, s).n) && id !in s.workers
    requires !c.ops[Upcoming(c, s).n].tooLarge && Print(c.ops[Upcoming(c, s).n].payload) == Success(mark)
    requires var k := KeyOf(me, c.ops, Upcoming(c, s).n);
      && k !in s.ledger.records && LedgerSpec.Begin(s.ledger, k, mark, id).Some?
      && s' == Set(Looked(c, s), id, Worker(Upcoming(c, s), Dispatching, false, false, None)).(
           ledger := LedgerSpec.Begin(s.ledger, k, mark, id).value)
    ensures LedgerOK(me, c, s')
  {
    var f := Upcoming(c, s);
    var k := KeyOf(me, c.ops, f.n);
    BegunRecord(s.ledger, k, mark, id);
    AdmitPairs(me, c, s, id);
    NextUnseen(c, s);
    hide Valid, LedgerSpec.Begin;
    AdmitRecords(me, c, s, mark, id, s');
    AdmitWorkers(me, c, s, mark, id, s');
    assert s'.seen == c.issued[..|s'.seen|];
    var t := Set(s, id, Worker(f, Dispatching, false, false, None));
    forall a, b ensures OneWorker(s', a, b) && PairOK(s', a, b) { assert OneWorker(t, a, b) && PairOK(t, a, b); }
    forall x ensures CurrentSend(me, c, s', x) { assert WorkerOK(me, c, s, x); }
  }

  /** The server after admitting the frame. */
  ghost predicate Admitted(me: Session, c: Client, s: Server, mark: Fingerprint, id: Id, s': Server) {
    && |s.seen| < |c.issued| && IsSend(c, Upcoming(c, s).n) && id !in s.workers
    && !c.ops[Upcoming(c, s).n].tooLarge && Print(c.ops[Upcoming(c, s).n].payload) == Success(mark)
    && s'.workers == s.workers[id := Worker(Upcoming(c, s), Dispatching, false, false, None)]
    && s'.seen == s.seen + [Upcoming(c, s)] && s'.flags == s.flags
    && (var k := KeyOf(me, c.ops, Upcoming(c, s).n);
        && k !in s.ledger.records && k in s'.ledger.records && s'.ledger.records[k] == NewRecord(id, mark)
        && (forall x: Key :: x.sender == me && x != k ==> ThinnedAt(s.ledger, s'.ledger, x)))
  }

  /** No worker's own frame is the upcoming one, so a frame already read keeps having no worker. */
  lemma {:induction false} StillNoWorker(me: Session, c: Client, s: Server, mark: Fingerprint, id: Id, s': Server)
    requires IssuedOK(c) && SeenOK(c, s) && Admitted(me, c, s, mark, id, s')
    ensures forall g :: g in s.seen && NoWorker(s, g) ==> NoWorker(s', g)
  {
    NextUnseen(c, s);
  }

  lemma {:induction false} AdmitRecords(me: Session, c: Client, s: Server, mark: Fingerprint, id: Id, s': Server)
    requires IssuedOK(c) && LedgerOK(me, c, s) && Admitted(me, c, s, mark, id, s')
    ensures RecordsOK(me, c, s')
  {
    hide Valid, WorkersOK, PairsOK, CurrentsOK;
    StillNoWorker(me, c, s, mark, id, s');
    var k := KeyOf(me, c.ops, Upcoming(c, s).n);
    forall x ensures SentRecord(me, c, s', x) {
      assert SentRecord(me, c, s, x);
      if x.sender == me && x != k { assert ThinnedAt(s.ledger, s'.ledger, x); }
    }
  }

  lemma {:induction false} AdmitWorkers(me: Session, c: Client, s: Server, mark: Fingerprint, id: Id, s': Server)
    requires IssuedOK(c) && LedgerOK(me, c, s) && Admitted(me, c, s, mark, id, s')
    ensures WorkersOK(me, c, s')
  {
    hide Valid, RecordsOK, PairsOK, CurrentsOK;
    StillNoWorker(me, c, s, mark, id, s');
    var k := KeyOf(me, c.ops, Upcoming(c, s).n);
    forall x ensures WorkerOK(me, c, s', x) {
      assert WorkerOK(me, c, s, x);
      if x in s.workers {
        var kx := KeyOf(me, c.ops, s.workers[x].frame.n);
        if kx != k { assert ThinnedAt(s.ledger, s'.ledger, kx); }
      }
    }
  }

  // -------- the reader's step --------

  /** What reading the next frame comes to. */
  datatype Outcome = Asleep | Listed | Refused | Broken | Admits | Attaches | Replays(response: Response, source: Id)

  ghost function Reading(me: Session, c: Client, s: Server, id: Id): Outcome {
    if !s.flags.reading || |s.seen| >= |c.issued| || id in s.workers || Upcoming(c, s).n >= |c.ops| then Asleep
    else if c.ops[Upcoming(c, s).n].ListOp? then Listed
    else if c.ops[Upcoming(c, s).n].tooLarge then Refused
    else if Print(c.ops[Upcoming(c, s).n].payload).Failure? then Broken
    else
      var k := KeyOf(me, c.ops, Upcoming(c, s).n);
      if k !in s.ledger.records then Admits
      else if s.ledger.records[k].Pending() then Attaches
      else Replays(s.ledger.records[k].response.value, s.ledger.records[k].id)
  }

  function Print0(r: Result<string>): string {
    if r.Success? then r.value else ""
  }

  /** The reader's step, by what it comes to.  Denials, conflicts and overflows do not appear. */
  ghost predicate ReadsAs(me: Session, w: World, id: Id, accepted: bool, s': Server) {
    var c, s := w.client, w.server;
    var o := Reading(me, c, s, id);
    if o.Asleep? || |s.seen| >= |c.issued| || Upcoming(c, s).n >= |c.ops| then o.Asleep? && s' == s
    else
      var f, s1 := Upcoming(c, s), Looked(c, s);
      if o.Listed? then s' == Answer(s1.(ledger := AdvanceSender(s.ledger, me)), Item(f, None, None, None), accepted)
      else if o.Refused? then s' == Answer(s1, Item(f, Some(BodyTooLarge), None, None), accepted)
      else if o.Broken? then s' == s1.(flags := s.flags.(reading := false))
      else
        && c.ops[f.n].SendOp?
        && var k := KeyOf(me, c.ops, f.n);
        if o.Admits? then
          var begun := LedgerSpec.Begin(s.ledger, k, Print0(Print(c.ops[f.n].payload)), id);
          begun.Some? && s' == Set(s1, id, Worker(f, Dispatching, false, false, None)).(ledger := begun.value)
        else if o.Attaches? then
          f.retry && k in s.ledger.records
            && s' == s1.(ledger := AttachedLedger(s.ledger, k, Operation(Tag(f), c.ops[f.n].payload)))
        else
          f.retry && s' == Answer(s1, Item(f, Some(o.response.code), Some(o.source), None), accepted).(
                             ledger := if accepted then ReleaseCurrent(s.ledger, k, o.source) else s.ledger)
  }

  lemma {:induction false} ReadCases(me: Session, w: World, id: Id, accepted: bool)
    requires IssuedOK(w.client) && LedgerOK(me, w.client, w.server) && |Unfinished(w.server.workers)| < TOKENS
    ensures ReadsAs(me, w, id, accepted, ReadNext(me, w, id, accepted))
    ensures ReadNext(me, w, id, accepted).odd == w.server.odd
  {
    var c, s := w.client, w.server;
    hide LedgerOK, IssuedOK, Canonical.Of;
    var o := Reading(me, c, s, id);
    if o.Admits? {
      AdmitCase(me, w, id, accepted);
    } else if o.Attaches? || o.Replays? {
      RecordExpected(me, c, s);
      RepeatCase(me, w, id, accepted);
    }
  }

  lemma {:induction false} AdmitCase(me: Session, w: World, id: Id, accepted: bool)
    requires |Unfinished(w.server.workers)| < TOKENS && Reading(me, w.client, w.server, id).Admits?
    ensures ReadsAs(me, w, id, accepted, ReadNext(me, w, id, accepted))
      && ReadNext(me, w, id, accepted).odd == w.server.odd
  {
    hide Canonical.Of, AdvanceSender;
  }

  lemma {:induction false} RepeatCase(me: Session, w: World, id: Id, accepted: bool)
    requires Reading(me, w.client, w.server, id).Attaches? || Reading(me, w.client, w.server, id).Replays?
    requires var f := Upcoming(w.client, w.server);
      var r := w.server.ledger.records[KeyOf(me, w.client.ops, f.n)];
      f.retry && !r.repeatUsed && Print(w.client.ops[f.n].payload) == Success(r.fingerprint)
    ensures ReadsAs(me, w, id, accepted, ReadNext(me, w, id, accepted))
      && ReadNext(me, w, id, accepted).odd == w.server.odd
  {
    hide Canonical.Of, ReleaseCurrent;
  }

  lemma {:induction false} ReadKeeps(me: Session, w: World, id: Id, accepted: bool)
    requires IssuedOK(w.client) && LedgerOK(me, w.client, w.server) && |Unfinished(w.server.workers)| < TOKENS
    ensures LedgerOK(me, w.client, ReadNext(me, w, id, accepted))
  {
    var c, s := w.client, w.server;
    ReadCases(me, w, id, accepted);
    hide LedgerOK, IssuedOK, ReadNext, Canonical.Of;
    match Reading(me, c, s, id)
    case Asleep =>
    case Listed => ListedKeeps(me, c, s, accepted);
    case Refused => RefusedKeeps(me, c, s, accepted);
    case Broken => BrokenKeeps(me, c, s);
    case Admits => AdmitKeeps(me, c, s, Print(c.ops[Upcoming(c, s).n].payload).value, id,
      ReadNext(me, w, id, accepted));
    case Attaches => AttachesKeeps(me, c, s);
    case Replays(response, source) => ReplaysKeeps(me, c, s, response, source, accepted);
  }

  lemma {:induction false} ListedKeeps(me: Session, c: Client, s: Server, accepted: bool)
    requires IssuedOK(c) && LedgerOK(me, c, s) && |s.seen| < |c.issued|
    ensures LedgerOK(me, c,
      Answer(Looked(c, s).(ledger := AdvanceSender(s.ledger, me)), Item(Upcoming(c, s), None, None, None), accepted))
  {
    LookKeeps(me, c, s);
    LedgerInvariant.AdvanceValid(s.ledger, me);
    AdvanceOwn(s.ledger, me);
    var s1 := Looked(c, s).(ledger := AdvanceSender(s.ledger, me));
    ThinnedAfterLook(me, c, Looked(c, s), s1);
    AnswerKeeps(me, c, s1, Item(Upcoming(c, s), None, None, None), accepted);
  }

  lemma {:induction false} AnswerKeeps(me: Session, c: Client, s: Server, item: Item, accepted: bool)
    requires LedgerOK(me, c, s)
    ensures LedgerOK(me, c, Answer(s, item, accepted))
  {
    if accepted {
      SameLedger(me, c, s, Answer(s, item, accepted));
    } else {
      FlagsKeep(me, c, s, s.flags.(reading := false));
    }
  }

  lemma {:induction false} RefusedKeeps(me: Session, c: Client, s: Server, accepted: bool)
    requires IssuedOK(c) && LedgerOK(me, c, s) && |s.seen| < |c.issued|
    ensures LedgerOK(me, c, Answer(Looked(c, s), Item(Upcoming(c, s), Some(BodyTooLarge), None, None), accepted))
  {
    LookKeeps(me, c, s);
    AnswerKeeps(me, c, Looked(c, s), Item(Upcoming(c, s), Some(BodyTooLarge), None, None), accepted);
  }

  lemma {:induction false} BrokenKeeps(me: Session, c: Client, s: Server)
    requires IssuedOK(c) && LedgerOK(me, c, s) && |s.seen| < |c.issued|
    ensures LedgerOK(me, c, Looked(c, s).(flags := s.flags.(reading := false)))
  {
    LookKeeps(me, c, s);
    FlagsKeep(me, c, Looked(c, s), s.flags.(reading := false));
  }

  lemma {:induction false} AttachesKeeps(me: Session, c: Client, s: Server)
    requires IssuedOK(c) && LedgerOK(me, c, s) && |s.seen| < |c.issued| && IsSend(c, Upcoming(c, s).n)
    requires KeyOf(me, c.ops, Upcoming(c, s).n) in s.ledger.records
      && s.ledger.records[KeyOf(me, c.ops, Upcoming(c, s).n)].Pending()
    ensures var f := Upcoming(c, s);
      LedgerOK(me, c,
        Looked(c, s).(ledger := AttachedLedger(s.ledger, KeyOf(me, c.ops, f.n), Operation(Tag(f), c.ops[f.n].payload))))
  {
    var f := Upcoming(c, s);
    var op := Operation(Tag(f), c.ops[f.n].payload);
    RecordExpected(me, c, s);
    LedgerInvariant.ObserveValid(s.ledger, me, op, s.ledger.records[KeyOf(me, c.ops, f.n)].fingerprint);
    AttachIsObserve(s.ledger, me, op);
    AttachKeeps(me, c, s, op);
  }

  lemma AttachIsObserve(l: Ledger<Id>, me: Session, op: Operation)
    requires var k := Key(me, op.send.messageID); k in l.records && l.records[k].Pending() && !l.records[k].repeatUsed
    ensures var k := Key(me, op.send.messageID);
      Observe(l, me, op, l.records[k].fingerprint).0 == AttachedLedger(l, k, op)
  {
  }

  lemma {:induction false} ReplaysKeeps(me: Session, c: Client, s: Server, response: Response, source: Id,
    accepted: bool)
    requires IssuedOK(c) && LedgerOK(me, c, s) && |s.seen| < |c.issued| && IsSend(c, Upcoming(c, s).n)
    ensures var f := Upcoming(c, s);
      LedgerOK(me, c, Answer(Looked(c, s), Item(f, Some(response.code), Some(source), None), accepted).(
        ledger := if accepted then ReleaseCurrent(s.ledger, KeyOf(me, c.ops, f.n), source) else s.ledger))
  {
    var f := Upcoming(c, s);
    var item := Item(f, Some(response.code), Some(source), None);
    LookKeeps(me, c, s);
    var s1 := Looked(c, s);
    if accepted {
      var k := KeyOf(me, c.ops, f.n);
      ReleaseThins(s.ledger, k, source);
      var s2 := s1.(ledger := ReleaseCurrent(s.ledger, k, source));
      ThinnedAfterLook(me, c, s1, s2);
      SameLedger(me, c, s2, Answer(s2, item, true));
    } else {
      AnswerKeeps(me, c, s1, item, false);
    }
  }
}
