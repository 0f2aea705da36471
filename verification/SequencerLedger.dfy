/**
 The sequencer of one session together with the dedupe ledger it shares with every other session.

 The reader observes a send, takes a token and begins its record; the worker settles or drops the record when its
 dispatch ends, and only then goes on to reserve slots.  The steps between are separate, so that any other goroutine may
 act on the ledger in the middle.  A record's identity is its worker's place among the producers.
 */
module SequencerLedger {
  import opened Wrappers
  import opened Messages
  import opened LedgerSpec
  import LedgerInvariant
  import S = Sequencer
  import SequencerOrder

  /** A send that was observed as new and is not admitted yet. */
  datatype Arrival = Arrival(requestID: nat, key: Key, mark: Fingerprint)

  /** `keys` names the record each admitted worker began. */
  datatype Joint = Joint(server: S.State, ledger: Ledger<nat>, keys: map<nat, Key>, arrival: Option<Arrival>)

  datatype Step =
    | Observes(requestID: nat, op: Operation, mark: Fingerprint, payload: nat)
    | Admits
    | Completes(i: nat, response: Response, respond: bool, failed: bool, repeatID: nat, payload: nat)
    | Serves(step: S.Step)
    | Elsewhere(event: LedgerInvariant.Event<nat>)

  function Start(): Joint {
    Joint(S.Start(), Empty(), map[], None)
  }

  function Server(j: Joint, e: S.Step): Joint {
    j.(server := S.Next(j.server, e))
  }

  /** Steps that involve the session's own records only through `Observes`, `Admits` and `Completes`. */
  predicate Inner(j: Joint, e: S.Step) {
    match e
    case ByReader(act) => !act.AdmitSend? && j.arrival.None?
    case ByProducer(_, move) => !move.Dispatched?
    case _ => true
  }

  /**
   What others do to the ledger, and what this session does to it besides: it binds, releases, advances and is
   forgotten.
   */
  predicate Allowed(me: Session, e: LedgerInvariant.Event<nat>) {
    match e
    case Observed(sender, _, _) => sender != me
    case Begun(k, _, _) => k.sender != me
    case Completed(k, _, _, _) => k.sender != me
    case _ => true
  }

  function ObserveStep(me: Session, j: Joint, requestID: nat, op: Operation, mark: Fingerprint, payload: nat): Joint {
    if !j.server.reader.Reading? || j.arrival.Some? then j
    else
      var (l, answer) := Observe(j.ledger, me, op, mark);
      match answer
      case New => j.(arrival := Some(Arrival(requestID, Key(me, op.send.messageID), mark)))
      case PendingAttached => j.(ledger := l)
      case Replayed(_) => Server(j.(ledger := l), S.ByReader(S.Immediate(requestID, payload)))
      case Conflict(_) => Server(j.(ledger := l), S.ByReader(S.Immediate(requestID, payload)))
      case Overflow => Server(j, S.ByReader(S.ReadFails))
  }

  /** Without a token the send is answered at once; a record that has appeared meanwhile is fatal. */
  function AdmitStep(j: Joint): Joint {
    if !j.server.reader.Reading? || j.arrival.None? then j
    else
      var a, rest := j.arrival.value, j.(arrival := None);
      if j.server.tokens >= S.TOKENS then Server(rest, S.ByReader(S.AdmitSend(a.requestID)))
      else
        match Begin(j.ledger, a.key, a.mark, |j.server.producers|)
        case None => Server(rest, S.ByReader(S.ReadFails))
        case Some(l) =>
          Server(rest.(ledger := l, keys := j.keys[|j.server.producers| := a.key]),
            S.ByReader(S.AdmitSend(a.requestID)))
  }

  predicate Dispatches(s: S.State, i: nat) {
    S.Has(s, i) && s.producers[i].phase.Dispatching?
  }

  /** The record is settled or dropped even when the dispatch failed. */
  function CompleteStep(j: Joint, i: nat, response: Response, respond: bool, failed: bool, repeatID: nat,
    payload: nat): Joint
  {
    if !Dispatches(j.server, i) || i !in j.keys then j
    else
      var (l, attached) := Complete(j.ledger, j.keys[i], i, response, respond);
      var repeat := if attached.Some? then Some(repeatID) else None;
      Server(j.(ledger := l), S.ByProducer(i, S.Dispatched(respond && !failed, repeat, payload)))
  }

  function Next(me: Session, j: Joint, e: Step): Joint {
    match e
    case Observes(requestID, op, mark, payload) => ObserveStep(me, j, requestID, op, mark, payload)
    case Admits => AdmitStep(j)
    case Completes(i, response, respond, failed, repeatID, payload) => CompleteStep(j, i, response, respond, failed,
      repeatID, payload)
    case Serves(step) => if Inner(j, step) then Server(j, step) else j
    case Elsewhere(event) => if Allowed(me, event) then j.(ledger := LedgerInvariant.Apply(j.ledger, event)) else j
  }

  function Run(me: Session, steps: seq<Step>): Joint {
    if steps == [] then Start() else Next(me, Run(me, steps[..|steps| - 1]), steps[|steps| - 1])
  }

  // -------- the sequencer's side --------

  /** A joint step takes at most one step of the sequencer. */
  ghost predicate OneStep(s: S.State, s': S.State) {
    s' == s || exists e :: s' == S.Next(s, e)
  }

  lemma {:induction false} StepIsSequencers(me: Session, j: Joint, e: Step)
    ensures OneStep(j.server, Next(me, j, e).server)
  {
    hide S.Next, Observe, Begin, Complete;
  }

  /** The sequencer in the composition does what it does alone, so everything proved of it holds here too. */
  lemma {:induction false} RunIsSequencers(me: Session, steps: seq<Step>) returns (own: seq<S.Step>)
    ensures Run(me, steps).server == S.Run(own)
  {
    if steps == [] {
      own := [];
    } else {
      var before := RunIsSequencers(me, steps[..|steps| - 1]);
      var j := Run(me, steps[..|steps| - 1]);
      StepIsSequencers(me, j, steps[|steps| - 1]);
      if Next(me, j, steps[|steps| - 1]).server == j.server {
        own := before;
      } else {
        var e :| Next(me, j, steps[|steps| - 1]).server == S.Next(j.server, e);
        own := before + [e];
        assert own[..|own| - 1] == before;
      }
      hide Next, S.Next;
    }
  }

  /** A dispatch under way goes on, unless it is its end that the step is. */
  lemma {:induction false} DispatchGoesOn(s: S.State, e: S.Step, i: nat)
    requires Dispatches(s, i) && !(e.ByProducer? && e.move.Dispatched? && e.i == i)
    ensures Dispatches(S.Next(s, e), i)
  {
    hide S.Settle, S.SightOf;
    if e.ByProducer? && e.i == i { assert S.Decide(i, s.producers[i], S.Seen(s), e.move) == S.Blocked; hide S.Decide; }
  }

  // -------- the ledger's side --------

  predicate PendingOf(me: Session, l: Ledger<nat>, k: Key) {
    k.sender == me && k in l.records && l.records[k].Pending()
  }

  ghost predicate KeepsAt(me: Session, l: Ledger<nat>, l': Ledger<nat>, k: Key) {
    && (PendingOf(me, l', k) ==> PendingOf(me, l, k) && l'.records[k].id == l.records[k].id)
    && (k.sender == me && k in l'.records ==> k in l.records)
  }

  /** The sender has no new record, and no record is pending again. */
  ghost predicate Keeps(me: Session, l: Ledger<nat>, l': Ledger<nat>) {
    (forall k :: KeepsAt(me, l, l', k)) == true
  }

  lemma {:induction false} CompleteKeeps(me: Session, l: Ledger<nat>, k: Key, id: nat, response: Response,
    respond: bool)
    ensures Keeps(me, l, Complete(l, k, id, response, respond).0)
    ensures Live(l, k, id) ==> !PendingOf(me, Complete(l, k, id, response, respond).0, k)
  {
    forall other ensures KeepsAt(me, l, Complete(l, k, id, response, respond).0, other) {}
  }

  lemma {:induction false} BeginKeeps(me: Session, l: Ledger<nat>, k: Key, mark: Fingerprint, id: nat)
    requires Begin(l, k, mark, id).Some?
    ensures k !in l.records && forall other :: other != k ==> KeepsAt(me, l, Begin(l, k, mark, id).value, other)
    ensures Begin(l, k, mark, id).value.records[k].id == id
  {
  }

  lemma {:induction false} EventKeeps(me: Session, l: Ledger<nat>, e: LedgerInvariant.Event<nat>)
    requires Allowed(me, e)
    ensures Keeps(me, l, LedgerInvariant.Apply(l, e))
  {
    match e
    case Completed(k, id, response, respond) => CompleteKeeps(me, l, k, id, response, respond);
    case Begun(k, mark, id) =>
      if Begin(l, k, mark, id).Some? { BeginKeeps(me, l, k, mark, id); }
      forall other ensures KeepsAt(me, l, LedgerInvariant.Apply(l, e), other) { hide Begin; }
    case _ =>
      forall other ensures KeepsAt(me, l, LedgerInvariant.Apply(l, e), other) {}
  }

  // -------- together --------

  /** A pending record of the session was begun by a worker whose dispatch still runs. */
  ghost predicate WorkedOn(me: Session, j: Joint, k: Key) {
    PendingOf(me, j.ledger, k) ==>
      var i := j.ledger.records[k].id; Dispatches(j.server, i) && i in j.keys && j.keys[i] == k
  }

  ghost predicate Coupled(me: Session, j: Joint) {
    (&& (forall k :: WorkedOn(me, j, k))
     && (forall i :: i in j.keys ==> i < |j.server.producers|)
     && (j.arrival.Some? ==> j.arrival.value.key.sender == me && j.arrival.value.key !in j.ledger.records)) == true
  }

  lemma {:induction false} LedgerMoves(me: Session, j: Joint, l: Ledger<nat>)
    requires Coupled(me, j) && Keeps(me, j.ledger, l)
    ensures Coupled(me, j.(ledger := l))
  {
    forall k ensures WorkedOn(me, j.(ledger := l), k) { assert WorkedOn(me, j, k) && KeepsAt(me, j.ledger, l, k); }
    if j.arrival.Some? { assert KeepsAt(me, j.ledger, l, j.arrival.value.key); }
  }

  lemma {:induction false} ServerMoves(me: Session, j: Joint, e: S.Step)
    requires Coupled(me, j)
    requires e.ByProducer? && e.move.Dispatched? ==> forall k ::
      PendingOf(me, j.ledger, k) ==> j.ledger.records[k].id != e.i
    ensures Coupled(me, Server(j, e))
  {
    forall k ensures WorkedOn(me, Server(j, e), k) {
      assert WorkedOn(me, j, k);
      if PendingOf(me, j.ledger, k) { DispatchGoesOn(j.server, e, j.ledger.records[k].id); }
      hide S.Next;
    }
    ProducersStay(j.server, e);
    hide S.Next;
  }

  lemma {:induction false} ProducersStay(s: S.State, e: S.Step)
    ensures |S.Next(s, e).producers| >= |s.producers|
  {
    hide S.Decide, S.Settle, S.SightOf;
  }

  lemma {:induction false} ObserveCouples(me: Session, j: Joint, requestID: nat, op: Operation, mark: Fingerprint,
    payload: nat)
    requires Coupled(me, j)
    ensures Coupled(me, ObserveStep(me, j, requestID, op, mark, payload))
  {
    var (l, answer) := Observe(j.ledger, me, op, mark);
    var after := ObserveStep(me, j, requestID, op, mark, payload);
    assert Keeps(me, j.ledger, l) by {
      forall k ensures KeepsAt(me, j.ledger, l, k) {}
    }
    LedgerMoves(me, j, l);
    ServerMoves(me, j.(ledger := l), S.ByReader(S.Immediate(requestID, payload)));
    ServerMoves(me, j, S.ByReader(S.ReadFails));
    if answer.New? && after != j {
      assert Key(me, op.send.messageID) !in j.ledger.records;
      forall k ensures WorkedOn(me, after, k) { assert WorkedOn(me, j, k); }
    }
    hide S.Next, Observe;
  }

  lemma {:induction false} AdmitCouples(me: Session, j: Joint)
    requires Coupled(me, j)
    ensures Coupled(me, AdmitStep(j))
  {
    if j.arrival.Some? && j.server.reader.Reading? {
      var a, rest, n := j.arrival.value, j.(arrival := None), |j.server.producers|;
      assert Coupled(me, rest) by {
        forall k ensures WorkedOn(me, rest, k) { assert WorkedOn(me, j, k); }
      }
      if j.server.tokens >= S.TOKENS {
        ServerMoves(me, rest, S.ByReader(S.AdmitSend(a.requestID)));
      } else if Begin(j.ledger, a.key, a.mark, n).Some? {
        BeginKeeps(me, j.ledger, a.key, a.mark, n);
        var after := AdmitStep(j);
        assert after.server.producers == j.server.producers + [S.Worker(a.requestID)];
        forall k ensures WorkedOn(me, after, k) {
          assert WorkedOn(me, j, k);
          if k != a.key { assert KeepsAt(me, j.ledger, after.ledger, k); }
          hide Begin;
        }
        hide Begin, S.Next;
      } else {
        ServerMoves(me, rest, S.ByReader(S.ReadFails));
      }
    }
  }

  lemma {:induction false} CompleteCouples(me: Session, j: Joint, i: nat, response: Response, respond: bool,
    failed: bool, repeatID: nat, payload: nat)
    requires Coupled(me, j)
    ensures Coupled(me, CompleteStep(j, i, response, respond, failed, repeatID, payload))
  {
    if Dispatches(j.server, i) && i in j.keys {
      var (l, attached) := Complete(j.ledger, j.keys[i], i, response, respond);
      CompleteKeeps(me, j.ledger, j.keys[i], i, response, respond);
      LedgerMoves(me, j, l);
      var e := S.ByProducer(i,
        S.Dispatched(respond && !failed, if attached.Some? then Some(repeatID) else None, payload));
      forall k | PendingOf(me, l, k) ensures l.records[k].id != i {
        assert WorkedOn(me, j, k) && KeepsAt(me, j.ledger, l, k);
        hide Complete;
      }
      hide Complete, S.Next;
      ServerMoves(me, j.(ledger := l), e);
    }
  }

  lemma {:induction false} RunCoupled(me: Session, steps: seq<Step>)
    ensures Coupled(me, Run(me, steps))
  {
    if steps != [] {
      var j, e := Run(me, steps[..|steps| - 1]), steps[|steps| - 1];
      RunCoupled(me, steps[..|steps| - 1]);
      match e
      case Observes(requestID, op, mark, payload) => ObserveCouples(me, j, requestID, op, mark, payload);
      case Admits => AdmitCouples(me, j);
      case Completes(i, response, respond, failed, repeatID, payload) => CompleteCouples(me, j, i, response, respond,
        failed, repeatID, payload);
      case Serves(step) => if Inner(j, step) { ServerMoves(me, j, step); }
      case Elsewhere(event) =>
        if Allowed(me, event) {
          EventKeeps(me, j.ledger, event);
          LedgerMoves(me, j, LedgerInvariant.Apply(j.ledger, event));
        }
    }
  }

  /** The fatal error of a record that appears between observation and admission cannot happen. */
  lemma {:induction false} AdmissionNeverCollides(me: Session, steps: seq<Step>)
    requires Run(me, steps).arrival.Some?
    ensures var j := Run(me, steps);
      Begin(j.ledger, j.arrival.value.key, j.arrival.value.mark, |j.server.producers|).Some?
  {
    RunCoupled(me, steps);
  }

  /** The session's pending records. */
  function PendingKeys(me: Session, l: Ledger<nat>): set<Key> {
    set k | k in l.records && k.sender == me && l.records[k].Pending()
  }

  /** Keys with different workers are no more than the workers. */
  lemma {:induction false} NoMoreThanWorkers(j: Joint, pending: set<Key>, workers: set<nat>)
    requires forall k :: k in pending ==>
      k in j.ledger.records && j.ledger.records[k].id in workers && j.ledger.records[k].id in j.keys
        && j.keys[j.ledger.records[k].id] == k
    ensures |pending| <= |workers|
    decreases |pending|
  {
    if k :| k in pending {
      NoMoreThanWorkers(j, pending - {k}, workers - {j.ledger.records[k].id});
    }
  }

  /**
   Over every run, whatever other sessions do: the session's pending records are each a running dispatch of its own, and
   so no more than the tokens in use, of which there are 128.
   */
  lemma {:induction false} PendingBounded(me: Session, steps: seq<Step>)
    ensures var j := Run(me, steps); |PendingKeys(me, j.ledger)| <= j.server.tokens <= S.TOKENS
  {
    var j := Run(me, steps);
    RunCoupled(me, steps);
    var own := RunIsSequencers(me, steps);
    SequencerOrder.DispatchesHoldTokens(own);
    forall k | k in PendingKeys(me, j.ledger) ensures j.ledger.records[k].id in SequencerOrder.Undispatched(j.server) {
      assert WorkedOn(me, j, k);
    }
    forall k | k in PendingKeys(me, j.ledger)
      ensures j.ledger.records[k].id in j.keys && j.keys[j.ledger.records[k].id] == k
    {
      assert WorkedOn(me, j, k);
    }
    NoMoreThanWorkers(j, PendingKeys(me, j.ledger), SequencerOrder.Undispatched(j.server));
  }
}
