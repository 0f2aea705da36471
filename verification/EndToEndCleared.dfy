/**
 Why the agreement of paired results ends with the ledger: the relay stops, and clears its ledger, while a connection is
 still published.  A retry read after that is answered anew, and may be answered otherwise.
 */
module EndToEndCleared {
  import opened Wrappers
  import opened Messages
  import opened LedgerSpec
  import opened EndToEnd

  const FIRST: Frame := Frame(0, false)
  const RETRY: Frame := Frame(0, true)
  const RUNNING: Flags := Flags(true, false, true, false, false, false)
  const CLEARED: Flags := Flags(true, false, true, false, true, true)
  const REGULAR: Anomalies := Anomalies(false, false, false)

  /** What can be answered about a delivery that was offered. */
  predicate Delivered(r: Response) {
    r.code == Received || r.code == AckTimeout || r.code == RecipientDisconnected
  }

  /** The send is answered, the relay clears its ledger, and the retry then finds the recipient offline. */
  function AnsweredTwice(p: SendPayload, received: Response, offline: Response): seq<Step> {
    [StartSend(p, false), ReadFrame(0, true), Install(0), WriteOffer(0),
     Complete(0, received, true), Publish(0, true), Finish(0),
     Retry(true), StopDispatcher, ClearLedger, ReadFrame(1, true),
     Complete(1, offline, true), Publish(1, true), Finish(1),
     Deliver, Deliver, Receive, Receive]
  }

  lemma RunSnoc(me: Session, steps: seq<Step>, e: Step)
    ensures Run(me, steps + [e]) == Next(me, Run(me, steps), e)
  {
    assert (steps + [e])[..|steps|] == steps;
  }

  lemma Forward(me: Session, steps: seq<Step>, n: nat)
    requires n < |steps|
    ensures Run(me, steps[..n + 1]) == Next(me, Run(me, steps[..n]), steps[n])
  {
    assert steps[..n + 1] == steps[..n] + [steps[n]];
    RunSnoc(me, steps[..n], steps[n]);
  }

  // -------- the worlds of the run --------

  function Issued(p: SendPayload, frames: seq<Frame>): Client {
    Client([SendOp(p, false)], frames, false, true, |frames| == 1, None, false, [])
  }

  /** The server with its workers, what it has read and what it has queued. */
  function Serving(l: Ledger<Id>, workers: map<Id, Worker>, seen: seq<Frame>, items: seq<Item>, offers: seq<Id>,
    f: Flags): Server
  {
    Server(l, workers, seen, items, 0, [], offers, f, REGULAR)
  }

  function ItemOf(f: Frame, r: Response, id: Id): Item {
    Item(f, Some(r.code), Some(id), Some(id))
  }

  ghost function Begun(me: Session, p: SendPayload, id: Id): (l: Ledger<Id>)
    requires Print(p).Success?
  {
    Begin(Empty(), Key(me, p.messageID), Print(p).value, id).value
  }

  ghost function Settled(me: Session, p: SendPayload, id: Id, r: Response): Ledger<Id>
    requires Print(p).Success?
  {
    LedgerSpec.Complete(Begun(me, p, id), Key(me, p.messageID), id, r, true).0
  }

  lemma {:induction false} NothingAttached(me: Session, p: SendPayload, id: Id, r: Response)
    requires Print(p).Success?
    ensures LedgerSpec.Complete(Begun(me, p, id), Key(me, p.messageID), id, r, true) == (Settled(me, p, id, r), None)
  {
    hide Print;
  }

  // -------- reading a frame into an empty ledger --------

  lemma {:induction false} ReadAsNew(me: Session, w: World, id: Id, p: SendPayload)
    requires Print(p).Success? && w.client.ops == [SendOp(p, false)] && w.server.ledger == Empty()
      && w.server.flags.reading
    requires |w.server.seen| < |w.client.issued| && w.client.issued[|w.server.seen|].n == 0 && id !in w.server.workers
    requires |Unfinished(w.server.workers)| < TOKENS
    ensures var f := w.client.issued[|w.server.seen|];
      Next(me, w, ReadFrame(id, true)) == w.(server := w.server.(
        ledger := Begun(me, p, id), seen := w.server.seen + [f],
        workers := w.server.workers[id := Worker(f, Dispatching, false, false, None)]))
  {
    hide Print;
  }

  lemma {:induction false} Settles(me: Session, w: World, id: Id, p: SendPayload, r: Response)
    requires Print(p).Success? && w.client.ops == [SendOp(p, false)] && w.server.ledger == Begun(me, p, id)
    requires MayComplete(w.server, id, r, true) && w.server.workers[id].frame.n == 0
    ensures Next(me, w, Complete(id, r, true)) == w.(server := w.server.(ledger := Settled(me, p, id, r),
      workers := w.server.workers[id := w.server.workers[id].(stage := Completed(false), response := Some(r))]))
  {
    hide Print, Begun, Settled;
    NothingAttached(me, p, id, r);
  }

  /** A worker settles its record, queues the result and finishes. */
  lemma {:induction false} Answers(me: Session, w: World, id: Id, p: SendPayload, r: Response)
    requires Print(p).Success? && w.client.ops == [SendOp(p, false)] && w.server.ledger == Begun(me, p, id)
    requires MayComplete(w.server, id, r, true) && w.server.workers[id].frame.n == 0
    ensures var it := w.server.workers[id];
      Next(me, Next(me, Next(me, w, Complete(id, r, true)), Publish(id, true)), Finish(id)) == w.(server := w.server.(
        ledger := Settled(me, p, id, r), items := w.server.items + [ItemOf(it.frame, r, id)],
        workers := w.server.workers[id := it.(stage := Finished, response := Some(r))]))
  {
    hide Print, Begun, Settled;
    Settles(me, w, id, p, r);
    var it := w.server.workers[id];
    var w1 := w.(server := w.server.(ledger := Settled(me, p, id, r),
      workers := w.server.workers[id := it.(stage := Completed(false), response := Some(r))]));
    var w2 := w1.(server := w1.server.(items := w.server.items + [ItemOf(it.frame, r, id)],
      workers := w.server.workers[id := it.(stage := Published, response := Some(r))]));
    assert Next(me, w1, Publish(id, true)) == w2;
  }

  // -------- the run --------

  ghost function Once(me: Session, p: SendPayload, received: Response): World
    requires Print(p).Success?
  {
    World(Issued(p, [FIRST]),
          Serving(Settled(me, p, 0, received), map[0 := Worker(FIRST, Finished, true, true, Some(received))], [FIRST],
                  [ItemOf(FIRST, received, 0)], [0], RUNNING))
  }

  ghost function Offered(me: Session, p: SendPayload): World
    requires Print(p).Success?
  {
    World(Issued(p, [FIRST]),
      Serving(Begun(me, p, 0), map[0 := Worker(FIRST, Dispatching, true, true, None)], [FIRST], [], [0], RUNNING))
  }

  /** A worker installs its delivery and writes its offer. */
  lemma {:induction false} Offers(me: Session, w: World, id: Id)
    requires |w.client.ops| == 1 && w.client.ops[0].SendOp? && w.server.flags.published && !w.server.flags.stopping
    requires id in w.server.workers && w.server.workers[id] == Worker(FIRST, Dispatching, false, false, None)
    ensures Next(me, Next(me, w, Install(id)), WriteOffer(id)) == w.(server := w.server.(
      workers := w.server.workers[id := Worker(FIRST, Dispatching, true, true, None)],
      offers := w.server.offers + [id]))
  {
    var w1 := w.(server := w.server.(workers := w.server.workers[id := Worker(FIRST, Dispatching, true, false, None)]));
    assert Next(me, w, Install(id)) == w1;
  }

  ghost function Fresh(p: SendPayload): World {
    World(Issued(p, [FIRST]), Serving(Empty(), map[], [], [], [], RUNNING))
  }

  lemma {:induction false} StartsFresh(me: Session, p: SendPayload)
    ensures Next(me, Start(), StartSend(p, false)) == Fresh(p)
  {
  }

  lemma {:induction false} OffersFirst(me: Session, p: SendPayload)
    requires Print(p).Success?
    ensures Next(me, Next(me, Next(me, Next(me, Start(), StartSend(p, false)), ReadFrame(0, true)), Install(0)),
      WriteOffer(0)) == Offered(me, p)
  {
    hide Next, Print, Begun;
    StartsFresh(me, p);
    assert Unfinished(Fresh(p).server.workers) == {};
    ReadAsNew(me, Fresh(p), 0, p);
    var worker := Worker(FIRST, Dispatching, false, false, None);
    assert Fresh(p).server.seen + [FIRST] == [FIRST] && Fresh(p).server.offers + [0] == [0];
    var w2 := World(Issued(p, [FIRST]), Serving(Begun(me, p, 0), map[0 := worker], [FIRST], [], [], RUNNING));
    assert Next(me, Fresh(p), ReadFrame(0, true)) == w2;
    Offers(me, w2, 0);
  }

  lemma {:induction false} AnsweredOnce(me: Session, p: SendPayload, received: Response, offline: Response)
    requires Print(p).Success? && Delivered(received)
    ensures Run(me, AnsweredTwice(p, received, offline)[..7]) == Once(me, p, received)
  {
    var steps := AnsweredTwice(p, received, offline);
    hide Next, Print, Begun, Settled;
    assert Run(me, steps[..0]) == Start();
    hide Run;
    Forward(me, steps, 0);
    Forward(me, steps, 1);
    Forward(me, steps, 2);
    Forward(me, steps, 3);
    Forward(me, steps, 4);
    Forward(me, steps, 5);
    Forward(me, steps, 6);
    OffersFirst(me, p);
    Answers(me, Offered(me, p), 0, p, received);
  }

  ghost function Twice(me: Session, p: SendPayload, received: Response, offline: Response): World
    requires Print(p).Success?
  {
    World(Issued(p, [FIRST, RETRY]),
          Serving(Settled(me, p, 1, offline),
                  map[0 := Worker(FIRST, Finished, true, true, Some(received)),
                      1 := Worker(RETRY, Finished, false, false, Some(offline))],
                  [FIRST, RETRY], [ItemOf(FIRST, received, 0), ItemOf(RETRY, offline, 1)], [0], CLEARED))
  }

  ghost function Reread(me: Session, p: SendPayload, received: Response): World
    requires Print(p).Success?
  {
    World(Issued(p, [FIRST, RETRY]),
          Serving(Begun(me, p, 1),
                  map[0 := Worker(FIRST, Finished, true, true, Some(received)),
                      1 := Worker(RETRY, Dispatching, false, false, None)],
                  [FIRST, RETRY], [ItemOf(FIRST, received, 0)], [0], CLEARED))
  }

  lemma {:induction false} RereadAsNew(me: Session, p: SendPayload, received: Response)
    requires Print(p).Success?
    ensures Next(me, Next(me, Next(me, Next(me, Once(me, p, received), Retry(true)), StopDispatcher), ClearLedger),
      ReadFrame(1, true)) == Reread(me, p, received)
  {
    hide Print, Begun, Settled;
    var w := Once(me, p, received);
    var w1 := w.(client := Issued(p, [FIRST, RETRY]));
    assert Next(me, w, Retry(true)) == w1;
    var w2 := w1.(server := w1.server.(flags := CLEARED.(cleared := false)));
    assert Next(me, w1, StopDispatcher) == w2;
    var w3 := w1.(server := w1.server.(flags := CLEARED, ledger := Empty()));
    assert Next(me, w2, ClearLedger) == w3;
    assert Unfinished(w3.server.workers) == {};
    ReadAsNew(me, w3, 1, p);
  }

  lemma {:induction false} AnsweredAnew(me: Session, p: SendPayload, received: Response, offline: Response)
    requires Print(p).Success? && Delivered(received) && offline.code == Offline
    ensures Run(me, AnsweredTwice(p, received, offline)[..14]) == Twice(me, p, received, offline)
  {
    var steps := AnsweredTwice(p, received, offline);
    hide Run, Next, Print, Begun, Settled;
    AnsweredOnce(me, p, received, offline);
    Forward(me, steps, 7);
    Forward(me, steps, 8);
    Forward(me, steps, 9);
    Forward(me, steps, 10);
    Forward(me, steps, 11);
    Forward(me, steps, 12);
    Forward(me, steps, 13);
    RereadAsNew(me, p, received);
    Answers(me, Reread(me, p, received), 1, p, offline);
  }

  /** Both results are delivered and read. */
  lemma {:induction false} BothReceived(me: Session, p: SendPayload, received: Response, offline: Response)
    requires Print(p).Success? && Delivered(received) && offline.code == Offline
    ensures var w := Twice(me, p, received, offline);
      Next(me, Next(me, Next(me, Next(me, w, Deliver), Deliver), Receive), Receive).client.mismatch
  {
    hide Print, Settled;
    var w := Twice(me, p, received, offline);
    var a, b := ItemOf(FIRST, received, 0), ItemOf(RETRY, offline, 1);
    var w1 := w.(server := w.server.(popped := 1, delivered := [a]));
    assert Next(me, w, Deliver) == w1;
    var w2 := w.(server := w.server.(popped := 2, delivered := [a, b]));
    assert Next(me, w1, Deliver) == w2;
    var w3 := w2.(client := w.client.(waiting := false, armed := false, late := Some(Late(RETRY, received.code)),
      got := [a]));
    assert Next(me, w2, Receive) == w3;
  }

  /**
   Whatever the send, and whatever its offered delivery came to: after the ledger is cleared the retry is answered anew,
   "offline" when its recipient has gone, and the client meets two results that conflict.
   */
  lemma {:induction false} ClearedPairConflicts(me: Session, p: SendPayload, received: Response, offline: Response)
    requires Print(p).Success? && Delivered(received) && offline.code == Offline
    ensures var w := Run(me, AnsweredTwice(p, received, offline)); w.client.mismatch && w.server.flags.cleared
  {
    var steps := AnsweredTwice(p, received, offline);
    hide Run, Next, Print, Begun, Settled;
    AnsweredAnew(me, p, received, offline);
    Forward(me, steps, 14);
    Forward(me, steps, 15);
    Forward(me, steps, 16);
    Forward(me, steps, 17);
    assert steps[..18] == steps;
    BothReceived(me, p, received, offline);
    FlagsStay(me, Twice(me, p, received, offline));
  }

  lemma {:induction false} FlagsStay(me: Session, w: World)
    ensures Next(me, Next(me, Next(me, Next(me, w, Deliver), Deliver), Receive), Receive).server.flags == w.server.flags
  {
    hide Take;
  }
}
