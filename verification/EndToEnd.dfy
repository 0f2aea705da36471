/**
 One client connection, from `send` to its result: the single-flight client with its one retry, the two
 first-in-first-out channels, the server's reader, the dedupe ledger, the send workers and the response queue.

 A request ID is fresh, so it is represented by the frame that issued it.  `me` is the client's session; every other
 session acts on the ledger through `Elsewhere`.  The delivery of one send is reduced to its installation, the write
 of its offer and its outcome, under guards that are theorems about the deliveries' own machine
 (`DeliveryOffers`); the sequencer to the order of its queue and the gate of each item.
 */
module EndToEnd {
  import opened Wrappers
  import opened Messages
  import opened LedgerSpec
  import LedgerInvariant
  import opened SenderView
  import Canonical = Fingerprint

  type Id = nat

  /** A logical operation.  `tooLarge` is the server's own size test on the body. */
  datatype Op = SendOp(payload: SendPayload, tooLarge: bool) | ListOp

  /** One request: the operation's first frame, or its retry. */
  datatype Frame = Frame(n: nat, retry: bool)

  datatype Stage = Dispatching | Completed(attached: bool) | Published | Ending | Finished

  /** The worker of an admitted frame; its ID is its record's. */
  datatype Worker = Worker(frame: Frame, stage: Stage, installed: bool, offered: bool, response: Option<Response>)

  /**
   A response in the queue.  `code` is None for a roster page.  `source` is the worker whose result it carries, and
   `gate` the worker that must finish before it may be written.
   */
  datatype Item = Item(to: Frame, code: Option<Code>, source: Option<Id>, gate: Option<Id>)

  datatype Flags = Flags(
    published: bool,
    swept: bool,
    reading: bool,
    cancelled: bool,
    stopping: bool,
    cleared: bool)

  /** Branches the reader takes only for a client that misbehaves. */
  datatype Anomalies = Anomalies(denied: bool, overflowed: bool, conflicted: bool)

  datatype Server = Server(
    ledger: Ledger<Id>,
    workers: map<Id, Worker>,
    seen: seq<Frame>,
    items: seq<Item>,
    popped: nat,
    delivered: seq<Item>,
    offers: seq<Id>,
    flags: Flags,
    odd: Anomalies)

  datatype Late = Late(frame: Frame, code: Code)

  datatype Client = Client(
    ops: seq<Op>,
    issued: seq<Frame>,
    terminal: bool,
    waiting: bool,
    armed: bool,
    late: Option<Late>,
    mismatch: bool,
    got: seq<Item>)

  datatype World = World(client: Client, server: Server)

  datatype Step =
    | StartSend(payload: SendPayload, tooLarge: bool)
    | StartList
    | Retry(ready: bool)
    | ClientFails
    | Receive
    | ReadFrame(id: Id, accepted: bool)
    | ReaderStops
    | Bind(id: Id, recipient: Session)
    | Install(id: Id)
    | WriteOffer(id: Id)
    | Complete(id: Id, response: Response, respond: bool)
    | Publish(id: Id, accepted: bool)
    | Finish(id: Id)
    | Deliver
    | DropHead
    | Unpublish
    | Cancel
    | SweepSender
    | StopDispatcher
    | ClearLedger
    | Elsewhere(event: LedgerInvariant.Event<Id>)

  const TOKENS: nat := 128

  function Start(): World {
    World(Client([], [], false, false, false, None, false, []),
          Server(Empty(), map[], [], [], 0, [], [], Flags(true, false, true, false, false, false),
                 Anomalies(false, false, false)))
  }

  // -------- the client --------

  predicate UsedID(ops: seq<Op>, messageID: string) {
    exists n :: 0 <= n < |ops| && ops[n].SendOp? && ops[n].payload.messageID == messageID
  }

  /** A send arms its retry timer. */
  function Issue(c: Client, op: Op): Client {
    c.(ops := c.ops + [op], issued := c.issued + [Frame(|c.ops|, false)], waiting := true, armed := op.SendOp?)
  }

  /** Nothing is pending any more, and its timer is cancelled. */
  function Clear(c: Client): Client {
    c.(waiting := false, armed := false)
  }

  function Fail(c: Client): Client {
    Clear(c).(terminal := true)
  }

  function Take(c: Client, d: Item): Client {
    var got := c.(got := c.got + [d]);
    if c.late.Some? && c.late.value.frame == d.to then
      if d.code == Some(c.late.value.code) then got.(late := None) else Fail(got).(mismatch := true)
    else if !c.waiting || c.ops == [] then Fail(got)
    else
      var n: nat := |c.ops| - 1;
      if d.to != Frame(n, false) && !(d.to == Frame(n, true) && d.to in c.issued) then Fail(got)
      else if c.ops[n].ListOp? then if d.code.None? then Clear(got) else Fail(got)
      else if d.code.None? then Fail(got)
      else if Frame(n, true) !in c.issued then Clear(got)
      else if c.late.Some? then Fail(got)
      else Clear(got).(late := Some(Late(Frame(n, !d.to.retry), d.code.value)))
  }

  function ClientStep(w: World, e: Step): Client {
    var c := w.client;
    match e
    case StartSend(payload, tooLarge) =>
      if !c.terminal && !c.waiting && !UsedID(c.ops, payload.messageID) then Issue(c, SendOp(payload, tooLarge)) else c
    case StartList => if !c.terminal && !c.waiting then Issue(c, ListOp) else c
    case Retry(ready) =>
      // The timer fires once; what it finds may keep it from writing.
      if !c.armed then c
      else if !ready || c.terminal || !c.waiting || c.ops == [] then c.(armed := false)
      else c.(armed := false, issued := c.issued + [Frame(|c.ops| - 1, true)])
    case ClientFails => Fail(c)
    case Receive => if |c.got| < |w.server.delivered| then Take(c, w.server.delivered[|c.got|]) else c
    case _ => c
  }

  // -------- the reader --------

  function KeyOf(me: Session, ops: seq<Op>, n: nat): Key
    requires n < |ops| && ops[n].SendOp?
  {
    Key(me, ops[n].payload.messageID)
  }

  function Tag(f: Frame): string {
    if f.retry then "retry" else "first"
  }

  ghost function Print(p: SendPayload): Result<string> {
    Canonical.Of(Some(p))
  }

  function Unfinished(workers: map<Id, Worker>): set<Id> {
    set id | id in workers && !workers[id].stage.Finished?
  }

  /** A response the reader queues itself; when it cannot be queued the reader stops. */
  function Answer(s: Server, item: Item, accepted: bool): Server {
    if accepted then s.(items := s.items + [item]) else s.(flags := s.flags.(reading := false))
  }

  function Admit(s: Server, f: Frame, k: Key, mark: Fingerprint, accepted: bool, id: Id): Server {
    if |Unfinished(s.workers)| < TOKENS then
      (match LedgerSpec.Begin(s.ledger, k, mark, id)
       case Some(l) => s.(ledger := l, workers := s.workers[id := Worker(f, Dispatching, false, false, None)])
       case None => s.(flags := s.flags.(reading := false)))
    else Answer(s.(odd := s.odd.(denied := true)), Item(f, Some(SenderCapacity), None, None), accepted)
  }

  ghost function ReadSend(me: Session, s: Server, f: Frame, op: Op, id: Id, accepted: bool): Server
    requires op.SendOp?
  {
    if op.tooLarge then Answer(s, Item(f, Some(BodyTooLarge), None, None), accepted)
    else
      var k := Key(me, op.payload.messageID);
      match Print(op.payload)
      case Failure(_) => s.(flags := s.flags.(reading := false))
      case Success(mark) =>
        var (l, answer) := Observe(s.ledger, me, Operation(Tag(f), op.payload), mark);
        match answer
        case New => Admit(s, f, k, mark, accepted, id)
        case PendingAttached => s.(ledger := l)
        case Replayed(response) =>
          var record := s.ledger.records[k].id;
          var answered := Answer(s, Item(f, Some(response.code), Some(record), None), accepted);
          if accepted then answered.(ledger := ReleaseCurrent(l, k, record)) else answered
        case Conflict(response) =>
          var refused :=
            Answer(s.(odd := s.odd.(conflicted := true)), Item(f, Some(response.code), None, None), accepted);
          if accepted then refused.(ledger := ReleaseCurrent(l, k, l.records[k].id)) else refused.(ledger := l)
        case Overflow => s.(odd := s.odd.(overflowed := true), flags := s.flags.(reading := false))
  }

  ghost function ReadNext(me: Session, w: World, id: Id, accepted: bool): Server {
    var s, c := w.server, w.client;
    if !s.flags.reading || |s.seen| >= |c.issued| || id in s.workers || c.issued[|s.seen|].n >= |c.ops| then s
    else
      var f := c.issued[|s.seen|];
      var s1 := s.(seen := s.seen + [f]);
      match c.ops[f.n]
      case ListOp => Answer(s1.(ledger := AdvanceSender(s.ledger, me)), Item(f, None, None, None), accepted)
      case SendOp(_, _) => ReadSend(me, s1, f, c.ops[f.n], id, accepted)
  }

  // -------- the workers --------

  predicate Runs(w: World, id: Id) {
    id in w.server.workers && w.server.workers[id].frame.n < |w.client.ops|
      && w.client.ops[w.server.workers[id].frame.n].SendOp?
  }

  function Set(s: Server, id: Id, worker: Worker): Server {
    s.(workers := s.workers[id := worker])
  }

  /**
   Reasons a delivery whose offer was written may end without a response: the dispatcher stops, the sender is swept,
   which follows its unpublication, or the send's context ends. `DeliveryOffers.UnansweredOffer` shows there is no
   other.
   */
  predicate Lost(f: Flags) {
    f.stopping || !f.published || f.cancelled
  }

  /**
   The codes a dispatch can answer with.  Without an installed delivery it only knows that nobody has the address; with
   one it reports what became of it, and a deadline starts only once the offer is written
   (`DeliveryDispatchers.DeliveryDispatcher.BeginSend`, `DeliveryOffers.InstalledAnswers`).
   */
  predicate CanAnswer(w: Worker, code: Code) {
    if !w.installed then code == Offline
    else code == Received || code == RecipientDisconnected || (code == AckTimeout && w.offered)
  }

  /** A dispatch ends with an answer it can give, or without one; after its offer, only for one of the reasons above. */
  predicate MayComplete(s: Server, id: Id, response: Response, respond: bool) {
    id in s.workers && s.workers[id].stage.Dispatching? &&
    if respond then CanAnswer(s.workers[id], response.code) else !s.workers[id].offered || Lost(s.flags)
  }

  function WorkerStep(me: Session, w: World, e: Step): Server {
    var s := w.server;
    match e
    case Bind(id, recipient) =>
      if Runs(w, id) && s.workers[id].stage.Dispatching? then
        s.(ledger := BindRecipient(s.ledger, KeyOf(me, w.client.ops, s.workers[id].frame.n), id, recipient))
      else s
    case Install(id) =>
      if Runs(w, id) && s.workers[id].stage.Dispatching? && s.flags.published && !s.flags.stopping then
        Set(s, id, s.workers[id].(installed := true))
      else s
    case WriteOffer(id) =>
      // `DeliveryOffers.OfferedAtMostOnce`: no delivery is offered twice.
      if Runs(w, id) && s.workers[id].stage.Dispatching? && s.workers[id].installed && !s.workers[id].offered then
        Set(s, id, s.workers[id].(offered := true)).(offers := s.offers + [id])
      else s
    case Complete(id, response, respond) =>
      if Runs(w, id) && MayComplete(s, id, response, respond) then
        var k := KeyOf(me, w.client.ops, s.workers[id].frame.n);
        var (l, attached) := LedgerSpec.Complete(s.ledger, k, id, response, respond);
        var done := if respond then s.workers[id].(stage := Completed(attached.Some?), response := Some(response))
                    else s.workers[id].(stage := Ending);
        Set(s, id, done).(ledger := l)
      else s
    case Publish(id, accepted) =>
      if Runs(w, id) && s.workers[id].stage.Completed? && s.workers[id].response.Some? then
        if !accepted then Set(s, id, s.workers[id].(stage := Ending))
        else
          var it := s.workers[id];
          var code := Some(it.response.value.code);
          var k := KeyOf(me, w.client.ops, it.frame.n);
          var own := Item(it.frame, code, Some(id), Some(id));
          var repeat := Item(Frame(it.frame.n, true), code, Some(id), Some(id));
          Set(s, id, it.(stage := Published)).(
            items := s.items + if it.stage.attached then [own, repeat] else [own],
            ledger := if it.stage.attached then ReleaseCurrent(s.ledger, k, id) else s.ledger)
      else s
    case Finish(id) =>
      if id in s.workers && (s.workers[id].stage.Published? || s.workers[id].stage.Ending?) then
        Set(s, id, s.workers[id].(stage := Finished))
      else s
    case _ => s
  }

  // -------- the writer, the session and the rest of the server --------

  predicate GateOpen(s: Server, item: Item) {
    item.gate.Some? ==> item.gate.value in s.workers && s.workers[item.gate.value].stage.Finished?
  }

  function SessionStep(me: Session, w: World, e: Step): Server {
    var s := w.server;
    match e
    case Deliver =>
      if s.popped < |s.items| && s.flags.published && GateOpen(s, s.items[s.popped]) then
        s.(popped := s.popped + 1, delivered := s.delivered + [s.items[s.popped]])
      else s
    case DropHead => if s.popped < |s.items| then s.(popped := s.popped + 1) else s
    case ReaderStops => s.(flags := s.flags.(reading := false))
    case Unpublish => s.(flags := s.flags.(published := false))
    case Cancel => if !s.flags.reading || !s.flags.published then s.(flags := s.flags.(cancelled := true)) else s
    case SweepSender =>
      if !s.flags.published then s.(flags := s.flags.(swept := true), ledger := ForgetSender(s.ledger, me)) else s
    case StopDispatcher => s.(flags := s.flags.(stopping := true))
    case ClearLedger => if s.flags.stopping then s.(flags := s.flags.(cleared := true), ledger := Empty()) else s
    case Elsewhere(event) =>
      if Foreign(event, me) then s.(ledger := LedgerInvariant.Apply(s.ledger, event)) else s
    case _ => s
  }

  predicate OfClient(e: Step) {
    e.StartSend? || e.StartList? || e.Retry? || e.ClientFails? || e.Receive?
  }

  predicate OfWorker(e: Step) {
    e.Bind? || e.Install? || e.WriteOffer? || e.Complete? || e.Publish? || e.Finish?
  }

  ghost function Next(me: Session, w: World, e: Step): World {
    if OfClient(e) then w.(client := ClientStep(w, e))
    else if e.ReadFrame? then w.(server := ReadNext(me, w, e.id, e.accepted))
    else if OfWorker(e) then w.(server := WorkerStep(me, w, e))
    else w.(server := SessionStep(me, w, e))
  }

  ghost function Run(me: Session, steps: seq<Step>): World {
    if steps == [] then Start() else Next(me, Run(me, steps[..|steps| - 1]), steps[|steps| - 1])
  }
}
