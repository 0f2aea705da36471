/** Single flight, at most two frames a send, at most one settlement, and an end that is final. */
module ClientSafety {
  import opened Wrappers
  import opened ClientMachine

  // -------- what a step may do to operations --------

  /** An operation keeps its identity, a retry ID once issued, and a settlement once made. */
  ghost predicate EvolvesAt(s: State, s': State, i: nat) {
    i < |s.operations| ==>
      && i < |s'.operations|
      && var op, op' := s.operations[i], s'.operations[i];
      && op'.kind == op.kind && op'.requestID == op.requestID && op'.messageID == op.messageID
      && op'.payload == op.payload
      && (op.retryID.Some? ==> op'.retryID == op.retryID)
      && (!op.promise.Open? ==> op'.promise == op.promise)
  }

  ghost predicate Evolves(s: State, s': State) {
    (forall i: nat :: EvolvesAt(s, s', i)) == true
  }

  /** The end is final: nothing pending, nothing written, nothing accepted. */
  ghost predicate Final(s: State, s': State) {
    s.terminal ==>
      && s'.terminal && s'.pending.None? && s'.wire == s.wire
      && (forall i :: |s.operations| <= i < |s'.operations| ==> s'.operations[i].promise.Rejected?)
  }

  ghost predicate Places(s: State) {
    PlacesOK(s) == true
  }

  /** What every step keeps of operations and places. */
  ghost predicate Keeps(s: State, s': State) {
    Evolves(s, s') && OperationsOK(s') && Places(s') && Final(s, s')
  }

  /** The same operations; the pending one, if it is no longer pending, belongs to a client that has ended. */
  lemma {:induction false} SameOperations(s: State, s': State)
    requires Sound(s) && s'.operations == s.operations && Places(s')
      && (s.terminal ==> s'.terminal && s'.wire == s.wire)
    requires s'.pending == s.pending || s'.terminal
    ensures Keeps(s, s')
  {
    hide FramesOK;
    forall i: nat ensures EvolvesAt(s, s', i) && OperationOK(s', i) { assert OperationOK(s, i); }
    forall i: nat, j: nat ensures OneOpen(s', i, j) { assert OneOpen(s, i, j); }
  }

  lemma {:induction false} FailKeeps(s: State, reason: Option<Reason>)
    requires Sound(s)
    ensures Keeps(s, FailTerminal(s, reason)) && FailTerminal(s, reason).operations == s.operations
  {
    hide OperationsOK, FramesOK;
    SameOperations(s, FailTerminal(s, reason));
  }

  lemma {:induction false} RefuseKeeps(s: State, op: Operation, reason: Reason)
    requires Sound(s)
    ensures Keeps(s, Refuse(s, op, reason))
  {
    hide FramesOK;
    var s' := Refuse(s, op, reason);
    forall i: nat ensures EvolvesAt(s, s', i) && OperationOK(s', i) { assert OperationOK(s, i); }
    forall i: nat, j: nat ensures OneOpen(s', i, j) { assert OneOpen(s, i, j); }
  }

  function Accepted(s: State, op: Operation): State {
    s.(operations := s.operations + [op.(promise := Open, retryID := None)], pending := Some(|s.operations|),
      firstWritten := false)
  }

  lemma {:induction false} AcceptKeeps(s: State, op: Operation)
    requires Sound(s) && !s.terminal && s.pending.None?
    ensures Keeps(s, Accepted(s, op))
  {
    hide FramesOK;
    var s' := Accepted(s, op);
    forall i: nat ensures EvolvesAt(s, s', i) && OperationOK(s', i) { assert OperationOK(s, i); }
    forall i: nat, j: nat ensures OneOpen(s', i, j) {
      assert OneOpen(s, i, j) && OperationOK(s, i) && OperationOK(s, j);
    }
  }

  lemma {:induction false} BeginKeeps(s: State, op: Operation, open: bool, aborted: bool, timers: Timers)
    requires Sound(s)
    ensures Keeps(s, Begin(s, op, open, aborted, timers))
  {
    if s.terminal || !open { RefuseKeeps(s, op, Disconnected); }
    else if s.pending.Some? || s.writes != [] { RefuseKeeps(s, op, Concurrent); }
    else if aborted { RefuseKeeps(s, op, Aborted); }
    else {
      AcceptKeeps(s, op);
      hide FramesOK, OperationsOK, Evolves;
      var begun := Accepted(s, op);
      var s' := Begin(s, op, open, aborted, timers);
      LaterKeeps(s, begun, s');
    }
  }

  /** After keeping everything, ending or queueing a frame keeps it too. */
  lemma {:induction false} LaterKeeps(s: State, m: State, s': State)
    requires Keeps(s, m) && !s.terminal && s'.operations == m.operations && Places(s')
      && (s'.pending == m.pending || s'.terminal)
    requires m.terminal ==> s'.terminal
    ensures Keeps(s, s')
  {
    forall i: nat ensures EvolvesAt(s, s', i) && OperationOK(s', i) { assert EvolvesAt(s, m, i) && OperationOK(m, i); }
    forall i: nat, j: nat ensures OneOpen(s', i, j) { assert OneOpen(m, i, j); }
  }

  lemma {:induction false} RetryKeeps(s: State, i: nat, requestID: string, open: bool)
    requires Sound(s)
    ensures Keeps(s, RetryFires(s, i, requestID, open))
  {
    hide FramesOK;
    var s' := RetryFires(s, i, requestID, open);
    forall k: nat ensures EvolvesAt(s, s', k) && OperationOK(s', k) { assert OperationOK(s, k); }
    forall k: nat, j: nat ensures OneOpen(s', k, j) { assert OneOpen(s, k, j); }
  }

  lemma {:induction false} WriteKeeps(s: State, e: Event)
    requires Sound(s) && (e.WriteStarts? || e.WriteEnds?)
    ensures Keeps(s, Step(s, e))
  {
    hide OperationsOK, FramesOK;
    SameOperations(s, Step(s, e));
  }

  /** The pending promise settles, and nothing is pending any more. */
  lemma {:induction false} SettleKeeps(s: State, s': State, i: nat, promise: Promise)
    requires Sound(s) && i < |s.operations| && s.operations[i].promise.Open? && !promise.Open?
    requires s'.operations == SetPromise(s, i, promise).operations && s'.pending.None?
      && (s.pending.None? || s.pending == Some(i))
    requires OperationOK(s', i) && (s.terminal ==> s'.terminal) && s'.wire == s.wire && s'.writes == s.writes
      && s'.sending == s.sending
    requires s'.retryTimer.None? && (s'.settling.Some? ==> s'.settling == s.settling && s.pending.Some?)
    ensures Keeps(s, s')
  {
    hide FramesOK;
    forall k: nat ensures EvolvesAt(s, s', k) && OperationOK(s', k) { assert OperationOK(s, k) && OneOpen(s, i, k); }
    forall k: nat, j: nat ensures OneOpen(s', k, j) { assert OneOpen(s, k, j); }
  }

  /** A response either fails the client or settles the pending promise with a value that fits it. */
  ghost predicate SettlesWith(s: State, s': State, m: Inbound) {
    && m.Response? && s.pending.Some? && s.pending.value < |s.operations| && m.value.Some?
    && (var op := s.operations[s.pending.value];
        && (m.requestID == op.requestID || Some(m.requestID) == op.retryID)
        && (op.kind.SendMessage? ==> m.value.value.Result? && m.value.value.messageID == op.messageID))
    && s'.operations == SetPromise(s, s.pending.value, Resolved(m.requestID, m.value.value)).operations
    && s'.pending.None? && s'.terminal == s.terminal && s'.wire == s.wire && s'.writes == s.writes
    && s'.sending == s.sending
    && s'.settling == s.settling && s'.retryTimer.None?
  }

  lemma {:induction false} ResolveCases(s: State, m: Inbound)
    requires m.Response?
    ensures ResolvePending(s, m) == FailPending(s, InvalidResponse) || SettlesWith(s, ResolvePending(s, m), m)
  {
    hide FailTerminal;
  }

  lemma {:induction false} ResolveKeeps(s: State, m: Inbound)
    requires Sound(s) && m.Response?
    ensures Keeps(s, ResolvePending(s, m))
  {
    ResolveCases(s, m);
    hide ResolvePending, OperationsOK, FramesOK, Evolves;
    var s' := ResolvePending(s, m);
    if SettlesWith(s, s', m) {
      SettleKeeps(s, s', s.pending.value, Resolved(m.requestID, m.value.value));
    } else {
      FailKeeps(s, if s.pending.Some? then Some(InvalidResponse) else None);
    }
  }

  lemma {:induction false} MessageKeeps(s: State, m: Inbound)
    requires Sound(s)
    ensures Keeps(s, OnMessage(s, m))
  {
    hide OperationsOK, FramesOK, Evolves, FitsSend;
    FailKeeps(s, if s.pending.Some? then Some(InvalidResponse) else None);
    if m.Response? { ResolveKeeps(s, m); }
    hide ResolvePending;
    var s' := OnMessage(s, m);
    if m.Delivery? && !s.inbound && m.deliverable { SameOperations(s, s'); }
    if m.Response? && s.late.Some? && m.requestID == s.late.value.requestID && s'.late.None? {
      SameOperations(s, s.(late := None));
    }
  }

  lemma {:induction false} EndKeeps(s: State, e: Event)
    requires Sound(s) && (e.Settles? || e.Closes?)
    ensures Keeps(s, Step(s, e))
  {
    hide OperationsOK, FramesOK, Evolves;
    var s' := Step(s, e);
    if s'.operations == s.operations {
      SameOperations(s, s');
    } else if e.Settles? {
      SettleKeeps(s, s', s.settling.value.op.value, Rejected(s.settling.value.reason.value));
    } else {
      SettleKeeps(s, s', s.pending.value, Rejected(Disconnected));
    }
  }

  lemma {:induction false} StepKeeps(s: State, e: Event)
    requires Sound(s)
    ensures Keeps(s, Step(s, e))
  {
    hide Sound, Keeps, OperationsOK, Begin, RetryFires, OnMessage, FailTerminal;
    match e
    case Begins(op, open, aborted, timers) => BeginKeeps(s, op, open, aborted, timers);
    case Retries(i, requestID, open) => RetryKeeps(s, i, requestID, open);
    case WriteStarts(_) => WriteKeeps(s, e);
    case WriteEnds(_) => WriteKeeps(s, e);
    case Message(inbound) => MessageKeeps(s, inbound);
    case Expires => FailKeeps(s, Some(TimedOut)); NothingKeeps(s);
    case IsAborted => FailKeeps(s, Some(Aborted)); NothingKeeps(s);
    case SocketFails(invalid) =>
      FailKeeps(s, if s.pending.Some? then Some(if invalid then InvalidResponse else Disconnected) else None);
    case Settles => EndKeeps(s, e);
    case Closes => EndKeeps(s, e);
  }

  lemma {:induction false} NothingKeeps(s: State)
    requires Sound(s)
    ensures Keeps(s, s)
  {
    SameOperations(s, s);
  }

  // -------- frames --------

  lemma {:induction false} FrameStays(s: State, s': State, w: Write)
    requires Evolves(s, s') && FrameOK(s, w)
    ensures FrameOK(s', w)
  {
    match w.purpose
    case First(i) => assert EvolvesAt(s, s', i);
    case Retry(i) => assert EvolvesAt(s, s', i);
    case Ack =>
  }

  /** The frames are the same, some of the unsent ones are dropped, or one unlike the others is added. */
  ghost predicate FramesFrom(s: State, s': State) {
    || Frames(s') == Frames(s)
    || (exists n: nat :: n <= |Frames(s)| && Frames(s') == Frames(s)[..n])
    || (exists w: Write :: Frames(s') == Frames(s) + [w] && FrameOK(s', w) && Unused(s, w))
  }

  ghost predicate Unused(s: State, w: Write) {
    w.purpose.Ack? || forall k :: 0 <= k < |Frames(s)| ==> Frames(s)[k].purpose != w.purpose
  }

  lemma {:induction false} FramesKept(s: State, s': State)
    requires FramesOK(s) && Evolves(s, s') && FramesFrom(s, s')
    ensures FramesOK(s')
  {
    forall k: nat | k < |Frames(s')| ensures FrameOK(s', Frames(s')[k]) {
      if k < |Frames(s)| && Frames(s')[k] == Frames(s)[k] { FrameStays(s, s', Frames(s)[k]); }
    }
    forall j: nat, k: nat ensures Unlike(Frames(s'), j, k) { assert Unlike(Frames(s), j, k); }
  }

  /** No frame of an operation that does not exist yet, and no retry of one that has none. */
  lemma {:induction false} FreshPurpose(s: State, i: nat)
    requires FramesOK(s)
    ensures i >= |s.operations| ==> forall k :: 0 <= k < |Frames(s)| ==> Frames(s)[k].purpose != First(i)
    ensures i < |s.operations| && s.operations[i].retryID.None? ==> forall k ::
      0 <= k < |Frames(s)| ==> Frames(s)[k].purpose != Retry(i)
  {
    forall k: nat | k < |Frames(s)| ensures i >= |s.operations| ==> Frames(s)[k].purpose != First(i)
      ensures i < |s.operations| && s.operations[i].retryID.None? ==> Frames(s)[k].purpose != Retry(i)
    {
      assert FrameOK(s, Frames(s)[k]);
    }
  }

  lemma {:induction false} DroppedFrames(s: State, s': State)
    requires s'.writes == [] && !s'.sending && s'.wire == s.wire
    ensures FramesFrom(s, s')
  {
    assert Frames(s') == s.wire;
    assert Frames(s') == Frames(s)[..|s.wire|];
  }

  lemma {:induction false} AddedFrame(s: State, s': State, w: Write)
    requires s'.wire == s.wire && s'.writes == s.writes + [w] && s'.sending == s.sending
      && (s.sending ==> s.writes != [])
    ensures Frames(s') == Frames(s) + [w]
  {
    if s.sending { assert s'.writes[1..] == s.writes[1..] + [w]; }
    assert s'.wire + (s.writes + [w]) == s.wire + s.writes + [w];
  }

  lemma {:induction false} BeginFrames(s: State, op: Operation, open: bool, aborted: bool, timers: Timers)
    requires Sound(s)
    ensures FramesFrom(s, Begin(s, op, open, aborted, timers))
  {
    var s' := Begin(s, op, open, aborted, timers);
    if s'.writes != s.writes {
      var w := Write(First(|s.operations|), op.requestID, op.payload);
      FreshPurpose(s, |s.operations|);
      AddedFrame(s, s', w);
    }
  }

  lemma {:induction false} RetryFrames(s: State, i: nat, requestID: string, open: bool)
    requires Sound(s)
    ensures FramesFrom(s, RetryFires(s, i, requestID, open))
  {
    var s' := RetryFires(s, i, requestID, open);
    if s'.writes != s.writes {
      var w := Write(Retry(i), requestID, s.operations[i].payload);
      FreshPurpose(s, i);
      AddedFrame(s, s', w);
    }
  }

  lemma {:induction false} WriteFrames(s: State, e: Event)
    requires Sound(s) && (e.WriteStarts? || e.WriteEnds?)
    ensures FramesFrom(s, Step(s, e))
  {
    var s' := Step(s, e);
    if s' != s {
      if s'.writes == [] && s'.wire == s.wire {
        DroppedFrames(s, s');
      } else if e.WriteStarts? {
        assert s.writes == [s.writes[0]] + s.writes[1..];
        assert Frames(s') == Frames(s);
      } else {
        assert Frames(s') == Frames(s);
      }
    }
  }

  /** Only a delivery queues a frame, its receipt. */
  lemma {:induction false} MessageQueues(s: State, m: Inbound)
    ensures var s' := OnMessage(s, m);
      && s'.wire == s.wire && s'.sending == s.sending
      && (s'.writes == s.writes || (m.Delivery? && s'.writes == s.writes + [Write(Ack, m.requestID, m.receipt)]))
  {
    if m.Response? { ResolveCases(s, m); }
    hide FitsSend, ResolvePending;
  }

  lemma {:induction false} MessageFrames(s: State, m: Inbound)
    requires Sound(s)
    ensures FramesFrom(s, OnMessage(s, m))
  {
    MessageQueues(s, m);
    hide OnMessage, OperationsOK, FramesOK;
    var s' := OnMessage(s, m);
    if s'.writes != s.writes {
      var w := Write(Ack, m.requestID, m.receipt);
      AddedFrame(s, s', w);
      assert FrameOK(s', w) && Unused(s, w);
    }
  }

  lemma {:induction false} EndFrames(s: State, e: Event)
    requires e.Expires? || e.IsAborted? || e.SocketFails? || e.Settles? || e.Closes?
    ensures FramesFrom(s, Step(s, e))
  {
  }

  lemma {:induction false} StepFrames(s: State, e: Event)
    requires Sound(s)
    ensures FramesOK(Step(s, e))
  {
    hide Sound, Begin, RetryFires, OnMessage, FramesFrom;
    match e {
      case Begins(op, open, aborted, timers) => BeginFrames(s, op, open, aborted, timers);
      case Retries(i, requestID, open) => RetryFrames(s, i, requestID, open);
      case WriteStarts(_) => WriteFrames(s, e);
      case WriteEnds(_) => WriteFrames(s, e);
      case Message(inbound) => MessageFrames(s, inbound);
      case _ => EndFrames(s, e);
    }
    StepKeeps(s, e);
    hide Step, Evolves, Frames;
    FramesKeptOf(s, Step(s, e));
  }

  lemma {:induction false} FramesKeptOf(s: State, s': State)
    requires Sound(s) && Keeps(s, s') && FramesFrom(s, s')
    ensures FramesOK(s')
  {
    FramesKept(s, s');
  }

  lemma {:induction false} RunSound(events: seq<Event>)
    ensures Sound(Run(events))
  {
    if events != [] {
      var s := Run(events[..|events| - 1]);
      RunSound(events[..|events| - 1]);
      StepFrames(s, events[|events| - 1]);
      StepKeeps(s, events[|events| - 1]);
    }
  }

  // -------- what it comes to --------

  /** Over every order of events at most one operation is unsettled. */
  lemma {:induction false} SingleFlight(events: seq<Event>, i: nat, j: nat)
    requires var ops := Run(events).operations;
      i < |ops| && j < |ops| && ops[i].promise.Open? && ops[j].promise.Open?
    ensures i == j && (Run(events).pending == Some(i) || Run(events).terminal)
  {
    RunSound(events);
    assert OneOpen(Run(events), i, j) && OperationOK(Run(events), i);
  }

  /** A settlement is never revised, whatever happens next. */
  lemma {:induction false} SettlesOnce(events: seq<Event>, e: Event, i: nat)
    requires i < |Run(events).operations| && !Run(events).operations[i].promise.Open?
    ensures i < |Run(events + [e]).operations|
      && Run(events + [e]).operations[i].promise == Run(events).operations[i].promise
  {
    assert (events + [e])[..|events|] == events;
    RunSound(events);
    StepKeeps(Run(events), e);
    assert EvolvesAt(Run(events), Run(events + [e]), i);
  }

  /**
   A response resolves an operation only under a request ID that operation issued, and for a send only with its
   message ID.
   */
  lemma {:induction false} ResolvedByOwnID(events: seq<Event>, i: nat)
    requires i < |Run(events).operations| && Run(events).operations[i].promise.Resolved?
    ensures var op := Run(events).operations[i];
      && (op.promise.requestID == op.requestID || Some(op.promise.requestID) == op.retryID)
      && (op.kind.SendMessage? ==> op.promise.value.Result? && op.promise.value.messageID == op.messageID)
  {
    RunSound(events);
    assert OperationOK(Run(events), i);
  }

  predicate Concerns(w: Write, i: nat) {
    w.purpose == First(i) || w.purpose == Retry(i)
  }

  /** An operation writes at most two frames, a list only one; both carry one payload, the second a new request ID. */
  lemma {:induction false} AtMostTwoFrames(events: seq<Event>, i: nat, j: nat, k: nat)
    requires var wire := Run(events).wire; j < k < |wire| && Concerns(wire[j], i) && Concerns(wire[k], i)
    ensures var s := Run(events);
      && i < |s.operations| && s.operations[i].kind.SendMessage?
      && s.wire[j].payload == s.wire[k].payload == s.operations[i].payload
      && s.wire[j].purpose != s.wire[k].purpose
    ensures forall l :: 0 <= l < |Run(events).wire| && Concerns(Run(events).wire[l], i) ==> l == j || l == k
  {
    RunSound(events);
    var s := Run(events);
    forall l: nat | l < |s.wire| ensures Frames(s)[l] == s.wire[l] {}
    assert FrameOK(s, Frames(s)[j]) && FrameOK(s, Frames(s)[k]) && Unlike(Frames(s), j, k);
    forall l: nat | l < |s.wire| && Concerns(s.wire[l], i) ensures l == j || l == k {
      assert Unlike(Frames(s), l, j) && Unlike(Frames(s), j, l) && Unlike(Frames(s), l, k) && Unlike(Frames(s), k, l);
    }
  }

  /** After the end nothing is pending, no operation is accepted, and no frame is written. */
  lemma {:induction false} TerminalAbsorbs(events: seq<Event>, e: Event)
    requires Run(events).terminal
    ensures var s, s' := Run(events), Run(events + [e]);
      && s'.terminal && s.pending.None? && s'.pending.None? && s'.wire == s.wire
      && (forall i :: |s.operations| <= i < |s'.operations| ==> s'.operations[i].promise.Rejected?)
  {
    assert (events + [e])[..|events|] == events;
    RunSound(events);
    StepKeeps(Run(events), e);
  }

  // -------- settled, or left open --------

  /** The receipt of a delivery is due or with the socket, and cannot be written. */
  predicate ReceiptFails(s: State, e: Event) {
    && !s.terminal && s.writes != [] && s.writes[0].purpose.Ack?
    && ((e.WriteStarts? && !s.sending && !e.open) || (e.WriteEnds? && s.sending && !e.written))
  }

  /**
   One more event, and the socket settling after it: the pending operation is then still pending, or settled; or it is
   left open with nobody to settle it, exactly when the event is a receipt that could not be written.
   */
  lemma {:induction false} LeftOpenByReceipt(events: seq<Event>, e: Event, i: nat)
    requires Run(events).pending == Some(i) && e != Settles
    ensures var s := Step(Run(events + [e]), Settles);
      && i < |s.operations|
      && (s.pending != Some(i) && s.operations[i].promise.Open? <==> ReceiptFails(Run(events), e))
  {
    assert (events + [e])[..|events|] == events;
    RunSound(events);
    RunSound(events + [e]);
    assert PlacesOK(Run(events));
    OperationsStay(Run(events), e, i);
    OperationsStay(Run(events + [e]), Settles, i);
    LeftOpen(Run(events), e, i);
  }

  lemma {:induction false} LeftOpen(s: State, e: Event, i: nat)
    requires PlacesOK(s) && s.pending == Some(i)
    ensures LeavesOpen(s, e, i) <==> ReceiptFails(s, e)
  {
    match e
    case Message(m) => LeftOpenByMessage(s, m, i);
    case WriteStarts(_) => LeftOpenByWrite(s, e, i);
    case WriteEnds(_) => LeftOpenByWrite(s, e, i);
    case Begins(_, _, _, _) => hide Accept;
    case _ => hide OnMessage, Begin, StartWrite, FinishWrite;
  }

  /** After the event and the socket's settling the operation is open, and not pending any more. */
  ghost predicate LeavesOpen(s: State, e: Event, i: nat) {
    var s' := Step(Step(s, e), Settles);
    i < |s'.operations| ==> s'.pending != Some(i) && s'.operations[i].promise.Open?
  }

  lemma {:induction false} LeftOpenByWrite(s: State, e: Event, i: nat)
    requires PlacesOK(s) && s.pending == Some(i) && (e.WriteStarts? || e.WriteEnds?)
    ensures LeavesOpen(s, e, i) <==> ReceiptFails(s, e)
  {
    hide OnMessage, Begin;
  }

  lemma {:induction false} OperationsStay(s: State, e: Event, i: nat)
    requires Sound(s) && i < |s.operations|
    ensures i < |Step(s, e).operations|
  {
    StepKeeps(s, e);
    assert EvolvesAt(s, Step(s, e), i);
  }

  lemma {:induction false} LeftOpenByMessage(s: State, m: Inbound, i: nat)
    requires PlacesOK(s) && s.pending == Some(i)
    ensures var s' := SettleDone(OnMessage(s, m));
      i < |s'.operations| && (s'.pending == Some(i) || !s'.operations[i].promise.Open?)
  {
    MessageCases(s, m, i);
    hide OnMessage;
  }

  /** A frame fails the pending operation, leaves it alone, or resolves it. */
  lemma {:induction false} MessageCases(s: State, m: Inbound, i: nat)
    requires PlacesOK(s) && s.pending == Some(i)
    ensures var s' := OnMessage(s, m);
      || s' == FailPending(s, InvalidResponse)
      || (s'.settling.None? && i < |s'.operations| && (s'.pending == Some(i) || s'.operations[i].promise.Resolved?))
  {
    hide FailPending;
    if m.Response? { ResponseCases(s, m, i); }
    hide ResolvePending;
  }

  lemma {:induction false} ResponseCases(s: State, m: Inbound, i: nat)
    requires PlacesOK(s) && s.pending == Some(i) && m.Response?
    ensures var s' := ResolvePending(s, m);
      || s' == FailPending(s, InvalidResponse)
      || (s'.settling.None? && i < |s'.operations| && s'.operations[i].promise.Resolved?)
  {
    hide FailPending, FitsSend;
  }

  /** Once the client has ended and its socket has settled, no promise changes any more. */
  lemma {:induction false} EndedForever(events: seq<Event>, later: seq<Event>, i: nat)
    requires Run(events).terminal && Run(events).settling.None? && i < |Run(events).operations|
    ensures var s := Run(events + later);
      s.terminal && s.settling.None? && i < |s.operations|
        && s.operations[i].promise == Run(events).operations[i].promise
  {
    if later == [] {
      assert events + later == events;
    } else {
      var n := |later| - 1;
      EndedForever(events, later[..n], i);
      var all := events + later;
      assert all[..|all| - 1] == events + later[..n] && all[|all| - 1] == later[n];
      RunSound(events + later[..n]);
      EndedStays(Run(events + later[..n]), later[n], i);
    }
  }

  lemma {:induction false} EndedStays(s: State, e: Event, i: nat)
    requires PlacesOK(s) && s.terminal && s.settling.None? && i < |s.operations|
    ensures var s' := Step(s, e);
      s'.terminal && s'.settling.None? && i < |s'.operations| && s'.operations[i].promise == s.operations[i].promise
  {
  }

  const HELLO: Operation := Operation(SendMessage, "r1", None, "m1", "hello", Open)

  /** A send is on its way when a delivery comes in, and the receipt of that delivery cannot be written. */
  const RECEIPT_LOST: seq<Event> :=
    [Begins(HELLO, true, false, Fine), WriteStarts(true), WriteEnds(true), Message(Delivery(true, "r2", "ack")),
      WriteStarts(false), Settles]

  /** The claim that every operation is settled in the end fails: this one stays open whatever follows. */
  lemma {:induction false} NeverSettled(later: seq<Event>)
    ensures var s := Run(RECEIPT_LOST + later); |s.operations| > 0 && s.operations[0].promise.Open? && s.terminal
  {
    LostRun();
    EndedForever(RECEIPT_LOST, later, 0);
  }

  lemma {:induction false} LostRun()
    ensures var s := Run(RECEIPT_LOST);
      |s.operations| > 0 && s.operations[0].promise.Open? && s.terminal && s.settling.None?
  {
    var before := Run(RECEIPT_LOST[..4]);
    LostBegins();
    RunLost(6);
    RunLost(5);
    assert RECEIPT_LOST[..6] == RECEIPT_LOST;
    assert RECEIPT_LOST[4] == WriteStarts(false) && RECEIPT_LOST[5] == Settles;
    hide RECEIPT_LOST, Run;
    LostEnds(before);
  }

  lemma {:induction false} LostEnds(s: State)
    requires s.pending == Some(0) && |s.operations| > 0 && s.operations[0].promise.Open? && !s.terminal
    requires ReceiptFails(s, WriteStarts(false))
    ensures var s' := Step(Step(s, WriteStarts(false)), Settles);
      s'.operations == s.operations && s'.terminal && s'.settling.None?
  {
  }

  /** The send is pending and written, and the receipt is next. */
  ghost predicate ReceiptNext(s: State) {
    && s.pending == Some(0) && |s.operations| > 0 && s.operations[0].promise.Open? && !s.terminal
    && s.writes == [Write(Ack, "r2", "ack")] && !s.sending
  }

  lemma {:induction false} LostBegins()
    ensures ReceiptNext(Run(RECEIPT_LOST[..4]))
  {
    RunLost(4);
    RunLost(3);
    RunLost(2);
    RunLost(1);
    assert RECEIPT_LOST[..0] == [] && Run([]) == Start();
    assert RECEIPT_LOST[0] == Begins(HELLO, true, false, Fine) && RECEIPT_LOST[1] == WriteStarts(true);
    assert RECEIPT_LOST[2] == WriteEnds(true) && RECEIPT_LOST[3] == Message(Delivery(true, "r2", "ack"));
    hide RECEIPT_LOST, Run;
    BeginThenDeliver();
  }

  lemma {:induction false} BeginThenDeliver()
    ensures var s1 := Step(Start(), Begins(HELLO, true, false, Fine));
      var s3 := Step(Step(s1, WriteStarts(true)), WriteEnds(true));
      ReceiptNext(Step(s3, Message(Delivery(true, "r2", "ack"))))
  {
    var hello := Write(First(0), "r1", "hello");
    var s1 := Step(Start(), Begins(HELLO, true, false, Fine));
    assert s1.pending == Some(0) && s1.writes == [hello] && !s1.sending && !s1.terminal && !s1.inbound;
    assert |s1.operations| == 1 && s1.operations[0].promise.Open?;
    var s2 := Step(s1, WriteStarts(true));
    assert s2 == s1.(sending := true, wire := s1.wire + [hello]);
    var s3 := Step(s2, WriteEnds(true));
    assert s3.writes == [] && !s3.sending && s3.pending == Some(0) && s3.operations == s1.operations && !s3.terminal
      && !s3.inbound;
  }

  lemma {:induction false} RunLost(n: nat)
    requires 0 < n <= 6
    ensures Run(RECEIPT_LOST[..n]) == Step(Run(RECEIPT_LOST[..n - 1]), RECEIPT_LOST[n - 1])
  {
    assert RECEIPT_LOST[..n][..n - 1] == RECEIPT_LOST[..n - 1];
  }
}
