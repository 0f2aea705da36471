/**
 The client's single-flight owner of one socket, one task of the event loop at a time.

 `operations` holds every promise `list` or `send` ever returned.  `wire` holds the frames handed to the socket, in
 order; `writes` the chain of frames behind them, the first of which is with the socket when `sending`.
 */
module ClientMachine {
  import opened Wrappers
  import Messages

  datatype Kind = ListPeers | SendMessage

  datatype Reason = Disconnected | Concurrent | Aborted | TimedOut | InvalidResponse

  datatype Value = Page(page: nat) | Result(messageID: string, code: Messages.Code)

  datatype Promise = Open | Resolved(requestID: string, value: Value) | Rejected(reason: Reason)

  datatype Operation = Operation(
    kind: Kind,
    requestID: string,
    retryID: Option<string>,
    messageID: string,
    payload: string,
    promise: Promise)

  datatype Purpose = First(op: nat) | Retry(op: nat) | Ack

  datatype Write = Write(purpose: Purpose, requestID: string, payload: string)

  datatype Late = Late(requestID: string, messageID: string, value: Value)

  /** A `failTerminal` waiting for the socket to settle. */
  datatype Settling = Settling(op: Option<nat>, reason: Option<Reason>)

  datatype State = State(
    operations: seq<Operation>,
    pending: Option<nat>,
    firstWritten: bool,
    terminal: bool,
    inbound: bool,
    writes: seq<Write>,
    sending: bool,
    late: Option<Late>,
    settling: Option<Settling>,
    retryTimer: Option<nat>,
    wire: seq<Write>)

  function Start(): State {
    State([], None, false, false, false, [], false, None, None, None, [])
  }

  // -------- pieces --------

  function SetPromise(s: State, op: nat, promise: Promise): State
    requires op < |s.operations|
  {
    s.(operations := s.operations[op := s.operations[op].(promise := promise)])
  }

  /**
   Terminal is entered once; the pending operation, if any, is cleared now and rejected when the socket has settled.
   */
  function FailTerminal(s: State, reason: Option<Reason>): State {
    if s.terminal then s
    else s.(terminal := true, settling := Some(Settling(s.pending, reason)), pending := None, retryTimer := None)
  }

  /** A bad frame fails the pending operation; without one there is nobody to tell. */
  function FailPending(s: State, reason: Reason): State {
    FailTerminal(s, if s.pending.Some? then Some(reason) else None)
  }

  function Enqueue(s: State, w: Write): State {
    s.(writes := s.writes + [w])
  }

  // -------- events --------

  /** How a new operation's timers come about; the retry timer may fire before its factory returns. */
  datatype Timers = Fine | ResponseTimerFails | ResponseTimerFires | RetryTimerFails | RetryTimerFires

  function Refuse(s: State, op: Operation, reason: Reason): State {
    s.(operations := s.operations + [op.(promise := Rejected(reason))])
  }

  /** The operation is pending; its timers are made, and its first frame is written. */
  function Accept(s: State, op: Operation, timers: Timers): State {
    var i := |s.operations|;
    var begun := s.(operations := s.operations + [op.(promise := Open, retryID := None)], pending := Some(i),
      firstWritten := false);
    if timers.ResponseTimerFails? then FailTerminal(begun, Some(Disconnected))
    else if timers.ResponseTimerFires? then FailTerminal(begun, Some(TimedOut))
    else if timers.RetryTimerFails? && op.kind.SendMessage? then FailTerminal(begun, Some(Disconnected))
    else
      // A callback that runs at once finds nothing written yet, and leaves no timer behind.
      var armed := if op.kind.SendMessage? && !timers.RetryTimerFires? then Some(i) else None;
      Enqueue(begun.(retryTimer := armed), Write(First(i), op.requestID, op.payload))
  }

  function Begin(s: State, op: Operation, open: bool, aborted: bool, timers: Timers): State {
    if s.terminal || !open then Refuse(s, op, Disconnected)
    else if s.pending.Some? || s.writes != [] then Refuse(s, op, Concurrent)
    else if aborted then Refuse(s, op, Aborted)
    else Accept(s, op, timers)
  }

  /** The callback of the retry timer: it does not ask whether the operation was retried before. */
  function RetrySend(s: State, op: nat, requestID: string, open: bool): State {
    if s.pending != Some(op) || op >= |s.operations| || !s.operations[op].kind.SendMessage? || !s.firstWritten
       || s.writes != [] || s.terminal || !open then s
    else
      Enqueue(s.(operations := s.operations[op := s.operations[op].(retryID := Some(requestID))]),
              Write(Retry(op), requestID, s.operations[op].payload))
  }

  /** A timer fires once, and not after it was cancelled. */
  function RetryFires(s: State, op: nat, requestID: string, open: bool): State {
    if s.retryTimer != Some(op) then s else RetrySend(s.(retryTimer := None), op, requestID, open)
  }

  /** A write that cannot be made, or fails, fails every write chained behind it. */
  function WriteFails(s: State): State
    requires s.writes != []
  {
    FailTerminal(s.(writes := [], sending := false), if s.writes[0].purpose.Ack? then None else Some(Disconnected))
  }

  function StartWrite(s: State, open: bool): State {
    if s.writes == [] || s.sending then s
    else if s.terminal || !open then WriteFails(s)
    else s.(sending := true, wire := s.wire + [s.writes[0]])
  }

  function FinishWrite(s: State, written: bool): State {
    if s.writes == [] || !s.sending then s
    else if !written then WriteFails(s)
    else
      var done := s.writes[0].purpose;
      s.(writes := s.writes[1..], sending := false,
         firstWritten := s.firstWritten || (done.First? && s.pending == Some(done.op)),
         inbound := s.inbound && !done.Ack?)
  }

  /** A frame as the parser classifies it.  A response's `value` is None when its payload has not the right shape. */
  datatype Inbound =
    | Malformed
    | Delivery(deliverable: bool, requestID: string, receipt: string)
    | Response(requestID: string, value: Option<Value>)

  predicate FitsSend(m: Inbound, requestID: string, messageID: string) {
    m.Response? && m.requestID == requestID && m.value.Some? && m.value.value.Result?
      && m.value.value.messageID == messageID
  }

  /** The response of the pending operation: it must carry a request ID that operation issued. */
  function ResolvePending(s: State, m: Inbound): State
    requires m.Response?
  {
    if s.pending.None? || s.pending.value >= |s.operations| then FailPending(s, InvalidResponse)
    else
      var i := s.pending.value;
      var op := s.operations[i];
      if op.kind.ListPeers? then
        if m.requestID == op.requestID && m.value.Some? && m.value.value.Page? then
          SetPromise(s, i, Resolved(m.requestID, m.value.value)).(pending := None, retryTimer := None)
        else FailPending(s, InvalidResponse)
      else if m.requestID != op.requestID && Some(m.requestID) != op.retryID then FailPending(s, InvalidResponse)
      else if !FitsSend(m, m.requestID, op.messageID) then FailPending(s, InvalidResponse)
      else
        var resolved := SetPromise(s, i, Resolved(m.requestID, m.value.value)).(pending := None, retryTimer := None);
        if op.retryID.None? then resolved
        else if s.late.Some? then FailPending(s, InvalidResponse)
        else
          var paired := if m.requestID == op.requestID then op.retryID.value else op.requestID;
          resolved.(late := Some(Late(paired, op.messageID, m.value.value)))
  }

  function OnMessage(s: State, m: Inbound): State {
    match m
    case Malformed => FailPending(s, InvalidResponse)
    case Delivery(deliverable, requestID, receipt) =>
      if s.inbound || !deliverable then FailPending(s, InvalidResponse)
      else Enqueue(s.(inbound := true), Write(Ack, requestID, receipt))
    case Response(requestID, value) =>
      if s.late.Some? && requestID == s.late.value.requestID then
        if FitsSend(m, s.late.value.requestID, s.late.value.messageID) && value == Some(s.late.value.value)
          then s.(late := None)
        else FailPending(s, InvalidResponse)
      else ResolvePending(s, m)
  }

  function SettleDone(s: State): State {
    if s.settling.None? then s
    else
      var it := s.settling.value;
      var done := s.(settling := None);
      if it.op.Some? && it.reason.Some? && it.op.value < |s.operations|
        then SetPromise(done, it.op.value, Rejected(it.reason.value)) else done
  }

  function OnClose(s: State): State {
    var closed := s.(terminal := true);
    if s.pending.None? || s.pending.value >= |s.operations| then closed
    else SetPromise(closed, s.pending.value, Rejected(Disconnected)).(pending := None, retryTimer := None)
  }

  datatype Event =
    | Begins(op: Operation, open: bool, aborted: bool, timers: Timers)
    | Retries(i: nat, requestID: string, open: bool)
    | WriteStarts(open: bool)
    | WriteEnds(written: bool)
    | Message(inbound: Inbound)
    | Expires
    | IsAborted
    | SocketFails(invalid: bool)
    | Settles
    | Closes

  function Step(s: State, e: Event): State {
    match e
    case Begins(op, open, aborted, timers) => Begin(s, op, open, aborted, timers)
    case Retries(i, requestID, open) => RetryFires(s, i, requestID, open)
    case WriteStarts(open) => StartWrite(s, open)
    case WriteEnds(written) => FinishWrite(s, written)
    case Message(inbound) => OnMessage(s, inbound)
    case Expires => if s.pending.Some? then FailTerminal(s, Some(TimedOut)) else s
    case IsAborted => if s.pending.Some? then FailTerminal(s, Some(Aborted)) else s
    case SocketFails(invalid) => FailPending(s, if invalid then InvalidResponse else Disconnected)
    case Settles => SettleDone(s)
    case Closes => OnClose(s)
  }

  function Run(events: seq<Event>): State {
    if events == [] then Start() else Step(Run(events[..|events| - 1]), events[|events| - 1])
  }

  // -------- the invariant --------

  /** An unsettled operation is the pending one, or the last one of a client that has ended. */
  ghost predicate OperationOK(s: State, i: nat) {
    i < |s.operations| ==>
      var op := s.operations[i];
      && (op.promise.Open? ==> s.pending == Some(i) || s.terminal)
      && (op.promise.Resolved? ==> op.promise.requestID == op.requestID || Some(op.promise.requestID) == op.retryID)
      && (op.promise.Resolved? && op.kind.SendMessage? ==>
        op.promise.value.Result? && op.promise.value.messageID == op.messageID)
  }

  ghost predicate OneOpen(s: State, i: nat, j: nat) {
    i < |s.operations| && j < |s.operations| && s.operations[i].promise.Open? && s.operations[j].promise.Open? ==>
      i == j
  }

  ghost predicate PlacesOK(s: State) {
    && (s.pending.Some? ==>
      !s.terminal && s.pending.value < |s.operations| && s.operations[s.pending.value].promise.Open?)
    && (s.settling.Some? ==>
          && s.terminal
          && (s.settling.value.op.Some? ==>
                s.settling.value.op.value < |s.operations| && s.operations[s.settling.value.op.value].promise.Open?))
    && (s.retryTimer.Some? ==>
          s.pending == s.retryTimer && s.operations[s.retryTimer.value].kind.SendMessage?
            && s.operations[s.retryTimer.value].retryID.None?)
    && (s.sending ==> s.writes != [] && s.wire != [] && s.wire[|s.wire| - 1] == s.writes[0])
  }

  /** All frames written or to be written: those with the socket, then the rest of the chain. */
  function Frames(s: State): seq<Write> {
    s.wire + (if s.sending && s.writes != [] then s.writes[1..] else s.writes)
  }

  ghost predicate FrameOK(s: State, w: Write) {
    match w.purpose
    case First(i) => i < |s.operations| && w.requestID == s.operations[i].requestID
      && w.payload == s.operations[i].payload
    case Retry(i) =>
      && i < |s.operations| && s.operations[i].kind.SendMessage?
      && Some(w.requestID) == s.operations[i].retryID && w.payload == s.operations[i].payload
    case Ack => true
  }

  ghost predicate FramesOK(s: State) {
    ((forall k: nat :: k < |Frames(s)| ==> FrameOK(s, Frames(s)[k]))
      && (forall j: nat, k: nat :: Unlike(Frames(s), j, k))) == true
  }

  /** No operation's frame is written twice. */
  ghost predicate Unlike(frames: seq<Write>, j: nat, k: nat) {
    j < k < |frames| && frames[j].purpose == frames[k].purpose ==> frames[j].purpose.Ack?
  }

  ghost predicate OperationsOK(s: State) {
    ((forall i: nat :: OperationOK(s, i)) && (forall i: nat, j: nat :: OneOpen(s, i, j))) == true
  }

  ghost predicate Sound(s: State) {
    PlacesOK(s) && OperationsOK(s) && FramesOK(s)
  }
}
