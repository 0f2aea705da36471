/** The owner of one socket as the client runs it: each method is one task of the event loop, on its own fields. */
module RosterClients {
  import opened Wrappers
  import opened ClientMachine
  import opened ClientSafety

  /** The operation that a finished end rejects. */
  predicate Told(settling: Option<Settling>, i: nat) {
    settling.Some? && settling.value.op == Some(i) && settling.value.reason.Some?
  }

  class RosterClient {
    var operations: seq<Operation>
    var pending: Option<nat>
    var firstWritten: bool
    var terminal: bool
    var inboundProcessing: bool
    var writes: seq<Write>
    var sending: bool
    var lateSendResponse: Option<Late>
    var settling: Option<Settling>
    var retryTimer: Option<nat>
    var wire: seq<Write>

    function Now(): State
      reads this
    {
      State(operations, pending, firstWritten, terminal, inboundProcessing, writes, sending, lateSendResponse,
        settling, retryTimer, wire)
    }

    ghost predicate Valid()
      reads this
    {
      Sound(Now())
    }

    constructor ()
      ensures Valid() && Now() == Start()
    {
      operations, pending, firstWritten, terminal, inboundProcessing := [], None, false, false, false;
      writes, sending, lateSendResponse, settling, retryTimer, wire := [], false, None, None, None, [];
      new;
      RunSound([]);
    }

    // -------- settling promises --------

    /** A promise is settled while it is open; the precondition is what "at most once" comes to. */
    method Settle(op: nat, promise: Promise)
      requires op < |operations| && operations[op].promise.Open?
      modifies this`operations
      ensures Now() == SetPromise(old(Now()), op, promise)
    {
      operations := operations[op := operations[op].(promise := promise)];
    }

    /** The pending operation is forgotten, and its timers are cancelled. */
    method ClearPending()
      modifies this`pending, this`retryTimer
      ensures pending.None? && retryTimer.None?
    {
      pending, retryTimer := None, None;
    }

    method Fail(reason: Option<Reason>)
      modifies this
      ensures Now() == FailTerminal(old(Now()), reason)
    {
      if terminal {
        return;
      }
      terminal := true;
      settling := Some(Settling(pending, reason));
      ClearPending();
    }

    method FailWithPending(reason: Reason)
      modifies this
      ensures Now() == FailPending(old(Now()), reason)
    {
      Fail(if pending.Some? then Some(reason) else None);
    }

    // -------- operations --------

    /** `list` and `send` after their arguments passed: the new operation's index, and its promise. */
    method BeginOperation(op: Operation, open: bool, aborted: bool, timers: Timers) returns (i: nat)
      requires Valid()
      modifies this
      ensures Valid() && Now() == Begin(old(Now()), op, open, aborted, timers)
      ensures i == |old(operations)| && |operations| == i + 1 && operations[..i] == old(operations)
      ensures operations[i].promise.Open? ==> old(pending).None? && !old(terminal) && (pending == Some(i) || terminal)
    {
      StepKeepsSound(Now(), Begins(op, open, aborted, timers));
      BeginIs(Now(), op, open, aborted, timers);
      ghost var goal := Begin(Now(), op, open, aborted, timers);
      hide Sound, Begin;
      i := |operations|;
      if terminal || !open {
        Reject(op, Disconnected);
      } else if pending.Some? || writes != [] {
        Reject(op, Concurrent);
      } else if aborted {
        Reject(op, Aborted);
      } else {
        StartOperation(op, timers);
      }
      assert Now() == goal;
    }

    /** A promise that is rejected from the start. */
    method Reject(op: Operation, reason: Reason)
      modifies this`operations
      ensures Now() == Refuse(old(Now()), op, reason)
    {
      operations := operations + [op.(promise := Rejected(reason))];
    }

    method StartOperation(op: Operation, timers: Timers)
      modifies this
      ensures Now() == Accept(old(Now()), op, timers)
    {
      hide FailTerminal;
      operations := operations + [op.(promise := Open, retryID := None)];
      pending := Some(|operations| - 1);
      firstWritten := false;
      if timers.ResponseTimerFails? {
        Fail(Some(Disconnected));
        return;
      }
      if timers.ResponseTimerFires? {
        Fail(Some(TimedOut));
        return;
      }
      if op.kind.SendMessage? && timers.RetryTimerFails? {
        Fail(Some(Disconnected));
        return;
      }
      retryTimer := if op.kind.SendMessage? && !timers.RetryTimerFires? then pending else None;
      writes := writes + [Write(First(|operations| - 1), op.requestID, op.payload)];
    }

    /** The retry timer's one firing. */
    method FireRetryTimer(op: nat, requestID: string, open: bool)
      requires Valid()
      modifies this
      ensures Valid() && Now() == RetryFires(old(Now()), op, requestID, open)
      ensures old(retryTimer) == Some(op) ==> retryTimer.None?
    {
      StepKeepsSound(Now(), Retries(op, requestID, open));
      if retryTimer != Some(op) {
        return;
      }
      retryTimer := None;
      RetrySend(op, requestID, open);
    }

    /** One more frame of the pending send, with its payload and a new request ID; or nothing. */
    method RetrySend(op: nat, requestID: string, open: bool)
      requires op < |operations|
      modifies this
      ensures Now() == ClientMachine.RetrySend(old(Now()), op, requestID, open)
      ensures wire == old(wire)
        && (writes == old(writes) || writes == [Write(Retry(op), requestID, operations[op].payload)])
    {
      if pending != Some(op) || operations[op].kind.ListPeers? || !firstWritten || writes != [] || terminal || !open {
        return;
      }
      operations := operations[op := operations[op].(retryID := Some(requestID))];
      writes := writes + [Write(Retry(op), requestID, operations[op].payload)];
    }

    // -------- the chain of writes --------

    /** At most the first frame of the chain goes out, and only on an open socket before the end; no promise settles. */
    method WriteNext(open: bool)
      requires Valid()
      modifies this
      ensures Valid() && Now() == StartWrite(old(Now()), open)
      ensures operations == old(operations)
      ensures wire == old(wire) ||
        (open && !old(terminal) && old(writes) != [] && wire == old(wire) + [old(writes)[0]] && pending == old(pending))
    {
      StepKeepsSound(Now(), WriteStarts(open));
      if writes == [] || sending {
        return;
      }
      if terminal || !open {
        RejectWrites();
        return;
      }
      sending := true;
      wire := wire + [writes[0]];
    }

    method RejectWrites()
      requires writes != []
      modifies this
      ensures Now() == WriteFails(old(Now()))
    {
      var receipt := writes[0].purpose.Ack?;
      writes, sending := [], false;
      Fail(if receipt then None else Some(Disconnected));
    }

    /** A write that went out makes way for the next one; one that failed ends the client and takes the rest along. */
    method WriteDone(written: bool)
      requires Valid()
      modifies this
      ensures Valid() && Now() == FinishWrite(old(Now()), written)
      ensures operations == old(operations) && wire == old(wire)
      ensures old(sending) && old(writes) != [] ==>
        if written then writes == old(writes)[1..] && pending == old(pending) && terminal == old(terminal)
        else writes == [] && pending.None? && terminal
    {
      StepKeepsSound(Now(), WriteEnds(written));
      if writes == [] || !sending {
        return;
      }
      if !written {
        RejectWrites();
        return;
      }
      var done := writes[0].purpose;
      writes, sending := writes[1..], false;
      if done.First? && pending == Some(done.op) {
        firstWritten := true;
      }
      if done.Ack? {
        inboundProcessing := false;
      }
    }

    // -------- inbound --------

    /** A frame settles at most the pending operation, and that only as its own response; nothing is written yet. */
    method OnFrame(m: Inbound)
      requires Valid()
      modifies this
      ensures Valid() && Now() == OnMessage(old(Now()), m)
      ensures wire == old(wire) && |operations| == |old(operations)|
      ensures m.Response? ==> forall i: nat :: i < |operations| ==> OwnResponse(old(Now()), Now(), m, i)
      ensures !m.Response? ==> operations == old(operations)
      ensures !m.Delivery? ==> writes == old(writes)
      ensures m.Delivery? && !terminal ==> writes == old(writes) + [Write(Ack, m.requestID, m.receipt)]
    {
      StepKeepsSound(Now(), Message(m));
      MessageIsOwn(Now(), m);
      hide Sound, OwnResponse, FitsSend;
      match m
      case Malformed => FailWithPending(InvalidResponse);
      case Delivery(deliverable, requestID, receipt) =>
        if inboundProcessing || !deliverable {
          FailWithPending(InvalidResponse);
          return;
        }
        inboundProcessing := true;
        writes := writes + [Write(Ack, requestID, receipt)];
      case Response(requestID, value) =>
        if lateSendResponse.Some? && requestID == lateSendResponse.value.requestID {
          var late := lateSendResponse.value;
          if !FitsSend(m, late.requestID, late.messageID) || value != Some(late.value) {
            FailWithPending(InvalidResponse);
            return;
          }
          lateSendResponse := None;
          return;
        }
        AcceptResponse(m);
    }

    /** Only the pending operation is settled, under a request ID of its own; any other response ends the client. */
    method AcceptResponse(m: Inbound)
      requires Valid() && m.Response?
      modifies this
      ensures Valid() && Now() == ResolvePending(old(Now()), m)
      ensures pending.None? && |operations| == |old(operations)|
      ensures forall i: nat :: i < |operations| ==> OwnResponse(old(Now()), Now(), m, i)
      ensures operations == old(operations) ==> terminal
    {
      ResolveIsOwn(Now(), m);
      ghost var goal := ResolvePending(Now(), m);
      assert pending.Some? ==> pending.value < |operations| && operations[pending.value].promise.Open?;
      NobodyPending(Now(), m);
      hide Sound, OwnResponse, FailPending, ResolvePending;
      if pending.None? {
        FailWithPending(InvalidResponse);
      } else if operations[pending.value].kind.ListPeers? {
        AcceptPage(m);
      } else {
        AcceptResult(m);
      }
      assert Now() == goal;
    }

    predicate PendingOpen()
      reads this
    {
      pending.Some? && pending.value < |operations| && operations[pending.value].promise.Open?
    }

    method AcceptPage(m: Inbound)
      requires PendingOpen() && operations[pending.value].kind.ListPeers? && m.Response?
      modifies this
      ensures Now() == ResolvePending(old(Now()), m)
    {
      hide FailPending;
      if m.requestID != operations[pending.value].requestID || m.value.None? || !m.value.value.Page? {
        FailWithPending(InvalidResponse);
      } else {
        Resolve(Resolved(m.requestID, m.value.value));
      }
    }

    /** A result of the pending send; after a retry the other request ID's result is still to come. */
    method AcceptResult(m: Inbound)
      requires PendingOpen() && operations[pending.value].kind.SendMessage? && m.Response?
      modifies this
      ensures Now() == ResolvePending(old(Now()), m)
    {
      hide FailPending, FitsSend;
      var op := operations[pending.value];
      if (m.requestID != op.requestID && Some(m.requestID) != op.retryID) || !FitsSend(m, m.requestID, op.messageID) {
        FailWithPending(InvalidResponse);
        return;
      }
      FitsValue(m, m.requestID, op.messageID);
      if op.retryID.Some? {
        if lateSendResponse.Some? {
          FailWithPending(InvalidResponse);
          return;
        }
        var paired := if m.requestID == op.requestID then op.retryID.value else op.requestID;
        lateSendResponse := Some(Late(paired, op.messageID, m.value.value));
      }
      Resolve(Resolved(m.requestID, m.value.value));
    }

    /** The pending promise settles, and nothing is pending any more. */
    method Resolve(promise: Promise)
      requires pending.Some? && pending.value < |operations| && operations[pending.value].promise.Open?
      modifies this`operations, this`pending, this`retryTimer
      ensures Now() == SetPromise(old(Now()), old(pending).value, promise).(pending := None, retryTimer := None)
    {
      var i := pending.value;
      ClearPending();
      Settle(i, promise);
    }

    // -------- the end --------

    /** The end's own promise is rejected with the end's reason, if it has both; no other promise is touched. */
    method OnSettled()
      requires Valid()
      modifies this
      ensures Valid() && Now() == SettleDone(old(Now()))
      ensures settling.None? && pending == old(pending) && |operations| == |old(operations)|
      ensures forall i: nat :: i < |operations| ==>
        operations[i] == if Told(old(settling), i)
          then old(operations)[i].(promise := Rejected(old(settling).value.reason.value))
          else old(operations)[i]
    {
      StepKeepsSound(Now(), Settles);
      if settling.None? {
        return;
      }
      var it := settling.value;
      settling := None;
      if it.op.Some? && it.reason.Some? {
        Settle(it.op.value, Rejected(it.reason.value));
      }
    }

    /** The client has ended, and whoever waited is told so. */
    method OnSocketClose()
      requires Valid()
      modifies this
      ensures Valid() && Now() == OnClose(old(Now()))
      ensures terminal && pending.None? && wire == old(wire) && |operations| == |old(operations)|
      ensures forall i: nat :: i < |operations| ==>
        operations[i] == if old(pending) == Some(i) then old(operations)[i].(promise := Rejected(Disconnected))
          else old(operations)[i]
    {
      StepKeepsSound(Now(), Closes);
      terminal := true;
      if pending.None? {
        return;
      }
      var i := pending.value;
      ClearPending();
      Settle(i, Rejected(Disconnected));
    }
  }

  /** An operation stays as it is, or was pending and is resolved by a response that carries a request ID of its own. */
  ghost predicate OwnResponse(s: State, s': State, m: Inbound, i: nat) {
    m.Response? && i < |s.operations| && i < |s'.operations| && (
      || s'.operations[i] == s.operations[i]
      || (&& s.pending == Some(i) && m.value.Some?
          && (m.requestID == s.operations[i].requestID || Some(m.requestID) == s.operations[i].retryID)
          && s'.operations[i] == s.operations[i].(promise := Resolved(m.requestID, m.value.value))))
  }

  /**
   The new operation comes last; it is open only if nothing was pending, and then it is pending unless its timers
   failed.
   */
  lemma BeginIs(s: State, op: Operation, open: bool, aborted: bool, timers: Timers)
    ensures var s' := Begin(s, op, open, aborted, timers);
      var i := |s.operations|;
      && |s'.operations| == i + 1 && s'.operations[..i] == s.operations
      && (s'.operations[i].promise.Open? ==> s.pending.None? && !s.terminal && (s'.pending == Some(i) || s'.terminal))
      && s' == if s.terminal || !open then Refuse(s, op, Disconnected)
        else if s.pending.Some? || s.writes != [] then Refuse(s, op, Concurrent)
        else if aborted then Refuse(s, op, Aborted)
        else Accept(s, op, timers)
  {
  }

  lemma NobodyPending(s: State, m: Inbound)
    requires m.Response?
    ensures s.pending.None? ==> ResolvePending(s, m) == FailPending(s, InvalidResponse)
  {
    hide FailPending;
  }

  lemma FitsValue(m: Inbound, requestID: string, messageID: string)
    requires FitsSend(m, requestID, messageID)
    ensures m.Response? && m.value.Some?
  {
  }

  lemma {:induction false} ResolveIsOwn(s: State, m: Inbound)
    requires Sound(s) && m.Response?
    ensures var s' := ResolvePending(s, m);
      && Sound(s') && s'.pending.None? && |s'.operations| == |s.operations|
      && (forall i: nat :: i < |s.operations| ==> OwnResponse(s, s', m, i))
      && (s'.operations == s.operations ==> s'.terminal)
  {
    ResolveKeeps(s, m);
    ResolveCases(s, m);
    var s' := ResolvePending(s, m);
    assert FailPending(s, InvalidResponse).terminal && s.terminal ==> s.pending.None?;
    hide ResolvePending, OperationsOK, Evolves, FitsSend;
    assert Frames(s') == Frames(s);
    FramesKept(s, s');
    if SettlesWith(s, s', m) { assert s.operations[s.pending.value].promise.Open?; }
  }

  /** What a frame leaves alone. */
  lemma {:induction false} MessageIsOwn(s: State, m: Inbound)
    requires Sound(s)
    ensures var s' := OnMessage(s, m);
      && s'.wire == s.wire && |s'.operations| == |s.operations|
      && (m.Response? ==> forall i: nat :: i < |s.operations| ==> OwnResponse(s, s', m, i))
      && (!m.Response? ==> s'.operations == s.operations)
      && (!m.Delivery? ==> s'.writes == s.writes)
      && (m.Delivery? && !s'.terminal ==> s'.writes == s.writes + [Write(Ack, m.requestID, m.receipt)])
  {
    if m.Response? {
      ResolveIsOwn(s, m);
      ResolveWritesNothing(s, m);
      hide ResolvePending, Sound;
    } else {
      hide Sound;
    }
  }

  lemma ResolveWritesNothing(s: State, m: Inbound)
    requires m.Response?
    ensures ResolvePending(s, m).wire == s.wire && ResolvePending(s, m).writes == s.writes
  {
    hide FitsSend;
  }

  lemma {:induction false} StepKeepsSound(s: State, e: Event)
    requires Sound(s)
    ensures Sound(Step(s, e))
  {
    StepFrames(s, e);
    StepKeeps(s, e);
  }
}
