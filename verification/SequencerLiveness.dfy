/**
 The sequencer never deadlocks, although slots are reserved one at a time; with admissions stopped it drains; and
 the slots it leaves taken are the responses that were still to be pushed when the writer exited.
 */
module SequencerLiveness {
  import opened Wrappers
  import opened Sequencer
  import opened SequencerSafety
  import opened SequencerOrder

  // -------- a measure that every step decreases --------

  function Weight(p: Producer): nat {
    match p.phase
    case Dispatching => 30
    case Reserving(size, reserved) => if reserved < size then 23 + (size - reserved) else 23
    case Reserved(_) => 22
    case Pushing(size, pushed) => if pushed < size then 3 + 9 * (size - pushed) else 3
    case Queued => 2
    case Returned => 1
    case Releasing(left) => 1 + left
    case Opened => 0
    case Failed => 0
  }

  const QUEUED_WEIGHT: nat := 8

  function WriterWeight(w: Writer, started: bool): nat {
    var later := if started then 0 else 18;
    match w
    case Took(_) => 19 + later
    case AtGate(_) => 18 + later
    case GateOpen(_) => 17 + later
    case Writing(_) => 16 + later
    case Auditing(_) => 15 + later
    case Failing(_) => 14 + later
    case Choosing => 12 + later
    case Top => if started then 11 else 31
    case DiscardForTerminal => 10
    case AwaitTerminal => 9
    case DiscardForExit => 9
    case WritingTerminal => 8
    case Exited => 0
  }

  function ReaderWeight(r: Reader): nat {
    match r
    case Enqueueing(_) => 7
    case Reading => 6
    case Unpublishing => 3
    case HandingOver => 2
    case AwaitingTerminal => 1
    case Stopped => 0
  }

  function FlagWeight(f: Flags): nat {
    (if f.unpublished then 0 else 1) + (if f.producersCancelled then 0 else 1) + (if f.serveCancelled then 0 else 1)
  }

  function Measure(s: State): nat {
    Sum(Weight, s.producers) + QUEUED_WEIGHT * |s.queue| + WriterWeight(s.writer, s.flags.terminalStarted)
    + ReaderWeight(s.reader) + FlagWeight(s.flags)
  }

  predicate Admission(e: Step) {
    e.ByReader? && (e.act.AdmitSend? || e.act.Immediate?)
  }

  lemma {:induction false} DecideDrains(i: nat, p: Producer, v: View, m: Move)
    requires ShapeOK(p) && Decide(i, p, v, m).Change?
    ensures var c := Decide(i, p, v, m); Weight(c.p) + QUEUED_WEIGHT * |c.push| < Weight(p)
  {
  }

  lemma {:induction false} ProducerDrains(s: State, i: nat, m: Move)
    requires ProducersOK(s) && Has(s, i) && Decide(i, s.producers[i], Seen(s), m).Change?
    ensures Measure(ProducerStep(s, i, m)) < Measure(s)
  {
    hide Decide, Weight, WriterWeight, ReaderWeight, FlagWeight;
    assert ProducerOK(s, i);
    DecideDrains(i, s.producers[i], Seen(s), m);
    SumUpdate(Weight, s.producers, i, Decide(i, s.producers[i], Seen(s), m).p);
  }

  /** Does a turn of the writer bring the end nearer? */
  predicate Nearer(w: Writer, f: Flags, t: Turn) {
    t.Turn? ==>
      WriterWeight(t.writer, t.flags.terminalStarted) + FlagWeight(t.flags) < WriterWeight(w, f.terminalStarted) +
        FlagWeight(f) + (if t.pop then QUEUED_WEIGHT else 0)
  }

  lemma {:induction false} MovesOnDrain(w: Writer, v: Sight, f: Flags, m: Write)
    requires m.Looks? || m.TakesNext? || m.Signalled? || m.PassesGate? || m.Writes? || m.TakesTerminal?
      || m.WritesTerminal? || m.ServeDone?
    ensures Nearer(w, f, Settle(w, v, f, m))
  {
  }

  lemma {:induction false} DropsDrain(w: Writer, v: Sight, f: Flags, m: Write)
    requires m.Claims? || m.Checks? || m.Audits? || m.Fails? || m.Discards?
    ensures Nearer(w, f, Settle(w, v, f, m))
  {
  }

  lemma {:induction false} SettleDrains(w: Writer, v: Sight, f: Flags, m: Write)
    requires Settle(w, v, f, m).Turn?
    ensures Nearer(w, f, Settle(w, v, f, m))
  {
    hide Settle, Nearer;
    match m
    case Claims => DropsDrain(w, v, f, m);
    case Checks => DropsDrain(w, v, f, m);
    case Audits(_) => DropsDrain(w, v, f, m);
    case Fails => DropsDrain(w, v, f, m);
    case Discards => DropsDrain(w, v, f, m);
    case _ => MovesOnDrain(w, v, f, m);
  }

  lemma {:induction false} WriterDrains(s: State, m: Write)
    requires Settle(s.writer, SightOf(s), s.flags, m).Turn?
    ensures Measure(WriterStep(s, m)) < Measure(s)
  {
    hide Settle, WriterWeight, ReaderWeight, FlagWeight, Sum;
    SettleDrains(s.writer, SightOf(s), s.flags, m);
    SettleBalances(s.writer, SightOf(s), s.flags, m);
  }

  lemma {:induction false} ReaderDrains(s: State, a: Act)
    requires !a.AdmitSend? && !a.Immediate?
    ensures ReaderStep(s, a) == s || Measure(ReaderStep(s, a)) < Measure(s)
  {
    hide Sum;
    StartedIsLess(s.writer);
  }

  lemma StartedIsLess(w: Writer)
    ensures WriterWeight(w, true) <= WriterWeight(w, false)
  {
  }

  lemma {:induction false} TerminateDrains(s: State, t: Ending)
    ensures TerminateStep(s, t) == s || Measure(TerminateStep(s, t)) < Measure(s)
  {
    hide Sum, WriterWeight;
  }

  /**
   With admissions stopped every step that does anything brings the end nearer: after at most `Measure` of them, in
   whatever order and with whatever outcome, nothing moves any more.
   */
  lemma {:induction false} Drains(steps: seq<Step>, e: Step)
    requires !Admission(e)
    ensures Run(steps + [e]) == Run(steps) || Measure(Run(steps + [e])) < Measure(Run(steps))
  {
    hide Measure, Decide, Settle;
    assert (steps + [e])[..|steps|] == steps;
    RunSound(steps);
    var s := Run(steps);
    match e
    case ByProducer(i, move) => if Has(s, i)
      && Decide(i, s.producers[i], Seen(s), move).Change? { ProducerDrains(s, i, move); }
    case ByReader(act) => ReaderDrains(s, act);
    case ByTerminate(ending) => TerminateDrains(s, ending);
    case ByWriter(write) => if Settle(s.writer, SightOf(s), s.flags, write).Turn? { WriterDrains(s, write); }
  }

  // -------- progress --------

  /** Steps the server takes of itself: not an arrival, not the end of a dispatch, not a failure. */
  predicate OwnStep(e: Step) {
    match e
    case ByProducer(_, move) => !move.Dispatched? && !move.EncodeFails?
    case ByReader(act) => act.ReaderResumes? || act.TerminalUnpublished? || act.HandOver? || act.ReaderStops?
    case ByTerminate(_) => false
    case ByWriter(write) => write != Writes(false) && write != Audits(false) && write != WritesTerminal(false)
  }

  /** Once the reader has returned, terminating is a step of its own: its deferred call runs it. */
  predicate Own(s: State, e: Step) {
    OwnStep(e) || (e.ByTerminate? && s.reader.Stopped?)
  }

  /** Steps that publish a batch, open its gate, give slots back, or move the writer on. */
  predicate SlotStep(e: Step) {
    match e
    case ByProducer(_, move) =>
      move.BeginPublish? || move.PushOne? || move.EndPublish? || move.ReturnToken? || move.OpenGate?
        || move.ReleaseSlot?
    case ByWriter(write) => OwnStep(e)
    case _ => false
  }

  ghost predicate CanMove(s: State, e: Step) {
    Measure(Next(s, e)) < Measure(s)
  }

  ghost predicate SlotsMove(s: State) {
    exists e :: SlotStep(e) && CanMove(s, e)
  }

  predicate Finishing(p: Producer) {
    p.phase.Reserved? || p.phase.Pushing? || p.phase.Queued? || p.phase.Returned?
      || (p.phase.Releasing? && p.phase.left > 0)
  }

  lemma {:induction false} LockHolderMoves(s: State, i: nat)
    requires ProducersOK(s) && Accounts(s) && Has(s, i) && s.producers[i].phase.Pushing?
    ensures SlotsMove(s)
  {
    hide Measure;
    AccountsNeverBlock(s);
    var p := s.producers[i];
    var e := ByProducer(i, if p.phase.pushed < p.phase.size then PushOne else EndPublish);
    ProducerDrains(s, i, e.move);
    assert SlotStep(e) && CanMove(s, e);
  }

  lemma {:induction false} FinishingMoves(s: State, i: nat)
    requires ProducersOK(s) && Accounts(s) && Has(s, i) && Finishing(s.producers[i])
    ensures SlotsMove(s)
  {
    hide Measure;
    var p := s.producers[i];
    assert ProducerOK(s, i);
    AccountsNeverBlock(s);
    if s.lock.Some? {
      assert ProducerOK(s, s.lock.value);
      LockHolderMoves(s, s.lock.value);
    } else {
      var m := if p.phase.Reserved? then BeginPublish else if p.phase.Queued? then ReturnToken
        else if p.phase.Returned? then OpenGate else ReleaseSlot;
      if p.phase.Queued? { assert HoldsToken(p) || !p.admitted; }
      ProducerDrains(s, i, m);
      assert SlotStep(ByProducer(i, m)) && CanMove(s, ByProducer(i, m));
    }
  }

  /** The writer has a step of its own, or waits for a gate that is about to open, or has nothing to do. */
  predicate WriterIdle(s: State) {
    s.writer.Exited? || s.writer.AwaitTerminal? ||
    (s.writer.Choosing? && s.queue == [] && !s.flags.terminalStarted && !s.flags.serveCancelled)
  }

  function WriterMove(s: State): Write {
    match s.writer
    case Top => Looks
    case Choosing => if s.queue != [] then TakesNext else if s.flags.terminalStarted then Signalled else ServeDone
    case Took(_) => Claims
    case AtGate(_) => PassesGate
    case GateOpen(_) => Checks
    case Writing(_) => Writes(true)
    case Auditing(_) => Audits(true)
    case Failing(_) => Fails
    case DiscardForTerminal => Discards
    case DiscardForExit => Discards
    case AwaitTerminal => if s.flags.serveCancelled then ServeDone else TakesTerminal
    case WritingTerminal => WritesTerminal(true)
    case Exited => Looks
  }

  lemma {:induction false} WriterMoves(s: State)
    requires Sound(s) && !WriterIdle(s)
    ensures SlotsMove(s)
  {
    hide Measure;
    AccountsNeverBlock(s);
    if s.lock.Some? {
      assert ProducerOK(s, s.lock.value);
      LockHolderMoves(s, s.lock.value);
    } else if s.writer.AtGate? && !GateIsOpen(s, s.writer.work) {
      var j: nat :| j < |s.pushed| && s.pushed[j] == s.writer.work;
      assert WorkOK(s, s.pushed[j]);
      FinishingMoves(s, s.writer.work.owner);
    } else {
      assert Settle(s.writer, SightOf(s), s.flags, WriterMove(s)).Turn?;
      WriterDrains(s, WriterMove(s));
      assert SlotStep(ByWriter(WriterMove(s))) && CanMove(s, ByWriter(WriterMove(s)));
    }
  }

  // -------- what is left when the writer has exited --------

  function Unpushed(s: State): nat {
    if s.lock.Some? && Has(s, s.lock.value) then HeldSlots(s.producers[s.lock.value]) else 0
  }

  /** A writer that has exited leaves at most the batch that was being pushed. */
  ghost predicate ExitOK(s: State) {
    s.writer.Exited? ==> s.flags.producersCancelled && |s.queue| + Unpushed(s) <= 2
  }

  lemma {:induction false} DecideAfterExit(i: nat, p: Producer, v: View, m: Move)
    requires ShapeOK(p) && Decide(i, p, v, m).Change? && v.flags.producersCancelled
    ensures var c := Decide(i, p, v, m);
      && !c.lock.Take?
      && (p.phase.Pushing? && c.lock.Keep? ==> HeldSlots(c.p) + |c.push| == HeldSlots(p))
      && (p.phase.Pushing? && c.lock.Drop? ==> c.push == [])
      && (!p.phase.Pushing? ==> c.push == [] && c.lock.Keep?)
  {
  }

  lemma {:induction false} ProducerExits(s: State, i: nat, m: Move)
    requires ExitOK(s) && ProducersOK(s)
    ensures ExitOK(ProducerStep(s, i, m))
  {
    hide Decide, HeldSlots;
    assert ProducerOK(s, i);
    if s.writer.Exited? && Has(s, i) && Decide(i, s.producers[i], Seen(s), m).Change? {
      DecideAfterExit(i, s.producers[i], Seen(s), m);
      if s.lock.Some? { assert ProducerOK(s, s.lock.value); }
    }
  }

  lemma {:induction false} WriterExits(s: State, m: Write)
    requires ExitOK(s) && Sound(s)
    ensures ExitOK(WriterStep(s, m))
  {
    if WriterStep(s, m).writer.Exited? && !s.writer.Exited? {
      assert s.queue == [] && s.flags.producersCancelled;
      if s.lock.Some? { assert ProducerOK(s, s.lock.value); }
    }
  }

  lemma {:induction false} RunExit(steps: seq<Step>)
    ensures ExitOK(Run(steps))
  {
    if steps != [] {
      var s, e := Run(steps[..|steps| - 1]), steps[|steps| - 1];
      RunExit(steps[..|steps| - 1]);
      RunSound(steps[..|steps| - 1]);
      NextExits(s, e);
      hide Next, ExitOK;
    }
  }

  lemma {:induction false} NextExits(s: State, e: Step)
    requires ExitOK(s) && Sound(s)
    ensures ExitOK(Next(s, e))
  {
    match e
    case ByProducer(i, move) =>
      ProducerExits(s, i, move);
      hide ProducerStep;
    case ByReader(act) =>
      ReaderExits(s, act);
      hide ReaderStep;
    case ByTerminate(_) =>
    case ByWriter(write) =>
      WriterExits(s, write);
      hide WriterStep;
  }

  lemma {:induction false} ReaderExits(s: State, a: Act)
    requires ExitOK(s) && ProducersOK(s)
    ensures ExitOK(ReaderStep(s, a))
  {
  }

  // -------- deadlock freedom --------

  /** A producer holding more slots than tokens is past its piecewise reservation, so it has a step. */
  lemma {:induction false} HeldBeyondTokens(s: State)
    requires ProducersOK(s) && Accounts(s) && Sum(HeldSlots, s.producers) > TOKENS
    ensures SlotsMove(s)
  {
    hide SlotsMove;
    if i: nat :| Has(s, i) && HeldSlots(s.producers[i]) > Tokens(s.producers[i]) {
      assert ProducerOK(s, i);
      FinishingMoves(s, i);
    } else {
      forall i: nat | i < |s.producers| ensures HeldSlots(s.producers[i]) <= Tokens(s.producers[i]) {
        assert Has(s, i);
      }
      SumBounded(HeldSlots, Tokens, s.producers);
      assert false;
    }
  }

  /**
   Slots are taken one at a time, yet never deadlock: whenever all 256 are taken, a publication, a gate, a release or
   the writer can move, because at most 128 workers wait with one slot each.
   */
  lemma {:induction false} FullSlotsMove(steps: seq<Step>)
    requires Run(steps).slots == SLOTS
    ensures exists e :: SlotStep(e) && Measure(Next(Run(steps), e)) < Measure(Run(steps))
  {
    var s := Run(steps);
    RunSound(steps);
    RunExit(steps);
    SlotsMoveWhenFull(s);
    var e :| SlotStep(e) && CanMove(s, e);
  }

  lemma {:induction false} SlotsMoveWhenFull(s: State)
    requires Sound(s) && ExitOK(s) && s.slots == SLOTS
    ensures SlotsMove(s)
  {
    hide SlotsMove;
    if !WriterIdle(s) {
      WriterMoves(s);
    } else {
      HeldBeyondTokens(s);
    }
  }

  /**
   Nothing left to do but to wait for an arrival or for a dispatch to end.  When the reader has stopped, no arrival is
   waited for, and the writer has exited.
   */
  ghost predicate Settled(s: State) {
    && (forall i: nat :: Has(s, i) ==> s.producers[i].phase.Dispatching? || !Unfinished(s.producers[i]))
    && (s.reader.Reading? || s.reader.Stopped?)
    && (|| s.writer.Exited?
        || (s.reader.Reading? && s.writer.Choosing? && s.queue == [] && !s.flags.terminalStarted
          && !s.flags.serveCancelled))
  }

  ghost predicate Moves(s: State) {
    exists e :: Own(s, e) && CanMove(s, e)
  }

  lemma SlotsMoveIsMove(s: State)
    requires SlotsMove(s)
    ensures Moves(s)
  {
    var e :| SlotStep(e) && CanMove(s, e);
    assert Own(s, e);
  }

  lemma {:induction false} ProducerMoves(s: State, i: nat)
    requires Sound(s) && ExitOK(s) && Has(s, i) && Unfinished(s.producers[i]) && !s.producers[i].phase.Dispatching?
    ensures Moves(s)
  {
    hide Measure, SlotsMove;
    var p := s.producers[i];
    assert ProducerOK(s, i);
    AccountsNeverBlock(s);
    if Finishing(p) {
      FinishingMoves(s, i);
      SlotsMoveIsMove(s);
    } else if p.phase.Reserving? && s.slots >= SLOTS {
      SlotsMoveWhenFull(s);
      SlotsMoveIsMove(s);
    } else {
      var m := if p.phase.Reserving? then ReserveSlot else GiveUp;
      ProducerDrains(s, i, m);
      assert Own(s, ByProducer(i, m)) && CanMove(s, ByProducer(i, m));
    }
  }

  lemma {:induction false} ReaderMoves(s: State, a: Act)
    requires OwnStep(ByReader(a)) && ReaderStep(s, a) != s
    ensures Moves(s)
  {
    hide Measure;
    ReaderDrains(s, a);
    assert Own(s, ByReader(a)) && CanMove(s, ByReader(a));
  }

  /** In every reachable state either some goroutine can take a step that brings the end nearer, or all is settled. */
  lemma {:induction false} DeadlockFree(steps: seq<Step>)
    ensures Settled(Run(steps)) || exists e :: Own(Run(steps), e) && Measure(Next(Run(steps), e)) < Measure(Run(steps))
  {
    var s := Run(steps);
    RunSound(steps);
    RunExit(steps);
    if !Settled(s) {
      MovesUnlessSettled(s);
      var e :| Own(s, e) && CanMove(s, e);
    }
  }

  /** The deferred `terminate()` goes through. */
  lemma {:induction false} EndingMoves(s: State)
    requires s.reader.Stopped? && !s.flags.serveCancelled
    ensures Moves(s)
  {
    var ending := if !s.flags.unpublished then Unpublish else if !s.flags.producersCancelled then CancelProducers
      else CancelServe;
    TerminateDrains(s, ending);
    hide Measure;
    assert Own(s, ByTerminate(ending)) && CanMove(s, ByTerminate(ending));
  }

  lemma {:induction false} MovesUnlessSettled(s: State)
    requires Sound(s) && ExitOK(s) && !Settled(s)
    ensures Moves(s)
  {
    hide Moves, SlotsMove, Accounts, ProducersOK, Ordered, PairsOK, WireSealed;
    if i: nat :| Has(s, i) && Unfinished(s.producers[i]) && !s.producers[i].phase.Dispatching? {
      ProducerMoves(s, i);
    } else if !WriterIdle(s) {
      WriterMoves(s);
      SlotsMoveIsMove(s);
    } else if s.reader.Enqueueing? {
      AnswererDone(s);
      ReaderMoves(s, ReaderResumes);
    } else if s.reader.Unpublishing? {
      ReaderMoves(s, TerminalUnpublished);
    } else if s.reader.HandingOver? {
      ReaderMoves(s, HandOver(true));
    } else if s.writer.AwaitTerminal? {
      AwaitingMoves(s);
    } else if s.reader.Stopped? {
      EndingMoves(s);
    } else {
      ReaderMoves(s, ReaderStops);
    }
  }

  lemma {:induction false} AnswererDone(s: State)
    requires Sound(s) && s.reader.Enqueueing?
    requires forall i: nat :: Has(s, i) && Unfinished(s.producers[i]) ==> s.producers[i].phase.Dispatching?
    ensures Has(s, s.reader.producer) && !Unfinished(s.producers[s.reader.producer])
  {
    assert ProducerOK(s, s.reader.producer);
  }

  lemma {:induction false} AwaitingMoves(s: State)
    requires Sound(s) && s.writer.AwaitTerminal?
      && (s.reader.AwaitingTerminal? || s.reader.Stopped? || s.reader.Reading?)
    ensures Moves(s)
  {
    hide Measure;
    assert Settle(s.writer, SightOf(s), s.flags, WriterMove(s)).Turn?;
    WriterDrains(s, WriterMove(s));
    assert Own(s, ByWriter(WriterMove(s))) && CanMove(s, ByWriter(WriterMove(s)));
  }

  // -------- the end --------

  /**
   When everything has settled and no dispatch runs, the slots still taken are exactly the responses still queued:
   none while the writer lives, and at most two once it has exited.
   */
  lemma {:induction false} SlotsAtTheEnd(steps: seq<Step>)
    requires Settled(Run(steps)) && forall i: nat :: Has(Run(steps), i) ==> !Run(steps).producers[i].phase.Dispatching?
    ensures var s := Run(steps);
      && s.tokens == 0 && s.slots == |s.queue| <= 2
      && (s.slots == 0 <==> s.queue == [])
      && (!s.writer.Exited? ==> s.slots == 0)
  {
    var s := Run(steps);
    RunSound(steps);
    RunExit(steps);
    forall i: nat | i < |s.producers| ensures HeldSlots(s.producers[i]) == 0 && Tokens(s.producers[i]) == 0 {
      assert Has(s, i);
    }
    SumZero(HeldSlots, s.producers);
    SumZero(Tokens, s.producers);
  }

  lemma RunSnoc(steps: seq<Step>, e: Step)
    ensures Run(steps + [e]) == Next(Run(steps), e)
  {
    assert (steps + [e])[..|steps|] == steps;
  }

  /** Responses that are queued, or that the holder of the admission lock is still to queue. */
  function LeftOver(s: State): nat {
    |s.queue| + Unpushed(s)
  }

  lemma {:induction false} ProducerLeaves(s: State, i: nat, m: Move)
    requires s.writer.Exited? && ExitOK(s) && ProducersOK(s)
    ensures LeftOver(ProducerStep(s, i, m)) == LeftOver(s)
  {
    hide Decide, HeldSlots;
    assert ProducerOK(s, i);
    if Has(s, i) && Decide(i, s.producers[i], Seen(s), m).Change? {
      DecideAfterExit(i, s.producers[i], Seen(s), m);
      if s.lock.Some? { assert ProducerOK(s, s.lock.value); }
      if s.lock == Some(i) && Decide(i, s.producers[i], Seen(s), m).lock.Drop? {
        DroppedAll(i, s.producers[i], Seen(s), m);
      }
    }
  }

  /** The lock is given up only by a batch that was pushed whole. */
  lemma {:induction false} DroppedAll(i: nat, p: Producer, v: View, m: Move)
    requires ShapeOK(p) && Decide(i, p, v, m).Change? && Decide(i, p, v, m).lock.Drop?
    ensures HeldSlots(p) == 0
  {
  }

  /** After the writer's exit nobody takes from the queue, and only the batch under publication is added to it. */
  lemma {:induction false} NextLeaves(s: State, e: Step)
    requires s.writer.Exited? && ExitOK(s) && ProducersOK(s)
    ensures Next(s, e).writer.Exited? && LeftOver(Next(s, e)) == LeftOver(s)
  {
    match e
    case ByProducer(i, move) => ProducerLeaves(s, i, move);
    case ByReader(act) => ReaderLeaves(s, act);
    case ByTerminate(_) =>
    case ByWriter(_) =>
  }

  lemma {:induction false} ReaderLeaves(s: State, a: Act)
    requires ProducersOK(s)
    ensures ReaderStep(s, a).writer == s.writer && LeftOver(ReaderStep(s, a)) == LeftOver(s)
  {
  }

  lemma {:induction false} RunLeaves(steps: seq<Step>, more: seq<Step>)
    requires Run(steps).writer.Exited?
    ensures Run(steps + more).writer.Exited? && LeftOver(Run(steps + more)) == LeftOver(Run(steps))
  {
    if more == [] {
      assert steps + more == steps;
    } else {
      var n := |more| - 1;
      RunLeaves(steps, more[..n]);
      RunSound(steps + more[..n]);
      RunExit(steps + more[..n]);
      NextLeaves(Run(steps + more[..n]), more[n]);
      assert steps + more == (steps + more[..n]) + [more[n]];
      RunSnoc(steps + more[..n], more[n]);
    }
  }

  /** The writer finds the queue empty when it exits. */
  lemma {:induction false} ExitsEmpty(s: State, e: Step)
    requires Sound(s) && !s.writer.Exited? && Next(s, e).writer.Exited?
    ensures Next(s, e).queue == []
  {
    hide Decide;
    match e
    case ByProducer(_, _) =>
    case ByReader(_) =>
    case ByTerminate(_) =>
    case ByWriter(write) =>
  }

  /**
   How many slots stay taken is decided at the writer's exit, the step `e`: as many as the holder of the admission lock
   then had responses still to push.  Every slot comes back if and only if there were none.
   */
  lemma {:induction false} SlotsStayTaken(steps: seq<Step>, e: Step, more: seq<Step>)
    requires !Run(steps).writer.Exited? && Run(steps + [e]).writer.Exited?
    requires var s := Run(steps + [e] + more);
      Settled(s) && forall i: nat :: Has(s, i) ==> !s.producers[i].phase.Dispatching?
    ensures Run(steps + [e] + more).slots == Unpushed(Run(steps + [e]))
  {
    var s := Run(steps + [e] + more);
    RunSound(steps);
    RunSnoc(steps, e);
    ExitsEmpty(Run(steps), e);
    RunLeaves(steps + [e], more);
    SlotsAtTheEnd(steps + [e] + more);
    RunSound(steps + [e] + more);
  }

  /** One admitted send whose publication is under way when the connection ends. */
  const OVERTAKEN: seq<Step> := [
    ByReader(AdmitSend(1)), ByProducer(0, Dispatched(true, None, 7)), ByProducer(0, ReserveSlot), ByWriter(Looks),
    ByProducer(0, BeginPublish), ByTerminate(Unpublish), ByTerminate(CancelProducers), ByTerminate(CancelServe),
    ByWriter(ServeDone), ByWriter(Discards), ByProducer(0, PushOne), ByProducer(0, EndPublish),
    ByProducer(0, ReturnToken), ByProducer(0, OpenGate), ByReader(ReadFails)]

  /** The connection with that one send, as it goes through the run. */
  function With(phase: Phase, payload: nat, slots: int, tokens: int, writer: Writer, reader: Reader, f: Flags): State {
    var work := Work(0, 1, 7, Only);
    var queued := if phase == Pushing(1, 1) || phase.Queued? || phase.Returned? || phase.Opened? then [work] else [];
    State([Producer(true, 1, 0, payload, phase)], tokens, slots, queued, queued,
          if phase.Pushing? then Some(0) else None, reader, writer, f, [], 0)
  }

  const RUNNING: Flags := Flags(false, false, false, false, false)
  const CANCELLED: Flags := Flags(false, false, true, true, true)

  lemma Stranding1()
    ensures Next(Start(), ByReader(AdmitSend(1))) == With(Dispatching, 0, 0, 1, Top, Reading, RUNNING)
    ensures Next(With(Dispatching, 0, 0, 1, Top, Reading, RUNNING), ByProducer(0, Dispatched(true, None, 7))) ==
      With(Reserving(1, 0), 7, 0, 1, Top, Reading, RUNNING)
  {
  }

  lemma Stranding2()
    ensures Next(With(Reserving(1, 0), 7, 0, 1, Top, Reading, RUNNING), ByProducer(0, ReserveSlot)) ==
      With(Reserved(1), 7, 1, 1, Top, Reading, RUNNING)
  {
  }

  lemma Stranding2b()
    ensures Next(With(Reserved(1), 7, 1, 1, Top, Reading, RUNNING), ByWriter(Looks)) ==
      With(Reserved(1), 7, 1, 1, Choosing, Reading, RUNNING)
  {
    var s := With(Reserved(1), 7, 1, 1, Top, Reading, RUNNING);
    assert Settle(s.writer, SightOf(s), s.flags, Looks) == Goes(s.flags, Choosing);
    hide Settle;
    assert s.wire + [] == s.wire;
  }

  lemma Stranding3()
    ensures Next(With(Reserved(1), 7, 1, 1, Choosing, Reading, RUNNING), ByProducer(0, BeginPublish)) ==
      With(Pushing(1, 0), 7, 1, 1, Choosing, Reading, RUNNING)
  {
  }

  lemma Stranding4()
    ensures Next(Next(Next(With(Pushing(1, 0), 7, 1, 1, Choosing, Reading, RUNNING), ByTerminate(Unpublish)),
      ByTerminate(CancelProducers)), ByTerminate(CancelServe)) ==
      With(Pushing(1, 0), 7, 1, 1, Choosing, Reading, CANCELLED)
  {
  }

  lemma Stranding5()
    ensures Next(With(Pushing(1, 0), 7, 1, 1, Choosing, Reading, CANCELLED), ByWriter(ServeDone)) ==
      With(Pushing(1, 0), 7, 1, 1, DiscardForExit, Reading, CANCELLED)
  {
    var s := With(Pushing(1, 0), 7, 1, 1, Choosing, Reading, CANCELLED);
    assert Settle(s.writer, SightOf(s), s.flags, ServeDone) == Goes(s.flags, DiscardForExit);
    hide Settle;
    assert s.wire + [] == s.wire;
  }

  lemma Stranding5b()
    ensures Next(With(Pushing(1, 0), 7, 1, 1, DiscardForExit, Reading, CANCELLED), ByWriter(Discards)) ==
      With(Pushing(1, 0), 7, 1, 1, Exited, Reading, CANCELLED)
  {
    var s := With(Pushing(1, 0), 7, 1, 1, DiscardForExit, Reading, CANCELLED);
    assert Settle(s.writer, SightOf(s), s.flags, Discards) == Goes(s.flags, Exited);
    hide Settle;
    assert s.wire + [] == s.wire;
  }

  lemma Stranding6()
    ensures Next(With(Pushing(1, 0), 7, 1, 1, Exited, Reading, CANCELLED), ByProducer(0, PushOne)) ==
      With(Pushing(1, 1), 7, 1, 1, Exited, Reading, CANCELLED)
    ensures Next(With(Pushing(1, 1), 7, 1, 1, Exited, Reading, CANCELLED), ByProducer(0, EndPublish)) ==
      With(Queued, 7, 1, 1, Exited, Reading, CANCELLED)
  {
  }

  lemma Stranding7()
    ensures Next(With(Queued, 7, 1, 1, Exited, Reading, CANCELLED), ByProducer(0, ReturnToken)) ==
      With(Returned, 7, 1, 0, Exited, Reading, CANCELLED)
    ensures Next(With(Returned, 7, 1, 0, Exited, Reading, CANCELLED), ByProducer(0, OpenGate)) ==
      With(Opened, 7, 1, 0, Exited, Reading, CANCELLED)
    ensures Next(With(Opened, 7, 1, 0, Exited, Reading, CANCELLED), ByReader(ReadFails)) ==
      With(Opened, 7, 1, 0, Exited, Stopped, CANCELLED)
  {
  }

  /** The claim that every slot is returned when the writer exits fails: here the response is queued after the exit. */
  lemma {:induction false} SlotStranded()
    ensures Run(OVERTAKEN) == With(Opened, 7, 1, 0, Exited, Stopped, CANCELLED)
    ensures Settled(Run(OVERTAKEN)) && Run(OVERTAKEN).slots == 1
  {
    hide Next, With;
    assert |OVERTAKEN| == 15 && OVERTAKEN[..0] == [] && OVERTAKEN[..15] == OVERTAKEN;
    hide Run;
    Forward(0);
    Forward(1);
    Forward(2);
    Forward(3);
    Forward(4);
    Forward(5);
    Forward(6);
    Forward(7);
    Forward(8);
    Forward(9);
    Forward(10);
    Forward(11);
    Forward(12);
    Forward(13);
    Forward(14);
    Stranding1();
    Stranding2();
    Stranding2b();
    Stranding3();
    Stranding4();
    Stranding5();
    Stranding5b();
    Stranding6();
    Stranding7();
    RunNone();
    StrandedSettled();
  }

  lemma RunNone()
    ensures Run([]) == Start()
  {
  }

  lemma StrandedSettled()
    ensures Settled(With(Opened, 7, 1, 0, Exited, Stopped, CANCELLED))
      && With(Opened, 7, 1, 0, Exited, Stopped, CANCELLED).slots == 1
  {
  }

  lemma Forward(n: nat)
    requires n < |OVERTAKEN|
    ensures Run(OVERTAKEN[..n + 1]) == Next(Run(OVERTAKEN[..n]), OVERTAKEN[n])
  {
    assert OVERTAKEN[..n + 1] == OVERTAKEN[..n] + [OVERTAKEN[n]];
    RunSnoc(OVERTAKEN[..n], OVERTAKEN[n]);
  }
}
