/** Order on the wire: pairs stay together, and a protocol failure pre-empts everything but one write under way. */
module SequencerOrder {
  import opened Sequencer
  import opened SequencerSafety

  // -------- pairs --------

  /** An original is followed at once by its repeat, unless its producer is about to push that repeat. */
  ghost predicate PairedAt(s: State, j: nat) {
    j < |s.pushed| ==>
      && (s.pushed[j].part.Original? ==>
            if j + 1 < |s.pushed| then s.pushed[j + 1].part.Repeat? && s.pushed[j + 1].owner == s.pushed[j].owner
            else MidBatch(s, s.pushed[j].owner))
      && (s.pushed[j].part.Repeat? ==> j > 0 && s.pushed[j - 1].part.Original?)
  }

  predicate MidBatch(s: State, i: nat) {
    Has(s, i) && s.producers[i].phase == Pushing(2, 1)
  }

  ghost predicate LastIsMine(s: State, i: nat) {
    MidBatch(s, i) ==> s.pushed != [] && s.pushed[|s.pushed| - 1].part.Original? && s.pushed[|s.pushed| - 1].owner == i
  }

  ghost predicate PairsOK(s: State) {
    ((forall j: nat :: PairedAt(s, j)) && (forall i: nat :: LastIsMine(s, i))) == true
  }

  lemma {:induction false} DecidePairs(i: nat, p: Producer, v: View, m: Move)
    requires Decide(i, p, v, m).Change? && ShapeOK(p)
    ensures var c := Decide(i, p, v, m);
      && (c.push == [] ==> p.phase != Pushing(2, 1) && c.p.phase != Pushing(2, 1))
      && (c.push != [] ==>
            && c.push[0].owner == i
            && (p.phase == Pushing(2, 1) <==> c.push[0].part.Repeat?)
            && (c.p.phase == Pushing(2, 1) <==> c.push[0].part.Original?))
  {
  }

  lemma {:induction false} ProducerPairs(s: State, i: nat, m: Move)
    requires PairsOK(s) && ProducersOK(s)
    ensures PairsOK(ProducerStep(s, i, m))
  {
    hide Decide;
    if Has(s, i) && Decide(i, s.producers[i], Seen(s), m).Change? {
      assert ProducerOK(s, i) && LastIsMine(s, i);
      DecidePairs(i, s.producers[i], Seen(s), m);
      DecidePushes(i, s.producers[i], Seen(s), m);
      var s' := ProducerStep(s, i, m);
      var n := |s.pushed|;
      if n > 0 { assert PairedAt(s, n - 1) && ProducerOK(s, s.pushed[n - 1].owner); }
      forall j: nat ensures PairedAt(s', j) { assert PairedAt(s, j); }
      forall k: nat ensures LastIsMine(s', k) { assert LastIsMine(s, k) && ProducerOK(s, k); }
    }
  }

  /** Nothing pushed, and nobody's batch touched. */
  lemma {:induction false} PairsKept(s: State, s': State)
    requires PairsOK(s) && s'.pushed == s.pushed
    requires |s.producers| <= |s'.producers| && s'.producers[..|s.producers|] == s.producers
    requires forall i: nat :: |s.producers| <= i < |s'.producers| ==> !s'.producers[i].phase.Pushing?
    ensures PairsOK(s')
  {
    forall i: nat | i < |s.producers| ensures s'.producers[i] == s.producers[i] {
      assert s'.producers[..|s.producers|][i] == s.producers[i];
    }
    forall j: nat ensures PairedAt(s', j) { assert PairedAt(s, j); }
    forall k: nat ensures LastIsMine(s', k) { assert LastIsMine(s, k); }
  }

  lemma {:induction false} NextPairs(s: State, e: Step)
    requires PairsOK(s) && ProducersOK(s)
    ensures PairsOK(Next(s, e))
  {
    hide PairsOK, ProducersOK, ProducerStep, ReaderStep, WriterStep;
    match e
    case ByProducer(i, move) => ProducerPairs(s, i, move);
    case ByReader(act) =>
      ReaderEffect(s, act);
      PairsKept(s, Next(s, e));
    case ByTerminate(_) => PairsKept(s, Next(s, e));
    case ByWriter(write) =>
      WriterLeavesProducers(s, write);
      PairsKept(s, Next(s, e));
  }

  // -------- the terminal transition --------

  predicate Failing(r: Reader) {
    r.Unpublishing? || r.HandingOver? || r.AwaitingTerminal? || r.Stopped?
  }

  /** Where the reader, the writer and the cancellations can stand together. */
  ghost predicate PlacesOK(s: State) {
    var f, r, w := s.flags, s.reader, s.writer;
    && (f.terminalStarted ==> f.producersCancelled && s.lock.None? && Failing(r))
    && (f.serveCancelled ==> f.producersCancelled && f.unpublished)
    && (r.Unpublishing? || r.HandingOver? || r.AwaitingTerminal? ==> f.terminalStarted)
    && (r.HandingOver? || r.AwaitingTerminal? ==> f.unpublished)
    && (f.terminalStarted && r.Stopped? ==> f.serveCancelled || w.Exited?)
    && (f.terminalQueued ==> f.terminalStarted && f.unpublished && (r.AwaitingTerminal? || r.Stopped?))
    && (w.DiscardForTerminal? || w.AwaitTerminal? || w.WritingTerminal? ==> f.terminalStarted)
    && (w.WritingTerminal? ==> f.unpublished && !f.terminalQueued && (r.AwaitingTerminal? || r.Stopped?))
    && (w.DiscardForExit? ==> f.serveCancelled)
    && (w.Exited? ==> f.producersCancelled && (f.serveCancelled || r.AwaitingTerminal? || r.Stopped?))
    && (r.AwaitingTerminal? && !f.terminalQueued ==> w.WritingTerminal? || w.Exited?)
    && (w.AwaitTerminal? || w.WritingTerminal? ==> s.queue == [])
    && (r.Enqueueing? ==> Has(s, r.producer) && !s.producers[r.producer].admitted)
  }

  ghost predicate TerminalOK(s: State) {
    PlacesOK(s) == true
  }

  /** The frames written since the terminal transition began. */
  function Tail(s: State): seq<Frame> {
    if s.flags.terminalStarted && 0 <= s.sealedAt <= |s.wire| then s.wire[s.sealedAt..] else []
  }

  /** Since the transition: at most one response, then at most one error frame; before it, no error frame. */
  ghost predicate SealedOK(s: State) {
    && s.sealedAt <= |s.wire|
    && (forall j: nat :: j < (if s.flags.terminalStarted then s.sealedAt else |s.wire|) ==> s.wire[j].Normal?)
    && |Tail(s)| <= 2
    && (s.flags.terminalStarted && s.writer.Writing? ==> Tail(s) == [])
    && (!s.writer.Exited? ==> |Tail(s)| <= 1 && (|Tail(s)| == 1 ==> Tail(s)[0].Normal?))
    && (|Tail(s)| == 2 ==> Tail(s)[0].Normal? && Tail(s)[1] == ErrorFrame)
  }

  ghost predicate WireSealed(s: State) {
    SealedOK(s) == true
  }

  lemma {:induction false} DecideLocks(i: nat, p: Producer, v: View, m: Move)
    requires Decide(i, p, v, m).Change?
    ensures var c := Decide(i, p, v, m);
      && (c.lock.Take? ==> !v.flags.terminalStarted && !v.flags.producersCancelled)
      && (c.push != [] ==> p.phase.Pushing?)
  {
  }

  lemma {:induction false} ProducerTerminal(s: State, i: nat, m: Move)
    requires TerminalOK(s) && WireSealed(s) && ProducersOK(s)
    ensures TerminalOK(ProducerStep(s, i, m)) && WireSealed(ProducerStep(s, i, m))
  {
    hide Decide;
    assert ProducerOK(s, i);
    if Has(s, i) && Decide(i, s.producers[i], Seen(s), m).Change? {
      DecideLocks(i, s.producers[i], Seen(s), m);
      DecideBalances(i, s.producers[i], Seen(s), m);
    }
  }

  lemma {:induction false} ReaderTerminal(s: State, a: Act)
    requires TerminalOK(s) && WireSealed(s)
    ensures TerminalOK(ReaderStep(s, a)) && WireSealed(ReaderStep(s, a))
  {
    assert Tail(ReaderStep(s, a)) == Tail(s) || a.StartTerminal?;
  }

  lemma {:induction false} TerminateTerminal(s: State, t: Ending)
    requires TerminalOK(s) && WireSealed(s)
    ensures TerminalOK(TerminateStep(s, t)) && WireSealed(TerminateStep(s, t))
  {
    assert Tail(TerminateStep(s, t)) == Tail(s);
  }

  /** What a writer's move means for the terminal transition. */
  lemma {:induction false} SettlePlaces(s: State, m: Write)
    requires TerminalOK(s)
    ensures TerminalOK(WriterStep(s, m))
  {
    WriterLeavesProducers(s, m);
  }

  lemma {:induction false} SettleSeals(w: Writer, v: Sight, f: Flags, m: Write)
    requires Settle(w, v, f, m).Turn?
    ensures var t := Settle(w, v, f, m);
      && t.flags.terminalStarted == f.terminalStarted
      && !w.Exited?
      && (f.terminalStarted && t.writer.Writing? ==> false)
      && (t.frames == [ErrorFrame] ==> w.WritingTerminal? && t.writer.Exited?)
  {
  }

  lemma {:induction false} WriterSeals(s: State, m: Write)
    requires TerminalOK(s) && WireSealed(s)
    ensures WireSealed(WriterStep(s, m))
  {
    hide Settle, SightOf;
    var t := Settle(s.writer, SightOf(s), s.flags, m);
    if t.Turn? {
      SettleSeals(s.writer, SightOf(s), s.flags, m);
      SettleEffect(s.writer, SightOf(s), s.flags, m);
      WriterLeavesProducers(s, m);
      assert Tail(WriterStep(s, m)) == if s.flags.terminalStarted then Tail(s) + t.frames else [];
    }
  }

  lemma {:induction false} NextTerminal(s: State, e: Step)
    requires TerminalOK(s) && WireSealed(s) && ProducersOK(s)
    ensures TerminalOK(Next(s, e)) && WireSealed(Next(s, e))
  {
    hide TerminalOK, WireSealed, ProducersOK, ProducerStep, ReaderStep, WriterStep;
    match e
    case ByProducer(i, move) => ProducerTerminal(s, i, move);
    case ByReader(act) => ReaderTerminal(s, act);
    case ByTerminate(ending) => TerminateTerminal(s, ending);
    case ByWriter(write) => SettlePlaces(s, write); WriterSeals(s, write);
  }

  // -------- every run --------

  ghost predicate Sound(s: State) {
    Accounts(s) && ProducersOK(s) && Ordered(s) && PairsOK(s) && TerminalOK(s) && WireSealed(s)
  }

  lemma {:induction false} RunSound(steps: seq<Step>)
    ensures Sound(Run(steps))
  {
    hide Accounts, ProducersOK, Ordered, PairsOK, TerminalOK, WireSealed, Next;
    if steps == [] {
      StartSound();
    } else {
      var s, e := Run(steps[..|steps| - 1]), steps[|steps| - 1];
      RunSound(steps[..|steps| - 1]);
      NextAccounts(s, e);
      NextOrdered(s, e);
      NextPairs(s, e);
      NextTerminal(s, e);
    }
  }

  lemma {:induction false} StartSound()
    ensures Sound(Start())
  {
    hide Accounts, ProducersOK, Ordered, PairsOK;
    RunAccounts([]);
    StartOrdered();
    StartPairs();
  }

  lemma StartOrdered()
    ensures Ordered(Start())
  {
  }

  lemma StartPairs()
    ensures PairsOK(Start())
  {
  }

  /** In the queue a send's own response and its attached repeat sit side by side, with one and the same result. */
  lemma {:induction false} PairsAdjacent(steps: seq<Step>, j: nat)
    requires var s := Run(steps); j + 1 < |s.queue| && s.queue[j].part.Original?
    ensures var s := Run(steps);
      && s.queue[j + 1].part.Repeat? && s.queue[j + 1].owner == s.queue[j].owner
      && s.queue[j + 1].payload == s.queue[j].payload
      && s.queue[j].owner < |s.producers|
      && s.queue[j].requestID == s.producers[s.queue[j].owner].requestID
      && s.queue[j + 1].requestID == s.producers[s.queue[j].owner].repeatID
  {
    RunSound(steps);
    var s := Run(steps);
    var k := |s.pushed| - |s.queue| + j;
    assert s.pushed[k] == s.queue[j] && s.pushed[k + 1] == s.queue[j + 1];
    assert PairedAt(s, k);
    assert WorkOK(s, s.pushed[k]) && WorkOK(s, s.pushed[k + 1]);
  }

  /**
   Once the terminal transition has begun: no response enters the queue; the frames written since are at most one
   response, which was being written then, and at most one error frame, in that order; and the error frame goes out
   only after the session was unpublished.
   */
  lemma {:induction false} TerminalPreempts(steps: seq<Step>, e: Step)
    requires Run(steps).flags.terminalStarted
    ensures var s, s' := Run(steps), Run(steps + [e]);
      && s'.pushed == s.pushed && s'.flags.terminalStarted && s'.sealedAt == s.sealedAt <= |s.wire|
      && |s.wire[s.sealedAt..]| <= 2
      && (|s.wire[s.sealedAt..]| == 2 ==> s.wire[s.sealedAt].Normal? && s.wire[s.sealedAt + 1] == ErrorFrame)
      && (s'.wire != s.wire ==>
            || (s.writer.Writing? && s'.wire == s.wire + [Normal(s.writer.work)] && s.wire[s.sealedAt..] == [])
            || (s'.wire == s.wire + [ErrorFrame] && s'.writer.Exited? && s.flags.unpublished))
      && (s.writer.Exited? ==> s'.wire == s.wire)
  {
    var s := Run(steps);
    assert (steps + [e])[..|steps|] == steps;
    RunSound(steps);
    RunSound(steps + [e]);
    TerminalStep(s, e);
  }

  lemma {:induction false} TerminalStep(s: State, e: Step)
    requires s.flags.terminalStarted && TerminalOK(s) && WireSealed(s) && ProducersOK(s)
    ensures Next(s, e).pushed == s.pushed && Next(s, e).flags.terminalStarted && Next(s, e).sealedAt == s.sealedAt
    ensures Next(s, e).wire == s.wire ||
      (s.writer.Writing? && Next(s, e).wire == s.wire + [Normal(s.writer.work)] && Tail(s) == []) ||
      (s.writer.WritingTerminal? && Next(s, e).wire == s.wire + [ErrorFrame] && Next(s, e).writer.Exited?
        && s.flags.unpublished)
  {
    hide Decide, Settle, SightOf;
    match e
    case ByProducer(i, move) =>
      assert ProducerOK(s, i);
      if Has(s, i) && Decide(i, s.producers[i], Seen(s), move).Change? {
        DecideLocks(i, s.producers[i], Seen(s), move);
      }
    case ByReader(_) =>
    case ByTerminate(_) =>
    case ByWriter(write) =>
      if Settle(s.writer, SightOf(s), s.flags, write).Turn? {
        SettleSeals(s.writer, SightOf(s), s.flags, write);
        SettleEffect(s.writer, SightOf(s), s.flags, write);
      }
  }

  // -------- capacity --------

  /** The admitted sends that have had no response of any kind. */
  ghost function Unanswered(s: State): set<nat> {
    set i: nat | i < |s.producers| && s.producers[i].admitted && !Answered(s, i)
  }

  ghost predicate Answered(s: State, i: nat) {
    exists j: nat :: j < |s.wire| && s.wire[j].Normal? && s.wire[j].work.owner == i
  }

  function Holders(ps: seq<Producer>): set<nat> {
    set i: nat | i < |ps| && HoldsToken(ps[i])
  }

  lemma {:induction false} TokensAreHolders(ps: seq<Producer>)
    ensures Sum(Tokens, ps) == |Holders(ps)|
  {
    if ps != [] {
      var n := |ps| - 1;
      TokensAreHolders(ps[..n]);
      assert Holders(ps) == if HoldsToken(ps[n]) then Holders(ps[..n]) + {n} else Holders(ps[..n]);
    } else {
      assert Holders(ps) == {};
    }
  }

  lemma SmallerSet(a: set<nat>, b: set<nat>)
    requires a <= b
    ensures |a| <= |b|
  {
    assert b == a + (b - a);
  }

  /**
   A send classified as new is denied for lack of capacity only while 128 earlier sends are unanswered; a token is
   back before a gate opens, so an answered send never counts.
   */
  lemma {:induction false} CapacityGuarantee(steps: seq<Step>, requestID: nat)
    requires var s := Run(steps); s.reader.Reading? && |Unanswered(s)| < TOKENS
    ensures Run(steps).tokens < TOKENS
    ensures Next(Run(steps), ByReader(AdmitSend(requestID))).producers == Run(steps).producers + [Worker(requestID)]
  {
    var s := Run(steps);
    RunSound(steps);
    TokensAreHolders(s.producers);
    forall i | i in Holders(s.producers) ensures i in Unanswered(s) {
      forall j: nat | j < |s.wire| && s.wire[j].Normal? ensures s.wire[j].work.owner != i {
        assert GateIsOpen(s, s.wire[j].work);
      }
    }
    SmallerSet(Holders(s.producers), Unanswered(s));
  }

  /** The sends whose dispatch still runs. */
  function Undispatched(s: State): set<nat> {
    set i: nat | i < |s.producers| && s.producers[i].phase.Dispatching?
  }

  /** Each of them holds a token, so there are at most 128. */
  lemma {:induction false} DispatchesHoldTokens(steps: seq<Step>)
    ensures |Undispatched(Run(steps))| <= Run(steps).tokens <= TOKENS
  {
    var s := Run(steps);
    RunSound(steps);
    TokensAreHolders(s.producers);
    forall i | i in Undispatched(s) ensures i in Holders(s.producers) { assert ProducerOK(s, i); }
    SmallerSet(Undispatched(s), Holders(s.producers));
  }
}
