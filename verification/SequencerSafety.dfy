/** Accounting, ordering and gates of the sequencer, in every reachable state. */
module SequencerSafety {
  import opened Wrappers
  import opened Sequencer

  // -------- sums over the producers --------

  lemma {:induction false} SumUpdate(f: Producer -> nat, ps: seq<Producer>, i: nat, p: Producer)
    requires i < |ps|
    ensures Sum(f, ps[i := p]) + f(ps[i]) == Sum(f, ps) + f(p)
    decreases |ps|
  {
    var n := |ps| - 1;
    if i == n {
      assert ps[i := p][..n] == ps[..n];
    } else {
      SumUpdate(f, ps[..n], i, p);
      assert ps[i := p][..n] == ps[..n][i := p];
    }
  }

  lemma SumAppend(f: Producer -> nat, ps: seq<Producer>, p: Producer)
    ensures Sum(f, ps + [p]) == Sum(f, ps) + f(p)
  {
    assert (ps + [p])[..|ps|] == ps;
  }

  lemma {:induction false} SumBounded(f: Producer -> nat, g: Producer -> nat, ps: seq<Producer>)
    requires forall i :: 0 <= i < |ps| ==> f(ps[i]) <= g(ps[i])
    ensures Sum(f, ps) <= Sum(g, ps)
  {
    if ps != [] { SumBounded(f, g, ps[..|ps| - 1]); }
  }

  lemma {:induction false} SumAtLeast(f: Producer -> nat, ps: seq<Producer>, i: nat)
    requires i < |ps|
    ensures f(ps[i]) <= Sum(f, ps)
  {
    if i < |ps| - 1 { SumAtLeast(f, ps[..|ps| - 1], i); }
  }

  lemma {:induction false} SumZero(f: Producer -> nat, ps: seq<Producer>)
    requires forall i :: 0 <= i < |ps| ==> f(ps[i]) == 0
    ensures Sum(f, ps) == 0
  {
    if ps != [] { SumZero(f, ps[..|ps| - 1]); }
  }

  // -------- accounting --------

  /** Every occupied slot has exactly one owner, and every token too. */
  ghost predicate Accounts(s: State) {
    && s.slots == Sum(HeldSlots, s.producers) + |s.queue| + Active(s.writer)
    && s.slots <= SLOTS
    && s.tokens == Sum(Tokens, s.producers)
    && s.tokens <= TOKENS
  }

  ghost predicate ShapeOK(p: Producer) {
    && (p.phase.Reserving? ==> 1 <= p.phase.size <= 2 && p.phase.reserved < p.phase.size)
    && (p.phase.Reserved? ==> 1 <= p.phase.size <= 2)
    && (p.phase.Pushing? ==> 1 <= p.phase.size <= 2 && p.phase.pushed <= p.phase.size)
    && (p.phase.Releasing? ==> p.phase.left <= 2)
    && (!p.admitted ==> !p.phase.Dispatching? && !p.phase.Queued? && !p.phase.Returned?)
    && (!p.admitted && (p.phase.Reserving? || p.phase.Reserved? || p.phase.Pushing?) ==> p.phase.size == 1)
  }

  ghost predicate ProducerOK(s: State, i: nat) {
    Has(s, i) ==> ShapeOK(s.producers[i]) && (s.lock == Some(i) <==> s.producers[i].phase.Pushing?)
  }

  ghost predicate ProducersOK(s: State) {
    ((forall i: nat :: ProducerOK(s, i)) && (s.lock.Some? ==> Has(s, s.lock.value))) == true
  }

  /**
   A move keeps a producer's shape, and moves slots, tokens and queued responses about without making or losing one.
   */
  lemma {:induction false} DecideBalances(i: nat, p: Producer, v: View, m: Move)
    requires ShapeOK(p) && Decide(i, p, v, m).Change?
    ensures var c := Decide(i, p, v, m);
      && ShapeOK(c.p) && c.p.admitted == p.admitted
      && HeldSlots(c.p) + |c.push| == HeldSlots(p) + c.slots
      && Tokens(c.p) == Tokens(p) + c.tokens
      && (c.slots > 0 ==> v.slots + c.slots <= SLOTS)
      && c.tokens <= 0
      && (c.lock.Keep? ==> (c.p.phase.Pushing? <==> p.phase.Pushing?))
      && (c.lock.Take? ==> !v.locked && c.p.phase.Pushing?)
      && (c.lock.Drop? ==> p.phase.Pushing? && !c.p.phase.Pushing?)
  {
  }

  lemma {:induction false} ProducerStepKeeps(s: State, i: nat, m: Move)
    requires ProducersOK(s)
    ensures ProducersOK(ProducerStep(s, i, m))
  {
    hide Decide;
    assert ProducerOK(s, i);
    if Has(s, i) && Decide(i, s.producers[i], Seen(s), m).Change? {
      DecideBalances(i, s.producers[i], Seen(s), m);
      forall j: nat ensures ProducerOK(ProducerStep(s, i, m), j) { assert ProducerOK(s, j); }
    }
  }

  /** What a reader's move does to the producers: nothing, or one more of them. */
  lemma {:induction false} ReaderEffect(s: State, a: Act)
    ensures var s' := ReaderStep(s, a);
      && s'.slots == s.slots && s'.queue == s.queue && s'.pushed == s.pushed && s'.writer == s.writer
      && s'.wire == s.wire
      && s'.lock == s.lock
      && ((s'.producers == s.producers && s'.tokens == s.tokens)
          || (exists n: nat :: s'.producers == s.producers + [Worker(n)] && s'.tokens == s.tokens + 1 <= TOKENS)
          || (exists n: nat, payload: nat ::
            s'.producers == s.producers + [Answerer(n, payload)] && s'.tokens == s.tokens))
  {
    match a
    case AdmitSend(n) => assert Add(s, Worker(n), 1, Reading).producers == s.producers + [Worker(n)];
      assert Add(s, Answerer(n, CAPACITY), 0, Enqueueing(|s.producers|)).producers == s.producers +
        [Answerer(n, CAPACITY)];
    case Immediate(n, payload) =>
      assert Add(s, Answerer(n, payload), 0, Enqueueing(|s.producers|)).producers == s.producers +
        [Answerer(n, payload)];
    case _ =>
  }

  lemma {:induction false} ReaderStepKeeps(s: State, a: Act)
    requires ProducersOK(s)
    ensures ProducersOK(ReaderStep(s, a))
  {
    hide ReaderStep;
    ReaderEffect(s, a);
    forall j: nat ensures ProducerOK(ReaderStep(s, a), j) { assert ProducerOK(s, j); }
  }

  /** One producer moved on: its slots and tokens are counted anew, the others' are not. */
  lemma {:induction false} Moved(s: State, i: nat, p: Producer)
    requires Accounts(s) && Has(s, i)
    ensures Sum(HeldSlots, s.producers[i := p]) == s.slots - |s.queue| - Active(s.writer) - HeldSlots(s.producers[i]) +
      HeldSlots(p)
    ensures Sum(Tokens, s.producers[i := p]) == s.tokens - Tokens(s.producers[i]) + Tokens(p)
    ensures HeldSlots(s.producers[i]) + |s.queue| + Active(s.writer) <= s.slots
    ensures Tokens(s.producers[i]) <= s.tokens
  {
    SumUpdate(HeldSlots, s.producers, i, p);
    SumUpdate(Tokens, s.producers, i, p);
    SumAtLeast(HeldSlots, s.producers, i);
    SumAtLeast(Tokens, s.producers, i);
  }

  lemma {:induction false} ProducerStepAccounts(s: State, i: nat, m: Move)
    requires Accounts(s) && ProducersOK(s)
    ensures Accounts(ProducerStep(s, i, m))
  {
    hide Decide, HeldSlots, Tokens;
    assert ProducerOK(s, i);
    if Has(s, i) && Decide(i, s.producers[i], Seen(s), m).Change? {
      DecideBalances(i, s.producers[i], Seen(s), m);
      Moved(s, i, Decide(i, s.producers[i], Seen(s), m).p);
    }
  }

  lemma {:induction false} ReaderStepAccounts(s: State, a: Act)
    requires Accounts(s)
    ensures Accounts(ReaderStep(s, a))
  {
    hide ReaderStep;
    ReaderEffect(s, a);
    var s' := ReaderStep(s, a);
    if s'.producers != s.producers {
      var p := s'.producers[|s.producers|];
      assert s'.producers == s.producers + [p];
      SumAppend(HeldSlots, s.producers, p);
      SumAppend(Tokens, s.producers, p);
    }
  }

  /** A writer's move frees the slot of what it drops, and no other. */
  lemma {:induction false} SettleBalances(w: Writer, v: Sight, f: Flags, m: Write)
    requires Settle(w, v, f, m).Turn?
    ensures var t := Settle(w, v, f, m);
      && (t.pop ==> v.front.Some?)
      && t.freed + Active(t.writer) == Active(w) + (if t.pop then 1 else 0)
      && (t.freed > 0 ==> v.slots > 0)
  {
  }

  lemma {:induction false} WriterStepAccounts(s: State, m: Write)
    requires Accounts(s)
    ensures Accounts(WriterStep(s, m))
  {
    hide Settle;
    if Settle(s.writer, SightOf(s), s.flags, m).Turn? { SettleBalances(s.writer, SightOf(s), s.flags, m); }
  }

  lemma {:induction false} NextAccounts(s: State, e: Step)
    requires Accounts(s) && ProducersOK(s)
    ensures Accounts(Next(s, e)) && ProducersOK(Next(s, e))
  {
    hide Accounts, ProducerStep, ReaderStep, WriterStep;
    match e
    case ByProducer(i, move) => ProducerStepAccounts(s, i, move); ProducerStepKeeps(s, i, move);
    case ByReader(act) => ReaderStepAccounts(s, act); ReaderStepKeeps(s, act);
    case ByTerminate(ending) => TerminateAccounts(s, ending);
    case ByWriter(write) => WriterStepAccounts(s, write); WriterLeavesProducers(s, write);
  }

  lemma {:induction false} TerminateAccounts(s: State, t: Ending)
    requires Accounts(s) && ProducersOK(s)
    ensures Accounts(TerminateStep(s, t)) && ProducersOK(TerminateStep(s, t))
  {
    forall j: nat ensures ProducerOK(TerminateStep(s, t), j) { assert ProducerOK(s, j); }
  }

  lemma {:induction false} WriterLeavesProducers(s: State, m: Write)
    ensures ProducersOK(s) ==> ProducersOK(WriterStep(s, m))
    ensures WriterStep(s, m).producers == s.producers && WriterStep(s, m).lock == s.lock
      && WriterStep(s, m).pushed == s.pushed
    ensures WriterStep(s, m).reader == s.reader && WriterStep(s, m).sealedAt == s.sealedAt
  {
    hide Settle, SightOf;
    if ProducersOK(s) {
      forall j: nat ensures ProducerOK(WriterStep(s, m), j) { assert ProducerOK(s, j); }
    }
  }

  /** No channel operation that the source performs without a fallback ever blocks. */
  ghost predicate NeverBlocks(s: State) {
    && (forall i: nat ::
          Has(s, i) && s.producers[i].phase.Pushing? && s.producers[i].phase.pushed < s.producers[i].phase.size ==>
            |s.queue| < SLOTS)
    && (forall i: nat :: Has(s, i) && s.producers[i].phase.Releasing? && s.producers[i].phase.left > 0 ==> s.slots > 0)
    && (forall i: nat :: Has(s, i) && HoldsToken(s.producers[i]) ==> s.tokens > 0)
    && (Busy(s.writer) || s.queue != [] ==> s.slots > 0)
  }

  lemma {:induction false} AccountsNeverBlock(s: State)
    requires Accounts(s) && ProducersOK(s)
    ensures NeverBlocks(s)
  {
    forall i: nat | Has(s, i)
      ensures s.producers[i].phase.Pushing? && s.producers[i].phase.pushed < s.producers[i].phase.size ==>
      |s.queue| < SLOTS
      ensures s.producers[i].phase.Releasing? && s.producers[i].phase.left > 0 ==> s.slots > 0
      ensures HoldsToken(s.producers[i]) ==> s.tokens > 0
    {
      Moved(s, i, s.producers[i]);
    }
  }

  lemma {:induction false} RunAccounts(steps: seq<Step>)
    ensures Accounts(Run(steps)) && ProducersOK(Run(steps)) && NeverBlocks(Run(steps))
  {
    if steps == [] {
      assert Sum(HeldSlots, []) == 0 && Sum(Tokens, []) == 0;
    } else {
      RunAccounts(steps[..|steps| - 1]);
      NextAccounts(Run(steps[..|steps| - 1]), steps[|steps| - 1]);
    }
    AccountsNeverBlock(Run(steps));
  }

  // -------- responses --------

  predicate Pushed(phase: Phase) {
    phase.Pushing? || phase.Queued? || phase.Returned? || phase.Opened?
  }

  /** A response that was queued is its producer's, and its producer has got at least as far as pushing it. */
  ghost predicate WorkOK(s: State, w: Work) {
    && Has(s, w.owner)
    && var p := s.producers[w.owner];
    && Pushed(p.phase)
    && w.payload == p.payload && w.requestID == (if w.part.Repeat? then p.repeatID else p.requestID)
  }

  ghost predicate QueueOK(s: State) {
    && |s.queue| <= |s.pushed| && s.queue == s.pushed[|s.pushed| - |s.queue|..]
    && (forall j: nat :: j < |s.pushed| ==> WorkOK(s, s.pushed[j]))
    && (Busy(s.writer) ==> s.writer.work in s.pushed)
    && (forall j: nat :: j < |s.wire| && s.wire[j].Normal? ==> s.wire[j].work in s.pushed)
  }

  /** A response is written only once its gate is open. */
  ghost predicate GatesOK(s: State) {
    && (forall j: nat :: j < |s.wire| && s.wire[j].Normal? ==> GateIsOpen(s, s.wire[j].work))
    && (PastGate(s.writer) ==> GateIsOpen(s, s.writer.work))
  }

  ghost predicate Ordered(s: State) {
    (QueueOK(s) && GatesOK(s)) == true
  }

  ghost predicate OnwardAt(s: State, s': State, i: nat) {
    Has(s, i) ==>
      && Has(s', i)
      && var p, p' := s.producers[i], s'.producers[i];
      && p'.admitted == p.admitted
      && (p.phase.Opened? ==> p'.phase.Opened?)
      && (Pushed(p.phase) ==>
            Pushed(p'.phase) && p'.payload == p.payload && p'.requestID == p.requestID && p'.repeatID == p.repeatID)
  }

  /** Producers only go on: what is queued stays queued, and an open gate stays open. */
  ghost predicate Onward(s: State, s': State) {
    (forall i: nat :: OnwardAt(s, s', i)) == true
  }

  lemma {:induction false} DecideOnward(i: nat, p: Producer, v: View, m: Move)
    requires Decide(i, p, v, m).Change?
    ensures var p' := Decide(i, p, v, m).p;
      && p'.admitted == p.admitted
      && (p.phase.Opened? ==> p'.phase.Opened?)
      && (Pushed(p.phase) ==>
            Pushed(p'.phase) && p'.payload == p.payload && p'.requestID == p.requestID && p'.repeatID == p.repeatID)
  {
  }

  lemma {:induction false} ProducerOnward(s: State, i: nat, m: Move)
    ensures Onward(s, ProducerStep(s, i, m))
  {
    hide Decide;
    if Has(s, i) && Decide(i, s.producers[i], Seen(s), m).Change? { DecideOnward(i, s.producers[i], Seen(s), m); }
    forall j: nat ensures OnwardAt(s, ProducerStep(s, i, m), j) {}
  }

  lemma {:induction false} StepOnward(s: State, e: Step)
    ensures Onward(s, Next(s, e))
  {
    hide ProducerStep, ReaderStep, WriterStep;
    match e
    case ByProducer(i, move) => ProducerOnward(s, i, move);
    case ByReader(act) =>
      ReaderEffect(s, act);
      forall j: nat ensures OnwardAt(s, Next(s, e), j) {}
    case ByWriter(write) =>
      WriterLeavesProducers(s, write);
      forall j: nat ensures OnwardAt(s, Next(s, e), j) {}
    case ByTerminate(_) =>
      forall j: nat ensures OnwardAt(s, Next(s, e), j) {}
  }

  lemma {:induction false} WorkKept(s: State, s': State, w: Work)
    requires Onward(s, s') && WorkOK(s, w)
    ensures WorkOK(s', w)
  {
    assert OnwardAt(s, s', w.owner);
  }

  lemma {:induction false} GateKept(s: State, s': State, w: Work)
    requires Onward(s, s') && GateIsOpen(s, w)
    ensures GateIsOpen(s', w)
  {
    assert OnwardAt(s, s', w.owner);
  }

  /** The queue takes at most one response at its back; the writer and the wire are left alone. */
  lemma {:induction false} QueuedKeeps(s: State, s': State, push: seq<Work>)
    requires Ordered(s) && Onward(s, s') && |push| <= 1
    requires s'.queue == s.queue + push && s'.pushed == s.pushed + push && s'.writer == s.writer && s'.wire == s.wire
    requires push != [] ==> WorkOK(s', push[0])
    ensures Ordered(s')
  {
    hide Onward, WorkOK, GateIsOpen;
    forall j: nat | j < |s'.pushed| ensures WorkOK(s', s'.pushed[j]) {
      if j < |s.pushed| { WorkKept(s, s', s.pushed[j]); }
    }
    forall j: nat | j < |s.wire| && s.wire[j].Normal? ensures GateIsOpen(s', s.wire[j].work) {
      GateKept(s, s', s.wire[j].work);
    }
    if PastGate(s.writer) { GateKept(s, s', s.writer.work); }
    assert s'.queue == s'.pushed[|s'.pushed| - |s'.queue|..];
  }

  /** A response is pushed by its own producer, mid-batch. */
  lemma {:induction false} DecidePushes(i: nat, p: Producer, v: View, m: Move)
    requires Decide(i, p, v, m).Change? && ShapeOK(p)
    ensures var c := Decide(i, p, v, m);
      && |c.push| <= 1
      && (c.push != [] ==>
            && p.phase.Pushing? && p.phase.pushed < p.phase.size
            && c.p == p.(phase := Pushing(p.phase.size, p.phase.pushed + 1))
            && c.push == [Piece(i, p, p.phase.size, p.phase.pushed)])
  {
  }

  lemma {:induction false} ProducerOrdered(s: State, i: nat, m: Move)
    requires Ordered(s) && ProducersOK(s)
    ensures Ordered(ProducerStep(s, i, m))
  {
    hide Decide, Ordered, Onward;
    assert ProducerOK(s, i);
    if Has(s, i) && Decide(i, s.producers[i], Seen(s), m).Change? {
      DecidePushes(i, s.producers[i], Seen(s), m);
      ProducerOnward(s, i, m);
      QueuedKeeps(s, ProducerStep(s, i, m), Decide(i, s.producers[i], Seen(s), m).push);
    }
  }

  /** What a writer's move may touch. */
  lemma {:induction false} SettleEffect(w: Writer, v: Sight, f: Flags, m: Write)
    requires Settle(w, v, f, m).Turn?
    ensures var t := Settle(w, v, f, m);
      && (Busy(t.writer) ==>
        (Busy(w) && t.writer.work == w.work && !t.pop) || (t.pop && t.writer == Took(v.front.value)))
      && (PastGate(t.writer) ==> v.gate || PastGate(w))
      && (t.frames == [] || (w.WritingTerminal? && t.frames == [ErrorFrame])
        || (w.Writing? && t.frames == [Normal(w.work)]))
  {
  }

  lemma {:induction false} WriterOrdered(s: State, m: Write)
    requires Ordered(s)
    ensures Ordered(WriterStep(s, m))
  {
    hide Settle, GateIsOpen, WorkOK;
    var s' := WriterStep(s, m);
    var t := Settle(s.writer, SightOf(s), s.flags, m);
    if t.Turn? {
      SettleEffect(s.writer, SightOf(s), s.flags, m);
      SettleBalances(s.writer, SightOf(s), s.flags, m);
      forall w ensures GateIsOpen(s', w) == GateIsOpen(s, w) { GateSame(s, s', w); }
      forall w ensures WorkOK(s', w) == WorkOK(s, w) { WorkSame(s, s', w); }
      assert s'.queue == s'.pushed[|s'.pushed| - |s'.queue|..];
      if s.queue != [] { assert s.queue[0] == s.pushed[|s.pushed| - |s.queue|]; }
    }
  }

  lemma GateSame(s: State, s': State, w: Work)
    requires s'.producers == s.producers
    ensures GateIsOpen(s', w) == GateIsOpen(s, w)
  {
  }

  lemma WorkSame(s: State, s': State, w: Work)
    requires s'.producers == s.producers
    ensures WorkOK(s', w) == WorkOK(s, w)
  {
  }

  lemma {:induction false} NextOrdered(s: State, e: Step)
    requires Ordered(s) && ProducersOK(s)
    ensures Ordered(Next(s, e))
  {
    hide Ordered, ProducersOK, ProducerStep, ReaderStep, WriterStep, Onward;
    StepOnward(s, e);
    match e
    case ByProducer(i, move) => ProducerOrdered(s, i, move);
    case ByReader(act) =>
      ReaderEffect(s, act);
      QueuedKeeps(s, Next(s, e), []);
    case ByTerminate(_) => QueuedKeeps(s, Next(s, e), []);
    case ByWriter(write) => WriterOrdered(s, write);
  }
}
