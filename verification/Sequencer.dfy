/**
 The response sequencer of one authenticated connection.

 The reader admits sends against 128 tokens; each admitted send runs in a worker, which reserves one response slot
 of 256 at a time, publishes its batch of one or two responses into a first-in-first-out queue under the admission
 lock, gives its token back and only then opens the start gate that lets the single writer write the batch.  A
 protocol failure starts a terminal transition that pre-empts normal responses.

 One step is one channel operation or one lock section of one goroutine.  A guard that fails means the goroutine is
 blocked there.
 */
module Sequencer {
  import opened Wrappers

  const TOKENS: nat := 128
  const SLOTS: nat := 256

  /** Whose batch a response belongs to; `payload` names the settled result it carries. */
  datatype Part = Only | Original | Repeat

  datatype Work = Work(owner: nat, requestID: nat, payload: nat, part: Part)

  datatype Phase =
    /** The worker's dispatch runs; its ledger record is pending. */
    | Dispatching
    | Reserving(size: nat, reserved: nat)
    /** All slots of the batch are held; the responses are being encoded. */
    | Reserved(size: nat)
    /** Holding the admission lock. */
    | Pushing(size: nat, pushed: nat)
    /** Published, token still held. */
    | Queued
    /** Token given back, gate still shut. */
    | Returned
    | Opened
    | Releasing(left: nat)
    | Failed

  /** `admitted` workers hold a token; the reader's own immediate responses do not, and their gate is open at once. */
  datatype Producer = Producer(admitted: bool, requestID: nat, repeatID: nat, payload: nat, phase: Phase)

  datatype Writer =
    | Top
    | Choosing
    | Took(work: Work)
    | AtGate(work: Work)
    | GateOpen(work: Work)
    | Writing(work: Work)
    | Auditing(work: Work)
    | Failing(work: Work)
    | DiscardForTerminal
    | AwaitTerminal
    | WritingTerminal
    | DiscardForExit
    | Exited

  datatype Reader =
    | Reading
    /** Waiting for its own immediate response to be published. */
    | Enqueueing(producer: nat)
    | Unpublishing
    | HandingOver
    | AwaitingTerminal
    | Stopped

  datatype Frame = Normal(work: Work) | ErrorFrame

  /**
   The connection between two steps.  `sealedAt` is the length of the wire when the terminal transition began, and
   `pushed` lists every response ever queued.
   */
  datatype State = State(
    producers: seq<Producer>,
    tokens: int,
    slots: int,
    queue: seq<Work>,
    pushed: seq<Work>,
    lock: Option<nat>,
    reader: Reader,
    writer: Writer,
    flags: Flags,
    wire: seq<Frame>,
    sealedAt: nat)

  datatype Flags = Flags(
    terminalStarted: bool,
    terminalQueued: bool,
    unpublished: bool,
    producersCancelled: bool,
    serveCancelled: bool)

  function Start(): State {
    State([], 0, 0, [], [], None, Reading, Top, Flags(false, false, false, false, false), [], 0)
  }

  // -------- what a producer owns --------

  function HeldSlots(p: Producer): nat {
    match p.phase
    case Reserving(_, reserved) => reserved
    case Reserved(size) => size
    case Pushing(size, pushed) => if pushed <= size then size - pushed else 0
    case Releasing(left) => left
    case _ => 0
  }

  predicate HoldsToken(p: Producer) {
    p.admitted && !p.phase.Returned? && !p.phase.Opened? && !p.phase.Failed?
  }

  function Tokens(p: Producer): nat {
    if HoldsToken(p) then 1 else 0
  }

  function Sum(f: Producer -> nat, ps: seq<Producer>): nat {
    if ps == [] then 0 else Sum(f, ps[..|ps| - 1]) + f(ps[|ps| - 1])
  }

  predicate Busy(w: Writer) {
    w.Took? || w.AtGate? || w.GateOpen? || w.Writing? || w.Auditing? || w.Failing?
  }

  predicate PastGate(w: Writer) {
    w.GateOpen? || w.Writing? || w.Auditing? || w.Failing?
  }

  /** The slot of the writer's item. */
  function Active(w: Writer): nat {
    if Busy(w) then 1 else 0
  }

  predicate Has(s: State, i: nat) {
    i < |s.producers|
  }

  predicate Unfinished(p: Producer) {
    !p.phase.Opened? && !p.phase.Failed?
  }

  predicate GateIsOpen(s: State, work: Work) {
    Has(s, work.owner) && (s.producers[work.owner].phase.Opened? || !s.producers[work.owner].admitted)
  }

  // -------- a producer's moves --------

  datatype Move =
    | Dispatched(respond: bool, repeatID: Option<nat>, payload: nat)
    | ReserveSlot
    | AbandonReserve
    | EncodeFails
    | BeginPublish
    | PushOne
    | EndPublish
    | ReturnToken
    | OpenGate
    | ReleaseSlot
    | GiveUp

  datatype LockChange = Keep | Take | Drop

  /** What a move does: to the producer, to the slots and tokens in use, to the queue and to the lock. */
  datatype Change = Blocked | Change(p: Producer, slots: int, tokens: int, push: seq<Work>, lock: LockChange)

  function To(p: Producer, phase: Phase): Change {
    Change(p.(phase := phase), 0, 0, [], Keep)
  }

  /** The response a batch pushes as its `k`th. */
  function Piece(i: nat, p: Producer, size: nat, k: nat): Work {
    if k == 0 then Work(i, p.requestID, p.payload, if size == 1 then Only else Original)
    else Work(i, p.repeatID, p.payload, Repeat)
  }

  /** What a producer may look at besides itself. */
  datatype View = View(slots: int, tokens: int, queued: nat, locked: bool, flags: Flags)

  function Decide(i: nat, p: Producer, v: View, m: Move): Change {
    match m
    case Dispatched(respond, repeatID, payload) =>
      if !p.phase.Dispatching? then Blocked
      else if !respond then To(p, Releasing(0))
      else
        To(p.(payload := payload, repeatID := if repeatID.Some? then repeatID.value else 0),
           Reserving(if repeatID.Some? then 2 else 1, 0))
    case ReserveSlot =>
      if !p.phase.Reserving? || v.slots >= SLOTS then Blocked
      else
        var phase := if p.phase.reserved + 1 >= p.phase.size then Reserved(p.phase.size)
          else Reserving(p.phase.size, p.phase.reserved + 1);
        Change(p.(phase := phase), 1, 0, [], Keep)
    case AbandonReserve =>
      if p.phase.Reserving? && v.flags.producersCancelled then To(p, Releasing(p.phase.reserved)) else Blocked
    case EncodeFails => if p.phase.Reserved? then To(p, Releasing(p.phase.size)) else Blocked
    case BeginPublish =>
      if !p.phase.Reserved? || v.locked then Blocked
      else if v.flags.terminalStarted || v.flags.producersCancelled then To(p, Releasing(p.phase.size))
      else Change(p.(phase := Pushing(p.phase.size, 0)), 0, 0, [], Take)
    case PushOne =>
      if p.phase.Pushing? && p.phase.pushed < p.phase.size && v.queued < SLOTS then
        Change(p.(phase := Pushing(p.phase.size, p.phase.pushed + 1)), 0, 0,
          [Piece(i, p, p.phase.size, p.phase.pushed)], Keep)
      else Blocked
    case EndPublish =>
      if !p.phase.Pushing? || p.phase.pushed < p.phase.size then Blocked
      else Change(p.(phase := if p.admitted then Queued else Opened), 0, 0, [], Drop)
    case ReturnToken => if p.phase.Queued? && v.tokens > 0 then Change(p.(phase := Returned), 0, -1, [], Keep)
      else Blocked
    case OpenGate => if p.phase.Returned? then To(p, Opened) else Blocked
    case ReleaseSlot =>
      if p.phase.Releasing? && p.phase.left > 0 && v.slots > 0 then
        Change(p.(phase := Releasing(p.phase.left - 1)), -1, 0, [], Keep)
      else Blocked
    case GiveUp =>
      if p.phase != Releasing(0) || (p.admitted && v.tokens <= 0) then Blocked
      else Change(p.(phase := Failed), 0, if p.admitted then -1 else 0, [], Keep)
  }

  function Seen(s: State): View {
    View(s.slots, s.tokens, |s.queue|, s.lock.Some?, s.flags)
  }

  function ProducerStep(s: State, i: nat, m: Move): State {
    if !Has(s, i) then s
    else
      match Decide(i, s.producers[i], Seen(s), m)
      case Blocked => s
      case Change(p, slots, tokens, push, lock) =>
        s.(producers := s.producers[i := p], slots := s.slots + slots, tokens := s.tokens + tokens,
           queue := s.queue + push, pushed := s.pushed + push,
           lock := if lock.Keep? then s.lock else if lock.Take? then Some(i) else None)
  }

  // -------- the reader's moves --------

  datatype Act =
    | AdmitSend(requestID: nat)
    | Immediate(requestID: nat, payload: nat)
    | ReaderResumes
    | ReadFails
    | StartTerminal
    | TerminalUnpublished
    | HandOver(gives: bool)
    | ReaderStops

  /** The payload of a sender-capacity denial. */
  const CAPACITY: nat := 0

  function Worker(requestID: nat): Producer {
    Producer(true, requestID, 0, 0, Dispatching)
  }

  function Answerer(requestID: nat, payload: nat): Producer {
    Producer(false, requestID, 0, payload, Reserving(1, 0))
  }

  function Add(s: State, p: Producer, tokens: int, reader: Reader): State {
    s.(producers := s.producers + [p], tokens := s.tokens + tokens, reader := reader)
  }

  function ReaderStep(s: State, a: Act): State {
    match a
    case AdmitSend(requestID) =>
      if !s.reader.Reading? then s
      else if s.tokens < TOKENS then Add(s, Worker(requestID), 1, Reading)
      else Add(s, Answerer(requestID, CAPACITY), 0, Enqueueing(|s.producers|))
    case Immediate(requestID, payload) =>
      if s.reader.Reading? then Add(s, Answerer(requestID, payload), 0, Enqueueing(|s.producers|)) else s
    case ReaderResumes =>
      if s.reader.Enqueueing? && Has(s, s.reader.producer) && !Unfinished(s.producers[s.reader.producer]) then
        s.(reader := if s.producers[s.reader.producer].phase.Opened? then Reading else Stopped)
      else s
    case ReadFails => if s.reader.Reading? then s.(reader := Stopped) else s
    case StartTerminal =>
      if s.reader.Reading? && s.lock.None? then
        s.(reader := Unpublishing, flags := s.flags.(terminalStarted := true, producersCancelled := true),
          sealedAt := |s.wire|)
      else s
    case TerminalUnpublished =>
      if s.reader.Unpublishing? then s.(reader := HandingOver, flags := s.flags.(unpublished := true)) else s
    case HandOver(gives) =>
      // The queue has room for the one terminal response, so with the context cancelled either arm may be taken.
      if !s.reader.HandingOver? then s
      else if gives then s.(reader := AwaitingTerminal, flags := s.flags.(terminalQueued := true))
      else if s.flags.serveCancelled then s.(reader := Stopped)
      else s
    case ReaderStops =>
      if s.reader.AwaitingTerminal? && (s.writer.Exited? || s.flags.serveCancelled) then s.(reader := Stopped) else s
  }

  // -------- terminate, which any goroutine may run --------

  datatype Ending = Unpublish | CancelProducers | CancelServe

  function TerminateStep(s: State, t: Ending): State {
    match t
    case Unpublish => s.(flags := s.flags.(unpublished := true))
    case CancelProducers => if s.flags.unpublished then s.(flags := s.flags.(producersCancelled := true)) else s
    case CancelServe =>
      if s.flags.unpublished && s.flags.producersCancelled then s.(flags := s.flags.(serveCancelled := true)) else s
  }

  // -------- the writer's moves --------

  datatype Write =
    | Looks
    | TakesNext
    | Signalled
    | ServeDone
    | Claims
    | PassesGate
    | Checks
    | Writes(written: bool)
    | Audits(audited: bool)
    | Fails
    | Discards
    | TakesTerminal
    | WritesTerminal(written: bool)

  /**
   What a move does: the writer's next place, whether the front leaves the queue, slots given back, frames written,
   flags.
   */
  datatype Turn = Waits | Turn(writer: Writer, pop: bool, freed: nat, frames: seq<Frame>, flags: Flags)

  function Goes(f: Flags, writer: Writer): Turn {
    Turn(writer, false, 0, [], f)
  }

  /** The item is done with: its slot goes back. */
  function Drops(f: Flags, writer: Writer): Turn {
    Turn(writer, false, 1, [], f)
  }

  /** What the writer may look at: the front of the queue, the lock, its item's gate and the slots. */
  datatype Sight = Sight(front: Option<Work>, locked: bool, gate: bool, slots: int)

  function Settle(w: Writer, v: Sight, f: Flags, m: Write): Turn {
    match m
    case Looks => if w.Top? && !v.locked then Goes(f, if f.terminalStarted then DiscardForTerminal else Choosing)
      else Waits
    case TakesNext => if w.Choosing? && v.front.Some? then Turn(Took(v.front.value), true, 0, [], f) else Waits
    case Signalled => if w.Choosing? && f.terminalStarted then Goes(f, Top) else Waits
    case ServeDone =>
      if !f.serveCancelled then Waits
      else if w.Choosing? then Goes(f, DiscardForExit)
      else if w.AtGate? && v.slots > 0 then Drops(f, DiscardForExit)
      else if w.AwaitTerminal? then Goes(f, Exited)
      else Waits
    case Claims =>
      if !w.Took? || v.locked then Waits
      else if !f.terminalStarted then Goes(f, AtGate(w.work))
      else if v.slots > 0 then Drops(f, Top)
      else Waits
    case PassesGate => if w.AtGate? && v.gate then Goes(f, GateOpen(w.work)) else Waits
    case Checks =>
      if !w.GateOpen? || v.locked then Waits
      else if !f.terminalStarted then Goes(f, Writing(w.work))
      else if v.slots > 0 then Drops(f, Top)
      else Waits
    case Writes(written) =>
      if !w.Writing? then Waits
      else if written && !f.unpublished then Turn(Auditing(w.work), false, 0, [Normal(w.work)], f)
      else Goes(f, Failing(w.work))
    case Audits(audited) =>
      if !w.Auditing? then Waits
      else if !audited then Goes(f, Failing(w.work))
      else if v.slots > 0 then Drops(f, Top)
      else Waits
    case Fails =>
      if !w.Failing? || v.locked || v.slots <= 0 then Waits
      else if f.terminalStarted then Drops(f, Top)
      else Drops(f.(unpublished := true, producersCancelled := true, serveCancelled := true), DiscardForExit)
    case Discards =>
      if !w.DiscardForTerminal? && !w.DiscardForExit? then Waits
      else if v.front.None? then Goes(f, if w.DiscardForTerminal? then AwaitTerminal else Exited)
      else if v.slots > 0 then Turn(w, true, 1, [], f)
      else Waits
    case TakesTerminal => if w.AwaitTerminal? && f.terminalQueued
      then Goes(f.(terminalQueued := false), WritingTerminal) else Waits
    case WritesTerminal(written) => if w.WritingTerminal?
      then Turn(Exited, false, 0, if written then [ErrorFrame] else [], f) else Waits
  }

  function SightOf(s: State): Sight {
    Sight(if s.queue == [] then None
      else Some(s.queue[0]), s.lock.Some?, Busy(s.writer) && GateIsOpen(s, s.writer.work), s.slots)
  }

  function WriterStep(s: State, m: Write): State {
    match Settle(s.writer, SightOf(s), s.flags, m)
    case Waits => s
    case Turn(writer, pop, freed, frames, flags) =>
      s.(writer := writer, queue := if pop && s.queue != [] then s.queue[1..] else s.queue, slots := s.slots - freed,
         wire := s.wire + frames, flags := flags)
  }

  // -------- runs --------

  datatype Step = ByProducer(i: nat,
    move: Move) | ByReader(act: Act) | ByTerminate(ending: Ending) | ByWriter(write: Write)

  function Next(s: State, e: Step): State {
    match e
    case ByProducer(i, move) => ProducerStep(s, i, move)
    case ByReader(act) => ReaderStep(s, act)
    case ByTerminate(ending) => TerminateStep(s, ending)
    case ByWriter(write) => WriterStep(s, write)
  }

  function Run(steps: seq<Step>): State {
    if steps == [] then Start() else Next(Run(steps[..|steps| - 1]), steps[|steps| - 1])
  }
}
