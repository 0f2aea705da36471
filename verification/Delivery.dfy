/**
 Deliveries as the server runs them: one goroutine per offered send, racing acknowledgement, the loss of either
 party, shutdown, the deadline, its own context and a failing write, over the session registry.

 A step is one lock section, or one choice of a ready `select` arm, taken by any goroutine.  Everything proved here
 holds for every interleaving of steps.
 */
module Delivery {
  import opened Wrappers
  import opened Messages
  import opened Registry

  type Ref = nat

  /** The four channels of a pending delivery.  Closing one twice would stop the server. */
  datatype Channel = Acknowledged | Abandoned | Cancelled | Stopped

  /** `closes` lists the channel closings so far. */
  datatype PendingDelivery = PendingDelivery(
    sender: Session,
    recipient: Session,
    messageID: string,
    deliveryID: string,
    closes: seq<Channel>)

  datatype Outcome = Answer(response: Response) | NoAnswer | Fault

  /** Where the goroutine that owns an installed delivery stands. */
  datatype Phase =
    | Offering
    | Selected(entry: EntryRef)
    | Leased(entry: EntryRef)
    | Waiting
    | Claimed
    | Done(outcome: Outcome)

  /** Who took the delivery out of `pending`: its own goroutine, or a step that closed a channel. */
  datatype Claim = BySelf(outcome: Outcome) | ByClosing(channel: Channel)

  /** Where the goroutine that serves an entry stands. */
  datatype Position =
    | Opened
    | Attached
    | Authenticated(session: Session)
    | Published(session: Session)
    | Hidden(session: Session)
    | Fenced(session: Session)
    | Swept(session: Session)
    | Silenced(session: Session)
    | Departed(session: Session)
    | Gone

  datatype Frame = Offer(delivery: Ref) | Result | ErrorFrame

  datatype Sent = Sent(to: Session, frame: Frame)

  datatype Dispatcher = Dispatcher(pending: map<string, Ref>, shuttingDown: bool, deliveries: map<Ref, PendingDelivery>)

  /**
   The server between two steps.  `registry`, `dispatcher` and `leases` (the write locks held) are its memory;
   `at` and `calls` are the goroutines; `minted`, `swept`, `claims` and `wire` record what has happened.
   */
  datatype World = World(
    registry: Registry,
    dispatcher: Dispatcher,
    leases: map<EntryRef, Sent>,
    at: map<EntryRef, Position>,
    calls: map<Ref, Phase>,
    minted: set<Session>,
    swept: set<Session>,
    claims: map<Ref, Claim>,
    wire: seq<Sent>)

  // -------- the dispatcher's lock sections --------

  function ChannelOutcome(d: PendingDelivery, c: Channel): Outcome {
    match c
    case Acknowledged => Answer(Response(Received, d.messageID, d.deliveryID, d.sender.address, d.recipient.address))
    case Cancelled => Answer(Response(RecipientDisconnected, d.messageID, d.deliveryID, d.sender.address,
      d.recipient.address))
    case Abandoned => NoAnswer
    case Stopped => NoAnswer
  }

  function ClaimOutcome(d: PendingDelivery, c: Claim): Outcome {
    match c
    case BySelf(outcome) => outcome
    case ByClosing(channel) => ChannelOutcome(d, channel)
  }

  predicate Installed(d: Dispatcher, ref: Ref) {
    ref in d.deliveries && d.deliveries[ref].deliveryID in d.pending && d.pending[d.deliveries[ref].deliveryID] == ref
  }

  function Install(d: Dispatcher, ref: Ref, sender: Session, recipient: Session, messageID: string,
    id: string): Dispatcher
  {
    d.(pending := d.pending[id := ref],
       deliveries := d.deliveries[ref := PendingDelivery(sender, recipient, messageID, id, [])])
  }

  function Take(d: Dispatcher, ref: Ref): Dispatcher
    requires ref in d.deliveries
  {
    d.(pending := d.pending - {d.deliveries[ref].deliveryID})
  }

  function CloseChannel(d: Dispatcher, ref: Ref, c: Channel): Dispatcher
    requires ref in d.deliveries
  {
    d.(deliveries := d.deliveries[ref := d.deliveries[ref].(closes := d.deliveries[ref].closes + [c])])
  }

  predicate Acknowledges(d: Dispatcher, id: string, recipient: Session, messageID: string) {
    id in d.pending && d.pending[id] in d.deliveries &&
    d.deliveries[d.pending[id]].recipient == recipient && d.deliveries[d.pending[id]].messageID == messageID
  }

  function Receive(d: Dispatcher, id: string, recipient: Session, messageID: string): Dispatcher {
    if Acknowledges(d, id, recipient, messageID)
      then CloseChannel(d, d.pending[id], Acknowledged).(pending := d.pending - {id})
    else d
  }

  /** The channel a lost session closes on a delivery, if it is a party to it.  The sender is looked at first. */
  function LostChannel(p: PendingDelivery, s: Session): Option<Channel> {
    if p.sender == s then Some(Abandoned) else if p.recipient == s then Some(Cancelled) else None
  }

  /** The deliveries a sweep closes, each on the channel `reasons` names. */
  function CloseAll(d: Dispatcher, reasons: map<Ref, Channel>): map<Ref, PendingDelivery> {
    map ref | ref in d.deliveries ::
      if Installed(d, ref) && ref in reasons
        then d.deliveries[ref].(closes := d.deliveries[ref].closes + [reasons[ref]]) else d.deliveries[ref]
  }

  function LostBy(d: Dispatcher, s: Session): map<Ref, Channel> {
    map ref | ref in d.deliveries && Installed(d, ref) && LostChannel(d.deliveries[ref], s).Some? ::
      LostChannel(d.deliveries[ref], s).value
  }

  function Sweep(d: Dispatcher, reasons: map<Ref, Channel>): Dispatcher {
    d.(pending := map id | id in d.pending && d.pending[id] !in reasons :: d.pending[id],
       deliveries := CloseAll(d, reasons))
  }

  function Lose(d: Dispatcher, s: Session): Dispatcher {
    Sweep(d, LostBy(d, s))
  }

  function StoppedBy(d: Dispatcher): map<Ref, Channel> {
    map ref | ref in d.deliveries && Installed(d, ref) :: Stopped
  }

  function Shutdown(d: Dispatcher): Dispatcher {
    Sweep(d, StoppedBy(d)).(shuttingDown := true)
  }

  // -------- steps --------

  datatype Step =
    | OpenEntry(entry: EntryRef)
    | AttachEntry(entry: EntryRef, connection: nat)
    | Authenticate(entry: EntryRef, session: Session)
    | PublishEntry(entry: EntryRef)
    | HideEntry(entry: EntryRef)
    | FenceEntry(entry: EntryRef)
    | SweepEntry(entry: EntryRef)
    | RemoveEntry(entry: EntryRef)
    | CloseRegistry
    | StopDispatcher
    | LeaseResult(entry: EntryRef)
    | WriteResult(entry: EntryRef, written: bool)
    | WriteError(entry: EntryRef)
    | InstallDelivery(ref: Ref, id: string, sender: Session, recipient: Session, messageID: string)
    | Unsendable(ref: Ref, fault: bool)
    | SelectEntry(ref: Ref, entry: EntryRef)
    | NoEntry(ref: Ref)
    | LeaseEntry(ref: Ref)
    | EntryLost(ref: Ref)
    | WriteOffer(ref: Ref, written: bool)
    | TakeArm(ref: Ref, channel: Channel)
    | ContextDone(ref: Ref)
    | DeadlineExpired(ref: Ref)
    | TakeClaimed(ref: Ref, channel: Channel)
    | Acknowledge(id: string, recipient: Session, messageID: string)

  function Start(limit: nat): World {
    World(Registry(false, limit, map[], {}), Dispatcher(map[], false, map[]), map[], map[], map[], {}, {}, map[], [])
  }

  /** `remove()`, and what its answer makes of the goroutine. */
  function Finish(w: World, ref: Ref, outcome: Outcome): World
    requires ref in w.dispatcher.deliveries
  {
    if Installed(w.dispatcher, ref) then
      w.(dispatcher := Take(w.dispatcher, ref), claims := w.claims[ref := BySelf(outcome)],
        calls := w.calls[ref := Done(outcome)])
    else w.(calls := w.calls[ref := Claimed])
  }

  function Disconnected(d: PendingDelivery): Outcome {
    ChannelOutcome(d, Cancelled)
  }

  function TimedOut(d: PendingDelivery): Outcome {
    Answer(Response(AckTimeout, d.messageID, d.deliveryID, d.sender.address, d.recipient.address))
  }

  function Claims(reasons: map<Ref, Channel>): map<Ref, Claim> {
    map ref | ref in reasons :: ByClosing(reasons[ref])
  }

  /** A goroutine in the given phase, about a delivery that exists. */
  predicate Is(w: World, ref: Ref, phase: Phase) {
    ref in w.dispatcher.deliveries && ref in w.calls && w.calls[ref] == phase
  }

  predicate Stands(w: World, e: EntryRef) {
    e in w.at && e in w.registry.entries
  }

  ghost function RegistryStep(w: World, e: Step): World {
    match e
    case OpenEntry(entry) =>
      if entry !in w.registry.entries && entry !in w.at && CanReserve(w.registry) then
        w.(registry := Reserve(w.registry, entry), at := w.at[entry := Opened])
      else w
    case AttachEntry(entry, connection) =>
      if Stands(w, entry) && w.at[entry] == Opened then
        w.(registry := Attach(w.registry, entry, connection), at := w.at[entry := Attached])
      else w
    case Authenticate(entry, session) =>
      if Stands(w, entry) && w.at[entry] == Attached && session !in w.minted then
        var answer := Judge(w.registry, entry, session);
        w.(registry := ReserveAuthentication(w.registry, entry, session), minted := w.minted + {session},
           at := if answer == SessionAuthenticated then w.at[entry := Authenticated(session)] else w.at)
      else w
    case PublishEntry(entry) =>
      if Stands(w, entry) && w.at[entry].Authenticated? && CanPublish(w.registry, entry, w.at[entry].session) then
        w.(registry := Publish(w.registry, entry, w.at[entry].session),
          at := w.at[entry := Published(w.at[entry].session)])
      else w
    case HideEntry(entry) =>
      if Stands(w, entry) && w.at[entry].Published? then
        w.(registry := Hide(w.registry, entry), at := w.at[entry := Hidden(w.at[entry].session)])
      else w
    case FenceEntry(entry) =>
      if Stands(w, entry) && w.at[entry].Hidden? && entry !in w.leases then
        w.(registry := Fence(w.registry, entry, w.at[entry].session), at := w.at[entry := Fenced(w.at[entry].session)])
      else w
    case RemoveEntry(entry) =>
      if Stands(w, entry) then
        match w.at[entry]
        case Opened | Attached | Swept(_) | Silenced(_) => w.(registry := Remove(w.registry, entry),
          at := w.at[entry := Gone])
        case Authenticated(session) => w.(registry := Remove(w.registry, entry), at := w.at[entry := Departed(session)])
        case _ => w
      else w
    case CloseRegistry => w.(registry := w.registry.(closing := true))
    case _ => w
  }

  /** Steps that tell the dispatcher that a party is gone, or that the relay stops. */
  function SweepStep(w: World, e: Step): World {
    match e
    case SweepEntry(entry) =>
      if Stands(w, entry) && (w.at[entry].Fenced? || w.at[entry].Departed?) then
        var session := w.at[entry].session;
        w.(dispatcher := Lose(w.dispatcher, session), claims := w.claims + Claims(LostBy(w.dispatcher, session)),
           swept := w.swept + {session}, at := w.at[entry := if w.at[entry].Fenced? then Swept(session) else Gone])
      else w
    case StopDispatcher =>
      if w.registry.closing then
        w.(dispatcher := Shutdown(w.dispatcher), claims := w.claims + Claims(StoppedBy(w.dispatcher)))
      else w
    case _ => w
  }

  /** Writes a session's own goroutine makes: results under the lease, the error frame after the fence. */
  function WriterStep(w: World, e: Step): World {
    match e
    case LeaseResult(entry) =>
      if Tracks(w.registry, entry) && entry !in w.leases && w.registry.entries[entry].visible
        && w.registry.entries[entry].session.Some? then
        w.(leases := w.leases[entry := Sent(w.registry.entries[entry].session.value, Result)])
      else w
    case WriteResult(entry, written) =>
      if entry in w.leases && w.leases[entry].frame == Result then
        w.(leases := w.leases - {entry}, wire := if written then w.wire + [w.leases[entry]] else w.wire)
      else w
    case WriteError(entry) =>
      if Stands(w, entry) && w.at[entry].Swept? && entry !in w.leases then
        w.(wire := w.wire + [Sent(w.at[entry].session, ErrorFrame)], at := w.at[entry := Silenced(w.at[entry].session)])
      else w
    case _ => w
  }

  ghost predicate MayInstall(w: World, ref: Ref, id: string, sender: Session) {
    && ref !in w.dispatcher.deliveries && ref !in w.calls
    && !w.dispatcher.shuttingDown && IsPublished(w.registry, sender) && id !in w.dispatcher.pending
  }

  ghost function CallStep(w: World, e: Step): World {
    match e
    case InstallDelivery(ref, id, sender, recipient, messageID) =>
      if MayInstall(w, ref, id, sender) then
        w.(dispatcher := Install(w.dispatcher, ref, sender, recipient, messageID, id),
          calls := w.calls[ref := Offering])
      else w
    case Unsendable(ref, fault) =>
      if Is(w, ref, Offering) then Finish(w, ref, if fault then Fault else NoAnswer) else w
    case SelectEntry(ref, entry) =>
      if Is(w, ref, Offering) && Shows(w.registry, entry, w.dispatcher.deliveries[ref].recipient) then
        w.(calls := w.calls[ref := Selected(entry)])
      else w
    case NoEntry(ref) =>
      if Is(w, ref, Offering) && !IsPublished(w.registry, w.dispatcher.deliveries[ref].recipient) then
        Finish(w, ref, Disconnected(w.dispatcher.deliveries[ref]))
      else w
    case LeaseEntry(ref) =>
      if ref in w.calls && w.calls[ref].Selected? && Is(w, ref, w.calls[ref]) && w.calls[ref].entry !in w.leases
         && Shows(w.registry, w.calls[ref].entry, w.dispatcher.deliveries[ref].recipient) then
        w.(leases := w.leases[w.calls[ref].entry := Sent(w.dispatcher.deliveries[ref].recipient, Offer(ref))],
           calls := w.calls[ref := Leased(w.calls[ref].entry)])
      else w
    case EntryLost(ref) =>
      if ref in w.calls && w.calls[ref].Selected? && Is(w, ref, w.calls[ref]) && w.calls[ref].entry !in w.leases
         && !Shows(w.registry, w.calls[ref].entry, w.dispatcher.deliveries[ref].recipient) then
        Finish(w, ref, Disconnected(w.dispatcher.deliveries[ref]))
      else w
    case WriteOffer(ref, written) =>
      if ref in w.calls && w.calls[ref].Leased? && Is(w, ref, w.calls[ref]) && w.calls[ref].entry in w.leases then
        var released := w.(leases := w.leases - {w.calls[ref].entry});
        if written then released.(wire := w.wire + [w.leases[w.calls[ref].entry]], calls := w.calls[ref := Waiting])
        else Finish(released, ref, Disconnected(w.dispatcher.deliveries[ref]))
      else w
    case TakeArm(ref, channel) =>
      if Is(w, ref, Waiting) && channel in w.dispatcher.deliveries[ref].closes then
        w.(calls := w.calls[ref := Done(ChannelOutcome(w.dispatcher.deliveries[ref], channel))])
      else w
    case ContextDone(ref) => if Is(w, ref, Waiting) then Finish(w, ref, NoAnswer) else w
    case DeadlineExpired(ref) => if Is(w, ref, Waiting) then Finish(w, ref, TimedOut(w.dispatcher.deliveries[ref]))
      else w
    case TakeClaimed(ref, channel) =>
      if Is(w, ref, Claimed) && channel in w.dispatcher.deliveries[ref].closes then
        w.(calls := w.calls[ref := Done(ChannelOutcome(w.dispatcher.deliveries[ref], channel))])
      else w
    case Acknowledge(id, recipient, messageID) =>
      if Acknowledges(w.dispatcher, id, recipient, messageID) then
        w.(dispatcher := Receive(w.dispatcher, id, recipient, messageID),
          claims := w.claims[w.dispatcher.pending[id] := ByClosing(Acknowledged)])
      else w
    case _ => w
  }

  ghost function Next(w: World, e: Step): World {
    if e.SweepEntry? || e.StopDispatcher? then SweepStep(w, e)
    else if e.LeaseResult? || e.WriteResult? || e.WriteError? then WriterStep(w, e)
    else if e.OpenEntry? || e.AttachEntry? || e.Authenticate? || e.PublishEntry? || e.HideEntry? || e.FenceEntry?
            || e.RemoveEntry? || e.CloseRegistry? then RegistryStep(w, e)
    else CallStep(w, e)
  }

  ghost function Run(limit: nat, steps: seq<Step>): World {
    if steps == [] then Start(limit) else Next(Run(limit, steps[..|steps| - 1]), steps[|steps| - 1])
  }

  // -------- invariants --------

  function SessionAt(p: Position): Option<Session> {
    match p
    case Opened | Attached | Gone => None
    case Authenticated(s) => Some(s)
    case Published(s) => Some(s)
    case Hidden(s) => Some(s)
    case Fenced(s) => Some(s)
    case Swept(s) => Some(s)
    case Silenced(s) => Some(s)
    case Departed(s) => Some(s)
  }

  /** An entry agrees with where its goroutine stands. */
  ghost predicate EntryOK(w: World, e: EntryRef) {
    && (e in w.registry.entries <==> e in w.at)
    && (e in w.at ==>
          var entry := w.registry.entries[e];
          var p := w.at[e];
          && (entry.visible <==> p.Published?)
          && (e in w.registry.tracked <==> !p.Departed? && !p.Gone?)
          && (e in w.registry.tracked ==>
                entry.session == if p.Authenticated? || p.Published? || p.Hidden? then SessionAt(p) else None)
          && (p.Authenticated? || p.Published? || p.Hidden? ==> entry.connection.Some?)
          && (SessionAt(p).Some? ==>
            SessionAt(p).value in w.minted && (SessionAt(p).value in w.swept <==> p.Swept? || p.Silenced?)))
  }

  /** Two goroutines never serve one session. */
  ghost predicate Disjoint(w: World, a: EntryRef, b: EntryRef) {
    a in w.at && b in w.at && a != b && SessionAt(w.at[a]).Some? ==> SessionAt(w.at[a]) != SessionAt(w.at[b])
  }

  /** A write under way goes to the session its entry still holds: the fence waits for it. */
  ghost predicate LeaseOK(w: World, e: EntryRef) {
    e in w.leases ==>
      && e in w.at && (w.at[e].Published? || w.at[e].Hidden?) && w.leases[e].to == w.at[e].session
      && w.leases[e].frame != ErrorFrame
  }

  // The three sides of the invariant.  Each is an equation, so that it reaches the prover whole.
  ghost predicate RegistryOK(w: World) {
    (&& Unique(w.registry) && w.swept <= w.minted
     && (forall e :: EntryOK(w, e))
     && (forall a, b :: Disjoint(w, a, b))
     && (forall e :: LeaseOK(w, e))) == true
  }

  /** One delivery: installed, unclaimed and with all channels open; or claimed once, by exactly one party. */
  ghost predicate DeliveryOK(w: World, ref: Ref) {
    && (ref in w.dispatcher.deliveries <==> ref in w.calls)
    && (ref in w.claims ==> ref in w.calls)
    && (ref in w.calls ==>
          var d := w.dispatcher.deliveries[ref];
          if Installed(w.dispatcher, ref) then
            && d.closes == [] && ref !in w.claims && !w.calls[ref].Claimed? && !w.calls[ref].Done?
            && !w.dispatcher.shuttingDown && d.sender !in w.swept && d.sender in w.minted
          else
            && ref in w.claims
            && (w.claims[ref].BySelf? ==> d.closes == [] && w.calls[ref] == Done(w.claims[ref].outcome))
            && (w.claims[ref].ByClosing? ==> d.closes == [w.claims[ref].channel])
            && (w.calls[ref].Done? ==> w.calls[ref].outcome == ClaimOutcome(d, w.claims[ref])))
  }

  ghost predicate PendingOK(w: World, id: string) {
    id in w.dispatcher.pending ==>
      w.dispatcher.pending[id] in w.dispatcher.deliveries
        && w.dispatcher.deliveries[w.dispatcher.pending[id]].deliveryID == id
  }

  ghost predicate DispatcherOK(w: World) {
    ((forall ref :: DeliveryOK(w, ref)) && (forall id :: PendingOK(w, id))) == true
  }

  /** After the error frame a session is sent nothing. */
  ghost predicate WireOK(w: World) {
    (&& (forall i, j :: 0 <= i < j < |w.wire| && w.wire[i].frame == ErrorFrame ==> w.wire[j].to != w.wire[i].to)
     && (forall i :: 0 <= i < |w.wire| && w.wire[i].frame == ErrorFrame ==> Quiet(w, w.wire[i].to))) == true
  }

  ghost predicate Quiet(w: World, s: Session) {
    s in w.swept && forall e :: e in w.at ==> w.at[e] != Swept(s)
  }
}
