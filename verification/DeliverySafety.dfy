/** What holds after every run of the delivery server, whatever the interleaving. */
module DeliverySafety {
  import opened Messages
  import opened Registry
  import opened Delivery

  // -------- the registry's side --------

  /** Only the given entry may have changed; nothing was swept. */
  ghost predicate MovesOnly(w: World, w': World, entry: EntryRef) {
    && (forall e :: e != entry ==>
          && (e in w'.at <==> e in w.at) && (e in w.at ==> w'.at[e] == w.at[e])
          && (e in w'.registry.entries <==> e in w.registry.entries)
          && (e in w.registry.entries ==> w'.registry.entries[e] == w.registry.entries[e])
          && (e in w'.registry.tracked <==> e in w.registry.tracked)
          && (e in w'.leases <==> e in w.leases) && (e in w.leases ==> w'.leases[e] == w.leases[e]))
    && w.minted <= w'.minted && w'.swept == w.swept
  }

  /** A session an entry comes to speak of is the one it spoke of before, or a new one. */
  ghost predicate SameOrNew(w: World, w': World, entry: EntryRef) {
    entry in w'.at && SessionAt(w'.at[entry]).Some? ==>
      (entry in w.at && SessionAt(w.at[entry]) == SessionAt(w'.at[entry])) || SessionAt(w'.at[entry]).value !in w.minted
  }

  lemma {:induction false} MoveKeeps(w: World, w': World, entry: EntryRef)
    requires RegistryOK(w) && MovesOnly(w, w', entry) && SameOrNew(w, w', entry)
    requires EntryOK(w', entry) && LeaseOK(w', entry) && Unique(w'.registry)
    ensures RegistryOK(w')
  {
    forall e ensures EntryOK(w', e) { assert EntryOK(w, e); }
    forall e ensures LeaseOK(w', e) { assert LeaseOK(w, e); }
    forall a, b ensures Disjoint(w', a, b) {
      assert Disjoint(w, a, b);
      assert EntryOK(w, a) && EntryOK(w, b);
    }
  }

  lemma {:induction false} OpenKeeps(w: World, e: Step)
    requires RegistryOK(w) && e.OpenEntry?
    ensures RegistryOK(RegistryStep(w, e))
  {
    var w' := RegistryStep(w, e);
    assert EntryOK(w, e.entry) && LeaseOK(w, e.entry);
    FewerKeepUnique(w.registry, w'.registry);
    if w' != w { MoveKeeps(w, w', e.entry); }
  }

  lemma {:induction false} AttachKeeps(w: World, e: Step)
    requires RegistryOK(w) && e.AttachEntry?
    ensures RegistryOK(RegistryStep(w, e))
  {
    var w' := RegistryStep(w, e);
    assert EntryOK(w, e.entry) && LeaseOK(w, e.entry);
    FewerKeepUnique(w.registry, w'.registry);
    if w' != w { MoveKeeps(w, w', e.entry); }
  }

  lemma {:induction false} PublishKeeps(w: World, e: Step)
    requires RegistryOK(w) && e.PublishEntry?
    ensures RegistryOK(RegistryStep(w, e))
  {
    var w' := RegistryStep(w, e);
    assert EntryOK(w, e.entry) && LeaseOK(w, e.entry);
    FewerKeepUnique(w.registry, w'.registry);
    if w' != w { MoveKeeps(w, w', e.entry); }
  }

  lemma {:induction false} HideKeeps(w: World, e: Step)
    requires RegistryOK(w) && e.HideEntry?
    ensures RegistryOK(RegistryStep(w, e))
  {
    var w' := RegistryStep(w, e);
    assert EntryOK(w, e.entry) && LeaseOK(w, e.entry);
    FewerKeepUnique(w.registry, w'.registry);
    if w' != w { MoveKeeps(w, w', e.entry); }
  }

  lemma {:induction false} FenceKeeps(w: World, e: Step)
    requires RegistryOK(w) && e.FenceEntry?
    ensures RegistryOK(RegistryStep(w, e))
  {
    var w' := RegistryStep(w, e);
    assert EntryOK(w, e.entry) && LeaseOK(w, e.entry);
    FewerKeepUnique(w.registry, w'.registry);
    if w' != w { MoveKeeps(w, w', e.entry); }
  }

  lemma {:induction false} RemoveKeeps(w: World, e: Step)
    requires RegistryOK(w) && e.RemoveEntry?
    ensures RegistryOK(RegistryStep(w, e))
  {
    if RegistryStep(w, e) != w {
      RemovedEntry(w, e.entry);
      RemovedUnique(w, e.entry);
      hide RegistryStep, RegistryOK, EntryOK, LeaseOK;
      MoveKeeps(w, RegistryStep(w, e), e.entry);
    }
  }

  lemma {:induction false} RemovedUnique(w: World, entry: EntryRef)
    requires RegistryOK(w)
    ensures Unique(RegistryStep(w, RemoveEntry(entry)).registry)
  {
    FewerKeepUnique(w.registry, RegistryStep(w, RemoveEntry(entry)).registry);
  }

  lemma {:induction false} RemovedEntry(w: World, entry: EntryRef)
    requires RegistryOK(w) && RegistryStep(w, RemoveEntry(entry)) != w
    ensures var w' := RegistryStep(w, RemoveEntry(entry));
      EntryOK(w', entry) && LeaseOK(w', entry) && SameOrNew(w, w', entry) && MovesOnly(w, w', entry)
  {
    assert EntryOK(w, entry) && LeaseOK(w, entry);
  }

  lemma {:induction false} AuthenticateKeeps(w: World, entry: EntryRef, session: Session)
    requires RegistryOK(w)
    ensures RegistryOK(RegistryStep(w, Authenticate(entry, session)))
  {
    var w' := RegistryStep(w, Authenticate(entry, session));
    assert EntryOK(w, entry) && LeaseOK(w, entry);
    ReservationKeepsUnique(w.registry, entry, session);
    MoveKeeps(w, w', entry);
  }

  lemma {:induction false} CloseKeeps(w: World)
    requires RegistryOK(w)
    ensures RegistryOK(RegistryStep(w, CloseRegistry))
  {
    var w' := RegistryStep(w, CloseRegistry);
    FewerKeepUnique(w.registry, w'.registry);
    assert EntryOK(w, 0) && LeaseOK(w, 0);
    MoveKeeps(w, w', 0);
  }

  lemma {:induction false} SweepKeepsRegistry(w: World, e: Step)
    requires RegistryOK(w) && (e.SweepEntry? || e.StopDispatcher?)
    ensures RegistryOK(SweepStep(w, e))
  {
    var w' := SweepStep(w, e);
    forall x ensures EntryOK(w', x) {
      assert EntryOK(w, x);
      if e.SweepEntry? { assert EntryOK(w, e.entry) && Disjoint(w, x, e.entry); }
    }
    forall x ensures LeaseOK(w', x) { assert LeaseOK(w, x); }
    forall a, b ensures Disjoint(w', a, b) { assert Disjoint(w, a, b); }
    if e.SweepEntry? { assert EntryOK(w, e.entry); }
  }

  lemma {:induction false} LeaseResultKeeps(w: World, e: Step)
    requires RegistryOK(w) && e.LeaseResult?
    ensures RegistryOK(WriterStep(w, e))
  {
    assert EntryOK(w, e.entry) && LeaseOK(w, e.entry);
    if WriterStep(w, e) != w { MoveKeeps(w, WriterStep(w, e), e.entry); }
  }

  lemma {:induction false} WriteResultKeeps(w: World, e: Step)
    requires RegistryOK(w) && e.WriteResult?
    ensures RegistryOK(WriterStep(w, e))
  {
    assert EntryOK(w, e.entry) && LeaseOK(w, e.entry);
    if WriterStep(w, e) != w { MoveKeeps(w, WriterStep(w, e), e.entry); }
  }

  lemma {:induction false} WriteErrorKeeps(w: World, e: Step)
    requires RegistryOK(w) && e.WriteError?
    ensures RegistryOK(WriterStep(w, e))
  {
    assert EntryOK(w, e.entry) && LeaseOK(w, e.entry);
    if WriterStep(w, e) != w { MoveKeeps(w, WriterStep(w, e), e.entry); }
  }

  predicate IsCall(e: Step) {
    e.InstallDelivery? || e.Unsendable? || e.SelectEntry? || e.NoEntry? || e.LeaseEntry? || e.EntryLost? ||
    e.WriteOffer? || e.TakeArm? || e.ContextDone? || e.DeadlineExpired? || e.TakeClaimed? || e.Acknowledge?
  }

  /** Nothing the registry's side looks at has changed. */
  ghost predicate RegistrySame(w: World, w': World) {
    w'.registry == w.registry && w'.at == w.at && w'.leases == w.leases && w'.minted == w.minted && w'.swept == w.swept
  }

  lemma {:induction false} SameRegistry(w: World, w': World)
    requires RegistryOK(w) && RegistrySame(w, w')
    ensures RegistryOK(w')
  {
    forall e ensures EntryOK(w', e) && LeaseOK(w', e) { assert EntryOK(w, e) && LeaseOK(w, e); }
    forall a, b ensures Disjoint(w', a, b) { assert Disjoint(w, a, b); }
  }

  lemma {:induction false} CallLeavesRegistry(w: World, e: Step)
    requires IsCall(e) && !e.LeaseEntry? && !e.WriteOffer?
    ensures RegistrySame(w, CallStep(w, e))
  {
    hide Installed, Take, Install, Receive, ChannelOutcome, Disconnected, TimedOut, Shows, IsPublished, MayInstall,
      Acknowledges;
  }

  lemma {:induction false} LeaseKeeps(w: World, ref: Ref)
    requires RegistryOK(w)
    ensures RegistryOK(CallStep(w, LeaseEntry(ref)))
  {
    var w' := CallStep(w, LeaseEntry(ref));
    if w' != w {
      var entry := w.calls[ref].entry;
      assert EntryOK(w, entry) && EntryOK(w', entry) && LeaseOK(w', entry);
      MoveKeeps(w, w', entry);
    }
  }

  lemma {:induction false} OfferKeeps(w: World, ref: Ref, written: bool)
    requires RegistryOK(w)
    ensures RegistryOK(CallStep(w, WriteOffer(ref, written)))
  {
    hide Installed, Take, ChannelOutcome, Disconnected;
    var w' := CallStep(w, WriteOffer(ref, written));
    if w' != w {
      var entry := w.calls[ref].entry;
      assert EntryOK(w, entry) && EntryOK(w', entry) && LeaseOK(w', entry);
      MoveKeeps(w, w', entry);
    }
  }

  lemma {:induction false} CallKeepsRegistry(w: World, e: Step)
    requires RegistryOK(w) && IsCall(e)
    ensures RegistryOK(CallStep(w, e))
  {
    hide RegistryOK, CallStep;
    if e.LeaseEntry? {
      LeaseKeeps(w, e.ref);
    } else if e.WriteOffer? {
      OfferKeeps(w, e.ref, e.written);
    } else {
      CallLeavesRegistry(w, e);
      SameRegistry(w, CallStep(w, e));
    }
  }

  // -------- the dispatcher's side --------

  lemma {:induction false} FinishKeeps(w: World, ref: Ref, outcome: Outcome)
    requires DispatcherOK(w) && ref in w.dispatcher.deliveries && ref in w.calls && !w.calls[ref].Done?
      && !w.calls[ref].Claimed?
    ensures DispatcherOK(Finish(w, ref, outcome))
  {
    var w' := Finish(w, ref, outcome);
    assert DeliveryOK(w, ref);
    forall other ensures DeliveryOK(w', other) { assert DeliveryOK(w, other); }
    forall id ensures PendingOK(w', id) { assert PendingOK(w, id); }
  }

  lemma {:induction false} InstallKeeps(w: World, e: Step)
    requires DispatcherOK(w) && RegistryOK(w) && e.InstallDelivery?
    ensures DispatcherOK(CallStep(w, e))
  {
    var w' := CallStep(w, e);
    if MayInstall(w, e.ref, e.id, e.sender) {
      var entry :| entry in w.registry.tracked && Shows(w.registry, entry, e.sender);
      assert EntryOK(w, entry);
      forall other ensures DeliveryOK(w', other) { assert DeliveryOK(w, other); }
      forall id ensures PendingOK(w', id) { assert PendingOK(w, id); }
    }
  }

  lemma {:induction false} AcknowledgeKeeps(w: World, e: Step)
    requires DispatcherOK(w) && e.Acknowledge?
    ensures DispatcherOK(CallStep(w, e))
  {
    var w' := CallStep(w, e);
    if Acknowledges(w.dispatcher, e.id, e.recipient, e.messageID) {
      var ref := w.dispatcher.pending[e.id];
      assert PendingOK(w, e.id) && DeliveryOK(w, ref);
      forall other ensures DeliveryOK(w', other) { assert DeliveryOK(w, other); }
      forall id ensures PendingOK(w', id) { assert PendingOK(w, id); }
    }
  }

  /** Steps of one goroutine that leave the dispatcher's memory alone. */
  lemma {:induction false} PhaseKeeps(w: World, w': World, ref: Ref)
    requires DispatcherOK(w) && ref in w.calls && ref in w'.calls
    requires w'.dispatcher == w.dispatcher && w'.claims == w.claims && w'.swept == w.swept && w.minted == w'.minted
    requires w'.calls == w.calls[ref := w'.calls[ref]]
    requires !w.calls[ref].Done? && !w'.calls[ref].Claimed?
    requires w'.calls[ref].Done? ==>
      ref in w.claims && ref in w.dispatcher.deliveries
      && w'.calls[ref].outcome == ClaimOutcome(w.dispatcher.deliveries[ref], w.claims[ref])
    requires w'.calls[ref].Done? ==> !Installed(w.dispatcher, ref)
    ensures DispatcherOK(w')
  {
    assert DeliveryOK(w, ref);
    forall other ensures DeliveryOK(w', other) { assert DeliveryOK(w, other); }
    forall id ensures PendingOK(w', id) { assert PendingOK(w, id); }
  }

  lemma {:induction false} CallKeepsDispatcher(w: World, e: Step)
    requires DispatcherOK(w) && RegistryOK(w) && IsCall(e)
    ensures DispatcherOK(CallStep(w, e))
  {
    match e
    case InstallDelivery(_, _, _, _, _) => InstallKeeps(w, e);
    case Acknowledge(_, _, _) => AcknowledgeKeeps(w, e);
    case Unsendable(ref, fault) =>
      if Is(w, ref, Offering) { FinishKeeps(w, ref, if fault then Fault else NoAnswer); }
    case NoEntry(ref) =>
      if Is(w, ref, Offering) { FinishKeeps(w, ref, Disconnected(w.dispatcher.deliveries[ref])); }
    case EntryLost(ref) =>
      if ref in w.calls && w.calls[ref].Selected? && Is(w, ref, w.calls[ref]) {
        FinishKeeps(w, ref, Disconnected(w.dispatcher.deliveries[ref]));
      }
    case ContextDone(ref) =>
      if Is(w, ref, Waiting) { FinishKeeps(w, ref, NoAnswer); }
    case DeadlineExpired(ref) =>
      if Is(w, ref, Waiting) { FinishKeeps(w, ref, TimedOut(w.dispatcher.deliveries[ref])); }
    case WriteOffer(ref, written) => WriteOfferKeeps(w, ref, written);
    case _ => ArmKeeps(w, e);
  }

  lemma {:induction false} WriteOfferKeeps(w: World, ref: Ref, written: bool)
    requires DispatcherOK(w)
    ensures DispatcherOK(CallStep(w, WriteOffer(ref, written)))
  {
    if ref in w.calls && w.calls[ref].Leased? && Is(w, ref, w.calls[ref]) && w.calls[ref].entry in w.leases {
      var released := w.(leases := w.leases - {w.calls[ref].entry});
      if written {
        PhaseKeeps(w, CallStep(w, WriteOffer(ref, written)), ref);
      } else {
        SameDispatcher(w, released);
        FinishKeeps(released, ref, Disconnected(w.dispatcher.deliveries[ref]));
      }
    }
  }

  lemma {:induction false} SameDispatcher(w: World, w': World)
    requires DispatcherOK(w) && w'.dispatcher == w.dispatcher && w'.calls == w.calls && w'.claims == w.claims
    requires w'.swept == w.swept && w.minted <= w'.minted
    ensures DispatcherOK(w')
  {
    forall other ensures DeliveryOK(w', other) { assert DeliveryOK(w, other); }
    forall id ensures PendingOK(w', id) { assert PendingOK(w, id); }
  }

  lemma {:induction false} ArmKeeps(w: World, e: Step)
    requires DispatcherOK(w) && (e.SelectEntry? || e.LeaseEntry? || e.TakeArm? || e.TakeClaimed?)
    ensures DispatcherOK(CallStep(w, e))
  {
    assert DeliveryOK(w, e.ref);
    if CallStep(w, e) != w { PhaseKeeps(w, CallStep(w, e), e.ref); }
  }

  /** A sweep closes one channel of each delivery it takes out. */
  lemma {:induction false} SweepKeeps(w: World, w': World, reasons: map<Ref, Channel>)
    requires DispatcherOK(w)
    requires forall ref :: ref in reasons ==> ref in w.dispatcher.deliveries && Installed(w.dispatcher, ref)
    requires w'.dispatcher.pending == Sweep(w.dispatcher, reasons).pending
      && w'.dispatcher.deliveries == Sweep(w.dispatcher, reasons).deliveries
    requires w'.claims == w.claims + Claims(reasons) && w'.calls == w.calls && w'.minted == w.minted
    requires forall ref :: Installed(w.dispatcher, ref) && ref !in reasons ==>
      !w'.dispatcher.shuttingDown && w.dispatcher.deliveries[ref].sender !in w'.swept
    ensures DispatcherOK(w')
  {
    forall ref ensures DeliveryOK(w', ref) {
      assert DeliveryOK(w, ref);
      if ref in w.dispatcher.deliveries {
        assert Installed(w'.dispatcher, ref) <==> Installed(w.dispatcher, ref) && ref !in reasons;
      }
    }
    forall id ensures PendingOK(w', id) { assert PendingOK(w, id); }
  }

  lemma {:induction false} SweepKeepsDispatcher(w: World, e: Step)
    requires DispatcherOK(w) && (e.SweepEntry? || e.StopDispatcher?)
    ensures DispatcherOK(SweepStep(w, e))
  {
    if SweepStep(w, e) != w {
      if e.SweepEntry? {
        var session := w.at[e.entry].session;
        forall ref | Installed(w.dispatcher, ref) && ref !in LostBy(w.dispatcher, session)
          ensures !w.dispatcher.shuttingDown && w.dispatcher.deliveries[ref].sender !in w.swept + {session} {
          assert DeliveryOK(w, ref);
        }
        SweepKeeps(w, SweepStep(w, e), LostBy(w.dispatcher, session));
      } else {
        SweepKeeps(w, SweepStep(w, e), StoppedBy(w.dispatcher));
      }
    }
  }

  // -------- the wire --------

  lemma {:induction false} WireAppended(w: World, w': World, s: Sent)
    requires WireOK(w) && w'.wire == w.wire + [s] && !Quiet(w, s.to)
    requires forall t :: Quiet(w, t) ==> Quiet(w', t)
    requires s.frame == ErrorFrame ==> Quiet(w', s.to)
    ensures WireOK(w')
  {
    forall i, j | 0 <= i < j < |w'.wire| && w'.wire[i].frame == ErrorFrame ensures w'.wire[j].to != w'.wire[i].to {
      if j == |w.wire| { assert Quiet(w, w.wire[i].to); }
    }
  }

  lemma {:induction false} WireKept(w: World, w': World)
    requires WireOK(w) && w'.wire == w.wire
    requires forall t :: Quiet(w, t) ==> Quiet(w', t)
    ensures WireOK(w')
  {
  }

  /** A session is swept from the entry that was fenced for it; nothing is taken back. */
  ghost predicate SweptFrom(w: World, w': World) {
    && w.swept <= w'.swept
    && forall x, t :: x in w'.at && w'.at[x] == Swept(t) ==> x in w.at && (w.at[x] == Swept(t) || w.at[x] == Fenced(t))
  }

  lemma {:induction false} SweptOnce(w: World, e: Step)
    ensures SweptFrom(w, Next(w, e))
  {
    if IsCall(e) {
      hide CallStep;
      CallLeavesPositions(w, e);
    } else if e.SweepEntry? || e.StopDispatcher? || e.LeaseResult? || e.WriteResult? || e.WriteError? {
    } else {
      RegistrySweptFrom(w, e);
    }
  }

  lemma {:induction false} RegistrySweptFrom(w: World, e: Step)
    ensures SweptFrom(w, RegistryStep(w, e))
  {
    hide Reserve, Attach, Judge, ReserveAuthentication, CanPublish, Publish, Hide, Fence, Remove;
  }

  lemma {:induction false} CallLeavesPositions(w: World, e: Step)
    requires IsCall(e)
    ensures CallStep(w, e).at == w.at && CallStep(w, e).swept == w.swept
  {
    hide Installed, Take, Install, Receive, ChannelOutcome, Disconnected, TimedOut, Shows, IsPublished, MayInstall,
      Acknowledges;
  }

  /** Being quiet is for good. */
  lemma {:induction false} QuietKept(w: World, e: Step, t: Session)
    requires RegistryOK(w) && Quiet(w, t)
    ensures Quiet(Next(w, e), t)
  {
    hide Next;
    SweptOnce(w, e);
    forall x | x in Next(w, e).at ensures Next(w, e).at[x] != Swept(t) {
      assert EntryOK(w, x);
    }
  }

  /** The frame a step sends, if it sends one. */
  ghost predicate Sends(w: World, w': World, s: Sent) {
    w'.wire == w.wire + [s]
  }

  lemma {:induction false} ErrorSent(w: World, e: Step)
    requires RegistryOK(w) && e.WriteError? && WriterStep(w, e).wire != w.wire
    ensures e.entry in w.at && w.at[e.entry].Swept?
    ensures var s := w.at[e.entry].session;
      && Sends(w, WriterStep(w, e), Sent(s, ErrorFrame)) && s in w.swept && !Quiet(w, s) && Quiet(WriterStep(w, e), s)
  {
    assert EntryOK(w, e.entry);
    var s := w.at[e.entry].session;
    assert w.at[e.entry] == Swept(s);
    forall x | x in WriterStep(w, e).at ensures WriterStep(w, e).at[x] != Swept(s) { assert Disjoint(w, x, e.entry); }
  }

  lemma {:induction false} ResultSent(w: World, e: Step)
    requires RegistryOK(w) && e.WriteResult? && WriterStep(w, e).wire != w.wire
    ensures e.entry in w.leases && Sends(w, WriterStep(w, e), w.leases[e.entry])
    ensures w.leases[e.entry].frame != ErrorFrame && w.leases[e.entry].to !in w.swept
  {
    assert LeaseOK(w, e.entry) && EntryOK(w, e.entry);
  }

  lemma {:induction false} OfferSent(w: World, e: Step)
    requires RegistryOK(w) && IsCall(e) && CallStep(w, e).wire != w.wire
    ensures e.WriteOffer? && e.ref in w.calls && w.calls[e.ref].Leased? && w.calls[e.ref].entry in w.leases
    ensures var s := w.leases[w.calls[e.ref].entry];
      Sends(w, CallStep(w, e), s) && s.frame != ErrorFrame && s.to !in w.swept
  {
    if e.WriteOffer? {
      var entry := w.calls[e.ref].entry;
      assert LeaseOK(w, entry) && EntryOK(w, entry);
    }
  }

  /** A frame goes to a session that still holds its entry, and is not yet swept; the error frame, to one just swept. */
  lemma {:induction false} SentTo(w: World, e: Step)
    requires RegistryOK(w) && Next(w, e).wire != w.wire
    ensures |Next(w, e).wire| == |w.wire| + 1 && Next(w, e).wire[..|w.wire|] == w.wire
    ensures var s := Next(w, e).wire[|w.wire|];
      && (s.frame != ErrorFrame ==> s.to !in w.swept)
      && (s.frame == ErrorFrame ==> s.to in w.swept && !Quiet(w, s.to) && Quiet(Next(w, e), s.to))
  {
    hide RegistryOK, WriterStep, CallStep, Quiet;
    if e.WriteError? {
      ErrorSent(w, e);
    } else if e.WriteResult? {
      ResultSent(w, e);
    } else if IsCall(e) {
      OfferSent(w, e);
    } else {
      OnlyWritesSend(w, e);
    }
  }

  lemma {:induction false} OnlyWritesSend(w: World, e: Step)
    requires !IsCall(e) && !e.WriteError? && !e.WriteResult?
    ensures Next(w, e).wire == w.wire
  {
  }

  lemma {:induction false} WriteKeepsWire(w: World, e: Step)
    requires RegistryOK(w) && WireOK(w) && Next(w, e).wire != w.wire
    ensures WireOK(Next(w, e))
  {
    hide Next, RegistryOK;
    var w' := Next(w, e);
    forall t | Quiet(w, t) ensures Quiet(w', t) { QuietKept(w, e, t); }
    SentTo(w, e);
    WireAppended(w, w', w'.wire[|w.wire|]);
  }

  // -------- every run --------

  ghost predicate Safe(w: World) {
    RegistryOK(w) && DispatcherOK(w) && WireOK(w)
  }

  lemma {:induction false} NextKeepsRegistry(w: World, e: Step)
    requires RegistryOK(w)
    ensures RegistryOK(Next(w, e))
  {
    hide RegistryOK, RegistryStep, SweepStep, WriterStep, CallStep;
    match e
    case SweepEntry(_) => SweepKeepsRegistry(w, e);
    case StopDispatcher => SweepKeepsRegistry(w, e);
    case LeaseResult(_) => LeaseResultKeeps(w, e);
    case WriteResult(_, _) => WriteResultKeeps(w, e);
    case WriteError(_) => WriteErrorKeeps(w, e);
    case Authenticate(entry, session) => AuthenticateKeeps(w, entry, session);
    case CloseRegistry => CloseKeeps(w);
    case OpenEntry(_) => OpenKeeps(w, e);
    case AttachEntry(_, _) => AttachKeeps(w, e);
    case PublishEntry(_) => PublishKeeps(w, e);
    case HideEntry(_) => HideKeeps(w, e);
    case FenceEntry(_) => FenceKeeps(w, e);
    case RemoveEntry(_) => RemoveKeeps(w, e);
    case _ => CallKeepsRegistry(w, e);
  }

  lemma {:induction false} OthersLeaveDispatcher(w: World, e: Step)
    requires !IsCall(e) && !e.SweepEntry? && !e.StopDispatcher?
    ensures Next(w, e).dispatcher == w.dispatcher && Next(w, e).calls == w.calls && Next(w, e).claims == w.claims
    ensures Next(w, e).swept == w.swept && w.minted <= Next(w, e).minted
  {
  }

  lemma {:induction false} NextKeepsDispatcher(w: World, e: Step)
    requires RegistryOK(w) && DispatcherOK(w)
    ensures DispatcherOK(Next(w, e))
  {
    hide RegistryOK, DispatcherOK, RegistryStep, SweepStep, WriterStep, CallStep;
    if e.SweepEntry? || e.StopDispatcher? {
      SweepKeepsDispatcher(w, e);
    } else if IsCall(e) {
      CallKeepsDispatcher(w, e);
    } else {
      OthersLeaveDispatcher(w, e);
      SameDispatcher(w, Next(w, e));
    }
  }

  lemma {:induction false} NextKeepsWire(w: World, e: Step)
    requires RegistryOK(w) && WireOK(w)
    ensures WireOK(Next(w, e))
  {
    if Next(w, e).wire != w.wire {
      WriteKeepsWire(w, e);
    } else {
      forall t | Quiet(w, t) ensures Quiet(Next(w, e), t) { QuietKept(w, e, t); }
      WireKept(w, Next(w, e));
    }
  }

  lemma {:induction false} RunSafe(limit: nat, steps: seq<Step>)
    ensures Safe(Run(limit, steps))
  {
    if steps != [] {
      var w, e := Run(limit, steps[..|steps| - 1]), steps[|steps| - 1];
      RunSafe(limit, steps[..|steps| - 1]);
      NextKeepsRegistry(w, e);
      NextKeepsDispatcher(w, e);
      NextKeepsWire(w, e);
    }
  }

  // -------- what it comes to --------

  /**
   An installed delivery is unclaimed and its channels are open; otherwise it was claimed by exactly one party.  No
   channel closes twice, and whichever arm its goroutine took, the outcome is the one its claimer chose.
   */
  lemma {:induction false} SingleOwner(limit: nat, steps: seq<Step>, ref: Ref)
    requires ref in Run(limit, steps).calls
    ensures var w := Run(limit, steps);
      && ref in w.dispatcher.deliveries
      && var d := w.dispatcher.deliveries[ref];
      && (Installed(w.dispatcher, ref) <==> ref !in w.claims)
      && |d.closes| <= 1
      && (ref in w.claims && w.claims[ref].ByClosing? <==> |d.closes| == 1)
      && (w.calls[ref].Done? ==> ref in w.claims && w.calls[ref].outcome == ClaimOutcome(d, w.claims[ref]))
  {
    RunSafe(limit, steps);
    assert DeliveryOK(Run(limit, steps), ref);
  }

  /**
   A goroutine that lost the race finds one closed channel, and that channel's arm ends it with the claimer's outcome.
   */
  lemma {:induction false} ClaimedNeverBlocks(limit: nat, steps: seq<Step>, ref: Ref)
    requires var w := Run(limit, steps); ref in w.calls && w.calls[ref].Claimed?
    ensures var w := Run(limit, steps);
      && ref in w.dispatcher.deliveries && ref in w.claims && w.claims[ref].ByClosing?
      && w.dispatcher.deliveries[ref].closes == [w.claims[ref].channel]
      && var w' := Next(w, TakeClaimed(ref, w.claims[ref].channel));
         w'.calls == w.calls[ref := Done(ClaimOutcome(w.dispatcher.deliveries[ref], w.claims[ref]))]
  {
    RunSafe(limit, steps);
    assert DeliveryOK(Run(limit, steps), ref);
  }

  /** Claims are never revised. */
  ghost predicate ClaimKept(w: World, w': World, ref: Ref) {
    ref in w.claims ==> ref in w'.claims && w'.claims[ref] == w.claims[ref]
  }

  lemma {:induction false} FinishKeepsClaim(w: World, ref: Ref, outcome: Outcome, other: Ref)
    requires DispatcherOK(w) && ref in w.dispatcher.deliveries
    ensures ClaimKept(w, Finish(w, ref, outcome), other)
  {
    assert DeliveryOK(w, ref);
  }

  lemma {:induction false} CallKeepsClaim(w: World, e: Step, other: Ref)
    requires DispatcherOK(w) && IsCall(e)
    ensures ClaimKept(w, CallStep(w, e), other)
  {
    hide DispatcherOK, Installed, Finish;
    match e
    case Acknowledge(id, recipient, messageID) => AcknowledgeKeepsClaim(w, e, other);
    case Unsendable(ref, fault) =>
      if Is(w, ref, Offering) { FinishKeepsClaim(w, ref, if fault then Fault else NoAnswer, other); }
    case NoEntry(ref) =>
      if Is(w, ref, Offering) { FinishKeepsClaim(w, ref, Disconnected(w.dispatcher.deliveries[ref]), other); }
    case EntryLost(ref) =>
      if ref in w.dispatcher.deliveries { FinishKeepsClaim(w, ref, Disconnected(w.dispatcher.deliveries[ref]), other); }
    case ContextDone(ref) =>
      if Is(w, ref, Waiting) { FinishKeepsClaim(w, ref, NoAnswer, other); }
    case DeadlineExpired(ref) =>
      if Is(w, ref, Waiting) { FinishKeepsClaim(w, ref, TimedOut(w.dispatcher.deliveries[ref]), other); }
    case WriteOffer(ref, written) =>
      if ref in w.calls && w.calls[ref].Leased? && Is(w, ref, w.calls[ref]) && w.calls[ref].entry in w.leases {
        var released := w.(leases := w.leases - {w.calls[ref].entry});
        SameButLeases(w, released);
        FinishKeepsClaim(released, ref, Disconnected(w.dispatcher.deliveries[ref]), other);
      }
    case _ =>
  }

  lemma {:induction false} SameButLeases(w: World, w': World)
    requires DispatcherOK(w) && w' == w.(leases := w'.leases)
    ensures DispatcherOK(w')
  {
    SameDispatcher(w, w');
  }

  lemma {:induction false} AcknowledgeKeepsClaim(w: World, e: Step, other: Ref)
    requires DispatcherOK(w) && e.Acknowledge?
    ensures ClaimKept(w, CallStep(w, e), other)
  {
    if Acknowledges(w.dispatcher, e.id, e.recipient, e.messageID) {
      assert PendingOK(w, e.id) && DeliveryOK(w, w.dispatcher.pending[e.id]);
    }
  }

  lemma {:induction false} SweepKeepsClaim(w: World, e: Step, other: Ref)
    requires DispatcherOK(w) && (e.SweepEntry? || e.StopDispatcher?)
    ensures ClaimKept(w, SweepStep(w, e), other)
  {
    assert DeliveryOK(w, other);
  }

  /**
   A step takes a delivery out of `pending` exactly when it claims it, and that happens once: afterwards the delivery
   stays out and the claim stays what it is.
   */
  lemma {:induction false} ClaimsAreFinal(limit: nat, steps: seq<Step>, e: Step, ref: Ref)
    requires ref in Run(limit, steps).calls
    ensures var w, w' := Run(limit, steps), Run(limit, steps + [e]);
      && (ref in w.claims ==> ref in w'.claims && w'.claims[ref] == w.claims[ref] && !Installed(w'.dispatcher, ref))
      && (Installed(w.dispatcher, ref) ==> (Installed(w'.dispatcher, ref) <==> ref !in w'.claims))
  {
    var w := Run(limit, steps);
    assert (steps + [e])[..|steps|] == steps;
    RunSafe(limit, steps);
    RunSafe(limit, steps + [e]);
    assert DeliveryOK(w, ref) && DeliveryOK(Next(w, e), ref);
    StepKeepsClaim(w, e, ref);
    CallsKept(w, e, ref);
  }

  lemma {:induction false} StepKeepsClaim(w: World, e: Step, ref: Ref)
    requires DispatcherOK(w)
    ensures ClaimKept(w, Next(w, e), ref)
  {
    hide DispatcherOK, CallStep, SweepStep, RegistryStep, WriterStep;
    if IsCall(e) { CallKeepsClaim(w, e, ref); }
    else if e.SweepEntry? || e.StopDispatcher? { SweepKeepsClaim(w, e, ref); }
    else { OthersLeaveDispatcher(w, e); }
  }

  lemma {:induction false} CallsKept(w: World, e: Step, ref: Ref)
    requires ref in w.calls
    ensures ref in Next(w, e).calls
  {
    if IsCall(e) {
      CallKeepsCalls(w, e, ref);
      hide CallStep;
    } else if e.SweepEntry? || e.StopDispatcher? {
    } else {
      OthersLeaveDispatcher(w, e);
      hide Next;
    }
  }

  lemma {:induction false} CallKeepsCalls(w: World, e: Step, ref: Ref)
    requires IsCall(e) && ref in w.calls
    ensures ref in CallStep(w, e).calls
  {
    hide Installed, Take, Install, Receive, ChannelOutcome, Disconnected, TimedOut, Shows, IsPublished, MayInstall,
      Acknowledges;
  }

  /** Nothing survives: not a goroutine's return, not its sender's sweep, not the shutdown. */
  lemma {:induction false} NothingLeftPending(limit: nat, steps: seq<Step>, ref: Ref)
    requires ref in Run(limit, steps).calls
    requires var w := Run(limit, steps);
      w.calls[ref].Done? || w.dispatcher.shuttingDown
        || (ref in w.dispatcher.deliveries && w.dispatcher.deliveries[ref].sender in w.swept)
    ensures !Installed(Run(limit, steps).dispatcher, ref)
    ensures forall id :: id in Run(limit, steps).dispatcher.pending ==> Run(limit, steps).dispatcher.pending[id] != ref
  {
    var w := Run(limit, steps);
    RunSafe(limit, steps);
    assert DeliveryOK(w, ref);
    forall id | id in w.dispatcher.pending ensures w.dispatcher.pending[id] != ref { assert PendingOK(w, id); }
  }

  /** Once swept, always swept; once shutting down, always: so nothing is installed again for them. */
  lemma {:induction false} LossIsFinal(w: World, e: Step)
    ensures w.swept <= Next(w, e).swept
    ensures w.dispatcher.shuttingDown ==> Next(w, e).dispatcher.shuttingDown
  {
    SweptOnce(w, e);
    if IsCall(e) {
      CallKeepsStopping(w, e);
    } else if !e.SweepEntry? && !e.StopDispatcher? {
      OthersLeaveDispatcher(w, e);
    }
  }

  lemma {:induction false} CallKeepsStopping(w: World, e: Step)
    requires IsCall(e)
    ensures CallStep(w, e).dispatcher.shuttingDown == w.dispatcher.shuttingDown
  {
    hide Installed, ChannelOutcome, Disconnected, TimedOut, Shows, IsPublished, MayInstall, Acknowledges;
  }

  /**
   On every run: after a session's sweep the only frame it is sent is one error frame, and after the error frame
   nothing.  The `steps + [e]` step is any later one.
   */
  lemma {:induction false} ErrorFrameIsLast(limit: nat, steps: seq<Step>, e: Step, i: nat)
    requires i < |Run(limit, steps + [e]).wire|
    ensures var w, w' := Run(limit, steps), Run(limit, steps + [e]);
      && (w'.wire != w.wire && w'.wire[|w'.wire| - 1].to in w.swept ==> w'.wire[|w'.wire| - 1].frame == ErrorFrame)
      && (w'.wire[i].frame == ErrorFrame ==> forall j :: i < j < |w'.wire| ==> w'.wire[j].to != w'.wire[i].to)
  {
    var w := Run(limit, steps);
    assert (steps + [e])[..|steps|] == steps;
    RunSafe(limit, steps);
    RunSafe(limit, steps + [e]);
    if Next(w, e).wire != w.wire { SentTo(w, e); }
  }

  /**
   Routes and addresses are unique among the sessions the registry holds, so an address names one published session.
   */
  lemma {:induction false} AddressesUnique(limit: nat, steps: seq<Step>, s: Session, t: Session)
    requires var r := Run(limit, steps).registry; IsPublished(r, s) && IsPublished(r, t)
    requires s.address == t.address || s.route == t.route
    ensures s == t
    ensures s !in Run(limit, steps).swept
  {
    var w := Run(limit, steps);
    RunSafe(limit, steps);
    var a :| a in w.registry.tracked && Shows(w.registry, a, s);
    var b :| b in w.registry.tracked && Shows(w.registry, b, t);
    assert Apart(w.registry, a, b) && EntryOK(w, a);
  }
}
