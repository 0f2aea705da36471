/** How often a delivery is offered, and how an offer that was written can end without an answer. */
module DeliveryOffers {
  import opened Messages
  import opened Registry
  import opened Delivery
  import opened DeliverySafety

  /** Phases after the offer was written, or given up. */
  predicate Past(p: Phase) {
    p.Waiting? || p.Claimed? || p.Done?
  }

  /** The lease a goroutine holds is for its own offer. */
  ghost predicate LeaseMatches(w: World, ref: Ref) {
    ref in w.calls && w.calls[ref].Leased? ==>
      w.calls[ref].entry in w.leases && w.leases[w.calls[ref].entry].frame == Offer(ref)
  }

  ghost predicate WrittenPast(w: World, i: nat) {
    i < |w.wire| && w.wire[i].frame.Offer? ==>
      w.wire[i].frame.delivery in w.calls && Past(w.calls[w.wire[i].frame.delivery])
  }

  ghost predicate OfferedOnce(w: World, i: nat, j: nat) {
    i < j < |w.wire| && w.wire[i].frame.Offer? ==> w.wire[i].frame != w.wire[j].frame
  }

  ghost predicate OffersOK(w: World) {
    (&& (forall ref :: LeaseMatches(w, ref))
     && (forall i: nat :: WrittenPast(w, i))
     && (forall i: nat, j: nat :: OfferedOnce(w, i, j))) == true
  }

  // -------- one step --------

  /** Goroutines only go on. */
  ghost predicate CallsOn(w: World, w': World) {
    forall ref :: ref in w.calls && Past(w.calls[ref]) ==> ref in w'.calls && Past(w'.calls[ref])
  }

  lemma {:induction false} NothingWritten(w: World, w': World)
    requires OffersOK(w) && w'.wire == w.wire && CallsOn(w, w') && forall ref :: LeaseMatches(w', ref)
    ensures OffersOK(w')
  {
    forall i: nat ensures WrittenPast(w', i) { assert WrittenPast(w, i); }
    forall i: nat, j: nat ensures OfferedOnce(w', i, j) { assert OfferedOnce(w, i, j); }
  }

  lemma {:induction false} OtherWritten(w: World, w': World, s: Sent)
    requires OffersOK(w) && w'.wire == w.wire + [s] && !s.frame.Offer? && w'.calls == w.calls
      && forall ref :: LeaseMatches(w', ref)
    ensures OffersOK(w')
  {
    forall i: nat ensures WrittenPast(w', i) { assert WrittenPast(w, i); }
    forall i: nat, j: nat ensures OfferedOnce(w', i, j) { assert OfferedOnce(w, i, j); }
  }

  lemma {:induction false} WriterOffers(w: World, e: Step)
    requires OffersOK(w)
    ensures OffersOK(WriterStep(w, e))
  {
    var w' := WriterStep(w, e);
    forall ref ensures LeaseMatches(w', ref) { assert LeaseMatches(w, ref); }
    if w'.wire == w.wire {
      NothingWritten(w, w');
    } else {
      OtherWritten(w, w', w'.wire[|w.wire|]);
    }
  }

  lemma {:induction false} OfferWritten(w: World, ref: Ref, written: bool)
    requires OffersOK(w)
    ensures OffersOK(CallStep(w, WriteOffer(ref, written)))
  {
    hide Installed, Take, Disconnected;
    var w' := CallStep(w, WriteOffer(ref, written));
    assert LeaseMatches(w, ref);
    forall other ensures LeaseMatches(w', other) { assert LeaseMatches(w, other); }
    if w'.wire == w.wire {
      NothingWritten(w, w');
    } else {
      forall i: nat ensures WrittenPast(w', i) { assert WrittenPast(w, i); }
      forall i: nat, j: nat ensures OfferedOnce(w', i, j) { assert OfferedOnce(w, i, j) && WrittenPast(w, i); }
    }
  }

  lemma {:induction false} LeaseTaken(w: World, ref: Ref)
    requires OffersOK(w)
    ensures OffersOK(CallStep(w, LeaseEntry(ref)))
  {
    hide Shows;
    var w' := CallStep(w, LeaseEntry(ref));
    forall other ensures LeaseMatches(w', other) { assert LeaseMatches(w, other); }
    NothingWritten(w, w');
  }

  /** The steps of a delivery's goroutine that find and try its recipient's entry. */
  predicate Opening(e: Step) {
    e.InstallDelivery? || e.Unsendable? || e.SelectEntry? || e.NoEntry? || e.EntryLost?
  }

  /** A step that leaves leases and wire alone, and moves goroutines on from where they stand. */
  ghost predicate MovesOn(w: World, w': World) {
    && w'.wire == w.wire && w'.leases == w.leases && CallsOn(w, w')
    && (forall ref :: ref in w'.calls && w'.calls[ref].Leased? ==> ref in w.calls && w.calls[ref] == w'.calls[ref])
  }

  lemma {:induction false} InstallMoves(w: World, e: Step)
    requires e.InstallDelivery? || e.SelectEntry?
    ensures MovesOn(w, CallStep(w, e))
  {
    hide Install, Shows, IsPublished;
  }

  lemma {:induction false} OpeningMoves(w: World, e: Step)
    requires e.Unsendable? || e.NoEntry? || e.EntryLost?
    ensures MovesOn(w, CallStep(w, e))
  {
    hide Installed, Take, Disconnected, Shows, IsPublished;
  }

  lemma {:induction false} ClosingMoves(w: World, e: Step)
    requires IsCall(e) && !Opening(e) && !e.WriteOffer? && !e.LeaseEntry?
    ensures MovesOn(w, CallStep(w, e))
  {
    hide Installed, Take, Receive, ChannelOutcome, TimedOut, Acknowledges;
  }

  lemma {:induction false} CallMoves(w: World, e: Step)
    requires IsCall(e) && !e.WriteOffer? && !e.LeaseEntry?
    ensures MovesOn(w, CallStep(w, e))
  {
    hide CallStep, MovesOn;
    if e.InstallDelivery? || e.SelectEntry? {
      InstallMoves(w, e);
    } else if Opening(e) {
      OpeningMoves(w, e);
    } else {
      ClosingMoves(w, e);
    }
  }

  lemma {:induction false} CallOffers(w: World, e: Step)
    requires OffersOK(w) && IsCall(e)
    ensures OffersOK(CallStep(w, e))
  {
    if e.WriteOffer? {
      OfferWritten(w, e.ref, e.written);
    } else if e.LeaseEntry? {
      LeaseTaken(w, e.ref);
    } else {
      CallMoves(w, e);
      hide CallStep;
      forall ref ensures LeaseMatches(CallStep(w, e), ref) { assert LeaseMatches(w, ref); }
      NothingWritten(w, CallStep(w, e));
    }
  }

  lemma {:induction false} ElsewhereOffers(w: World, e: Step)
    requires !IsCall(e) && !e.LeaseResult? && !e.WriteResult? && !e.WriteError?
    ensures Next(w, e).wire == w.wire && Next(w, e).leases == w.leases && Next(w, e).calls == w.calls
  {
    hide Reserve, Attach, Judge, ReserveAuthentication, CanPublish, Publish, Hide, Fence, Remove, Lose, Shutdown,
      LostBy, StoppedBy;
  }

  lemma {:induction false} NextOffers(w: World, e: Step)
    requires OffersOK(w)
    ensures OffersOK(Next(w, e))
  {
    if IsCall(e) {
      CallOffers(w, e);
      hide CallStep;
    } else if e.LeaseResult? || e.WriteResult? || e.WriteError? {
      WriterOffers(w, e);
      hide WriterStep;
    } else {
      ElsewhereOffers(w, e);
      hide Next;
      forall ref ensures LeaseMatches(Next(w, e), ref) { assert LeaseMatches(w, ref); }
      NothingWritten(w, Next(w, e));
    }
  }

  lemma {:induction false} RunOffers(limit: nat, steps: seq<Step>)
    ensures OffersOK(Run(limit, steps))
  {
    if steps != [] {
      RunOffers(limit, steps[..|steps| - 1]);
      NextOffers(Run(limit, steps[..|steps| - 1]), steps[|steps| - 1]);
      hide Next;
    }
  }

  /** Over every run: no delivery is offered twice. */
  lemma {:induction false} OfferedAtMostOnce(limit: nat, steps: seq<Step>, i: nat, j: nat)
    requires i < |Run(limit, steps).wire| && j < |Run(limit, steps).wire|
    requires Run(limit, steps).wire[i].frame.Offer?
      && Run(limit, steps).wire[i].frame == Run(limit, steps).wire[j].frame
    ensures i == j
  {
    RunOffers(limit, steps);
    assert OfferedOnce(Run(limit, steps), i, j) && OfferedOnce(Run(limit, steps), j, i);
  }

  // -------- why a written offer has no answer --------

  /** A channel is closed for a reason that still holds. */
  ghost predicate CauseAt(w: World, ref: Ref) {
    ref in w.claims && ref in w.dispatcher.deliveries ==>
      && (w.claims[ref] == ByClosing(Abandoned) ==> w.dispatcher.deliveries[ref].sender in w.swept)
      && (w.claims[ref] == ByClosing(Stopped) ==> w.dispatcher.shuttingDown)
  }

  ghost predicate CausesOK(w: World) {
    (forall ref :: CauseAt(w, ref)) == true
  }

  lemma {:induction false} SweepCauses(w: World, e: Step)
    requires CausesOK(w) && (e.SweepEntry? || e.StopDispatcher?)
    ensures CausesOK(SweepStep(w, e))
  {
    var w' := SweepStep(w, e);
    forall ref ensures CauseAt(w', ref) { assert CauseAt(w, ref); }
  }

  /**
   A delivery claimed after the step was claimed so before, or is now claimed by its goroutine or its acknowledgement.
   */
  ghost predicate ClaimKept(w: World, w': World, ref: Ref) {
    ref in w'.claims && ref in w'.dispatcher.deliveries ==>
      || w'.claims[ref].BySelf? || w'.claims[ref] == ByClosing(Acknowledged)
      || (ref in w.claims && ref in w.dispatcher.deliveries && w'.claims[ref] == w.claims[ref]
          && w'.dispatcher.deliveries[ref].sender == w.dispatcher.deliveries[ref].sender)
  }

  /** Nobody is swept, and nothing is claimed for a party's loss or a stop. */
  ghost predicate NobodyLost(w: World, w': World) {
    (&& w'.swept == w.swept && (w.dispatcher.shuttingDown ==> w'.dispatcher.shuttingDown)
     && (forall ref :: ClaimKept(w, w', ref))) == true
  }

  lemma {:induction false} InstallCauses(w: World, e: Step)
    requires e.InstallDelivery? && DispatcherOK(w)
    ensures NobodyLost(w, CallStep(w, e))
  {
    forall ref ensures ClaimKept(w, CallStep(w, e), ref) { assert DeliveryOK(w, ref); }
    hide DispatcherOK, IsPublished;
  }

  lemma {:induction false} AcknowledgeCauses(w: World, e: Step)
    requires e.Acknowledge? && DispatcherOK(w)
    ensures NobodyLost(w, CallStep(w, e))
  {
    if e.id in w.dispatcher.pending { assert PendingOK(w, e.id); }
    forall ref ensures ClaimKept(w, CallStep(w, e), ref) { assert DeliveryOK(w, ref); }
    hide DispatcherOK;
  }

  lemma {:induction false} OpeningCauses(w: World, e: Step)
    requires Opening(e) && !e.InstallDelivery? && DispatcherOK(w)
    ensures NobodyLost(w, CallStep(w, e))
  {
    forall ref ensures ClaimKept(w, CallStep(w, e), ref) {
      assert DeliveryOK(w, ref);
      hide DispatcherOK, Installed, Disconnected, Shows, IsPublished;
    }
    hide DispatcherOK, Installed, Disconnected, Shows, IsPublished;
  }

  lemma {:induction false} LateCauses(w: World, e: Step)
    requires (e.LeaseEntry? || e.WriteOffer? || e.TakeArm? || e.TakeClaimed?) && DispatcherOK(w)
    ensures NobodyLost(w, CallStep(w, e))
  {
    forall ref ensures ClaimKept(w, CallStep(w, e), ref) {
      assert DeliveryOK(w, ref);
      hide DispatcherOK, Installed, ChannelOutcome, Disconnected, Shows;
    }
    hide DispatcherOK, Installed, ChannelOutcome, Disconnected, Shows;
  }

  lemma {:induction false} EndCauses(w: World, e: Step)
    requires (e.ContextDone? || e.DeadlineExpired?) && DispatcherOK(w)
    ensures NobodyLost(w, CallStep(w, e))
  {
    forall ref ensures ClaimKept(w, CallStep(w, e), ref) {
      assert DeliveryOK(w, ref);
      hide DispatcherOK, Installed, TimedOut;
    }
    hide DispatcherOK, Installed, TimedOut;
  }

  lemma {:induction false} CallCauses(w: World, e: Step)
    requires IsCall(e) && DispatcherOK(w)
    ensures NobodyLost(w, CallStep(w, e))
  {
    hide CallStep, NobodyLost, DispatcherOK;
    if e.InstallDelivery? {
      InstallCauses(w, e);
    } else if e.Acknowledge? {
      AcknowledgeCauses(w, e);
    } else if Opening(e) {
      OpeningCauses(w, e);
    } else if e.ContextDone? || e.DeadlineExpired? {
      EndCauses(w, e);
    } else {
      LateCauses(w, e);
    }
  }

  lemma {:induction false} OthersCauses(w: World, e: Step)
    requires !IsCall(e) && !e.SweepEntry? && !e.StopDispatcher?
    ensures Next(w, e).dispatcher == w.dispatcher && Next(w, e).claims == w.claims && Next(w, e).swept == w.swept
      && Next(w, e).calls == w.calls
  {
    hide Reserve, Attach, Judge, ReserveAuthentication, CanPublish, Publish, Hide, Fence, Remove;
  }

  lemma {:induction false} NextCauses(w: World, e: Step)
    requires CausesOK(w) && DispatcherOK(w)
    ensures CausesOK(Next(w, e))
  {
    if e.SweepEntry? || e.StopDispatcher? {
      SweepCauses(w, e);
      hide SweepStep;
    } else if IsCall(e) {
      CallCauses(w, e);
      hide CallStep, DispatcherOK;
      forall ref ensures CauseAt(CallStep(w, e), ref) { assert CauseAt(w, ref) && ClaimKept(w, CallStep(w, e), ref); }
    } else {
      OthersCauses(w, e);
      hide Next;
      forall ref ensures CauseAt(Next(w, e), ref) { assert CauseAt(w, ref); }
    }
  }

  /** Its goroutine's context ended at some step of the run. */
  ghost predicate ContextEnded(steps: seq<Step>, ref: Ref) {
    exists n :: 0 <= n < |steps| && steps[n] == ContextDone(ref)
  }

  ghost predicate Offered(w: World, ref: Ref) {
    exists i :: 0 <= i < |w.wire| && w.wire[i].frame == Offer(ref)
  }

  /** A goroutine that gave up by itself, with its offer written, did so at its context's end. */
  ghost predicate GaveUp(w: World, ref: Ref) {
    ref in w.claims && w.claims[ref] == BySelf(NoAnswer) && Offered(w, ref)
  }

  /** What claims a delivery for its own goroutine without an answer. */
  lemma {:induction false} ClaimedNow(w: World, e: Step, ref: Ref)
    requires ref in Next(w, e).claims && Next(w, e).claims[ref] == BySelf(NoAnswer)
    requires !(ref in w.claims && w.claims[ref] == BySelf(NoAnswer))
    ensures e == ContextDone(ref) || (e.Unsendable? && e.ref == ref && Is(w, ref, Offering))
  {
    if IsCall(e) {
      CallClaims(w, e, ref);
      hide CallStep;
    } else if e.SweepEntry? || e.StopDispatcher? {
      hide CallStep;
    } else {
      OthersCauses(w, e);
      hide Next;
    }
  }

  lemma {:induction false} CallClaims(w: World, e: Step, ref: Ref)
    requires IsCall(e)
    ensures var w' := CallStep(w, e);
      ref in w'.claims && w'.claims[ref] == BySelf(NoAnswer)
        && !(ref in w.claims && w.claims[ref] == BySelf(NoAnswer)) ==>
        e == ContextDone(ref) || (e.Unsendable? && e.ref == ref && Is(w, ref, Offering))
  {
    hide Installed, Shows, IsPublished, Acknowledges, Take, Install, Receive, MayInstall;
  }

  lemma {:induction false} WireUnlessWritten(w: World, e: Step)
    requires !e.WriteOffer?
    ensures Next(w, e).wire == w.wire || (exists s: Sent :: !s.frame.Offer? && Next(w, e).wire == w.wire + [s])
  {
    if IsCall(e) {
      if !e.LeaseEntry? { CallMoves(w, e); hide CallStep; }
    } else if e.LeaseResult? || e.WriteResult? || e.WriteError? {
    } else {
      ElsewhereOffers(w, e);
      hide Next;
    }
  }

  /** A frame that offers a delivery is written by its own goroutine, under its lease. */
  lemma {:induction false} WrittenNow(w: World, e: Step, ref: Ref)
    requires OffersOK(w) && Offered(Next(w, e), ref) && !Offered(w, ref)
    ensures ref in w.calls && w.calls[ref].Leased?
    ensures Next(w, e).claims == w.claims
  {
    var i :| 0 <= i < |Next(w, e).wire| && Next(w, e).wire[i].frame == Offer(ref);
    if i < |w.wire| { assert w.wire[i] != Next(w, e).wire[i]; }
    if e.WriteOffer? {
      assert LeaseMatches(w, e.ref);
      hide OffersOK, Finish;
    } else {
      WireUnlessWritten(w, e);
      hide Next, OffersOK;
      assert false;
    }
  }

  /** A step that makes a delivery one given up with its offer written is its context's end. */
  lemma {:induction false} GivesUp(w: World, e: Step, ref: Ref)
    requires OffersOK(w) && DispatcherOK(w) && !GaveUp(w, ref) && GaveUp(Next(w, e), ref)
    ensures e == ContextDone(ref)
  {
    assert DeliveryOK(w, ref);
    hide Next, DispatcherOK;
    if !Offered(w, ref) {
      WrittenNow(w, e, ref);
    } else {
      var i: nat :| i < |w.wire| && w.wire[i].frame == Offer(ref);
      assert WrittenPast(w, i);
      ClaimedNow(w, e, ref);
    }
  }

  lemma {:induction false} RunCauses(limit: nat, steps: seq<Step>, ref: Ref)
    ensures CausesOK(Run(limit, steps)) && (GaveUp(Run(limit, steps), ref) ==> ContextEnded(steps, ref))
  {
    if steps != [] {
      var n := |steps| - 1;
      var w := Run(limit, steps[..n]);
      RunCauses(limit, steps[..n], ref);
      RunSafe(limit, steps[..n]);
      RunOffers(limit, steps[..n]);
      NextCauses(w, steps[n]);
      if GaveUp(w, ref) {
        var m :| 0 <= m < n && steps[..n][m] == ContextDone(ref);
        assert steps[m] == ContextDone(ref);
      } else if GaveUp(Run(limit, steps), ref) {
        GivesUp(w, steps[n], ref);
      }
      hide Next, Safe;
    }
  }

  /**
   Over every run: a delivery whose offer was written ends without an answer only if its sender was swept, the
   dispatcher was stopped, or its own context ended.
   */
  lemma {:induction false} UnansweredOffer(limit: nat, steps: seq<Step>, ref: Ref)
    requires var w := Run(limit, steps); Offered(w, ref) && ref in w.calls && w.calls[ref] == Done(NoAnswer)
    ensures var w := Run(limit, steps);
      && ref in w.claims && ref in w.dispatcher.deliveries
      && (|| (w.claims[ref] == ByClosing(Abandoned) && w.dispatcher.deliveries[ref].sender in w.swept)
          || (w.claims[ref] == ByClosing(Stopped) && w.dispatcher.shuttingDown)
          || (w.claims[ref] == BySelf(NoAnswer) && ContextEnded(steps, ref)))
  {
    RunSafe(limit, steps);
    RunCauses(limit, steps, ref);
    assert DeliveryOK(Run(limit, steps), ref) && CauseAt(Run(limit, steps), ref);
    hide Run, Safe, DispatcherOK, RegistryOK, CausesOK, ContextEnded;
  }

  // -------- what an installed delivery is answered with --------

  /** The outcome a goroutine may take for itself; a deadline starts only after the offer. */
  ghost predicate OwnOutcome(w: World, ref: Ref, outcome: Outcome)
    requires ref in w.dispatcher.deliveries
  {
    outcome.Answer? ==>
      || outcome == Disconnected(w.dispatcher.deliveries[ref])
      || (outcome == TimedOut(w.dispatcher.deliveries[ref]) && Offered(w, ref))
  }

  ghost predicate AnswerAt(w: World, ref: Ref) {
    ref in w.dispatcher.deliveries ==>
      && (ref in w.calls && w.calls[ref].Waiting? ==> Offered(w, ref))
      && (ref in w.claims && w.claims[ref].BySelf? ==> OwnOutcome(w, ref, w.claims[ref].outcome))
  }

  ghost predicate AnswersOK(w: World) {
    (forall ref :: AnswerAt(w, ref)) == true
  }

  predicate SameParties(d: PendingDelivery, d': PendingDelivery) {
    d'.(closes := []) == d.(closes := [])
  }

  /** How one delivery may move in a step, as far as its answer is concerned. */
  ghost predicate AnswerMoves(w: World, w': World, ref: Ref) {
    ref in w'.dispatcher.deliveries ==>
      && (ref in w.dispatcher.deliveries ==> SameParties(w.dispatcher.deliveries[ref], w'.dispatcher.deliveries[ref]))
      && (ref in w'.calls && w'.calls[ref].Waiting? ==>
            (ref in w.dispatcher.deliveries && ref in w.calls && w.calls[ref].Waiting?) || Offered(w', ref))
      && (ref in w'.claims && w'.claims[ref].BySelf? ==>
            (ref in w.dispatcher.deliveries && ref in w.claims && w'.claims[ref] == w.claims[ref])
            || OwnOutcome(w', ref, w'.claims[ref].outcome))
  }

  lemma {:induction false} MovedAnswers(w: World, w': World)
    requires AnswersOK(w) && w.wire <= w'.wire && forall ref :: AnswerMoves(w, w', ref)
    ensures AnswersOK(w')
  {
    forall ref ensures AnswerAt(w', ref) {
      assert AnswerAt(w, ref) && AnswerMoves(w, w', ref);
      if Offered(w, ref) {
        var i :| 0 <= i < |w.wire| && w.wire[i].frame == Offer(ref);
        assert w'.wire[i].frame == Offer(ref);
      }
    }
  }

  lemma {:induction false} WrittenAnswers(w: World, e: Step, ref: Ref)
    requires e.WriteOffer? && OffersOK(w) && DispatcherOK(w)
    ensures AnswerMoves(w, CallStep(w, e), ref)
  {
    assert LeaseMatches(w, e.ref) && DeliveryOK(w, ref);
    var w' := CallStep(w, e);
    if |w'.wire| > |w.wire| { assert w'.wire[|w.wire|].frame == Offer(e.ref); }
    hide OffersOK, DispatcherOK, Installed, ChannelOutcome;
  }

  lemma {:induction false} InstalledAnswersStep(w: World, e: Step, ref: Ref)
    requires (e.InstallDelivery? || e.Acknowledge?) && DispatcherOK(w)
    ensures AnswerMoves(w, CallStep(w, e), ref)
  {
    assert DeliveryOK(w, ref);
    if e.Acknowledge? && e.id in w.dispatcher.pending { assert PendingOK(w, e.id); }
    hide DispatcherOK, IsPublished, Offered;
  }

  /** The steps at which a goroutine takes its delivery out by itself, and the outcome it takes. */
  predicate Finishes(e: Step) {
    e.Unsendable? || e.NoEntry? || e.EntryLost? || e.ContextDone? || e.DeadlineExpired?
  }

  function Taken(e: Step, d: PendingDelivery): Outcome
    requires Finishes(e)
  {
    if e.Unsendable? then (if e.fault then Fault else NoAnswer)
    else if e.ContextDone? then NoAnswer
    else if e.DeadlineExpired? then TimedOut(d)
    else Disconnected(d)
  }

  lemma {:induction false} FinishIs(w: World, e: Step)
    requires Finishes(e)
    ensures CallStep(w, e) == w ||
      (e.ref in w.dispatcher.deliveries && (e.DeadlineExpired? ==> Is(w, e.ref, Waiting)) &&
       CallStep(w, e) == Finish(w, e.ref, Taken(e, w.dispatcher.deliveries[e.ref])))
  {
    hide Finish, Disconnected, TimedOut, Shows, IsPublished;
  }

  lemma {:induction false} FinishAnswers(w: World, ref: Ref, outcome: Outcome, other: Ref)
    requires DeliveryOK(w, other) && ref in w.dispatcher.deliveries && OwnOutcome(w, ref, outcome)
    ensures AnswerMoves(w, Finish(w, ref, outcome), other)
  {
    hide Disconnected, TimedOut;
  }

  lemma {:induction false} EndingAnswers(w: World, e: Step, ref: Ref)
    requires Finishes(e) && DispatcherOK(w) && AnswersOK(w)
    ensures AnswerMoves(w, CallStep(w, e), ref)
  {
    FinishIs(w, e);
    assert DeliveryOK(w, ref) && AnswerAt(w, e.ref);
    hide CallStep, DispatcherOK, AnswersOK, Finish, Disconnected, TimedOut, Offered;
    if CallStep(w, e) != w { FinishAnswers(w, e.ref, Taken(e, w.dispatcher.deliveries[e.ref]), ref); }
  }

  lemma {:induction false} SelectAnswers(w: World, e: Step, ref: Ref)
    requires e.SelectEntry? && DispatcherOK(w)
    ensures AnswerMoves(w, CallStep(w, e), ref)
  {
    assert DeliveryOK(w, ref);
    hide DispatcherOK, Installed, Disconnected, TimedOut, Shows, Offered;
  }

  lemma {:induction false} ClosingAnswers(w: World, e: Step, ref: Ref)
    requires (e.LeaseEntry? || e.TakeArm? || e.TakeClaimed?) && DispatcherOK(w)
    ensures AnswerMoves(w, CallStep(w, e), ref)
  {
    assert DeliveryOK(w, ref);
    hide DispatcherOK, Installed, ChannelOutcome, Disconnected, TimedOut, Shows, Offered;
  }

  lemma {:induction false} SweepAnswers(w: World, e: Step, ref: Ref)
    requires (e.SweepEntry? || e.StopDispatcher?) && DispatcherOK(w)
    ensures AnswerMoves(w, SweepStep(w, e), ref)
  {
    assert DeliveryOK(w, ref);
    hide DispatcherOK, Offered, Disconnected, TimedOut;
  }

  lemma {:induction false} CallAnswers(w: World, e: Step, ref: Ref)
    requires IsCall(e) && OffersOK(w) && DispatcherOK(w) && AnswersOK(w)
    ensures AnswerMoves(w, CallStep(w, e), ref)
  {
    hide CallStep, AnswerMoves, OffersOK, DispatcherOK, AnswersOK;
    if e.WriteOffer? {
      WrittenAnswers(w, e, ref);
    } else if e.InstallDelivery? || e.Acknowledge? {
      InstalledAnswersStep(w, e, ref);
    } else if e.SelectEntry? {
      SelectAnswers(w, e, ref);
    } else if Finishes(e) {
      EndingAnswers(w, e, ref);
    } else {
      ClosingAnswers(w, e, ref);
    }
  }

  lemma {:induction false} WireGrows(w: World, e: Step)
    ensures w.wire <= Next(w, e).wire
  {
    if e.WriteOffer? {
      hide Finish;
    } else {
      WireUnlessWritten(w, e);
      hide Next;
    }
  }

  lemma {:induction false} StepAnswers(w: World, e: Step, ref: Ref)
    requires OffersOK(w) && DispatcherOK(w) && AnswersOK(w)
    ensures AnswerMoves(w, Next(w, e), ref)
  {
    hide OffersOK, DispatcherOK, AnswersOK, CallStep, SweepStep, WriterStep, RegistryStep;
    if IsCall(e) {
      CallAnswers(w, e, ref);
      hide AnswerMoves;
    } else if e.SweepEntry? || e.StopDispatcher? {
      SweepAnswers(w, e, ref);
      hide AnswerMoves;
    } else {
      OthersCauses(w, e);
      hide Next, Offered;
    }
  }

  lemma {:induction false} NextAnswers(w: World, e: Step)
    requires OffersOK(w) && DispatcherOK(w) && AnswersOK(w)
    ensures AnswersOK(Next(w, e))
  {
    WireGrows(w, e);
    forall ref ensures AnswerMoves(w, Next(w, e), ref) { StepAnswers(w, e, ref); }
    hide Next, AnswerMoves, OffersOK, DispatcherOK;
    MovedAnswers(w, Next(w, e));
  }

  lemma {:induction false} RunAnswers(limit: nat, steps: seq<Step>)
    ensures AnswersOK(Run(limit, steps))
  {
    if steps != [] {
      var n := |steps| - 1;
      RunAnswers(limit, steps[..n]);
      RunSafe(limit, steps[..n]);
      RunOffers(limit, steps[..n]);
      NextAnswers(Run(limit, steps[..n]), steps[n]);
      hide Next;
    }
  }

  /**
   Over every run: an installed delivery is answered with "received", "recipient disconnected" or, once its offer is
   written, "acknowledgement timeout", naming its own message and parties; never with "offline".
   */
  lemma {:induction false} InstalledAnswers(limit: nat, steps: seq<Step>, ref: Ref)
    requires var w := Run(limit, steps); ref in w.calls && w.calls[ref].Done? && w.calls[ref].outcome.Answer?
    ensures var w := Run(limit, steps);
      && ref in w.dispatcher.deliveries
      && var d, r := w.dispatcher.deliveries[ref], w.calls[ref].outcome.response;
      && (r.code == Received || r.code == RecipientDisconnected || (r.code == AckTimeout && Offered(w, ref)))
      && r == Response(r.code, d.messageID, d.deliveryID, d.sender.address, d.recipient.address)
  {
    RunSafe(limit, steps);
    RunAnswers(limit, steps);
    assert DeliveryOK(Run(limit, steps), ref) && AnswerAt(Run(limit, steps), ref);
    hide Run;
  }
}
