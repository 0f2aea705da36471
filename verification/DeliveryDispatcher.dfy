/** The delivery dispatcher's lock sections as the server runs them, on its own map of pending deliveries. */
module DeliveryDispatchers {
  import opened Wrappers
  import opened Messages
  import opened Registry
  import opened Delivery
  import DeliverySafety

  /** Pending deliveries exist under their own ID, and none of their channels is closed. */
  ghost predicate Sound(d: Dispatcher) {
    forall id :: id in d.pending ==>
      && d.pending[id] in d.deliveries && d.deliveries[d.pending[id]].deliveryID == id
      && d.deliveries[d.pending[id]].closes == []
  }

  /** One more delivery of a sweep. */
  lemma {:induction false} SweepOneMore(d: Dispatcher, reasons: map<Ref, Channel>, ref: Ref, c: Channel)
    requires Sound(d) && Installed(d, ref) && ref !in reasons
    requires forall r :: r in reasons ==> Installed(d, r)
    ensures var id := d.deliveries[ref].deliveryID;
      && ref in Sweep(d, reasons).deliveries && Sweep(d, reasons).deliveries[ref] == d.deliveries[ref]
      && Sweep(d, reasons[ref := c]).pending == Sweep(d, reasons).pending - {id}
      && Sweep(d, reasons[ref := c]).deliveries == CloseChannel(Sweep(d, reasons), ref, c).deliveries
  {
  }

  lemma {:induction false} SweepNone(d: Dispatcher)
    ensures Sweep(d, map[]) == d
  {
    assert Sweep(d, map[]).pending == d.pending;
    assert Sweep(d, map[]).deliveries == d.deliveries;
  }

  lemma {:induction false} SweepKeepsSound(d: Dispatcher, reasons: map<Ref, Channel>)
    requires Sound(d)
    ensures Sound(Sweep(d, reasons))
  {
  }

  /** A sweep for the given reasons, with the IDs `rest` still to be looked at. */
  ghost predicate Halfway(d: Dispatcher, reasons: map<Ref, Channel>, closed: map<Ref, Channel>, rest: set<string>) {
    && rest <= d.pending.Keys
    && (forall ref :: ref in reasons ==> Installed(d, ref))
    && (forall ref :: ref in closed <==> ref in reasons && d.deliveries[ref].deliveryID !in rest)
    && (forall ref :: ref in closed ==> closed[ref] == reasons[ref])
  }

  lemma {:induction false} SweepTurn(d: Dispatcher, reasons: map<Ref, Channel>, closed: map<Ref, Channel>,
    rest: set<string>, id: string)
    requires Sound(d) && Halfway(d, reasons, closed, rest) && id in rest
    ensures var ref := d.pending[id];
      && Installed(d, ref) && d.deliveries[ref].deliveryID == id
      && id in Sweep(d, closed).pending && Sweep(d, closed).pending[id] == ref
      && ref in Sweep(d, closed).deliveries && Sweep(d, closed).deliveries[ref] == d.deliveries[ref]
      && Sweep(d, closed).shuttingDown == d.shuttingDown
      && (ref !in reasons ==> Halfway(d, reasons, closed, rest - {id}))
      && (ref in reasons ==>
            && Sweep(d, closed[ref := reasons[ref]]).shuttingDown == d.shuttingDown
            && Halfway(d, reasons, closed[ref := reasons[ref]], rest - {id})
            && Sweep(d, closed[ref := reasons[ref]]).pending == Sweep(d, closed).pending - {id}
            && Sweep(d, closed[ref := reasons[ref]]).deliveries ==
              CloseChannel(Sweep(d, closed), ref, reasons[ref]).deliveries)
  {
    var ref := d.pending[id];
    assert Installed(d, ref) && ref !in closed;
    if ref in reasons { SweepOneMore(d, closed, ref, reasons[ref]); }
    forall r | r in reasons && d.deliveries[r].deliveryID == id ensures r == ref {}
  }

  lemma {:induction false} SweepDone(d: Dispatcher, reasons: map<Ref, Channel>, closed: map<Ref, Channel>)
    requires Sound(d) && Halfway(d, reasons, closed, {})
    ensures closed == reasons && Sound(Sweep(d, closed))
  {
    SweepKeepsSound(d, closed);
  }

  lemma {:induction false} SweepBegins(d: Dispatcher, reasons: map<Ref, Channel>)
    requires Sound(d) && forall ref :: ref in reasons ==> Installed(d, ref)
    ensures Halfway(d, reasons, map[], d.pending.Keys) && Sweep(d, map[]) == d
  {
    SweepNone(d);
  }

  lemma {:induction false} LoseLeaves(d: Dispatcher, s: Session)
    requires Sound(d)
    ensures forall id ::
      id in Lose(d, s).pending ==> LostChannel(Lose(d, s).deliveries[Lose(d, s).pending[id]], s).None?
  {
    SweepKeepsSound(d, LostBy(d, s));
    forall id | id in Lose(d, s).pending ensures LostChannel(Lose(d, s).deliveries[Lose(d, s).pending[id]], s).None? {
      assert Installed(d, d.pending[id]);
    }
  }

  lemma {:induction false} ShutdownLeaves(d: Dispatcher)
    requires Sound(d)
    ensures Shutdown(d).pending == map[]
  {
    forall id | id in d.pending ensures d.pending[id] in StoppedBy(d) { assert Installed(d, d.pending[id]); }
  }

  lemma {:induction false} LostByAt(d: Dispatcher, s: Session, ref: Ref)
    requires Installed(d, ref)
    ensures ref in LostBy(d, s) <==> LostChannel(d.deliveries[ref], s).Some?
    ensures ref in LostBy(d, s) ==> LostBy(d, s)[ref] == LostChannel(d.deliveries[ref], s).value
  {
  }

  lemma {:induction false} LostByInstalled(d: Dispatcher, s: Session)
    ensures forall ref :: ref in LostBy(d, s) ==> Installed(d, ref)
  {
  }

  /** How `send` begins: answered, ended without an answer, failed, or with a delivery of its own. */
  datatype Beginning = Answered(response: Response) | Unanswered | Failed(error: string) | Begun(ref: Ref)

  class DeliveryDispatcher {
    const registry: SessionConnectionRegistry
    var pending: map<string, Ref>
    var shuttingDown: bool
    var deliveries: map<Ref, PendingDelivery>
    var next: Ref

    function Now(): Dispatcher
      reads this
    {
      Dispatcher(pending, shuttingDown, deliveries)
    }

    ghost predicate Valid()
      reads this
    {
      Sound(Now()) && forall ref :: ref in deliveries ==> ref < next
    }

    constructor (registry: SessionConnectionRegistry)
      ensures Valid() && Now() == Dispatcher(map[], false, map[]) && this.registry == registry
    {
      this.registry := registry;
      pending, shuttingDown, deliveries, next := map[], false, map[], 0;
    }

    /** The admission section of `send`: no delivery enters for a sender that is gone, nor after shutdown. */
    method Admit(sender: Session, recipient: Session, messageID: string, id: string) returns (r: Result<Option<Ref>>)
      requires Valid() && registry.Valid()
      modifies this
      ensures Valid()
      ensures r.Success? && r.value.Some? <==>
        !old(shuttingDown) && IsPublished(registry.Now(), sender) && id !in old(pending)
      ensures r.Failure? <==> !old(shuttingDown) && IsPublished(registry.Now(), sender) && id in old(pending)
      ensures r.Success? && r.value.Some? ==>
        r.value.value !in old(deliveries)
          && Now() == Install(old(Now()), r.value.value, sender, recipient, messageID, id)
      ensures !(r.Success? && r.value.Some?) ==> Now() == old(Now())
    {
      var published := registry.IsPublishedSession(sender);
      if shuttingDown || !published {
        return Success(None);
      }
      if id in pending {
        return Failure("generated duplicate delivery ID");
      }
      var ref := next;
      next := next + 1;
      deliveries := deliveries[ref := PendingDelivery(sender, recipient, messageID, id, [])];
      pending := pending[id := ref];
      return Success(Some(ref));
    }

    /**
     `send` up to its delivery.  The only answer it gives without one is "offline", when nobody has the address; after
     shutdown it gives that or none.
     */
    method BeginSend(sender: Session, to: string, messageID: string, generated: Result<string>) returns (r: Beginning)
      requires Valid() && registry.Valid()
      modifies this
      ensures Valid()
      ensures r.Answered? <==> forall s :: IsPublished(registry.Now(), s) ==> s.address != to
      ensures r.Answered? ==> r.response == Response(Offline, messageID, "", sender.address, to)
      ensures r.Begun? ==> !old(shuttingDown) && IsPublished(registry.Now(), sender) && r.ref !in old(deliveries)
      ensures r.Begun? ==> r.ref in deliveries && deliveries[r.ref].recipient.address == to
      ensures r.Begun? ==>
        && generated.Success? && IsPublished(registry.Now(), deliveries[r.ref].recipient)
        && Now() == Install(old(Now()), r.ref, sender, deliveries[r.ref].recipient, messageID, generated.value)
      ensures !r.Begun? ==> Now() == old(Now())
      ensures !old(shuttingDown) && IsPublished(registry.Now(), sender) && !r.Answered? ==>
        (r.Begun? <==> generated.Success? && generated.value !in old(pending))
    {
      var found := registry.PublishedSession(to);
      if found.None? {
        return Answered(Response(Offline, messageID, "", sender.address, to));
      }
      if generated.Failure? {
        return Failed(generated.error);
      }
      var admitted := Admit(sender, found.value, messageID, generated.value);
      match admitted {
        case Failure(error) => return Failed(error);
        case Success(None) => return Unanswered;
        case Success(Some(ref)) => return Begun(ref);
      }
    }

    /** `remove()`: true for the goroutine that takes its own delivery out, once. */
    method TakeOwn(ref: Ref) returns (mine: bool)
      requires Valid() && ref in deliveries
      modifies this
      ensures Valid()
      ensures mine <==> Installed(old(Now()), ref)
      ensures Now() == if mine then Take(old(Now()), ref) else old(Now())
    {
      var id := deliveries[ref].deliveryID;
      if !(id in pending && pending[id] == ref) {
        return false;
      }
      pending := pending - {id};
      mine := true;
    }

    /** Closing a channel that is closed already stops the server; the precondition is what rules that out. */
    method Close(ref: Ref, c: Channel)
      requires ref in deliveries && deliveries[ref].closes == []
      modifies this`deliveries
      ensures Now() == CloseChannel(old(Now()), ref, c)
    {
      deliveries := deliveries[ref := deliveries[ref].(closes := deliveries[ref].closes + [c])];
    }

    method ReceiveAck(recipient: Session, id: string, messageID: string)
      requires Valid()
      modifies this
      ensures Valid() && Now() == Receive(old(Now()), id, recipient, messageID)
    {
      if id !in pending {
        return;
      }
      var ref := pending[id];
      if deliveries[ref].recipient != recipient || deliveries[ref].messageID != messageID {
        return;
      }
      pending := pending - {id};
      Close(ref, Acknowledged);
    }

    method TakeAndClose(id: string, ref: Ref, c: Channel)
      requires ref in deliveries && deliveries[ref].closes == []
      modifies this`pending, this`deliveries
      ensures Now() == CloseChannel(old(Now()), ref, c).(pending := old(pending) - {id})
    {
      pending := pending - {id};
      Close(ref, c);
    }

    /** Closes every delivery the lost session is a party to; as its sender, if it is both. */
    method HandleSessionUnavailable(session: Session)
      requires Valid()
      modifies this
      ensures Valid() && Now() == Lose(old(Now()), session)
      ensures forall id :: id in pending ==> LostChannel(deliveries[pending[id]], session).None?
    {
      hide Sweep, Halfway, Installed, LostBy;
      ghost var d := Now();
      ghost var reasons, closed := LostBy(d, session), map[];
      LostByInstalled(d, session);
      SweepBegins(d, reasons);
      var rest := pending.Keys;
      while rest != {}
        invariant Now() == Sweep(d, closed) && next == old(next) && deliveries.Keys == d.deliveries.Keys
        invariant Halfway(d, reasons, closed, rest)
        decreases |rest|
      {
        var id :| id in rest;
        SweepTurn(d, reasons, closed, rest, id);
        rest := rest - {id};
        var ref := pending[id];
        LostByAt(d, session, ref);
        if deliveries[ref].sender == session {
          TakeAndClose(id, ref, Abandoned);
          closed := closed[ref := Abandoned];
        } else if deliveries[ref].recipient == session {
          TakeAndClose(id, ref, Cancelled);
          closed := closed[ref := Cancelled];
        }
      }
      SweepDone(d, reasons, closed);
      LoseLeaves(d, session);
    }

    method ShutdownDispatcher()
      requires Valid()
      modifies this
      ensures Valid() && Now() == Shutdown(old(Now())) && pending == map[]
    {
      hide Sweep, Halfway, Installed;
      ghost var d := Now();
      ghost var reasons, closed := StoppedBy(d), map[];
      SweepBegins(d, reasons);
      shuttingDown := true;
      var rest := pending.Keys;
      while rest != {}
        invariant Now() == Sweep(d, closed).(shuttingDown := true) && next == old(next)
          && deliveries.Keys == d.deliveries.Keys
        invariant Halfway(d, reasons, closed, rest)
        decreases |rest|
      {
        var id :| id in rest;
        SweepTurn(d, reasons, closed, rest, id);
        rest := rest - {id};
        var ref := pending[id];
        TakeAndClose(id, ref, Stopped);
        closed := closed[ref := Stopped];
      }
      SweepDone(d, reasons, closed);
      ShutdownLeaves(d);
    }
  }

  /** On every reachable state the dispatcher is sound: no step of any goroutine closes a channel a second time. */
  lemma {:induction false} RunSound(limit: nat, steps: seq<Step>)
    ensures Sound(Run(limit, steps).dispatcher)
  {
    var w := Run(limit, steps);
    DeliverySafety.RunSafe(limit, steps);
    forall id | id in w.dispatcher.pending
      ensures w.dispatcher.pending[id] in w.dispatcher.deliveries
        && w.dispatcher.deliveries[w.dispatcher.pending[id]].deliveryID == id
      ensures w.dispatcher.deliveries[w.dispatcher.pending[id]].closes == []
    {
      assert PendingOK(w, id) && DeliveryOK(w, w.dispatcher.pending[id]);
      assert Installed(w.dispatcher, w.dispatcher.pending[id]);
    }
  }
}
