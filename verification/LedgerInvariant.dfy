/** Every ledger operation keeps the ledger's invariant; hence so does every run. */
module LedgerInvariant {
  import opened Wrappers
  import opened Messages
  import opened LedgerSpec

  datatype Event<R> =
    | Observed(sender: Session, op: Operation, fingerprint: Fingerprint)
    | Begun(k: Key, fingerprint: Fingerprint, id: R)
    | Bound(k: Key, id: R, recipient: Session)
    | Completed(k: Key, id: R, response: Response, respond: bool)
    | Released(k: Key, id: R)
    | Advanced(sender: Session)
    | SenderLost(sender: Session)
    | RecipientLost(recipient: Session)
    | ShutDown

  function Apply<R(==)>(l: Ledger<R>, e: Event<R>): Ledger<R> {
    match e
    case Observed(sender, op, fingerprint) => Observe(l, sender, op, fingerprint).0
    case Begun(k, fingerprint, id) => (match Begin(l, k, fingerprint, id) case Some(l') => l' case None => l)
    case Bound(k, id, recipient) => BindRecipient(l, k, id, recipient)
    case Completed(k, id, response, respond) => Complete(l, k, id, response, respond).0
    case Released(k, id) => ReleaseCurrent(l, k, id)
    case Advanced(sender) => AdvanceSender(l, sender)
    case SenderLost(sender) => ForgetSender(l, sender)
    case RecipientLost(recipient) => ForgetRecipient(l, recipient)
    case ShutDown => Empty()
  }

  /** The ledger after a whole run. */
  function Run<R(==)>(events: seq<Event<R>>): Ledger<R> {
    if events == [] then Empty() else Apply(Run(events[..|events| - 1]), events[|events| - 1])
  }

  // -------- building blocks --------

  lemma CollectLinked<R>(l: Ledger<R>)
    requires Linked(l)
    ensures Linked(Collect(l))
    ensures forall k :: k in Collect(l).records ==> Retained(Collect(l), k)
  {
    var l' := Collect(l);
    forall s | s in l'.current ensures l'.current[s] in l'.records && l'.current[s].sender == s {
      assert IsCurrent(l, l.current[s]);
    }
  }

  lemma WithoutDistinct(w: seq<Key>, gone: set<Key>)
    requires Distinct(w)
    ensures Distinct(Without(w, gone))
  {
    if w != [] {
      WithoutDistinct(w[1..], gone);
      if w[0] !in gone {
        var r := Without(w[1..], gone);
        assert Without(w, gone) == [w[0]] + r;
        assert w[0] !in w[1..];
      }
    }
  }

  lemma DropValid<R>(l: Ledger<R>, gone: set<Key>)
    requires Linked(l)
    ensures Linked(Drop(l, gone))
    ensures Valid(l) ==> Valid(Drop(l, gone))
  {
    var l' := Drop(l, gone);
    forall s | s in l'.windows ensures WindowOK(l', s) {
      assert WindowOK(l, s);
      WithoutDistinct(l.windows[s], gone);
    }
    forall k | k in l'.records && !l'.records[k].Pending() && l'.records[k].recipientOwned
      ensures k in Window(l', l'.records[k].recipient.value)
    {
      var s := l.records[k].recipient.value;
      assert k in Window(l, s);
      assert k in Without(l.windows[s], gone);
    }
    if Valid(l) {
      forall k | k in l'.records ensures Retained(l', k) {
        assert Retained(l, k);
      }
    }
  }

  /** `Linked`, but for `k`, settled a moment ago and not yet in its recipient's window. */
  ghost predicate LinkedBut<R>(l: Ledger<R>, k: Key) {
    && CurrentOK(l)
    && (forall s :: s in l.windows ==> WindowOK(l, s) && k !in l.windows[s])
    && (forall x :: x in l.records ==> RecordOK(l.records[x]))
    && (forall x :: x in l.records && x != k && !l.records[x].Pending() && l.records[x].recipientOwned ==>
          x in Window(l, l.records[x].recipient.value))
  }

  lemma PushedDistinct(w: seq<Key>, k: Key)
    requires Distinct(w) && k !in w
    ensures Distinct(w + [k])
    ensures w != [] ==> w[0] !in (w + [k])[1..] && Distinct((w + [k])[1..])
    ensures forall x :: x in w + [k] <==> x == k || x in w
    ensures w != [] ==> forall x :: x in (w + [k])[1..] <==> (x == k || x in w) && x != w[0]
  {
    var v := w + [k];
    if w != [] {
      assert v == [w[0]] + v[1..];
      forall x ensures x in v[1..] <==> (x == k || x in w) && x != w[0] {
        if x in v[1..] {
          var i :| 0 <= i < |v| - 1 && v[1..][i] == x;
          assert v[i + 1] == x && v[0] == w[0];
        }
        assert x in v <==> x == w[0] || x in v[1..];
      }
    }
  }

  lemma EnterLinked<R>(l: Ledger<R>, k: Key)
    requires LinkedBut(l, k)
    requires k in l.records && !l.records[k].Pending() && l.records[k].recipientOwned
    requires forall s :: s in l.windows ==> |l.windows[s]| <= MAX_SETTLED_PER_RECIPIENT
    ensures Linked(Enter(l, k))
    ensures forall s :: s in Enter(l, k).windows ==> |Enter(l, k).windows[s]| <= MAX_SETTLED_PER_RECIPIENT
  {
    var s := l.records[k].recipient.value;
    var before := Window(l, s);
    var l' := Enter(l, k);
    assert s in l.windows ==> WindowOK(l, s);
    PushedDistinct(before, k);
    if |before| < MAX_SETTLED_PER_RECIPIENT {
      forall t | t in l'.windows ensures WindowOK(l', t) {
        if t != s { assert WindowOK(l, t); }
      }
    } else {
      var oldest := before[0];
      assert (before + [k])[0] == oldest;
      forall t | t in l'.windows ensures WindowOK(l', t) {
        if t != s {
          assert WindowOK(l, t);
          assert oldest !in l.windows[t];
        }
      }
    }
  }

  // -------- one step --------

  lemma ObserveValid<R>(l: Ledger<R>, sender: Session, op: Operation, fingerprint: Fingerprint)
    requires Valid(l)
    ensures Valid(Observe(l, sender, op, fingerprint).0)
  {
    var l' := Observe(l, sender, op, fingerprint).0;
    assert forall s :: s in l'.windows ==> WindowOK(l, s);
    forall k | k in l'.records ensures Retained(l', k) { assert Retained(l, k); }
  }

  lemma AdvanceValid<R>(l: Ledger<R>, sender: Session)
    requires Valid(l)
    ensures Valid(AdvanceSender(l, sender))
  {
    CollectLinked(l.(current := l.current - {sender}));
  }

  lemma BeginValid<R>(l: Ledger<R>, k: Key, fingerprint: Fingerprint, id: R)
    requires Valid(l)
    ensures k !in l.records ==> Begin(l, k, fingerprint, id).Some? && Valid(Begin(l, k, fingerprint, id).value)
  {
    if k !in l.records {
      AdvanceValid(l, k.sender);
      var swept := AdvanceSender(l, k.sender);
      var l' := Begin(l, k, fingerprint, id).value;
      forall s | s in l'.windows ensures WindowOK(l', s) { assert WindowOK(swept, s); }
      forall x | x in l'.records ensures Retained(l', x) {
        if x != k { assert Retained(swept, x); }
      }
    }
  }

  lemma BindValid<R>(l: Ledger<R>, k: Key, id: R, recipient: Session)
    requires Valid(l)
    ensures Valid(BindRecipient(l, k, id, recipient))
  {
    var l' := BindRecipient(l, k, id, recipient);
    forall s | s in l'.windows ensures WindowOK(l', s) { assert WindowOK(l, s); }
    forall x | x in l'.records ensures Retained(l', x) { assert Retained(l, x); }
  }

  lemma CompleteValid<R>(l: Ledger<R>, k: Key, id: R, response: Response, respond: bool)
    requires Valid(l)
    ensures Valid(Complete(l, k, id, response, respond).0)
  {
    if Live(l, k, id) && l.records[k].Pending() {
      var r := l.records[k];
      if !respond {
        DropValid(l, {k});
      } else {
        var keep := r.recipientOwned && !r.recipientGone && r.recipient.Some? && Retainable(response.code);
        var settled :=
          l.(records := l.records[k := r.(response := Some(response), attached := None, recipientOwned := keep)]);
        forall s | s in l.windows ensures k !in l.windows[s] { assert WindowOK(l, s); }
        if keep {
          SettledLinkedBut(l, settled, k);
          EnterLinked(settled, k);
          CollectLinked(Enter(settled, k));
        } else {
          forall s | s in settled.windows ensures WindowOK(settled, s) { assert WindowOK(l, s); }
          CollectLinked(settled);
        }
      }
    }
  }

  lemma SettledLinkedBut<R>(l: Ledger<R>, settled: Ledger<R>, k: Key)
    requires Valid(l) && k in l.records && l.records[k].Pending()
    requires settled.records.Keys == l.records.Keys && settled.current == l.current && settled.windows == l.windows
    requires forall x :: x in l.records && x != k ==> settled.records[x] == l.records[x]
    requires RecordOK(settled.records[k])
    ensures LinkedBut(settled, k)
  {
    forall s | s in l.windows ensures WindowOK(settled, s) && k !in l.windows[s] { assert WindowOK(l, s); }
  }

  lemma ForgetRecipientValid<R>(l: Ledger<R>, recipient: Session)
    requires Valid(l)
    ensures Valid(ForgetRecipient(l, recipient))
  {
    var m := Ledger(map k | k in l.records :: Disown(l.records[k], recipient), l.current, l.windows - {recipient});
    forall s | s in m.windows ensures WindowOK(m, s) { assert WindowOK(l, s); }
    CollectLinked(m);
  }

  lemma {:induction false} ApplyValid<R>(l: Ledger<R>, e: Event<R>)
    requires Valid(l)
    ensures Valid(Apply(l, e))
  {
    match e
    case Observed(sender, op, fingerprint) => ObserveValid(l, sender, op, fingerprint);
    case Begun(k, fingerprint, id) => BeginValid(l, k, fingerprint, id);
    case Bound(k, id, recipient) => BindValid(l, k, id, recipient);
    case Completed(k, id, response, respond) => CompleteValid(l, k, id, response, respond);
    case Released(k, id) => AdvanceValid(l, k.sender);
    case Advanced(sender) => AdvanceValid(l, sender);
    case SenderLost(sender) => DropValid(l, set k | k in l.records && k.sender == sender);
    case RecipientLost(recipient) => ForgetRecipientValid(l, recipient);
    case ShutDown =>
  }

  lemma {:induction false} RunValid<R>(events: seq<Event<R>>)
    ensures Valid(Run(events))
  {
    if events != [] {
      RunValid(events[..|events| - 1]);
      ApplyValid(Run(events[..|events| - 1]), events[|events| - 1]);
    }
  }
}
