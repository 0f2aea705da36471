/** What the operations of the ledger mean to the records of one sender. */
module SenderView {
  import opened Wrappers
  import opened Messages
  import opened LedgerSpec
  import opened LedgerInvariant
  import opened LedgerIdeal

  /** The parts of a record that answer a repeated send. */
  ghost predicate SameCore<R>(r: Record<R>, r': Record<R>) {
    r'.id == r.id && r'.fingerprint == r.fingerprint && r'.response == r.response && r'.repeatUsed == r.repeatUsed
      && r'.attached == r.attached
  }

  ghost predicate ThinnedAt<R>(l: Ledger<R>, l': Ledger<R>, k: Key) {
    && (k in l'.records ==> k in l.records && SameCore(l.records[k], l'.records[k]))
    && (k in l.records && l.records[k].Pending() ==> k in l'.records)
  }

  /** The sender's records are what they were; settled ones may be gone. */
  ghost predicate Thinned<R>(l: Ledger<R>, l': Ledger<R>, s: Session) {
    forall k: Key :: k.sender == s ==> ThinnedAt(l, l', k)
  }

  /** The sender's current send is the one it was, and still recorded. */
  ghost predicate CurrentKept<R>(l: Ledger<R>, l': Ledger<R>, s: Session) {
    && (s in l'.current <==> s in l.current)
    && (s in l.current ==> l'.current[s] == l.current[s] && (l.current[s] in l.records ==> l.current[s] in l'.records))
  }

  /** An event of another session; losing a recipient is nobody's in particular. */
  predicate Foreign<R>(e: Event<R>, s: Session) {
    match e
    case Observed(sender, _, _) => sender != s
    case Begun(k, _, _) => k.sender != s
    case Bound(k, _, _) => k.sender != s
    case Completed(k, _, _, _) => k.sender != s
    case Released(k, _) => k.sender != s
    case Advanced(sender) => sender != s
    case SenderLost(sender) => sender != s
    case RecipientLost(_) => true
    case ShutDown => false
  }

  /** What settling does to other keys: at most the oldest entry of a window is disowned, and collected. */
  lemma {:induction false} CompleteOthers<R>(l: Ledger<R>, key: Key, id: R, response: Response, respond: bool, k: Key)
    requires Valid(l) && k != key
    ensures ThinnedAt(l, Complete(l, key, id, response, respond).0, k)
    ensures k in l.records && IsCurrent(l, k) ==> k in Complete(l, key, id, response, respond).0.records
  {
    if Live(l, key, id) && l.records[key].Pending() && respond {
      var r := l.records[key];
      if r.recipientOwned && Retainable(response.code) {
        var settled :=
          l.(records := l.records[key := r.(response := Some(response), attached := None, recipientOwned := true)]);
        EnterEffect(l, settled, key);
      }
      if k in l.records { assert Retained(l, k); }
    }
  }

  lemma {:induction false} CompleteCurrent<R>(l: Ledger<R>, key: Key, id: R, response: Response, respond: bool,
    s: Session)
    requires Valid(l)
    ensures var l' := Complete(l, key, id, response, respond).0;
      && (s in l'.current ==> s in l.current && l'.current[s] == l.current[s])
      && (respond || key.sender != s ==> (s in l'.current <==> s in l.current))
  {
    if Live(l, key, id) && l.records[key].Pending() && respond {
      var r := l.records[key];
      if r.recipientOwned && Retainable(response.code) {
        var settled :=
          l.(records := l.records[key := r.(response := Some(response), attached := None, recipientOwned := true)]);
        EnterEffect(l, settled, key);
      }
    }
  }

  lemma {:induction false} CompleteForeign<R>(l: Ledger<R>, e: Event<R>, s: Session)
    requires Valid(l) && e.Completed? && Foreign(e, s)
    ensures Thinned(l, Apply(l, e), s) && CurrentKept(l, Apply(l, e), s)
  {
    forall k: Key | k.sender == s ensures ThinnedAt(l, Apply(l, e), k) {
      CompleteOthers(l, e.k, e.id, e.response, e.respond, k);
    }
    CompleteCurrent(l, e.k, e.id, e.response, e.respond, s);
    if s in l.current {
      assert l.current[s].sender == s;
      CompleteOthers(l, e.k, e.id, e.response, e.respond, l.current[s]);
    }
  }

  lemma {:induction false} ForeignAt<R>(l: Ledger<R>, e: Event<R>, s: Session, k: Key)
    requires Valid(l) && Foreign(e, s) && !e.Completed? && k.sender == s
    ensures ThinnedAt(l, Apply(l, e), k)
  {
  }

  lemma {:induction false} ForeignCurrent<R>(l: Ledger<R>, e: Event<R>, s: Session)
    requires Valid(l) && Foreign(e, s) && !e.Completed?
    ensures CurrentKept(l, Apply(l, e), s)
  {
    if s in l.current { assert l.current[s].sender == s && IsCurrent(l, l.current[s]); }
  }

  lemma {:induction false} ForeignThinned<R>(l: Ledger<R>, e: Event<R>, s: Session)
    requires Valid(l) && Foreign(e, s)
    ensures Thinned(l, Apply(l, e), s) && CurrentKept(l, Apply(l, e), s)
  {
    hide Apply, Valid;
    if e.Completed? {
      CompleteForeign(l, e, s);
    } else {
      ForeignCurrent(l, e, s);
      forall k: Key | k.sender == s ensures ThinnedAt(l, Apply(l, e), k) { ForeignAt(l, e, s, k); }
    }
  }

  /** Settling or abandoning one's own send. */
  lemma {:induction false} CompleteOwn<R>(l: Ledger<R>, k: Key, id: R, response: Response, respond: bool)
    requires Valid(l) && Live(l, k, id) && l.records[k].Pending()
    ensures var (l', attached) := Complete(l, k, id, response, respond);
      && attached == l.records[k].attached
      && (!respond ==> k !in l'.records)
      && (respond ==>
            && (k in l'.records ==>
              SameCore(l.records[k].(response := Some(response), attached := None), l'.records[k]))
            && (IsCurrent(l, k) ==> k in l'.records && IsCurrent(l', k)))
  {
    if respond {
      CompleteCurrent(l, k, id, response, respond, k.sender);
      var r := l.records[k];
      if r.recipientOwned && Retainable(response.code) {
        var settled :=
          l.(records := l.records[k := r.(response := Some(response), attached := None, recipientOwned := true)]);
        EnterEffect(l, settled, k);
      }
    }
  }

  /** Advancing the sender drops settled records, never pending ones. */
  lemma {:induction false} AdvanceOwn<R>(l: Ledger<R>, s: Session)
    requires Valid(l)
    ensures Thinned(l, AdvanceSender(l, s), s) && s !in AdvanceSender(l, s).current
  {
    forall k: Key | k.sender == s ensures ThinnedAt(l, AdvanceSender(l, s), k) {}
  }

  lemma {:induction false} BindOwn<R>(l: Ledger<R>, k: Key, id: R, recipient: Session, s: Session)
    ensures Thinned(l, BindRecipient(l, k, id, recipient), s) && CurrentKept(l, BindRecipient(l, k, id, recipient), s)
  {
    forall x: Key | x.sender == s ensures ThinnedAt(l, BindRecipient(l, k, id, recipient), x) {}
  }
}
