/**
 The dedupe ledger as the server runs it: four indexes updated in place, one lock section per method.

 Every method is tied to the ledger specification: `model` is the specification's value, and a method leaves it at
 exactly what the specified operation makes of the old one.
 */
module DedupeLedgers {
  import opened Wrappers
  import opened Messages
  import S = LedgerSpec
  import opened LedgerIndexes
  import opened LedgerSteps
  import opened LedgerMoves
  import Fingerprint

  class DedupeLedger {
    var heap: map<Ref, DedupeRecord>
    var next: Ref
    var records: map<Key, Ref>
    var bySender: map<Session, set<Ref>>
    var byRecipient: map<Session, RecipientRecords>
    var currentBySender: map<Session, Ref>
    ghost var model: S.Ledger<Ref>

    ghost function Now(): Indexes
      reads this
    {
      Indexes(heap, records, bySender, byRecipient, currentBySender)
    }

    ghost predicate Allocated()
      reads this
    {
      forall r :: r in heap ==> r < next
    }

    ghost predicate Valid()
      reads this
    {
      Sound(Now(), model) && Allocated()
    }

    constructor ()
      ensures Valid() && model == S.Empty()
    {
      heap, next, records, bySender, byRecipient, currentBySender := map[], 0, map[], map[], map[], map[];
      model := S.Empty();
      new;
      EmptySound(Now());
    }

    // -------- the steps under the lock --------

    method DetachRecipient(record: Ref)
      requires record in heap
      requires heap[record].recipientOwned ==> heap[record].recipient.Some?
      modifies this
      ensures Now() == Detach(old(Now()), record)
      ensures model == old(model) && next == old(next)
    {
      var r := heap[record];
      if !r.recipientOwned {
        return;
      }
      var s := r.recipient.value;
      if s in byRecipient {
        var owner := byRecipient[s];
        var left := owner.records - {record};
        var settled := if r.listed then Unlist(owner.settled, record) else owner.settled;
        byRecipient := if left == {} then byRecipient - {s} else byRecipient[s := RecipientRecords(left, settled)];
      }
      heap := heap[record := r.(recipientOwned := false, listed := false)];
    }

    method RemoveRecord(record: Ref)
      requires record in heap
      requires heap[record].recipientOwned ==> heap[record].recipient.Some?
      modifies this
      ensures Now() == Remove(old(Now()), record)
      ensures model == old(model) && next == old(next)
    {
      var r := heap[record];
      if !(r.key in records && records[r.key] == record) {
        return;
      }
      EraseCommutes(Now(), record);
      var s := r.key.sender;
      records := records - {r.key};
      if s in currentBySender && currentBySender[s] == record {
        currentBySender := currentBySender - {s};
      }
      heap := heap[record := r.(current := false)];
      if s in bySender {
        var left := bySender[s] - {record};
        bySender := if left == {} then bySender - {s} else bySender[s := left];
      }
      if s !in bySender { WithoutKey(bySender, s); }
      assert Now() == Erase(old(Now()), record);
      DetachRecipient(record);
    }

    method RetireCurrentSend(sender: Session)
      requires sender in currentBySender ==> currentBySender[sender] in heap
      modifies this
      ensures Now() == RetireCurrent(old(Now()), sender)
      ensures model == old(model) && next == old(next)
    {
      if sender !in currentBySender {
        return;
      }
      var current := currentBySender[sender];
      currentBySender := currentBySender - {sender};
      heap := heap[current := heap[current].(current := false)];
      if heap[current].settled && !heap[current].recipientOwned {
        RemoveRecord(current);
      }
    }

    // -------- the ledger's operations --------

    /** One send frame.  A frame whose body does not parse is an error, and leaves the ledger alone. */
    method Observe(sender: Session, operation: Operation) returns (r: Result<S.Observation>)
      requires Valid()
      modifies this
      ensures Valid() && heap.Keys == old(heap.Keys)
      ensures match Fingerprint.Of(Some(operation.send))
        case Failure(_) => r.Failure? && model == old(model)
        case Success(fingerprint) =>
          r == Success(S.Observe(old(model), sender, operation, fingerprint).1) &&
          model == S.Observe(old(model), sender, operation, fingerprint).0
    {
      hide Sound, Fingerprint.Of, S.Observe;
      var fingerprinted := Fingerprint.SendFingerprint(Some(operation.send));
      if fingerprinted.Failure? {
        return Failure(fingerprinted.error);
      }
      var fingerprint := fingerprinted.value;
      var key := Key(sender, operation.send.messageID);
      SoundKey(Now(), model, key);
      if key !in records {
        ObserveNew(model, sender, operation, fingerprint);
        return Success(S.New);
      }
      ObserveSound(Now(), model, sender, operation, fingerprint);
      var record := records[key];
      var it := heap[record];
      var conflict := S.Conflict(S.ConflictResponse(sender, operation.send.messageID, operation.send.to));
      if it.settled {
        return Success(if it.fingerprint != fingerprint then conflict else S.Replayed(it.response.value));
      }
      if it.repeatUsed {
        return Success(S.Overflow);
      }
      model := S.Observe(model, sender, operation, fingerprint).0;
      var used := it.(repeatUsed := true);
      if it.fingerprint != fingerprint {
        heap := heap[record := used];
        return Success(conflict);
      }
      heap := heap[record := used.(attached := Some(operation))];
      return Success(S.PendingAttached);
    }

    /** Starts a record for a new send; `record` is its handle.  A record already under the key is a fatal error. */
    method Begin(sender: Session, operation: Operation) returns (r: Result<Ref>)
      requires Valid()
      modifies this
      ensures Valid() && old(heap.Keys) <= heap.Keys
      ensures var key := Key(sender, operation.send.messageID);
        match Fingerprint.Of(Some(operation.send))
        case Failure(_) => r.Failure? && model == old(model)
        case Success(fingerprint) =>
          if key in old(model).records then r.Failure? && model == old(model)
          else
            && r.Success? && r.value !in old(heap) && r.value in heap && heap[r.value].key == key
            && model == S.Begin(old(model), key, fingerprint, r.value).value
    {
      hide Sound, Fingerprint.Of, S.Begin, S.AdvanceSender, RetireCurrent, Fingerprint.Encodable,
        Fingerprint.PayloadStream;
      var fingerprinted := Fingerprint.SendFingerprint(Some(operation.send));
      if fingerprinted.Failure? {
        return Failure(fingerprinted.error);
      }
      var key := Key(sender, operation.send.messageID);
      SoundKey(Now(), model, key);
      if key in records {
        return Failure("message ID record appeared after admission");
      }
      BeginSound(Now(), model, key, fingerprinted.value, next);
      AdvanceSound(Now(), model, sender);
      model := S.Begin(model, key, fingerprinted.value, next).value;
      RetireCurrentSend(sender);
      var record := next;
      next := next + 1;
      heap := heap[record := DedupeRecord(key, fingerprinted.value, None, false, false, None, false, None, true, false,
        false)];
      records := records[key := record];
      currentBySender := currentBySender[sender := record];
      AddSenderRecord(record);
      assert Now() == Insert(RetireCurrent(old(Now()), sender), record, key, fingerprinted.value);
      return Success(record);
    }

    method AddSenderRecord(record: Ref)
      requires record in heap
      modifies this`bySender
      ensures bySender ==
        old(bySender)[heap[record].key.sender := old(Now()).SentBy(heap[record].key.sender) + {record}]
    {
      var s := heap[record].key.sender;
      var owned := if s in bySender then bySender[s] else {};
      bySender := bySender[s := owned + {record}];
    }

    method BindRecipient(handle: Option<Ref>, recipient: Session)
      requires Valid() && (handle.Some? ==> handle.value in heap)
      modifies this
      ensures Valid() && heap.Keys == old(heap.Keys)
      ensures model == match handle
        case None => old(model)
        case Some(record) => S.BindRecipient(old(model), old(heap[record].key), record, recipient)
    {
      hide Sound;
      if handle.None? {
        return;
      }
      var record := handle.value;
      var it := heap[record];
      SoundHandle(Now(), model, record);
      if it.key in records && records[it.key] == record && !it.settled && it.recipient.None? {
        BindSound(Now(), model, record, recipient);
        model := S.BindRecipient(model, it.key, record, recipient);
        UpdateTwice(heap, record, it.(recipient := Some(recipient)),
          it.(recipient := Some(recipient), recipientOwned := true));
        heap := heap[record := it.(recipient := Some(recipient))];
        AddRecipientRecord(record);
        assert Now() == Own(old(Now()), record, recipient);
      }
    }

    method AddRecipientRecord(record: Ref)
      requires record in heap && heap[record].recipient.Some?
      modifies this`heap, this`byRecipient
      ensures Now() == Own(old(Now()), record, old(heap[record].recipient.value))
    {
      var s := heap[record].recipient.value;
      var owner := if s in byRecipient then byRecipient[s] else RecipientRecords({}, []);
      byRecipient := byRecipient[s := RecipientRecords(owner.records + {record}, owner.settled)];
      heap := heap[record := heap[record].(recipientOwned := true)];
    }

    /** Settles or abandons a pending record, once; hands back the repeat attached to it. */
    method Complete(handle: Option<Ref>, response: Response, respond: bool) returns (attached: Option<Operation>)
      requires Valid() && (handle.Some? ==> handle.value in heap)
      modifies this
      ensures Valid() && heap.Keys == old(heap.Keys)
      ensures handle.None? ==> model == old(model) && attached == None
      ensures handle.Some? ==>
        (model, attached) == S.Complete(old(model), old(heap[handle.value].key), handle.value, response, respond)
    {
      hide Sound, S.Complete, Remove, Loosen, Push;
      if handle.None? {
        return None;
      }
      var record := handle.value;
      var it := heap[record];
      ghost var x := Now();
      CompleteSound(x, model, record, response, respond);
      CompleteKeeps(x, record, response, respond);
      if !(it.key in records && records[it.key] == record) || it.settled {
        return None;
      }
      if it.recipient.Some? { SettledListed(x, model, it.recipient.value); }
      model := S.Complete(model, it.key, record, response, respond).0;
      attached := it.attached;
      heap := heap[record := it.(attached := None)];
      if !respond {
        RemoveRecord(record);
        return attached;
      }
      heap := heap[record := heap[record].(response := Some(response), settled := true)];
      UpdateTwice(x.heap, record, it.(attached := None), Settled(it, response));
      assert Now() == Update(x, record, Settled(it, response));
      if !(it.recipientOwned && !it.recipientGone && S.Retainable(response.code)) {
        LoosenRecord(record);
        return attached;
      }
      PushSettled(record);
    }

    /** The tail shared by settling loosely and by evicting: detach, and remove unless still current. */
    method LoosenRecord(record: Ref)
      requires record in heap
      requires heap[record].recipientOwned ==> heap[record].recipient.Some?
      modifies this
      ensures Now() == Loosen(old(Now()), record) && model == old(model) && next == old(next)
    {
      DetachRecipient(record);
      if !heap[record].current {
        RemoveRecord(record);
      }
    }

    method PushSettled(record: Ref)
      requires record in heap && heap[record].recipient.Some? && heap[record].recipient.value in byRecipient
      requires forall r ::
        r in byRecipient[heap[record].recipient.value].settled ==> r in heap && heap[r].recipient.Some?
      modifies this
      ensures Now() == Push(old(Now()), record, old(heap[record].recipient.value)) && model == old(model)
        && next == old(next)
    {
      var s := heap[record].recipient.value;
      var owner := byRecipient[s];
      byRecipient := byRecipient[s := RecipientRecords(owner.records, owner.settled + [record])];
      heap := heap[record := heap[record].(listed := true)];
      if |byRecipient[s].settled| > S.MAX_SETTLED_PER_RECIPIENT {
        var oldest := byRecipient[s].settled[0];
        LoosenRecord(oldest);
      }
    }

    /** Gives up the sender's claim on one send, if it still is the sender's current one. */
    method ReleaseCurrent(handle: Option<Ref>)
      requires Valid() && (handle.Some? ==> handle.value in heap)
      modifies this
      ensures Valid() && heap.Keys == old(heap.Keys)
      ensures model == match handle
        case None => old(model)
        case Some(record) => S.ReleaseCurrent(old(model), old(heap[record].key), record)
    {
      hide Sound;
      if handle.None? {
        return;
      }
      var record := handle.value;
      var s := heap[record].key.sender;
      SoundHandle(Now(), model, record);
      if !(s in currentBySender && currentBySender[s] == record) {
        return;
      }
      AdvanceSound(Now(), model, s);
      model := S.AdvanceSender(model, s);
      currentBySender := currentBySender - {s};
      heap := heap[record := heap[record].(current := false)];
      if heap[record].settled && !heap[record].recipientOwned {
        RemoveRecord(record);
      }
    }

    method AdvanceSender(sender: Session)
      requires Valid()
      modifies this
      ensures Valid() && heap.Keys == old(heap.Keys)
      ensures model == S.AdvanceSender(old(model), sender)
    {
      hide Sound, S.AdvanceSender;
      AdvanceSound(Now(), model, sender);
      model := S.AdvanceSender(model, sender);
      RetireCurrentSend(sender);
    }

    /** Forgets every record of a sender that is gone. */
    method ForgetSender(sender: Session)
      requires Valid()
      modifies this
      ensures Valid() && heap.Keys == old(heap.Keys)
      ensures model == S.ForgetSender(old(model), sender)
      ensures forall k :: k in records ==> k.sender != sender
    {
      hide Represents, Sound, S.Valid, S.Drop, Remove;
      ghost var done: set<Key> := {};
      ForgetStart(Now(), model, sender);
      var rest := if sender in bySender then bySender[sender] else {};
      while rest != {}
        invariant rest == Now().SentBy(sender)
        invariant heap.Keys == old(heap.Keys) && next == old(next)
        invariant done <= SentKeys(old(model), sender)
        invariant Represents(Now(), S.Drop(old(model), done))
        decreases |rest|
      {
        var record :| record in rest;
        ForgetTurn(Now(), old(model), sender, done, record);
        RemoveKeeps(Now(), record);
        done := done + {heap[record].key};
        RemoveRecord(record);
        rest := rest - {record};
      }
      ForgetEnd(Now(), old(model), sender, done);
      model := S.ForgetSender(old(model), sender);
    }

    /** A recipient is gone: its records lose their owner, and the settled ones nobody else needs go with it. */
    method ForgetRecipient(recipient: Session)
      requires Valid()
      modifies this
      ensures Valid() && heap.Keys == old(heap.Keys)
      ensures model == S.ForgetRecipient(old(model), recipient)
    {
      hide Represents, Sound, S.Valid, LostSome, Lose, S.ForgetRecipient;
      ghost var done: set<Key> := {};
      LoseStart(Now(), model, recipient);
      if recipient !in byRecipient {
        LoseEnd(Now(), model, recipient, done);
        model := S.ForgetRecipient(model, recipient);
        return;
      }
      var rest := byRecipient[recipient].records;
      while rest != {}
        invariant rest == Now().Owner(recipient).records
        invariant heap.Keys == old(heap.Keys) && next == old(next)
        invariant done <= OwnedKeys(old(model), recipient)
        invariant Represents(Now(), LostSome(old(model), recipient, done))
        decreases |rest|
      {
        var record :| record in rest;
        LoseTurn(Now(), old(model), recipient, done, record);
        LoseKeeps(Now(), record);
        done := done + {heap[record].key};
        LoseRecord(record);
        rest := rest - {record};
      }
      LoseEnd(Now(), old(model), recipient, done);
      WithoutKey(byRecipient, recipient);
      byRecipient := byRecipient - {recipient};
      model := S.ForgetRecipient(old(model), recipient);
    }

    method LoseRecord(record: Ref)
      requires record in heap && heap[record].recipientOwned && heap[record].recipient.Some?
      modifies this
      ensures Now() == Lose(old(Now()), record) && model == old(model) && next == old(next)
    {
      heap := heap[record := heap[record].(recipientGone := true)];
      DetachRecipient(record);
      if heap[record].settled && !heap[record].current {
        RemoveRecord(record);
      }
    }

    method Shutdown()
      requires Valid()
      modifies this
      ensures Valid() && heap.Keys == old(heap.Keys)
      ensures model == S.Empty()
    {
      records, bySender, byRecipient, currentBySender := map[], map[], map[], map[];
      model := S.Empty();
      EmptySound(Now());
    }
  }
}
