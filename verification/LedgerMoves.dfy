/**
 What each ledger method does to the four indexes, and that the indexes then represent what the specification says.
 */
module LedgerMoves {
  import opened Wrappers
  import opened Messages
  import S = LedgerSpec
  import LedgerInvariant
  import opened LedgerIndexes
  import opened LedgerSteps

  /** The indexes represent the ledger.  An equation, so that it reaches the prover whole. */
  ghost predicate Represents(x: Indexes, m: S.Ledger<Ref>) {
    Linked(x, m) == true
  }

  /** What the indexes say of a live record is what the specification says of its key. */
  lemma {:induction false} Seen(x: Indexes, m: S.Ledger<Ref>, record: Ref)
    requires Represents(x, m) && record in x.heap
    ensures S.Live(m, x.heap[record].key, record) <==> x.Live(record)
    ensures x.Live(record) ==>
      var r := x.heap[record];
      && m.records[r.key] == View(record, r)
      && (r.settled <==> r.response.Some?)
      && (r.current <==> S.IsCurrent(m, r.key))
      && (r.recipientOwned ==> r.recipient.Some?)
      && (r.listed ==> r.settled)
  {
    var k := x.heap[record].key;
    if k in x.records {
      assert RecordLinked(x, m, k);
      if k.sender in x.currentBySender { assert CurrentLinked(x, m, k.sender); }
      if x.Live(record) && x.heap[record].recipientOwned {
        assert RecipientLinked(x, m, x.heap[record].recipient.value);
      }
    }
  }

  lemma {:induction false} SeenCurrent(x: Indexes, m: S.Ledger<Ref>, s: Session)
    requires Represents(x, m)
    ensures s in x.currentBySender <==> s in m.current
    ensures s in x.currentBySender ==>
      && x.Live(x.currentBySender[s]) && m.current[s] == x.heap[x.currentBySender[s]].key && m.current[s].sender == s
  {
    if s in x.currentBySender { assert CurrentLinked(x, m, s); }
  }

  // -------- removal --------

  function Remove(x: Indexes, record: Ref): Indexes
    requires record in x.heap
  {
    if x.Live(record) then Erase(Detach(x, record), record) else x
  }

  lemma {:induction false} RemoveKeeps(x: Indexes, record: Ref)
    requires record in x.heap
    ensures Remove(x, record).heap.Keys == x.heap.Keys
    ensures forall r :: r in x.heap ==> Remove(x, record).heap[r].key == x.heap[r].key
    ensures forall r :: r in x.heap && r != record ==> Remove(x, record).heap[r] == x.heap[r]
  {
  }

  lemma {:induction false} RemoveRepresents(x: Indexes, m: S.Ledger<Ref>, record: Ref)
    requires Represents(x, m) && record in x.heap && x.Live(record)
    ensures Represents(Remove(x, record), RemoveModel(m, x.heap[record].key))
  {
    DetachLinked(x, m, record);
    EraseLinked(Detach(x, record), DetachModel(m, x.heap[record].key), record);
  }

  lemma UpdateTwice<K, V>(m: map<K, V>, k: K, a: V, b: V)
    ensures m[k := a][k := b] == m[k := b]
  {
  }

  lemma WithoutKey<K, V>(m: map<K, V>, k: K)
    requires k !in m
    ensures m - {k} == m
  {
  }

  /** The source erases first and detaches last; the order does not matter. */
  lemma {:induction false} EraseCommutes(x: Indexes, record: Ref)
    requires record in x.heap
    ensures Detach(Erase(x, record), record) == Erase(Detach(x, record), record)
  {
    var r := x.heap[record];
    UpdateTwice(x.heap, record, r.(current := false), r.(current := false, recipientOwned := false, listed := false));
    UpdateTwice(x.heap, record, r.(recipientOwned := false, listed := false),
      r.(current := false, recipientOwned := false, listed := false));
  }

  // -------- retiring --------

  function RetireCurrent(x: Indexes, s: Session): Indexes {
    if s !in x.currentBySender || x.currentBySender[s] !in x.heap then x
    else
      var current := x.currentBySender[s];
      var retired := Retire(x, s);
      if x.heap[current].settled && !x.heap[current].recipientOwned then Remove(retired, current) else retired
  }

  /** The last reason is tested on the flags by the source, and on the record by the specification. */
  lemma {:induction false} LooseRepresents(y: Indexes, n: S.Ledger<Ref>, record: Ref)
    requires Represents(y, n) && record in y.heap && y.Live(record)
    ensures y.heap[record].key in n.records
    ensures Represents(if y.heap[record].settled && !y.heap[record].recipientOwned then Remove(y, record)
      else y, SweepLoose(n, y.heap[record].key))
  {
    Seen(y, n, record);
    RemoveRepresents(y, n, record);
  }

  lemma {:induction false} RetireRepresents(x: Indexes, m: S.Ledger<Ref>, s: Session)
    requires Represents(x, m)
    ensures Represents(RetireCurrent(x, s), RetireStep(m, s))
  {
    SeenCurrent(x, m, s);
    if s in x.currentBySender {
      BareRetireRepresents(x, m, s);
      LooseRepresents(Retire(x, s), RetireModel(m, s), x.currentBySender[s]);
    }
  }

  lemma {:induction false} BareRetireRepresents(x: Indexes, m: S.Ledger<Ref>, s: Session)
    requires Represents(x, m) && s in x.currentBySender && x.currentBySender[s] in x.heap
    ensures Represents(Retire(x, s), RetireModel(m, s)) && Retire(x, s).Live(x.currentBySender[s])
  {
    RetireLinked(x, m, s);
  }

  lemma {:induction false} RetireKeeps(x: Indexes, s: Session)
    requires s in x.currentBySender ==> x.currentBySender[s] in x.heap
    ensures s !in RetireCurrent(x, s).currentBySender
    ensures RetireCurrent(x, s).heap.Keys == x.heap.Keys
  {
    if s in x.currentBySender {
      var current := x.currentBySender[s];
      assert Detach(Retire(x, s), current).currentBySender == Retire(x, s).currentBySender;
      RemoveKeeps(Retire(x, s), current);
    }
  }

  /** On a valid ledger, retiring is advancing the sender. */
  lemma {:induction false} AdvanceRepresents(x: Indexes, m: S.Ledger<Ref>, s: Session)
    requires Represents(x, m) && S.Valid(m)
    ensures Represents(RetireCurrent(x, s), S.AdvanceSender(m, s))
    ensures RetireCurrent(x, s).heap.Keys == x.heap.Keys
    ensures s !in RetireCurrent(x, s).currentBySender
  {
    RetireRepresents(x, m, s);
    SeenCurrent(x, m, s);
    RetireKeeps(x, s);
    RetireIsAdvance(m, s);
  }

  // -------- beginning --------

  lemma {:induction false} BeginRepresents(x: Indexes, m: S.Ledger<Ref>, k: Key, fingerprint: S.Fingerprint, added: Ref)
    requires Represents(x, m) && S.Valid(m) && added !in x.heap
    ensures k in x.records <==> k in m.records
    ensures k !in x.records ==>
      Represents(Insert(RetireCurrent(x, k.sender), added, k, fingerprint), S.Begin(m, k, fingerprint, added).value)
  {
    assert m.records.Keys == x.records.Keys;
    if k !in x.records {
      AdvanceRepresents(x, m, k.sender);
      var y, n := RetireCurrent(x, k.sender), S.AdvanceSender(m, k.sender);
      assert k !in n.records;
      assert n.records.Keys == y.records.Keys;
      InsertLinked(y, n, added, k, fingerprint);
    }
  }

  // -------- binding --------

  lemma {:induction false} BindRepresents(x: Indexes, m: S.Ledger<Ref>, record: Ref, s: Session)
    requires Represents(x, m) && record in x.heap && x.Live(record)
    requires !x.heap[record].settled && x.heap[record].recipient.None?
    ensures Represents(Own(x, record, s), S.BindRecipient(m, x.heap[record].key, record, s))
  {
    Seen(x, m, record);
    OwnLinked(x, m, record, s);
  }

  // -------- observing --------

  lemma {:induction false} ObserveRepresents(x: Indexes, m: S.Ledger<Ref>, record: Ref, r': DedupeRecord)
    requires Represents(x, m) && record in x.heap && x.Live(record)
    requires r' == x.heap[record].(repeatUsed := r'.repeatUsed, attached := r'.attached)
    ensures Represents(Update(x, record, r'), UpdateModel(m, record, r'))
  {
    Seen(x, m, record);
    UpdateLinked(x, m, record, r');
  }

  // -------- completing --------

  function Settled(r: DedupeRecord, response: Response): DedupeRecord {
    r.(attached := None, response := Some(response), settled := true)
  }

  function Loosen(x: Indexes, record: Ref): Indexes
    requires record in x.heap
  {
    var detached := Detach(x, record);
    if detached.heap[record].current then detached else Remove(detached, record)
  }

  lemma {:induction false} DetachRepresents(x: Indexes, m: S.Ledger<Ref>, record: Ref)
    requires Represents(x, m) && record in x.heap && x.Live(record)
    ensures Represents(Detach(x, record), DetachModel(m, x.heap[record].key)) && Detach(x, record).Live(record)
    ensures Detach(x, record).heap[record] ==
      x.heap[record].(recipientOwned := false, listed := Detach(x, record).heap[record].listed)
  {
    Seen(x, m, record);
    DetachLinked(x, m, record);
  }

  lemma {:induction false} LoosenRepresents(x: Indexes, m: S.Ledger<Ref>, record: Ref)
    requires Represents(x, m) && record in x.heap && x.Live(record)
    ensures x.heap[record].key in m.records
    ensures Represents(Loosen(x, record), LoosenStep(m, x.heap[record].key))
  {
    var k := x.heap[record].key;
    Seen(x, m, record);
    DetachRepresents(x, m, record);
    Seen(Detach(x, record), DetachModel(m, k), record);
    if !Detach(x, record).heap[record].current { RemoveRepresents(Detach(x, record), DetachModel(m, k), record); }
  }

  lemma {:induction false} SettleRepresents(x: Indexes, m: S.Ledger<Ref>, record: Ref, response: Response)
    requires Represents(x, m) && record in x.heap && x.Live(record) && !x.heap[record].settled
    ensures x.heap[record].key in m.records
    ensures Represents(Update(x, record, Settled(x.heap[record], response)),
      SettledModel(m, x.heap[record].key, response))
    ensures Update(x, record, Settled(x.heap[record], response)).Live(record)
  {
    var r := x.heap[record];
    Seen(x, m, record);
    UpdateLinked(x, m, record, Settled(r, response));
    assert UpdateModel(m, record, Settled(r, response)) == SettledModel(m, r.key, response);
  }

  lemma {:induction false} CompleteLoosely(x: Indexes, m: S.Ledger<Ref>, record: Ref, response: Response)
    requires Represents(x, m) && S.Valid(m) && record in x.heap && x.Live(record) && !x.heap[record].settled
    requires !(x.heap[record].recipientOwned && !x.heap[record].recipientGone && S.Retainable(response.code))
    ensures Represents(Loosen(Update(x, record, Settled(x.heap[record], response)), record),
                       S.Complete(m, x.heap[record].key, record, response, true).0)
  {
    var k := x.heap[record].key;
    Seen(x, m, record);
    SettleRepresents(x, m, record, response);
    LoosenRepresents(Update(x, record, Settled(x.heap[record], response)), SettledModel(m, k, response), record);
    assert S.RecordOK(m.records[k]);
    LoosenIsComplete(m, k, record, response);
  }

  function DropAttached(x: Indexes, record: Ref): Indexes
    requires record in x.heap
  {
    Update(x, record, x.heap[record].(attached := None))
  }

  lemma {:induction false} AbandonRepresents(x: Indexes, m: S.Ledger<Ref>, record: Ref, response: Response)
    requires Represents(x, m) && S.Valid(m) && record in x.heap && x.Live(record) && !x.heap[record].settled
    ensures Represents(Remove(DropAttached(x, record), record),
      S.Complete(m, x.heap[record].key, record, response, false).0)
  {
    var r := x.heap[record];
    Seen(x, m, record);
    ObserveRepresents(x, m, record, r.(attached := None));
    var n := UpdateModel(m, record, r.(attached := None));
    RemoveRepresents(DropAttached(x, record), n, record);
    AbandonIsComplete(m, r.key, record, response, n);
  }

  /** Push a settled record; the front of a list grown too long is loosened. */
  function Push(x: Indexes, record: Ref, s: Session): Indexes
    requires record in x.heap
  {
    var pushed := PushBack(x, record, s);
    var list := pushed.Owner(s).settled;
    if |list| > S.MAX_SETTLED_PER_RECIPIENT && list[0] in pushed.heap then Loosen(pushed, list[0]) else pushed
  }

  /** The front of a settled list is a live record, and its key is the front of the window. */
  lemma {:induction false} SeenOldest(x: Indexes, m: S.Ledger<Ref>, s: Session)
    requires Represents(x, m)
    ensures |S.Window(m, s)| == |x.Owner(s).settled|
    ensures x.Owner(s).settled != [] ==>
      && x.Live(x.Owner(s).settled[0]) && x.heap[x.Owner(s).settled[0]].key == S.Window(m, s)[0]
      && S.Window(m, s)[0] in m.records
  {
    assert RecipientLinked(x, m, s);
    if x.Owner(s).settled != [] {
      var oldest := x.Owner(s).settled[0];
      assert oldest in x.Owner(s).settled;
      Seen(x, m, oldest);
    }
  }

  lemma {:induction false} PushRepresents(x: Indexes, m: S.Ledger<Ref>, record: Ref, s: Session)
    requires Represents(x, m) && record in x.heap && x.Live(record) && x.heap[record].settled && !x.heap[record].listed
    requires x.heap[record].recipientOwned && x.heap[record].recipient == Some(s)
    ensures Represents(Push(x, record, s), PushStep(m, x.heap[record].key, s))
  {
    PushBackLinked(x, m, record, s);
    var y, n := PushBack(x, record, s), PushBackModel(m, x.heap[record].key, s);
    SeenOldest(y, n, s);
    if |y.Owner(s).settled| > S.MAX_SETTLED_PER_RECIPIENT { LoosenRepresents(y, n, y.Owner(s).settled[0]); }
  }

  lemma {:induction false} CompleteFirmly(x: Indexes, m: S.Ledger<Ref>, record: Ref, response: Response)
    requires Represents(x, m) && S.Valid(m) && record in x.heap && x.Live(record) && !x.heap[record].settled
    requires x.heap[record].recipientOwned && S.Retainable(response.code)
    ensures x.heap[record].recipient.Some?
    ensures Represents(Push(Update(x, record, Settled(x.heap[record], response)), record,
      x.heap[record].recipient.value),
      S.Complete(m, x.heap[record].key, record, response, true).0)
  {
    var k := x.heap[record].key;
    Seen(x, m, record);
    SettleRepresents(x, m, record, response);
    PushRepresents(Update(x, record, Settled(x.heap[record], response)), SettledModel(m, k, response), record,
      x.heap[record].recipient.value);
    PushIsEnter(m, k, record, response);
  }

  // -------- a recipient leaves --------

  function Lose(x: Indexes, record: Ref): Indexes
    requires record in x.heap
  {
    var gone := Update(x, record, x.heap[record].(recipientGone := true));
    var detached := Detach(gone, record);
    if detached.heap[record].settled && !detached.heap[record].current then Remove(detached, record) else detached
  }

  lemma {:induction false} GoneRepresents(x: Indexes, m: S.Ledger<Ref>, record: Ref)
    requires Represents(x, m) && record in x.heap && x.Live(record)
    ensures x.heap[record].key in m.records
    ensures var y := Update(x, record, x.heap[record].(recipientGone := true));
      Represents(y, GoneModel(m, x.heap[record].key)) && y.Live(record)
  {
    var r := x.heap[record];
    Seen(x, m, record);
    UpdateLinked(x, m, record, r.(recipientGone := true));
    assert UpdateModel(m, record, r.(recipientGone := true)) == GoneModel(m, r.key);
  }

  lemma {:induction false} LoseRepresents(x: Indexes, m: S.Ledger<Ref>, record: Ref)
    requires Represents(x, m) && record in x.heap && x.Live(record)
    ensures x.heap[record].key in m.records
    ensures Represents(Lose(x, record), LoseStep(m, x.heap[record].key))
  {
    var k := x.heap[record].key;
    GoneRepresents(x, m, record);
    var y, n := Update(x, record, x.heap[record].(recipientGone := true)), GoneModel(m, k);
    DetachRepresents(y, n, record);
    Seen(x, m, record);
    Seen(Detach(y, record), DetachModel(n, k), record);
    if x.heap[record].settled && !x.heap[record].current {
      RemoveRepresents(Detach(y, record), DetachModel(n, k), record);
    }
  }

  // -------- between operations --------

  /** What holds between operations: the indexes represent a valid ledger. */
  ghost predicate Sound(x: Indexes, m: S.Ledger<Ref>) {
    (Linked(x, m) && S.Valid(m)) == true
  }

  /** The tests the methods make on a handle are the specification's. */
  lemma {:induction false} SoundHandle(x: Indexes, m: S.Ledger<Ref>, record: Ref)
    requires Sound(x, m) && record in x.heap
    ensures x.Live(record) <==> S.Live(m, x.heap[record].key, record)
    ensures x.Live(record) ==>
      var k := x.heap[record].key;
      && (x.heap[record].settled <==> !m.records[k].Pending())
      && x.heap[record].recipient == m.records[k].recipient
    ensures var s := x.heap[record].key.sender;
      s in x.currentBySender && x.currentBySender[s] == record <==> x.Live(record) && S.IsCurrent(m, x.heap[record].key)
  {
    Seen(x, m, record);
    SeenCurrent(x, m, x.heap[record].key.sender);
  }

  lemma {:induction false} SoundKey(x: Indexes, m: S.Ledger<Ref>, k: Key)
    requires Sound(x, m)
    ensures k in x.records <==> k in m.records
    ensures k in x.records ==> x.Live(x.records[k]) && x.heap[x.records[k]].key == k
  {
    SeenKey(x, m, k);
  }

  lemma {:induction false} AdvanceSound(x: Indexes, m: S.Ledger<Ref>, s: Session)
    requires Sound(x, m)
    ensures Sound(RetireCurrent(x, s), S.AdvanceSender(m, s))
    ensures s in x.currentBySender ==> x.currentBySender[s] in x.heap
    ensures RetireCurrent(x, s).heap.Keys == x.heap.Keys
  {
    AdvanceRepresents(x, m, s);
    SeenCurrent(x, m, s);
    LedgerInvariant.AdvanceValid(m, s);
  }

  lemma {:induction false} BeginSound(x: Indexes, m: S.Ledger<Ref>, k: Key, fingerprint: S.Fingerprint, added: Ref)
    requires Sound(x, m) && added !in x.heap && k !in x.records
    ensures S.Begin(m, k, fingerprint, added).Some?
    ensures Sound(Insert(RetireCurrent(x, k.sender), added, k, fingerprint), S.Begin(m, k, fingerprint, added).value)
  {
    BeginRepresents(x, m, k, fingerprint, added);
    LedgerInvariant.BeginValid(m, k, fingerprint, added);
  }

  lemma {:induction false} BindSound(x: Indexes, m: S.Ledger<Ref>, record: Ref, s: Session)
    requires Sound(x, m) && record in x.heap && x.Live(record)
    requires !x.heap[record].settled && x.heap[record].recipient.None?
    ensures Sound(Own(x, record, s), S.BindRecipient(m, x.heap[record].key, record, s))
  {
    BindRepresents(x, m, record, s);
    LedgerInvariant.BindValid(m, x.heap[record].key, record, s);
  }

  lemma ObserveNew(m: S.Ledger<Ref>, sender: Session, op: Operation, fingerprint: S.Fingerprint)
    requires Key(sender, op.send.messageID) !in m.records
    ensures S.Observe(m, sender, op, fingerprint) == (m, S.New)
  {
  }

  /** What one send frame makes of the record already under its key. */
  lemma {:induction false} ObserveSound(x: Indexes, m: S.Ledger<Ref>, sender: Session, op: Operation,
    fingerprint: S.Fingerprint)
    requires Sound(x, m) && Key(sender, op.send.messageID) in x.records
    ensures var record := x.records[Key(sender, op.send.messageID)];
      && record in x.heap
      && var it := x.heap[record];
      && var (m', answer) := S.Observe(m, sender, op, fingerprint);
      && var conflict := S.Conflict(S.ConflictResponse(sender, op.send.messageID, op.send.to));
      && if it.settled then
           it.response.Some? && m' == m && answer == if it.fingerprint == fingerprint
             then S.Replayed(it.response.value) else conflict
         else if it.repeatUsed then m' == m && answer == S.Overflow
         else if it.fingerprint != fingerprint
           then answer == conflict && Sound(Update(x, record, it.(repeatUsed := true)), m')
         else answer == S.PendingAttached && Sound(Update(x, record, it.(repeatUsed := true, attached := Some(op))), m')
  {
    var k := Key(sender, op.send.messageID);
    SeenKey(x, m, k);
    var record := x.records[k];
    Seen(x, m, record);
    var it := x.heap[record];
    LedgerInvariant.ObserveValid(m, sender, op, fingerprint);
    ObserveRepresents(x, m, record, it.(repeatUsed := true));
    ObserveRepresents(x, m, record, it.(repeatUsed := true, attached := Some(op)));
  }

  lemma {:induction false} CompleteSound(x: Indexes, m: S.Ledger<Ref>, record: Ref, response: Response, respond: bool)
    requires Sound(x, m) && record in x.heap
    ensures var it := x.heap[record];
      var (m', attached) := S.Complete(m, it.key, record, response, respond);
      && (it.recipientOwned && x.Live(record) ==> it.recipient.Some?)
      && if !x.Live(record) || it.settled then m' == m && attached == None
         else
           attached == it.attached && Sound(CompleteMove(x, record, response, respond), m')
  {
    Seen(x, m, record);
    LedgerInvariant.CompleteValid(m, x.heap[record].key, record, response, respond);
    if x.Live(record) && !x.heap[record].settled {
      if !respond {
        AbandonRepresents(x, m, record, response);
      } else if x.heap[record].recipientOwned && !x.heap[record].recipientGone && S.Retainable(response.code) {
        CompleteFirmly(x, m, record, response);
      } else {
        CompleteLoosely(x, m, record, response);
      }
    }
  }

  /** A pending live record is settled or abandoned. */
  function CompleteMove(x: Indexes, record: Ref, response: Response, respond: bool): Indexes
    requires record in x.heap
  {
    var it := x.heap[record];
    var settled := Update(x, record, Settled(it, response));
    if !respond then Remove(DropAttached(x, record), record)
    else if it.recipientOwned && !it.recipientGone && S.Retainable(response.code) && it.recipient.Some? then
      Push(settled, record, it.recipient.value)
    else Loosen(settled, record)
  }

  lemma {:induction false} CompleteKeeps(x: Indexes, record: Ref, response: Response, respond: bool)
    requires record in x.heap
    ensures CompleteMove(x, record, response, respond).heap.Keys == x.heap.Keys
  {
    var it := x.heap[record];
    RemoveKeeps(DropAttached(x, record), record);
    var settled := Update(x, record, Settled(it, response));
    LoosenKeeps(settled, record);
    if it.recipient.Some? { PushKeeps(settled, record, it.recipient.value); }
  }

  lemma {:induction false} SeenKey(x: Indexes, m: S.Ledger<Ref>, k: Key)
    requires Represents(x, m)
    ensures k in x.records <==> k in m.records
    ensures k in x.records ==> x.Live(x.records[k]) && x.heap[x.records[k]].key == k
  {
    assert m.records.Keys == x.records.Keys;
    if k in x.records { assert RecordLinked(x, m, k); }
  }

  lemma {:induction false} LoosenKeeps(x: Indexes, record: Ref)
    requires record in x.heap
    ensures Loosen(x, record).heap.Keys == x.heap.Keys
  {
    RemoveKeeps(Detach(x, record), record);
  }

  lemma {:induction false} PushKeeps(x: Indexes, record: Ref, s: Session)
    requires record in x.heap
    ensures Push(x, record, s).heap.Keys == x.heap.Keys
  {
    var pushed := PushBack(x, record, s);
    if |pushed.Owner(s).settled| > 0 && pushed.Owner(s).settled[0] in pushed.heap {
      LoosenKeeps(pushed, pushed.Owner(s).settled[0]);
    }
  }

  /** Every owner's settled list names records that exist and have a recipient. */
  lemma {:induction false} SettledListed(x: Indexes, m: S.Ledger<Ref>, s: Session)
    requires Sound(x, m)
    ensures forall r :: r in x.Owner(s).settled ==> r in x.heap && x.heap[r].recipient.Some?
    ensures forall r ::
      r in x.heap && x.Live(r) && x.heap[r].recipientOwned && x.heap[r].recipient == Some(s) ==> s in x.byRecipient
  {
    assert RecipientLinked(x, m, s);
  }

  lemma {:induction false} EmptySound(x: Indexes)
    requires x.records == map[] && x.bySender == map[] && x.byRecipient == map[] && x.currentBySender == map[]
    ensures Sound(x, S.Empty())
  {
    forall s ensures SenderLinked(x, s) && RecipientLinked(x, S.Empty(), s) {}
  }

  // -------- sweeps --------

  function SentKeys(m: S.Ledger<Ref>, s: Session): set<Key> {
    set k | k in m.records && k.sender == s
  }

  /** One turn of the sweep over a lost sender's records. */
  lemma {:induction false} ForgetTurn(x: Indexes, m: S.Ledger<Ref>, s: Session, done: set<Key>, record: Ref)
    requires S.Valid(m) && done <= SentKeys(m, s) && Represents(x, S.Drop(m, done)) && record in x.SentBy(s)
    ensures x.Live(record) && (x.heap[record].recipientOwned ==> x.heap[record].recipient.Some?)
    ensures done + {x.heap[record].key} <= SentKeys(m, s)
    ensures Represents(Remove(x, record), S.Drop(m, done + {x.heap[record].key}))
    ensures Remove(x, record).SentBy(s) == x.SentBy(s) - {record}
  {
    assert SenderLinked(x, s);
    Seen(x, S.Drop(m, done), record);
    var k := x.heap[record].key;
    RemoveRepresents(x, S.Drop(m, done), record);
    LedgerInvariant.DropValid(m, done);
    RemoveIsDrop(S.Drop(m, done), k);
    DropTwice(m, done, {k});
    RemovedSender(x, record);
  }

  lemma {:induction false} RemovedSender(x: Indexes, record: Ref)
    requires record in x.heap && x.Live(record)
    ensures Remove(x, record).SentBy(x.heap[record].key.sender) == x.SentBy(x.heap[record].key.sender) - {record}
  {
    assert Detach(x, record).bySender == x.bySender && Detach(x, record).heap[record].key == x.heap[record].key;
  }

  lemma {:induction false} ForgetStart(x: Indexes, m: S.Ledger<Ref>, s: Session)
    requires Sound(x, m)
    ensures S.Valid(m) && Represents(x, S.Drop(m, {}))
    ensures forall r :: r in x.SentBy(s) ==> r in x.heap
  {
    DropNothing(m);
    assert SenderLinked(x, s);
  }

  /** A sweep that has left the sender nothing has dropped all its keys. */
  lemma {:induction false} ForgetEnd(x: Indexes, m: S.Ledger<Ref>, s: Session, done: set<Key>)
    requires S.Valid(m) && done <= SentKeys(m, s) && Represents(x, S.Drop(m, done)) && x.SentBy(s) == {}
    ensures Sound(x, S.ForgetSender(m, s))
    ensures S.Drop(m, done) == S.ForgetSender(m, s)
    ensures forall k :: k in x.records ==> k.sender != s
  {
    forall k | k in x.records ensures k.sender != s {
      SeenKey(x, S.Drop(m, done), k);
      assert SenderLinked(x, k.sender);
    }
    forall k | k in SentKeys(m, s) ensures k in done {
      SeenKey(x, S.Drop(m, done), k);
      assert SenderLinked(x, s);
    }
    assert done == SentKeys(m, s);
    LedgerInvariant.DropValid(m, done);
  }

  function OwnedKeys(m: S.Ledger<Ref>, s: Session): set<Key> {
    set k | k in m.records && S.OwnedBy(m.records[k], s)
  }

  /** One turn of the sweep over a lost recipient's records. */
  lemma {:induction false} LoseTurn(x: Indexes, m: S.Ledger<Ref>, s: Session, done: set<Key>, record: Ref)
    requires S.Valid(m) && done <= OwnedKeys(m, s) && Represents(x, LostSome(m, s, done))
      && record in x.Owner(s).records
    ensures x.Live(record) && x.heap[record].recipientOwned && x.heap[record].recipient == Some(s)
    ensures done + {x.heap[record].key} <= OwnedKeys(m, s)
    ensures Represents(Lose(x, record), LostSome(m, s, done + {x.heap[record].key}))
    ensures Lose(x, record).Owner(s).records == x.Owner(s).records - {record}
  {
    assert RecipientLinked(x, LostSome(m, s, done), s);
    Seen(x, LostSome(m, s, done), record);
    LostSomeOwned(m, s, done, x.heap[record].key);
    LoseRepresents(x, LostSome(m, s, done), record);
    LostOneMore(m, s, done, x.heap[record].key);
    LosesOwner(x, record, s);
  }

  lemma {:induction false} LostSomeOwned(m: S.Ledger<Ref>, s: Session, done: set<Key>, k: Key)
    requires done <= OwnedKeys(m, s)
    ensures (k in LostSome(m, s, done).records && S.OwnedBy(LostSome(m, s, done).records[k], s)) <==>
      k in OwnedKeys(m, s) && k !in done
  {
  }

  lemma {:induction false} LosesOwner(x: Indexes, record: Ref, s: Session)
    requires record in x.heap && x.heap[record].recipientOwned && x.heap[record].recipient == Some(s)
    ensures Lose(x, record).Owner(s).records == x.Owner(s).records - {record}
  {
    var gone := Update(x, record, x.heap[record].(recipientGone := true));
    var detached := Detach(gone, record);
    assert detached.Owner(s).records == x.Owner(s).records - {record};
    assert Remove(detached, record).byRecipient == detached.byRecipient;
  }

  lemma {:induction false} LoseKeeps(x: Indexes, record: Ref)
    requires record in x.heap
    ensures Lose(x, record).heap.Keys == x.heap.Keys
  {
    RemoveKeeps(Detach(Update(x, record, x.heap[record].(recipientGone := true)), record), record);
  }

  lemma {:induction false} LoseStart(x: Indexes, m: S.Ledger<Ref>, s: Session)
    requires Sound(x, m)
    ensures S.Valid(m) && Represents(x, LostSome(m, s, {}))
  {
    LostNone(m, s);
  }

  lemma {:induction false} LoseEnd(x: Indexes, m: S.Ledger<Ref>, s: Session, done: set<Key>)
    requires S.Valid(m) && done <= OwnedKeys(m, s) && Represents(x, LostSome(m, s, done)) && x.Owner(s).records == {}
    ensures s !in x.byRecipient && Sound(x, S.ForgetRecipient(m, s))
  {
    assert RecipientLinked(x, LostSome(m, s, done), s);
    forall k | k in OwnedKeys(m, s) ensures k in done {
      LostSomeOwned(m, s, done, k);
      SeenKey(x, LostSome(m, s, done), k);
      if k in x.records { Seen(x, LostSome(m, s, done), x.records[k]); }
    }
    assert done == OwnedKeys(m, s);
    LostAll(m, s, done);
    LedgerInvariant.ForgetRecipientValid(m, s);
  }
}
