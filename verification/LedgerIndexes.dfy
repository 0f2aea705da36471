/**
 The four indexes of the dedupe ledger, and what it means for them to represent a `LedgerSpec` value.

 A record is reached through its `Ref`, the identity a Go pointer carries; `heap` holds every record made.  Handles
 kept by workers may be stale: their record is then in `heap` but no longer under its key in `records`.
 */
module LedgerIndexes {
  import opened Wrappers
  import opened Messages
  import S = LedgerSpec

  type Ref = nat

  datatype DedupeRecord = DedupeRecord(
    key: Key,
    fingerprint: S.Fingerprint,
    recipient: Option<Session>,
    recipientGone: bool,
    settled: bool,
    response: Option<Response>,
    repeatUsed: bool,
    attached: Option<Operation>,
    current: bool,
    recipientOwned: bool,
    /** Whether the record sits in its recipient's settled list. */
    listed: bool)

  /** What one recipient owns: all its records, and the settled ones in settlement order. */
  datatype RecipientRecords = RecipientRecords(records: set<Ref>, settled: seq<Ref>)

  datatype Indexes = Indexes(
    heap: map<Ref, DedupeRecord>,
    records: map<Key, Ref>,
    bySender: map<Session, set<Ref>>,
    byRecipient: map<Session, RecipientRecords>,
    currentBySender: map<Session, Ref>)
  {
    predicate Live(r: Ref) {
      r in heap && heap[r].key in records && records[heap[r].key] == r
    }

    function SentBy(s: Session): set<Ref> {
      if s in bySender then bySender[s] else {}
    }

    function Owner(s: Session): RecipientRecords {
      if s in byRecipient then byRecipient[s] else RecipientRecords({}, [])
    }
  }

  function View(ref: Ref, r: DedupeRecord): S.Record<Ref> {
    S.Record(ref, r.fingerprint, r.recipient, r.recipientGone, r.response, r.repeatUsed, r.attached, r.recipientOwned)
  }

  // -------- the representation --------

  /** One live record: its abstract value, and the indexes its flags speak of. */
  ghost predicate RecordLinked(x: Indexes, m: S.Ledger<Ref>, k: Key)
    requires k in x.records
  {
    var ref := x.records[k];
    && x.Live(ref)
    && var r := x.heap[ref];
    && r.key == k
    && k in m.records && m.records[k] == View(ref, r)
    && (r.settled <==> r.response.Some?)
    && (r.current <==> k.sender in x.currentBySender && x.currentBySender[k.sender] == ref)
    && (r.recipientOwned ==> r.recipient.Some?)
    && (r.listed ==> r.recipientOwned && ref in x.Owner(r.recipient.value).settled)
  }

  /** One recipient: exactly the live records it owns, and its settled list is the abstract window. */
  ghost predicate RecipientLinked(x: Indexes, m: S.Ledger<Ref>, s: Session) {
    var owner := x.Owner(s);
    && (forall r :: r in owner.records <==> x.Live(r) && x.heap[r].recipientOwned && x.heap[r].recipient == Some(s))
    && (s in x.byRecipient ==> owner.records != {})
    && (forall r :: r in owner.settled ==> r in owner.records && x.heap[r].listed && x.heap[r].settled)
    && |S.Window(m, s)| == |owner.settled|
    && (forall i :: 0 <= i < |owner.settled| ==>
      owner.settled[i] in x.heap && S.Window(m, s)[i] == x.heap[owner.settled[i]].key)
    && (s in m.windows ==> m.windows[s] != [])
  }

  ghost predicate SenderLinked(x: Indexes, s: Session) {
    && (forall r :: r in x.SentBy(s) <==> x.Live(r) && x.heap[r].key.sender == s)
    && (s in x.bySender ==> x.bySender[s] != {})
  }

  ghost predicate CurrentLinked(x: Indexes, m: S.Ledger<Ref>, s: Session)
    requires s in x.currentBySender
  {
    var ref := x.currentBySender[s];
    x.Live(ref) && x.heap[ref].key.sender == s && s in m.current && m.current[s] == x.heap[ref].key
  }

  ghost predicate AllRecords(x: Indexes, m: S.Ledger<Ref>) {
    forall k :: k in x.records ==> RecordLinked(x, m, k)
  }

  ghost predicate AllSenders(x: Indexes) {
    forall s :: SenderLinked(x, s)
  }

  ghost predicate AllRecipients(x: Indexes, m: S.Ledger<Ref>) {
    forall s :: RecipientLinked(x, m, s)
  }

  ghost predicate AllCurrent(x: Indexes, m: S.Ledger<Ref>) {
    forall s :: s in x.currentBySender ==> CurrentLinked(x, m, s)
  }

  /** The indexes, the record flags and the abstract value say the same thing. */
  ghost predicate Linked(x: Indexes, m: S.Ledger<Ref>) {
    && m.records.Keys == x.records.Keys
    && m.current.Keys == x.currentBySender.Keys
    && AllRecords(x, m) && AllSenders(x) && AllRecipients(x, m) && AllCurrent(x, m)
  }

  // -------- detaching --------

  /** `list` without `record`. */
  function Unlist(list: seq<Ref>, record: Ref): (r: seq<Ref>)
    ensures forall x :: x in r <==> x in list && x != record
  {
    if list == [] then []
    else if list[0] == record then Unlist(list[1..], record)
    else [list[0]] + Unlist(list[1..], record)
  }

  /** The record leaves its recipient, and that recipient's settled list. */
  function Detach(x: Indexes, record: Ref): Indexes
    requires record in x.heap
  {
    var r := x.heap[record];
    if !r.recipientOwned || r.recipient.None? then x
    else
      var s := r.recipient.value;
      var owner := x.Owner(s);
      var settled := if r.listed then Unlist(owner.settled, record) else owner.settled;
      x.(byRecipient := if owner.records - {record} == {} then x.byRecipient - {s}
                        else x.byRecipient[s := RecipientRecords(owner.records - {record}, settled)],
         heap := x.heap[record := r.(recipientOwned := false, listed := false)])
  }

  function DetachModel(l: S.Ledger<Ref>, k: Key): S.Ledger<Ref> {
    if k in l.records && l.records[k].recipientOwned && l.records[k].recipient.Some? then
      var s := l.records[k].recipient.value;
      S.Ledger(
        l.records[k := l.records[k].(recipientOwned := false)],
        l.current,
        S.SetWindow(l.windows, s, S.Without(S.Window(l, s), {k})))
    else l
  }

  /** `keys` are the keys of the records in `list`. */
  ghost predicate KeysOf(heap: map<Ref, DedupeRecord>, list: seq<Ref>, keys: seq<Key>) {
    |keys| == |list| && forall i :: 0 <= i < |list| ==> list[i] in heap && keys[i] == heap[list[i]].key
  }

  lemma {:induction false} UnlistKeys(heap: map<Ref, DedupeRecord>, list: seq<Ref>, keys: seq<Key>, record: Ref, k: Key)
    requires KeysOf(heap, list, keys)
    requires forall i :: 0 <= i < |list| ==> (list[i] == record <==> keys[i] == k)
    ensures KeysOf(heap, Unlist(list, record), S.Without(keys, {k}))
  {
    if list != [] {
      assert list[0] == record <==> keys[0] == k;
      UnlistKeys(heap, list[1..], keys[1..], record, k);
    }
  }

  lemma {:induction false} UnlistAbsent(list: seq<Ref>, record: Ref)
    requires record !in list
    ensures Unlist(list, record) == list
  {
    if list != [] { UnlistAbsent(list[1..], record); }
  }

  /** What detaching does, index by index. */
  ghost predicate DetachEffect(x: Indexes, x': Indexes, record: Ref, s: Session)
    requires record in x.heap
  {
    var r := x.heap[record];
    && x'.heap == x.heap[record := r.(recipientOwned := false, listed := false)]
    && x'.records == x.records && x'.bySender == x.bySender && x'.currentBySender == x.currentBySender
    && (forall t :: t != s ==> x'.Owner(t) == x.Owner(t) && (t in x'.byRecipient <==> t in x.byRecipient))
    && x'.Owner(s).records == x.Owner(s).records - {record}
    && x'.Owner(s).settled == (if r.listed then Unlist(x.Owner(s).settled, record) else x.Owner(s).settled)
    && (s in x'.byRecipient ==> x'.Owner(s).records != {})
  }

  ghost predicate DetachModelEffect(m: S.Ledger<Ref>, m': S.Ledger<Ref>, k: Key, s: Session)
    requires k in m.records
  {
    && m'.records == m.records[k := m.records[k].(recipientOwned := false)]
    && m'.current == m.current
    && (forall t :: t != s ==> S.Window(m', t) == S.Window(m, t) && (t in m'.windows ==> t in m.windows))
    && S.Window(m', s) == S.Without(S.Window(m, s), {k})
    && (s in m'.windows ==> m'.windows[s] != [])
  }

  /** Only live, listed records of the recipient are in its list; so its keys name `record` where the list does. */
  lemma {:induction false} ListNames(x: Indexes, m: S.Ledger<Ref>, record: Ref, s: Session)
    requires RecipientLinked(x, m, s) && x.Live(record)
    ensures forall i ::
      0 <= i < |x.Owner(s).settled| ==> (x.Owner(s).settled[i] == record <==> S.Window(m, s)[i] == x.heap[record].key)
    ensures KeysOf(x.heap, x.Owner(s).settled, S.Window(m, s))
    ensures !x.heap[record].listed ==> record !in x.Owner(s).settled
  {
    var list := x.Owner(s).settled;
    forall i | 0 <= i < |list| ensures list[i] == record <==> S.Window(m, s)[i] == x.heap[record].key {
      assert list[i] in list && list[i] in x.Owner(s).records;
    }
  }

  lemma {:induction false} DetachedHere(x: Indexes, x': Indexes, m: S.Ledger<Ref>, m': S.Ledger<Ref>, record: Ref,
    s: Session)
    requires RecipientLinked(x, m, s) && x.Live(record) && x.heap[record].key in m.records
    requires x.heap[record].recipientOwned && x.heap[record].recipient == Some(s)
    requires DetachEffect(x, x', record, s) && DetachModelEffect(m, m', x.heap[record].key, s)
    ensures RecipientLinked(x', m', s)
  {
    DetachedList(x, x', m, m', record, s);
    assert forall r :: x'.Live(r) <==> x.Live(r);
    hide Unlist, S.Without, S.Window;
  }

  /** The settled list afterwards: named by the window's keys, and its records still listed. */
  lemma {:induction false} DetachedList(x: Indexes, x': Indexes, m: S.Ledger<Ref>, m': S.Ledger<Ref>, record: Ref,
    s: Session)
    requires RecipientLinked(x, m, s) && x.Live(record) && x.heap[record].key in m.records
    requires x.heap[record].recipientOwned && x.heap[record].recipient == Some(s)
    requires DetachEffect(x, x', record, s) && DetachModelEffect(m, m', x.heap[record].key, s)
    ensures KeysOf(x'.heap, x'.Owner(s).settled, S.Window(m', s))
    ensures forall r :: r in x'.Owner(s).settled ==> r != record && r in x.Owner(s).settled
  {
    var list, r := x.Owner(s).settled, x.heap[record];
    ListNames(x, m, record, s);
    UnlistKeys(x.heap, list, S.Window(m, s), record, r.key);
    if record !in list { UnlistAbsent(list, record); }
    hide RecipientLinked, KeysOf;
    KeysStay(x.heap, record, r.(recipientOwned := false, listed := false), Unlist(list, record), S.Window(m', s));
  }

  lemma {:induction false} KeysStay(heap: map<Ref, DedupeRecord>, record: Ref, r: DedupeRecord, list: seq<Ref>,
    keys: seq<Key>)
    requires KeysOf(heap, list, keys) && record in heap && r.key == heap[record].key
    ensures KeysOf(heap[record := r], list, keys)
  {
  }

  lemma {:induction false} DetachedElsewhere(x: Indexes, x': Indexes, m: S.Ledger<Ref>, m': S.Ledger<Ref>, record: Ref,
    s: Session, t: Session)
    requires RecipientLinked(x, m, t) && t != s && x.Live(record) && x.heap[record].key in m.records
    requires x.heap[record].recipientOwned && x.heap[record].recipient == Some(s)
    requires DetachEffect(x, x', record, s) && DetachModelEffect(m, m', x.heap[record].key, s)
    ensures RecipientLinked(x', m', t)
  {
    assert forall r :: x'.Live(r) <==> x.Live(r);
    assert record !in x.Owner(t).records;
    assert t in m'.windows ==> S.Window(m, t) == m.windows[t];
  }

  lemma {:induction false} DetachedRecord(x: Indexes, x': Indexes, m: S.Ledger<Ref>, m': S.Ledger<Ref>, record: Ref,
    s: Session, k: Key)
    requires k in x.records && RecordLinked(x, m, k) && x.Live(record) && x.heap[record].key in m.records
    requires x.heap[record].recipientOwned && x.heap[record].recipient == Some(s)
    requires DetachEffect(x, x', record, s) && DetachModelEffect(m, m', x.heap[record].key, s)
    ensures RecordLinked(x', m', k)
  {
    if x.records[k] == record {
      assert k == x.heap[record].key;
    } else {
      assert x'.heap[x.records[k]] == x.heap[x.records[k]];
      assert k != x.heap[record].key;
    }
  }

  lemma {:induction false} DetachedRecipients(x: Indexes, x': Indexes, m: S.Ledger<Ref>, m': S.Ledger<Ref>,
    record: Ref, s: Session)
    requires x.Live(record) && x.heap[record].key in m.records
    requires x.heap[record].recipientOwned && x.heap[record].recipient == Some(s)
    requires DetachEffect(x, x', record, s) && DetachModelEffect(m, m', x.heap[record].key, s)
    requires AllRecipients(x, m)
    ensures AllRecipients(x', m')
  {
    forall t ensures RecipientLinked(x', m', t) {
      assert RecipientLinked(x, m, t);
      if t == s { DetachedHere(x, x', m, m', record, s); } else { DetachedElsewhere(x, x', m, m', record, s, t); }
    }
  }

  lemma {:induction false} DetachedOthers(x: Indexes, x': Indexes, m: S.Ledger<Ref>, m': S.Ledger<Ref>, record: Ref,
    s: Session)
    requires x.Live(record) && x.heap[record].key in m.records
    requires x.heap[record].recipientOwned && x.heap[record].recipient == Some(s)
    requires DetachEffect(x, x', record, s) && DetachModelEffect(m, m', x.heap[record].key, s)
    requires AllRecords(x, m) && AllSenders(x) && AllCurrent(x, m)
    ensures AllRecords(x', m') && AllSenders(x') && AllCurrent(x', m')
  {
    forall k | k in x'.records ensures RecordLinked(x', m', k) { DetachedRecord(x, x', m, m', record, s, k); }
    forall t ensures SenderLinked(x', t) { assert SenderLinked(x, t); }
    forall t | t in x'.currentBySender ensures CurrentLinked(x', m', t) { assert CurrentLinked(x, m, t); }
  }

  lemma {:induction false} DetachHasEffect(x: Indexes, record: Ref, s: Session)
    requires record in x.heap && x.heap[record].recipientOwned && x.heap[record].recipient == Some(s)
    requires forall r :: r in x.Owner(s).settled ==> r in x.Owner(s).records
    requires !x.heap[record].listed ==> record !in x.Owner(s).settled
    ensures DetachEffect(x, Detach(x, record), record, s)
  {
    var owner := x.Owner(s);
    var list := if x.heap[record].listed then Unlist(owner.settled, record) else owner.settled;
    if list != [] {
      assert list[0] in list && list[0] in owner.records - {record};
    }
  }

  lemma {:induction false} DetachModelHasEffect(m: S.Ledger<Ref>, k: Key, s: Session)
    requires k in m.records && m.records[k].recipientOwned && m.records[k].recipient == Some(s)
    ensures DetachModelEffect(m, DetachModel(m, k), k, s)
  {
  }

  lemma {:induction false} DetachLinked(x: Indexes, m: S.Ledger<Ref>, record: Ref)
    requires Linked(x, m) && x.Live(record)
    ensures Linked(Detach(x, record), DetachModel(m, x.heap[record].key))
    ensures Detach(x, record).Live(record) && !Detach(x, record).heap[record].recipientOwned
  {
    var r := x.heap[record];
    assert RecordLinked(x, m, r.key);
    if r.recipientOwned {
      var s := r.recipient.value;
      assert RecipientLinked(x, m, s);
      ListNames(x, m, record, s);
      DetachHasEffect(x, record, s);
      DetachModelHasEffect(m, r.key, s);
      DetachedRecipients(x, Detach(x, record), m, DetachModel(m, r.key), record, s);
      DetachedOthers(x, Detach(x, record), m, DetachModel(m, r.key), record, s);
    }
  }

  // -------- the other elementary changes --------

  /** A new state of a live record that no index depends on. */
  ghost predicate Unindexed(r: DedupeRecord, r': DedupeRecord) {
    && r'.key == r.key && r'.current == r.current && r'.recipientOwned == r.recipientOwned
    && r'.recipient == r.recipient
    && r'.listed == r.listed && (r.listed ==> r'.settled) && (r'.settled <==> r'.response.Some?)
  }

  function Update(x: Indexes, record: Ref, r': DedupeRecord): Indexes {
    x.(heap := x.heap[record := r'])
  }

  function UpdateModel(m: S.Ledger<Ref>, record: Ref, r': DedupeRecord): S.Ledger<Ref> {
    m.(records := m.records[r'.key := View(record, r')])
  }

  lemma {:induction false} UpdateRecipients(x: Indexes, m: S.Ledger<Ref>, record: Ref, r': DedupeRecord)
    requires x.Live(record) && Unindexed(x.heap[record], r') && RecordLinked(x, m, r'.key)
    requires AllRecipients(x, m)
    ensures AllRecipients(Update(x, record, r'), UpdateModel(m, record, r'))
  {
    forall t ensures RecipientLinked(Update(x, record, r'), UpdateModel(m, record, r'), t) {
      assert RecipientLinked(x, m, t);
    }
  }

  lemma {:induction false} UpdateRecords(x: Indexes, m: S.Ledger<Ref>, record: Ref, r': DedupeRecord)
    requires x.Live(record) && Unindexed(x.heap[record], r') && RecordLinked(x, m, r'.key)
    requires AllRecords(x, m)
    ensures AllRecords(Update(x, record, r'), UpdateModel(m, record, r'))
  {
    forall k | k in Update(x, record, r').records
      ensures RecordLinked(Update(x, record, r'), UpdateModel(m, record, r'), k)
    {
      assert k in x.records ==> RecordLinked(x, m, k);
    }
  }

  lemma {:induction false} UpdateSenders(x: Indexes, m: S.Ledger<Ref>, record: Ref, r': DedupeRecord)
    requires x.Live(record) && Unindexed(x.heap[record], r') && RecordLinked(x, m, r'.key)
    requires AllSenders(x) && AllCurrent(x, m)
    ensures AllSenders(Update(x, record, r')) && AllCurrent(Update(x, record, r'), UpdateModel(m, record, r'))
  {
    forall t ensures SenderLinked(Update(x, record, r'), t) { assert SenderLinked(x, t); }
    forall t | t in Update(x, record, r').currentBySender
      ensures CurrentLinked(Update(x, record, r'), UpdateModel(m, record, r'), t)
    {
      assert t in x.currentBySender ==> CurrentLinked(x, m, t);
    }
  }

  lemma {:induction false} UpdateLinked(x: Indexes, m: S.Ledger<Ref>, record: Ref, r': DedupeRecord)
    requires Linked(x, m) && x.Live(record) && Unindexed(x.heap[record], r')
    ensures Linked(Update(x, record, r'), UpdateModel(m, record, r'))
  {
    assert RecordLinked(x, m, r'.key);
    UpdateRecipients(x, m, record, r');
    UpdateRecords(x, m, record, r');
    UpdateSenders(x, m, record, r');
  }

  /** The sender has no current send any more. */
  function Retire(x: Indexes, s: Session): Indexes
    requires s in x.currentBySender && x.currentBySender[s] in x.heap
  {
    var ref := x.currentBySender[s];
    x.(currentBySender := x.currentBySender - {s}, heap := x.heap[ref := x.heap[ref].(current := false)])
  }

  function RetireModel(m: S.Ledger<Ref>, s: Session): S.Ledger<Ref> {
    m.(current := m.current - {s})
  }

  lemma {:induction false} RetireRecipients(x: Indexes, m: S.Ledger<Ref>, s: Session)
    requires s in x.currentBySender && CurrentLinked(x, m, s) && RecordLinked(x, m, x.heap[x.currentBySender[s]].key)
    requires AllRecipients(x, m)
    ensures AllRecipients(Retire(x, s), RetireModel(m, s))
  {
    forall t ensures RecipientLinked(Retire(x, s), RetireModel(m, s), t) {
      assert RecipientLinked(x, m, t);
    }
  }

  lemma {:induction false} RetireRecords(x: Indexes, m: S.Ledger<Ref>, s: Session)
    requires s in x.currentBySender && CurrentLinked(x, m, s) && RecordLinked(x, m, x.heap[x.currentBySender[s]].key)
    requires AllRecords(x, m)
    ensures AllRecords(Retire(x, s), RetireModel(m, s))
  {
    forall k | k in Retire(x, s).records ensures RecordLinked(Retire(x, s), RetireModel(m, s), k) {
      assert k in x.records ==> RecordLinked(x, m, k);
    }
  }

  lemma {:induction false} RetireSenders(x: Indexes, m: S.Ledger<Ref>, s: Session)
    requires s in x.currentBySender && CurrentLinked(x, m, s) && RecordLinked(x, m, x.heap[x.currentBySender[s]].key)
    requires AllSenders(x) && AllCurrent(x, m)
    ensures AllSenders(Retire(x, s)) && AllCurrent(Retire(x, s), RetireModel(m, s))
  {
    forall t ensures SenderLinked(Retire(x, s), t) { assert SenderLinked(x, t); }
    forall t | t in Retire(x, s).currentBySender ensures CurrentLinked(Retire(x, s), RetireModel(m, s), t) {
      assert t in x.currentBySender ==> CurrentLinked(x, m, t);
    }
  }

  lemma {:induction false} RetireLinked(x: Indexes, m: S.Ledger<Ref>, s: Session)
    requires Linked(x, m) && s in x.currentBySender && x.currentBySender[s] in x.heap
    ensures Retire(x, s).Live(x.currentBySender[s])
    ensures Linked(Retire(x, s), RetireModel(m, s))
  {
    assert CurrentLinked(x, m, s);
    assert RecordLinked(x, m, x.heap[x.currentBySender[s]].key);
    RetireRecipients(x, m, s);
    RetireRecords(x, m, s);
    RetireSenders(x, m, s);
  }

  /** A record without a recipient leaves `records`, its sender's set and the current index. */
  function Erase(x: Indexes, record: Ref): Indexes
    requires record in x.heap
  {
    var r := x.heap[record];
    var s := r.key.sender;
    x.(records := x.records - {r.key},
       currentBySender := if s in x.currentBySender && x.currentBySender[s] == record then x.currentBySender - {s}
         else x.currentBySender,
       bySender := if x.SentBy(s) - {record} == {} then x.bySender - {s} else x.bySender[s := x.SentBy(s) - {record}],
       heap := x.heap[record := r.(current := false)])
  }

  function EraseModel(m: S.Ledger<Ref>, k: Key): S.Ledger<Ref> {
    m.(records := m.records - {k}, current := if S.IsCurrent(m, k) then m.current - {k.sender} else m.current)
  }

  lemma {:induction false} EraseLive(x: Indexes, m: S.Ledger<Ref>, record: Ref)
    requires x.Live(record) && !x.heap[record].recipientOwned
    ensures forall ref :: Erase(x, record).Live(ref) <==> x.Live(ref) && ref != record
  {
    var x' := Erase(x, record);
    forall ref ensures x'.Live(ref) <==> x.Live(ref) && ref != record {
      if x.Live(ref) && x.heap[ref].key == x.heap[record].key { assert ref == record; }
    }
  }

  lemma {:induction false} EraseRecipients(x: Indexes, m: S.Ledger<Ref>, record: Ref)
    requires x.Live(record) && !x.heap[record].recipientOwned
    requires AllRecipients(x, m)
    ensures AllRecipients(Erase(x, record), EraseModel(m, x.heap[record].key))
  {
    EraseLive(x, m, record);
    forall t ensures RecipientLinked(Erase(x, record), EraseModel(m, x.heap[record].key), t) {
      assert RecipientLinked(x, m, t);
    }
  }

  lemma {:induction false} EraseRecords(x: Indexes, m: S.Ledger<Ref>, record: Ref)
    requires x.Live(record) && !x.heap[record].recipientOwned
    requires AllRecords(x, m)
    ensures AllRecords(Erase(x, record), EraseModel(m, x.heap[record].key))
  {
    EraseLive(x, m, record);
    forall k | k in Erase(x, record).records
      ensures RecordLinked(Erase(x, record), EraseModel(m, x.heap[record].key), k)
    {
      assert k in x.records ==> RecordLinked(x, m, k);
    }
  }

  lemma {:induction false} EraseSenders(x: Indexes, m: S.Ledger<Ref>, record: Ref)
    requires x.Live(record) && !x.heap[record].recipientOwned
    requires AllSenders(x) && AllCurrent(x, m)
    ensures AllSenders(Erase(x, record)) && AllCurrent(Erase(x, record), EraseModel(m, x.heap[record].key))
  {
    EraseLive(x, m, record);
    forall t ensures SenderLinked(Erase(x, record), t) { assert SenderLinked(x, t); }
    forall t | t in Erase(x, record).currentBySender
      ensures CurrentLinked(Erase(x, record), EraseModel(m, x.heap[record].key), t)
    {
      assert t in x.currentBySender ==> CurrentLinked(x, m, t);
    }
  }

  lemma {:induction false} EraseLinked(x: Indexes, m: S.Ledger<Ref>, record: Ref)
    requires Linked(x, m) && x.Live(record) && !x.heap[record].recipientOwned
    ensures Linked(Erase(x, record), EraseModel(m, x.heap[record].key))
  {
    EraseKeys(x, m, record);
    hide AllRecords, AllSenders, AllRecipients, AllCurrent, Erase, EraseModel;
    EraseRecipients(x, m, record);
    EraseRecords(x, m, record);
    EraseSenders(x, m, record);
  }

  lemma {:induction false} EraseKeys(x: Indexes, m: S.Ledger<Ref>, record: Ref)
    requires Linked(x, m) && x.Live(record)
    ensures var x', m' := Erase(x, record), EraseModel(m, x.heap[record].key);
      m'.records.Keys == x'.records.Keys && m'.current.Keys == x'.currentBySender.Keys
  {
    var r := x.heap[record];
    assert RecordLinked(x, m, r.key);
    assert r.key.sender in x.currentBySender ==> CurrentLinked(x, m, r.key.sender);
    hide AllRecords, AllSenders, AllRecipients, AllCurrent;
  }

  /** A recipient comes to own the record. */
  function Own(x: Indexes, record: Ref, s: Session): Indexes
    requires record in x.heap
  {
    x.(heap := x.heap[record := x.heap[record].(recipient := Some(s), recipientOwned := true)],
       byRecipient := x.byRecipient[s := RecipientRecords(x.Owner(s).records + {record}, x.Owner(s).settled)])
  }

  function OwnModel(m: S.Ledger<Ref>, k: Key, s: Session): S.Ledger<Ref>
    requires k in m.records
  {
    m.(records := m.records[k := m.records[k].(recipient := Some(s), recipientOwned := true)])
  }

  lemma {:induction false} OwnRecipients(x: Indexes, m: S.Ledger<Ref>, record: Ref, s: Session)
    requires x.Live(record) && x.heap[record].recipient.None? && !x.heap[record].recipientOwned
    requires x.heap[record].key in m.records && RecordLinked(x, m, x.heap[record].key)
    requires AllRecipients(x, m)
    ensures AllRecipients(Own(x, record, s), OwnModel(m, x.heap[record].key, s))
  {
    forall t ensures RecipientLinked(Own(x, record, s), OwnModel(m, x.heap[record].key, s), t) {
      assert RecipientLinked(x, m, t);
    }
  }

  lemma {:induction false} OwnRecords(x: Indexes, m: S.Ledger<Ref>, record: Ref, s: Session)
    requires x.Live(record) && x.heap[record].recipient.None? && !x.heap[record].recipientOwned
    requires x.heap[record].key in m.records && RecordLinked(x, m, x.heap[record].key)
    requires AllRecords(x, m)
    ensures AllRecords(Own(x, record, s), OwnModel(m, x.heap[record].key, s))
  {
    forall k | k in Own(x, record, s).records
      ensures RecordLinked(Own(x, record, s), OwnModel(m, x.heap[record].key, s), k)
    {
      assert k in x.records ==> RecordLinked(x, m, k);
    }
  }

  lemma {:induction false} OwnSenders(x: Indexes, m: S.Ledger<Ref>, record: Ref, s: Session)
    requires x.Live(record) && x.heap[record].recipient.None? && !x.heap[record].recipientOwned
    requires x.heap[record].key in m.records && RecordLinked(x, m, x.heap[record].key)
    requires AllSenders(x) && AllCurrent(x, m)
    ensures AllSenders(Own(x, record, s)) && AllCurrent(Own(x, record, s), OwnModel(m, x.heap[record].key, s))
  {
    forall t ensures SenderLinked(Own(x, record, s), t) { assert SenderLinked(x, t); }
    forall t | t in Own(x, record, s).currentBySender
      ensures CurrentLinked(Own(x, record, s), OwnModel(m, x.heap[record].key, s), t)
    {
      assert t in x.currentBySender ==> CurrentLinked(x, m, t);
    }
  }

  lemma {:induction false} OwnLinked(x: Indexes, m: S.Ledger<Ref>, record: Ref, s: Session)
    requires Linked(x, m) && x.Live(record) && x.heap[record].recipient.None? && !x.heap[record].recipientOwned
    requires x.heap[record].key in m.records
    ensures Linked(Own(x, record, s), OwnModel(m, x.heap[record].key, s))
  {
    assert RecordLinked(x, m, x.heap[record].key);
    OwnRecipients(x, m, record, s);
    OwnRecords(x, m, record, s);
    OwnSenders(x, m, record, s);
  }

  /** A settled record goes to the back of its recipient's list. */
  function PushBack(x: Indexes, record: Ref, s: Session): Indexes
    requires record in x.heap
  {
    x.(heap := x.heap[record := x.heap[record].(listed := true)],
       byRecipient := x.byRecipient[s := RecipientRecords(x.Owner(s).records, x.Owner(s).settled + [record])])
  }

  function PushBackModel(m: S.Ledger<Ref>, k: Key, s: Session): S.Ledger<Ref> {
    m.(windows := m.windows[s := S.Window(m, s) + [k]])
  }

  lemma {:induction false} PushBackRecipients(x: Indexes, m: S.Ledger<Ref>, record: Ref, s: Session)
    requires x.Live(record) && x.heap[record].settled && !x.heap[record].listed
    requires x.heap[record].recipientOwned && x.heap[record].recipient == Some(s)
    requires RecordLinked(x, m, x.heap[record].key)
    requires AllRecipients(x, m)
    ensures AllRecipients(PushBack(x, record, s), PushBackModel(m, x.heap[record].key, s))
  {
    forall t ensures RecipientLinked(PushBack(x, record, s), PushBackModel(m, x.heap[record].key, s), t) {
      assert RecipientLinked(x, m, t);
    }
  }

  lemma {:induction false} PushBackRecords(x: Indexes, m: S.Ledger<Ref>, record: Ref, s: Session)
    requires x.Live(record) && x.heap[record].settled && !x.heap[record].listed
    requires x.heap[record].recipientOwned && x.heap[record].recipient == Some(s)
    requires RecordLinked(x, m, x.heap[record].key)
    requires AllRecords(x, m)
    ensures AllRecords(PushBack(x, record, s), PushBackModel(m, x.heap[record].key, s))
  {
    forall k | k in PushBack(x, record, s).records
      ensures RecordLinked(PushBack(x, record, s), PushBackModel(m, x.heap[record].key, s), k)
    {
      assert k in x.records ==> RecordLinked(x, m, k);
    }
  }

  lemma {:induction false} PushBackSenders(x: Indexes, m: S.Ledger<Ref>, record: Ref, s: Session)
    requires x.Live(record) && x.heap[record].settled && !x.heap[record].listed
    requires x.heap[record].recipientOwned && x.heap[record].recipient == Some(s)
    requires RecordLinked(x, m, x.heap[record].key)
    requires AllSenders(x) && AllCurrent(x, m)
    ensures AllSenders(PushBack(x, record, s))
      && AllCurrent(PushBack(x, record, s), PushBackModel(m, x.heap[record].key, s))
  {
    forall t ensures SenderLinked(PushBack(x, record, s), t) { assert SenderLinked(x, t); }
    forall t | t in PushBack(x, record, s).currentBySender
      ensures CurrentLinked(PushBack(x, record, s), PushBackModel(m, x.heap[record].key, s), t)
    {
      assert t in x.currentBySender ==> CurrentLinked(x, m, t);
    }
  }

  lemma {:induction false} PushBackLinked(x: Indexes, m: S.Ledger<Ref>, record: Ref, s: Session)
    requires Linked(x, m) && x.Live(record) && x.heap[record].settled && !x.heap[record].listed
    requires x.heap[record].recipientOwned && x.heap[record].recipient == Some(s)
    ensures PushBack(x, record, s).Live(record)
    ensures Linked(PushBack(x, record, s), PushBackModel(m, x.heap[record].key, s))
  {
    assert RecordLinked(x, m, x.heap[record].key);
    PushBackRecipients(x, m, record, s);
    PushBackRecords(x, m, record, s);
    PushBackSenders(x, m, record, s);
  }

  /** A new record, current for its sender. */
  function Insert(x: Indexes, ref: Ref, k: Key, fingerprint: S.Fingerprint): Indexes {
    x.(heap := x.heap[ref := DedupeRecord(k, fingerprint, None, false, false, None, false, None, true, false, false)],
       records := x.records[k := ref],
       bySender := x.bySender[k.sender := x.SentBy(k.sender) + {ref}],
       currentBySender := x.currentBySender[k.sender := ref])
  }

  function InsertModel(m: S.Ledger<Ref>, ref: Ref, k: Key, fingerprint: S.Fingerprint): S.Ledger<Ref> {
    m.(records := m.records[k := S.NewRecord(ref, fingerprint)], current := m.current[k.sender := k])
  }

  lemma {:induction false} InsertLive(x: Indexes, m: S.Ledger<Ref>, added: Ref, key: Key, fingerprint: S.Fingerprint)
    requires added !in x.heap && key !in x.records && key.sender !in x.currentBySender
    ensures forall ref :: Insert(x, added, key, fingerprint).Live(ref) <==> x.Live(ref) || ref == added
  {
    var x' := Insert(x, added, key, fingerprint);
    forall ref ensures x'.Live(ref) <==> x.Live(ref) || ref == added {
    }
  }

  lemma {:induction false} InsertRecipients(x: Indexes, m: S.Ledger<Ref>, added: Ref, key: Key,
    fingerprint: S.Fingerprint)
    requires added !in x.heap && key !in x.records && key.sender !in x.currentBySender
    requires AllRecipients(x, m)
    ensures AllRecipients(Insert(x, added, key, fingerprint), InsertModel(m, added, key, fingerprint))
  {
    InsertLive(x, m, added, key, fingerprint);
    forall t ensures RecipientLinked(Insert(x, added, key, fingerprint), InsertModel(m, added, key, fingerprint), t) {
      assert RecipientLinked(x, m, t);
    }
  }

  lemma {:induction false} InsertRecords(x: Indexes, m: S.Ledger<Ref>, added: Ref, key: Key, fingerprint: S.Fingerprint)
    requires added !in x.heap && key !in x.records && key.sender !in x.currentBySender
    requires AllRecords(x, m)
    ensures AllRecords(Insert(x, added, key, fingerprint), InsertModel(m, added, key, fingerprint))
  {
    InsertLive(x, m, added, key, fingerprint);
    forall k | k in Insert(x, added, key, fingerprint).records
      ensures RecordLinked(Insert(x, added, key, fingerprint), InsertModel(m, added, key, fingerprint), k)
    {
      assert k in x.records ==> RecordLinked(x, m, k);
    }
  }

  lemma {:induction false} InsertSenders(x: Indexes, m: S.Ledger<Ref>, added: Ref, key: Key, fingerprint: S.Fingerprint)
    requires added !in x.heap && key !in x.records && key.sender !in x.currentBySender
    requires AllSenders(x) && AllCurrent(x, m)
    ensures AllSenders(Insert(x, added, key, fingerprint))
      && AllCurrent(Insert(x, added, key, fingerprint), InsertModel(m, added, key, fingerprint))
  {
    InsertLive(x, m, added, key, fingerprint);
    forall t ensures SenderLinked(Insert(x, added, key, fingerprint), t) { assert SenderLinked(x, t); }
    forall t | t in Insert(x, added, key, fingerprint).currentBySender
      ensures CurrentLinked(Insert(x, added, key, fingerprint), InsertModel(m, added, key, fingerprint), t)
    {
      assert t in x.currentBySender ==> CurrentLinked(x, m, t);
    }
  }

  lemma {:induction false} InsertLinked(x: Indexes, m: S.Ledger<Ref>, added: Ref, key: Key, fingerprint: S.Fingerprint)
    requires Linked(x, m) && added !in x.heap && key !in x.records && key.sender !in x.currentBySender
    ensures Linked(Insert(x, added, key, fingerprint), InsertModel(m, added, key, fingerprint))
  {
    hide AllRecords, AllSenders, AllRecipients, AllCurrent, Insert, InsertModel;
    InsertKeys(x, m, added, key, fingerprint);
    InsertRecipients(x, m, added, key, fingerprint);
    InsertRecords(x, m, added, key, fingerprint);
    InsertSenders(x, m, added, key, fingerprint);
  }

  lemma {:induction false} InsertKeys(x: Indexes, m: S.Ledger<Ref>, added: Ref, key: Key, fingerprint: S.Fingerprint)
    requires m.records.Keys == x.records.Keys && m.current.Keys == x.currentBySender.Keys
    ensures var x', m' := Insert(x, added, key, fingerprint), InsertModel(m, added, key, fingerprint);
      m'.records.Keys == x'.records.Keys && m'.current.Keys == x'.currentBySender.Keys
  {
  }
}
