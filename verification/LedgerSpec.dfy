/**
 The dedupe ledger as a value.

 The server keeps four cross-linked indexes and removes records one at a time, at every place that may drop the
 last reason to keep one.  This module says the same thing once: an operation changes a record and the ledger is
 then swept by one retention rule (`Collect`).  The class `DedupeLedger` is proved against these functions.

 `R` is the identity of a record, so that a stale handle can be told from a newer record under the same key.
 */
module LedgerSpec {
  import opened Wrappers
  import opened Messages

  const MAX_SETTLED_PER_RECIPIENT := 1024

  type Fingerprint = string

  datatype Record<R> = Record(
    id: R,
    fingerprint: Fingerprint,
    recipient: Option<Session>,
    recipientGone: bool,
    response: Option<Response>,
    repeatUsed: bool,
    attached: Option<Operation>,
    recipientOwned: bool)
  {
    predicate Pending() { response.None? }
  }

  /** `windows` holds, per recipient, the keys of its settled records in settlement order; never an empty list. */
  datatype Ledger<R> = Ledger(
    records: map<Key, Record<R>>,
    current: map<Session, Key>,
    windows: map<Session, seq<Key>>)

  /** What the reader is told about one send frame. */
  datatype Observation =
    | New
    | PendingAttached
    | Replayed(response: Response)
    | Conflict(response: Response)
    | Overflow

  function Empty<R>(): Ledger<R> {
    Ledger(map[], map[], map[])
  }

  function ConflictResponse(sender: Session, messageID: string, to: string): Response {
    Response(MessageIDConflict, messageID, "", sender.address, to)
  }

  // -------- retention --------

  predicate IsCurrent<R>(l: Ledger<R>, k: Key) {
    k.sender in l.current && l.current[k.sender] == k
  }

  /** The retention rule: pending, or the sender's current send, or owned by its recipient. */
  predicate Retained<R>(l: Ledger<R>, k: Key)
    requires k in l.records
  {
    l.records[k].Pending() || IsCurrent(l, k) || l.records[k].recipientOwned
  }

  function Collect<R>(l: Ledger<R>): Ledger<R> {
    l.(records := map k | k in l.records && Retained(l, k) :: l.records[k])
  }

  function Window<R>(l: Ledger<R>, s: Session): seq<Key> {
    if s in l.windows then l.windows[s] else []
  }

  /** A windows map with `w` for `s`, an empty list being no entry at all. */
  function SetWindow(windows: map<Session, seq<Key>>, s: Session, w: seq<Key>): map<Session, seq<Key>> {
    if w == [] then windows - {s} else windows[s := w]
  }

  /** `w` without the elements of `gone`, order kept. */
  function Without(w: seq<Key>, gone: set<Key>): (r: seq<Key>)
    ensures forall k :: k in r <==> k in w && k !in gone
    ensures |r| <= |w|
  {
    if w == [] then []
    else if w[0] in gone then Without(w[1..], gone)
    else [w[0]] + Without(w[1..], gone)
  }

  /** Forget the given keys everywhere. */
  function Drop<R>(l: Ledger<R>, gone: set<Key>): Ledger<R> {
    Ledger(
      l.records - gone,
      map s | s in l.current && l.current[s] !in gone :: l.current[s],
      map s | s in l.windows && Without(l.windows[s], gone) != [] :: Without(l.windows[s], gone))
  }

  // -------- operations --------

  function Observe<R>(l: Ledger<R>, sender: Session, op: Operation, fingerprint: Fingerprint): (Ledger<R>, Observation)
  {
    var k := Key(sender, op.send.messageID);
    if k !in l.records then (l, New)
    else
      var r := l.records[k];
      var conflict := Conflict(ConflictResponse(sender, op.send.messageID, op.send.to));
      if r.response.Some? then
        (l, if r.fingerprint == fingerprint then Replayed(r.response.value) else conflict)
      else if r.repeatUsed then (l, Overflow)
      else if r.fingerprint != fingerprint then
        (l.(records := l.records[k := r.(repeatUsed := true)]), conflict)
      else
        (l.(records := l.records[k := r.(repeatUsed := true, attached := Some(op))]), PendingAttached)
  }

  /** The sender's next distinct operation: its current send loses that reason to be kept. */
  function AdvanceSender<R>(l: Ledger<R>, sender: Session): Ledger<R> {
    Collect(l.(current := l.current - {sender}))
  }

  function NewRecord<R>(id: R, fingerprint: Fingerprint): Record<R> {
    Record(id, fingerprint, None, false, None, false, None, false)
  }

  /** None when a record under the key already exists, which the server treats as a fatal error. */
  function Begin<R>(l: Ledger<R>, k: Key, fingerprint: Fingerprint, id: R): Option<Ledger<R>> {
    if k in l.records then None
    else
      var swept := AdvanceSender(l, k.sender);
      Some(swept.(records := swept.records[k := NewRecord(id, fingerprint)], current := swept.current[k.sender := k]))
  }

  /** Does the handle `(k, id)` still denote the live record under its key? */
  predicate Live<R(==)>(l: Ledger<R>, k: Key, id: R) {
    k in l.records && l.records[k].id == id
  }

  function BindRecipient<R(==)>(l: Ledger<R>, k: Key, id: R, recipient: Session): Ledger<R> {
    if Live(l, k, id) && l.records[k].Pending() && l.records[k].recipient.None? then
      l.(records := l.records[k := l.records[k].(recipient := Some(recipient), recipientOwned := true)])
    else l
  }

  predicate Retainable(code: Code) {
    code == Received || code == AckTimeout
  }

  /** Append `k` to its recipient's window; the oldest entry of a full window loses its owner. */
  function Enter<R>(l: Ledger<R>, k: Key): Ledger<R>
    requires k in l.records && l.records[k].recipient.Some?
  {
    var s := l.records[k].recipient.value;
    var w := Window(l, s) + [k];
    if |w| <= MAX_SETTLED_PER_RECIPIENT then l.(windows := l.windows[s := w])
    else if w[0] in l.records then
      l.(windows := SetWindow(l.windows, s, w[1..]),
        records := l.records[w[0] := l.records[w[0]].(recipientOwned := false)])
    else l
  }

  /** The worker settles its record once; the attached repeat, if any, is handed back to it. */
  function Complete<R(==)>(l: Ledger<R>, k: Key, id: R, response: Response, respond: bool): (Ledger<R>,
    Option<Operation>)
  {
    if !Live(l, k, id) || !l.records[k].Pending() then (l, None)
    else
      var r := l.records[k];
      if !respond then (Drop(l, {k}), r.attached)
      else
        var keep := r.recipientOwned && !r.recipientGone && r.recipient.Some? && Retainable(response.code);
        var settled :=
          l.(records := l.records[k := r.(response := Some(response), attached := None, recipientOwned := keep)]);
        (Collect(if keep then Enter(settled, k) else settled), r.attached)
  }

  function ReleaseCurrent<R(==)>(l: Ledger<R>, k: Key, id: R): Ledger<R> {
    if Live(l, k, id) && IsCurrent(l, k) then AdvanceSender(l, k.sender) else l
  }

  function ForgetSender<R>(l: Ledger<R>, sender: Session): Ledger<R> {
    Drop(l, set k | k in l.records && k.sender == sender)
  }

  predicate OwnedBy<R>(r: Record<R>, s: Session) {
    r.recipientOwned && r.recipient == Some(s)
  }

  function Disown<R>(r: Record<R>, s: Session): Record<R> {
    if OwnedBy(r, s) then r.(recipientGone := true, recipientOwned := false) else r
  }

  function ForgetRecipient<R>(l: Ledger<R>, recipient: Session): Ledger<R> {
    Collect(Ledger(map k | k in l.records :: Disown(l.records[k], recipient), l.current, l.windows - {recipient}))
  }

  // -------- the invariant --------

  predicate Distinct(w: seq<Key>) {
    forall i, j :: 0 <= i < j < |w| ==> w[i] != w[j]
  }

  ghost predicate RecordOK<R>(r: Record<R>) {
    && (r.attached.Some? ==> r.Pending() && r.repeatUsed)
    && (r.recipientOwned ==> r.recipient.Some? && !r.recipientGone)
    && (r.recipientGone ==> r.recipient.Some?)
  }

  ghost predicate CurrentOK<R>(l: Ledger<R>) {
    forall s :: s in l.current ==> l.current[s] in l.records && l.current[s].sender == s
  }

  ghost predicate WindowOK<R>(l: Ledger<R>, s: Session)
    requires s in l.windows
  {
    && l.windows[s] != []
    && Distinct(l.windows[s])
    && (forall k :: k in l.windows[s] ==> k in l.records && !l.records[k].Pending() && OwnedBy(l.records[k], s))
  }

  /** Links between the three parts; holds in the middle of an operation too. */
  ghost predicate Linked<R>(l: Ledger<R>) {
    && CurrentOK(l)
    && (forall s :: s in l.windows ==> WindowOK(l, s))
    && (forall k :: k in l.records ==> RecordOK(l.records[k]))
    && (forall k :: k in l.records && !l.records[k].Pending() && l.records[k].recipientOwned ==>
          k in Window(l, l.records[k].recipient.value))
  }

  /** What every public operation keeps. */
  ghost predicate Valid<R>(l: Ledger<R>) {
    && Linked(l)
    && (forall s :: s in l.windows ==> |l.windows[s]| <= MAX_SETTLED_PER_RECIPIENT)
    && (forall k :: k in l.records ==> Retained(l, k))
  }
}
