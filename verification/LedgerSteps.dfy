/**
 The elementary changes of the four indexes, put together, are the operations of the specification.

 The server removes records one at a time, where it sees that the last reason to keep them has gone; the
 specification sweeps the whole ledger.  On a valid ledger the two agree.
 */
module LedgerSteps {
  import opened Wrappers
  import opened Messages
  import S = LedgerSpec
  import LedgerInvariant
  import opened LedgerIndexes

  // -------- removing one record --------

  function RemoveModel(m: S.Ledger<Ref>, k: Key): S.Ledger<Ref> {
    EraseModel(DetachModel(m, k), k)
  }

  lemma {:induction false} WithoutAbsent(w: seq<Key>, gone: set<Key>)
    requires forall k :: k in w ==> k !in gone
    ensures S.Without(w, gone) == w
  {
    if w != [] { WithoutAbsent(w[1..], gone); }
  }

  lemma {:induction false} WithoutTwice(w: seq<Key>, a: set<Key>, b: set<Key>)
    ensures S.Without(S.Without(w, a), b) == S.Without(w, a + b)
  {
    if w != [] {
      WithoutTwice(w[1..], a, b);
      if w[0] !in a {
        var rest := S.Without(w[1..], a);
        assert S.Without(w, a) == [w[0]] + rest;
        assert ([w[0]] + rest)[1..] == rest;
      }
    }
  }

  /** Only the owner's window can name a record. */
  lemma {:induction false} NamedByOwner(m: S.Ledger<Ref>, s: Session, k: Key)
    requires S.Linked(m) && k in S.Window(m, s)
    ensures k in m.records && !m.records[k].Pending() && S.OwnedBy(m.records[k], s)
  {
    assert S.WindowOK(m, s);
  }

  /** A windows map is its windows, as long as an empty window is no entry. */
  lemma {:induction false} SameWindows(l: S.Ledger<Ref>, r: S.Ledger<Ref>)
    requires forall s :: S.Window(l, s) == S.Window(r, s)
    requires forall s :: s in l.windows ==> S.Window(l, s) != []
    requires forall s :: s in r.windows ==> S.Window(r, s) != []
    ensures l.windows == r.windows
  {
    forall s ensures s in l.windows <==> s in r.windows { assert S.Window(l, s) == S.Window(r, s); }
    forall s | s in l.windows ensures l.windows[s] == r.windows[s] { assert S.Window(l, s) == S.Window(r, s); }
  }

  lemma {:induction false} DropWindow(m: S.Ledger<Ref>, gone: set<Key>, s: Session)
    ensures S.Window(S.Drop(m, gone), s) == S.Without(S.Window(m, s), gone)
    ensures s in S.Drop(m, gone).windows ==> S.Window(S.Drop(m, gone), s) != []
  {
  }

  lemma {:induction false} LinkedWindow(m: S.Ledger<Ref>, s: Session)
    requires S.Linked(m)
    ensures s in m.windows ==> S.Window(m, s) != []
  {
    assert s in m.windows ==> S.WindowOK(m, s);
  }

  lemma {:induction false} RemoveWindow(m: S.Ledger<Ref>, k: Key, s: Session)
    requires S.Linked(m) && k in m.records
    ensures S.Window(RemoveModel(m, k), s) == S.Without(S.Window(m, s), {k})
    ensures s in RemoveModel(m, k).windows ==> S.Window(RemoveModel(m, k), s) != []
  {
    LinkedWindow(m, s);
    if !S.OwnedBy(m.records[k], s) {
      if k in S.Window(m, s) { NamedByOwner(m, s, k); }
      WithoutAbsent(S.Window(m, s), {k});
    }
  }

  lemma {:induction false} RemoveCurrent(m: S.Ledger<Ref>, k: Key)
    requires S.Linked(m) && k in m.records
    ensures RemoveModel(m, k).current == S.Drop(m, {k}).current
  {
    assert forall s :: s in m.current && m.current[s] == k ==> s == k.sender;
  }

  lemma {:induction false} RemoveIsDrop(m: S.Ledger<Ref>, k: Key)
    requires S.Linked(m) && k in m.records
    ensures RemoveModel(m, k) == S.Drop(m, {k})
  {
    var l, r := RemoveModel(m, k), S.Drop(m, {k});
    assert l.records == r.records;
    RemoveCurrent(m, k);
    forall s ensures S.Window(l, s) == S.Window(r, s)
      && (s in l.windows ==> S.Window(l, s) != []) && (s in r.windows ==> S.Window(r, s) != []) {
      RemoveWindow(m, k, s);
      DropWindow(m, {k}, s);
    }
    SameWindows(l, r);
  }

  lemma {:induction false} DropTwice(m: S.Ledger<Ref>, a: set<Key>, b: set<Key>)
    ensures S.Drop(S.Drop(m, a), b) == S.Drop(m, a + b)
  {
    var l, r := S.Drop(S.Drop(m, a), b), S.Drop(m, a + b);
    DropTwiceWindows(m, a, b);
    assert l.records == r.records;
    assert l.current == r.current;
  }

  lemma {:induction false} DropTwiceWindows(m: S.Ledger<Ref>, a: set<Key>, b: set<Key>)
    ensures S.Drop(S.Drop(m, a), b).windows == S.Drop(m, a + b).windows
  {
    var l, r := S.Drop(S.Drop(m, a), b), S.Drop(m, a + b);
    forall s ensures S.Window(l, s) == S.Window(r, s)
      && (s in l.windows ==> S.Window(l, s) != []) && (s in r.windows ==> S.Window(r, s) != []) {
      WithoutTwice(S.Window(m, s), a, b);
      DropWindow(m, a, s);
      DropWindow(S.Drop(m, a), b, s);
      DropWindow(m, a + b, s);
    }
    SameWindows(l, r);
  }

  lemma {:induction false} DropNothing(m: S.Ledger<Ref>)
    requires S.Linked(m)
    ensures S.Drop(m, {}) == m
  {
    var l := S.Drop(m, {});
    forall s ensures S.Window(l, s) == S.Window(m, s)
      && (s in l.windows ==> S.Window(l, s) != []) && (s in m.windows ==> S.Window(m, s) != []) {
      WithoutAbsent(S.Window(m, s), {});
      DropWindow(m, {}, s);
      LinkedWindow(m, s);
    }
    SameWindows(l, m);
    assert l.records == m.records;
    assert l.current == m.current;
  }

  /** Removing a record nothing refers to only takes it out of `records`. */
  lemma {:induction false} RemoveLoose(m: S.Ledger<Ref>, k: Key)
    requires k in m.records && !m.records[k].recipientOwned && !S.IsCurrent(m, k)
    ensures RemoveModel(m, k) == m.(records := m.records - {k})
  {
  }

  /** Removing one record that has lost its last reason is a sweep, if every other record keeps one. */
  lemma {:induction false} RemoveIsCollect(l: S.Ledger<Ref>, k: Key)
    requires k in l.records && !l.records[k].Pending() && !l.records[k].recipientOwned
    requires forall x :: x in l.records && x != k ==> S.Retained(l, x)
    ensures (if S.IsCurrent(l, k) then l else RemoveModel(l, k)) == S.Collect(l)
  {
    if S.IsCurrent(l, k) {
      assert S.Retained(l, k);
      assert S.Collect(l).records == l.records;
    } else {
      RemoveLoose(l, k);
      assert S.Collect(l).records == l.records - {k};
    }
  }

  lemma {:induction false} NothingToCollect(l: S.Ledger<Ref>)
    requires forall x :: x in l.records ==> S.Retained(l, x)
    ensures S.Collect(l) == l
  {
    assert S.Collect(l).records == l.records;
  }

  // -------- retiring the sender's current send --------

  function SweepLoose(m: S.Ledger<Ref>, k: Key): S.Ledger<Ref> {
    if k in m.records && !m.records[k].Pending() && !m.records[k].recipientOwned then RemoveModel(m, k) else m
  }

  function RetireStep(m: S.Ledger<Ref>, s: Session): S.Ledger<Ref> {
    if s in m.current then SweepLoose(RetireModel(m, s), m.current[s]) else m
  }

  lemma {:induction false} RetireIsAdvance(m: S.Ledger<Ref>, s: Session)
    requires S.Valid(m)
    ensures RetireStep(m, s) == S.AdvanceSender(m, s)
  {
    var m1 := RetireModel(m, s);
    assert s !in m.current ==> m1.current == m.current;
    forall x | x in m.records && (s in m.current ==> x != m.current[s]) ensures S.Retained(m1, x) {
      assert S.Retained(m, x);
    }
    if s in m.current && !m.records[m.current[s]].Pending() && !m.records[m.current[s]].recipientOwned {
      RemoveIsCollect(m1, m.current[s]);
    } else {
      NothingToCollect(m1);
    }
  }

  // -------- settling --------

  /** The record as `complete` settles it, before its owner is looked at. */
  function SettledModel(m: S.Ledger<Ref>, k: Key, response: Response): S.Ledger<Ref>
    requires k in m.records
  {
    m.(records := m.records[k := m.records[k].(response := Some(response), attached := None)])
  }

  function LoosenStep(m: S.Ledger<Ref>, k: Key): S.Ledger<Ref>
    requires k in m.records
  {
    var m1 := DetachModel(m, k);
    if S.IsCurrent(m1, k) then m1 else RemoveModel(m1, k)
  }

  lemma {:induction false} DetachWindow(m: S.Ledger<Ref>, k: Key, t: Session)
    requires k in m.records
    ensures S.Window(DetachModel(m, k), t) == if S.OwnedBy(m.records[k], t) then S.Without(S.Window(m, t), {k})
      else S.Window(m, t)
    ensures (t in m.windows ==> m.windows[t] != []) ==> t in DetachModel(m, k).windows ==>
      S.Window(DetachModel(m, k), t) != []
  {
  }

  /** A record that is in no window leaves none when it is detached. */
  lemma {:induction false} DetachUnlisted(m: S.Ledger<Ref>, k: Key)
    requires k in m.records && (m.records[k].recipientOwned ==> m.records[k].recipient.Some?)
    requires forall s :: k !in S.Window(m, s) && (s in m.windows ==> m.windows[s] != [])
    ensures DetachModel(m, k) == m.(records := m.records[k := m.records[k].(recipientOwned := false)])
  {
    var m1 := DetachModel(m, k);
    forall t ensures S.Window(m1, t) == S.Window(m, t) && (t in m1.windows ==> S.Window(m1, t) != []) {
      DetachWindow(m, k, t);
      WithoutAbsent(S.Window(m, t), {k});
    }
    SameWindows(m1, m);
  }

  lemma {:induction false} PendingUnlisted(m: S.Ledger<Ref>, k: Key)
    requires S.Linked(m) && k in m.records && m.records[k].Pending()
    ensures forall s :: k !in S.Window(m, s) && (s in m.windows ==> m.windows[s] != [])
  {
    forall s ensures k !in S.Window(m, s) && (s in m.windows ==> m.windows[s] != []) {
      if k in S.Window(m, s) { NamedByOwner(m, s, k); }
      LinkedWindow(m, s);
    }
  }

  /** Changing a ledger at one record, and nothing else, leaves the other records their reasons. */
  lemma {:induction false} OthersRetained(m: S.Ledger<Ref>, l: S.Ledger<Ref>, k: Key)
    requires S.Valid(m) && l.current == m.current && l.records.Keys == m.records.Keys
    requires forall x :: x in m.records && x != k ==> l.records[x] == m.records[x]
    ensures forall x :: x in l.records && x != k ==> S.Retained(l, x)
  {
    forall x | x in l.records && x != k ensures S.Retained(l, x) { assert S.Retained(m, x); }
  }

  lemma {:induction false} LoosenIsComplete(m: S.Ledger<Ref>, k: Key, id: Ref, response: Response)
    requires S.Valid(m) && S.Live(m, k, id) && m.records[k].Pending()
    requires !(m.records[k].recipientOwned && S.Retainable(response.code))
    ensures LoosenStep(SettledModel(m, k, response), k) == S.Complete(m, k, id, response, true).0
  {
    var m1 := SettledModel(m, k, response);
    PendingUnlisted(m, k);
    assert forall s :: S.Window(m1, s) == S.Window(m, s);
    DetachUnlisted(m1, k);
    var settled :=
      m.(records := m.records[k := m.records[k].(response := Some(response), attached := None,
      recipientOwned := false)]);
    assert DetachModel(m1, k) == settled;
    OthersRetained(m, settled, k);
    RemoveIsCollect(settled, k);
  }

  /** Removal does not look at what the record holds, but for its owner. */
  lemma {:induction false} RemoveIgnores(m: S.Ledger<Ref>, m1: S.Ledger<Ref>, k: Key)
    requires k in m.records && k in m1.records && m1.records - {k} == m.records - {k}
    requires m1.current == m.current && m1.windows == m.windows
    requires m1.records[k].recipientOwned == m.records[k].recipientOwned
      && m1.records[k].recipient == m.records[k].recipient
    ensures RemoveModel(m1, k) == RemoveModel(m, k)
  {
    assert DetachModel(m1, k).records - {k} == m1.records - {k};
    assert DetachModel(m, k).records - {k} == m.records - {k};
  }

  lemma {:induction false} AbandonIsComplete(m: S.Ledger<Ref>, k: Key, id: Ref, response: Response, m1: S.Ledger<Ref>)
    requires S.Valid(m) && S.Live(m, k, id) && m.records[k].Pending()
    requires m1 == m.(records := m.records[k := m.records[k].(attached := None)])
    ensures RemoveModel(m1, k) == S.Complete(m, k, id, response, false).0
  {
    RemoveIsDrop(m, k);
    RemoveIgnores(m, m1, k);
  }

  /** Settling into the recipient's window: push, and loosen the oldest entry of a window grown too long. */
  function PushStep(m: S.Ledger<Ref>, k: Key, s: Session): S.Ledger<Ref> {
    var m1 := PushBackModel(m, k, s);
    var w := S.Window(m1, s);
    if |w| > S.MAX_SETTLED_PER_RECIPIENT && w[0] in m1.records then LoosenStep(m1, w[0]) else m1
  }

  lemma {:induction false} OldestOut(w: seq<Key>, k: Key)
    requires S.Distinct(w) && k !in w && w != []
    ensures S.Without(w + [k], {w[0]}) == (w + [k])[1..]
  {
    var v := w + [k];
    LedgerInvariant.PushedDistinct(w, k);
    assert v[0] == w[0];
    WithoutAbsent(v[1..], {w[0]});
  }

  lemma {:induction false} PushIsEnter(m: S.Ledger<Ref>, k: Key, id: Ref, response: Response)
    requires S.Valid(m) && S.Live(m, k, id) && m.records[k].Pending()
    requires m.records[k].recipientOwned && S.Retainable(response.code)
    ensures m.records[k].recipient.Some?
    ensures PushStep(SettledModel(m, k, response), k, m.records[k].recipient.value) ==
      S.Complete(m, k, id, response, true).0
  {
    var s := m.records[k].recipient.value;
    var settled := SettledModel(m, k, response);
    assert settled ==
      m.(records := m.records[k := m.records[k].(response := Some(response), attached := None,
      recipientOwned := true)]);
    var w := S.Window(m, s);
    PendingUnlisted(m, k);
    assert s in m.windows ==> S.WindowOK(m, s);
    OthersRetained(m, settled, k);
    if |w| < S.MAX_SETTLED_PER_RECIPIENT {
      NothingToCollect(PushBackModel(settled, k, s));
    } else {
      OldestBesides(m, k, s);
      FullWindow(settled, k, s, w);
    }
  }

  /** The oldest entry of a window is another record: settled, and owned. */
  lemma {:induction false} OldestBesides(m: S.Ledger<Ref>, k: Key, s: Session)
    requires S.Linked(m) && k in m.records && m.records[k].Pending() && S.Window(m, s) != []
    ensures var o := S.Window(m, s)[0];
      o in m.records && o != k && !m.records[o].Pending() && S.OwnedBy(m.records[o], s)
  {
    NamedByOwner(m, s, S.Window(m, s)[0]);
  }

  lemma {:induction false} FullWindow(settled: S.Ledger<Ref>, k: Key, s: Session, w: seq<Key>)
    requires k in settled.records && S.Retained(settled, k)
    requires forall x :: x in settled.records && x != k ==> S.Retained(settled, x)
    requires settled.records[k].recipientOwned && settled.records[k].recipient == Some(s)
    requires w == S.Window(settled, s) && |w| == S.MAX_SETTLED_PER_RECIPIENT && k !in w && S.Distinct(w)
    requires w[0] in settled.records && !settled.records[w[0]].Pending() && S.OwnedBy(settled.records[w[0]], s)
    ensures PushStep(settled, k, s) == S.Collect(S.Enter(settled, k))
  {
    var m1 := PushBackModel(settled, k, s);
    var oldest := w[0];
    OldestOut(w, k);
    assert S.Window(m1, s) == w + [k] && (w + [k])[0] == oldest;
    var entered := S.Enter(settled, k);
    PushedOut(settled, k, s, w);
    assert DetachModel(m1, oldest) == entered;
    forall x | x in entered.records && x != oldest ensures S.Retained(entered, x) { assert S.Retained(settled, x); }
    RemoveIsCollect(entered, oldest);
  }

  lemma {:induction false} PushedOut(settled: S.Ledger<Ref>, k: Key, s: Session, w: seq<Key>)
    requires k in settled.records && settled.records[k].recipient == Some(s)
    requires w == S.Window(settled, s) && |w| == S.MAX_SETTLED_PER_RECIPIENT && k !in w && S.Distinct(w)
    requires w[0] in settled.records && S.OwnedBy(settled.records[w[0]], s)
    ensures DetachModel(PushBackModel(settled, k, s), w[0]) == S.Enter(settled, k)
  {
    var m1 := PushBackModel(settled, k, s);
    OldestOut(w, k);
    assert S.Window(m1, s) == w + [k] && (w + [k])[0] == w[0];
    assert |(w + [k])[1..]| > 0;
    assert DetachModel(m1, w[0]).windows == S.Enter(settled, k).windows;
  }

  // -------- a recipient leaves --------

  function GoneModel(m: S.Ledger<Ref>, k: Key): S.Ledger<Ref>
    requires k in m.records
  {
    m.(records := m.records[k := m.records[k].(recipientGone := true)])
  }

  /** One turn of the sweep over a lost recipient's records. */
  function LoseStep(m: S.Ledger<Ref>, k: Key): S.Ledger<Ref>
    requires k in m.records
  {
    var m1 := DetachModel(GoneModel(m, k), k);
    if !m.records[k].Pending() && !S.IsCurrent(m1, k) then RemoveModel(m1, k) else m1
  }

  /** The sweep with the records `done` behind it. */
  function LostSome(m: S.Ledger<Ref>, s: Session, done: set<Key>): S.Ledger<Ref> {
    S.Ledger(
      map k | k in m.records && (k in done ==> m.records[k].Pending() || S.IsCurrent(m, k)) ::
        if k in done then S.Disown(m.records[k], s) else m.records[k],
      m.current,
      S.SetWindow(m.windows, s, S.Without(S.Window(m, s), done)))
  }

  lemma {:induction false} LostNone(m: S.Ledger<Ref>, s: Session)
    requires S.Valid(m)
    ensures LostSome(m, s, {}) == m
  {
    WithoutAbsent(S.Window(m, s), {});
    assert s in m.windows ==> S.WindowOK(m, s);
    assert LostSome(m, s, {}).windows == m.windows;
    assert LostSome(m, s, {}).records == m.records;
  }

  lemma {:induction false} LostWindows(m: S.Ledger<Ref>, s: Session, done: set<Key>, k: Key, before: S.Ledger<Ref>)
    requires S.Linked(m) && before.windows == LostSome(m, s, done).windows
    requires k in before.records && S.OwnedBy(before.records[k], s)
    ensures DetachModel(before, k).windows == LostSome(m, s, done + {k}).windows
  {
    var l, r := DetachModel(before, k), LostSome(m, s, done + {k});
    forall t ensures S.Window(l, t) == S.Window(r, t)
      && (t in l.windows ==> S.Window(l, t) != []) && (t in r.windows ==> S.Window(r, t) != []) {
      LostWindow(m, s, done, t);
      LostWindow(m, s, done + {k}, t);
      assert S.Window(before, t) == S.Window(LostSome(m, s, done), t);
      DetachWindow(before, k, t);
      WithoutTwice(S.Window(m, s), done, {k});
    }
    SameWindows(l, r);
  }

  lemma {:induction false} LostWindow(m: S.Ledger<Ref>, s: Session, done: set<Key>, t: Session)
    requires S.Linked(m)
    ensures S.Window(LostSome(m, s, done), t) == if t == s then S.Without(S.Window(m, s), done) else S.Window(m, t)
    ensures t in LostSome(m, s, done).windows ==> LostSome(m, s, done).windows[t] != []
  {
    LinkedWindow(m, t);
  }

  lemma {:induction false} LostRecords(m: S.Ledger<Ref>, s: Session, done: set<Key>, k: Key)
    requires k in m.records && S.OwnedBy(m.records[k], s) && k !in done
    ensures var before := LostSome(m, s, done);
      && k in before.records && before.records[k] == m.records[k]
      && LostSome(m, s, done + {k}).records ==
         (if m.records[k].Pending() || S.IsCurrent(m, k) then before.records[k := S.Disown(m.records[k], s)]
           else before.records - {k})
  {
  }

  lemma {:induction false} LoseEffect(m: S.Ledger<Ref>, s: Session, k: Key)
    requires k in m.records && S.OwnedBy(m.records[k], s)
    ensures LoseStep(m, k).windows == DetachModel(GoneModel(m, k), k).windows && LoseStep(m, k).current == m.current
    ensures LoseStep(m, k).records ==
      if m.records[k].Pending() || S.IsCurrent(m, k) then m.records[k := S.Disown(m.records[k], s)] else m.records - {k}
  {
    var m1 := DetachModel(GoneModel(m, k), k);
    assert m1.records == m.records[k := S.Disown(m.records[k], s)];
    if !m.records[k].Pending() && !S.IsCurrent(m, k) {
      RemoveLoose(m1, k);
      assert m1.records - {k} == m.records - {k};
    }
  }

  lemma {:induction false} LostOneMore(m: S.Ledger<Ref>, s: Session, done: set<Key>, k: Key)
    requires S.Valid(m) && k in m.records && S.OwnedBy(m.records[k], s) && k !in done
    ensures k in LostSome(m, s, done).records && LostSome(m, s, done).records[k] == m.records[k]
    ensures LoseStep(LostSome(m, s, done), k) == LostSome(m, s, done + {k})
  {
    LostRecords(m, s, done, k);
    LostWindows(m, s, done, k, GoneModel(LostSome(m, s, done), k));
    LoseEffect(LostSome(m, s, done), s, k);
  }

  lemma {:induction false} LostAll(m: S.Ledger<Ref>, s: Session, done: set<Key>)
    requires S.Valid(m) && done == set k | k in m.records && S.OwnedBy(m.records[k], s)
    ensures LostSome(m, s, done) == S.ForgetRecipient(m, s)
  {
    var l, r := LostSome(m, s, done), S.ForgetRecipient(m, s);
    var disowned := S.Ledger(map k | k in m.records :: S.Disown(m.records[k], s), m.current, m.windows - {s});
    forall k | k in m.records
      ensures S.Retained(disowned, k) <==> (k in done ==> m.records[k].Pending() || S.IsCurrent(m, k))
    {
      assert S.Retained(m, k);
    }
    assert l.records == r.records;
    assert s in m.windows ==> S.WindowOK(m, s);
    WithoutEverything(S.Window(m, s), done);
    assert l.windows == r.windows;
  }

  lemma {:induction false} WithoutEverything(w: seq<Key>, gone: set<Key>)
    requires forall k :: k in w ==> k in gone
    ensures S.Without(w, gone) == []
  {
    if w != [] { WithoutEverything(w[1..], gone); }
  }
}
