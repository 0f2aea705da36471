/** What a record never does over a run, the order of the windows, and how large the ledger can grow. */
module LedgerHistory {
  import opened Wrappers
  import opened Messages
  import opened LedgerSpec
  import opened LedgerInvariant
  import opened LedgerIdeal

  // -------- one record over time --------

  /** `r'` may be a later state of `r`: nothing decided is undecided, and ownership once lost stays lost. */
  ghost predicate Follows<R>(r: Record<R>, r': Record<R>) {
    && r'.id == r.id && r'.fingerprint == r.fingerprint
    && (r.response.Some? ==> r'.response == r.response)
    && (r.repeatUsed ==> r'.repeatUsed)
    && (r.recipient.Some? ==> r'.recipient == r.recipient)
    && (r.recipient.Some? && !r.recipientOwned ==> !r'.recipientOwned)
    && (r.recipientGone ==> r'.recipientGone)
  }

  /** Record identities are allocated: no two sends begin with the same one. */
  ghost predicate FreshIDs<R>(events: seq<Event<R>>) {
    forall i, j :: 0 <= i < j < |events| && events[i].Begun? && events[j].Begun? ==> events[i].id != events[j].id
  }

  lemma {:induction false} CompletedFollows<R>(l: Ledger<R>, key: Key, id: R, response: Response, respond: bool, k: Key)
    requires Valid(l) && k in Complete(l, key, id, response, respond).0.records
    ensures k in l.records && Follows(l.records[k], Complete(l, key, id, response, respond).0.records[k])
  {
    if Live(l, key, id) && l.records[key].Pending() && respond {
      var r := l.records[key];
      if r.recipientOwned && Retainable(response.code) {
        var settled :=
          l.(records := l.records[key := r.(response := Some(response), attached := None, recipientOwned := true)]);
        EnterEffect(l, settled, key);
      }
    }
  }

  /** A record that is still there has followed. */
  ghost predicate FollowsAt<R>(l: Ledger<R>, l': Ledger<R>, k: Key) {
    k in l'.records ==> k in l.records && Follows(l.records[k], l'.records[k])
  }

  /** Events of the reader: a repeated send is noted, a record is bound, or the current send is retired. */
  lemma {:induction false} ReaderFollows<R>(l: Ledger<R>, e: Event<R>, k: Key)
    requires Valid(l) && (e.Observed? || e.Bound? || e.Released? || e.Advanced?)
    ensures FollowsAt(l, Apply(l, e), k)
  {
    hide Valid;
  }

  lemma {:induction false} LossFollows<R>(l: Ledger<R>, e: Event<R>, k: Key)
    requires e.SenderLost? || e.RecipientLost? || e.ShutDown?
    ensures FollowsAt(l, Apply(l, e), k)
  {
    hide Without;
  }

  lemma {:induction false} BegunFollows<R>(l: Ledger<R>, e: Event<R>, k: Key)
    requires e.Begun?
    ensures FollowsAt(l, Apply(l, e), k)
      || (k !in l.records && e.k == k && k in Apply(l, e).records && Apply(l, e).records[k].id == e.id)
  {
  }

  /** One event either removes a record, begins one under its key, or lets it follow. */
  lemma {:induction false} StepFollows<R>(l: Ledger<R>, e: Event<R>, k: Key)
    requires Valid(l) && k in Apply(l, e).records
    ensures k in l.records ==> Follows(l.records[k], Apply(l, e).records[k])
    ensures k !in l.records ==> e.Begun? && e.k == k && Apply(l, e).records[k].id == e.id
  {
    if e.Completed? {
      CompletedFollows(l, e.k, e.id, e.response, e.respond, k);
      hide Complete, Valid;
    } else if e.Begun? {
      BegunFollows(l, e, k);
      hide Apply, Valid;
    } else if e.SenderLost? || e.RecipientLost? || e.ShutDown? {
      LossFollows(l, e, k);
      hide Apply, Valid;
    } else {
      ReaderFollows(l, e, k);
      hide Apply, Valid;
    }
  }

  lemma {:induction false} LiveWasBegun<R>(events: seq<Event<R>>, k: Key)
    requires k in Run(events).records
    ensures exists j ::
      0 <= j < |events| && events[j].Begun? && events[j].k == k && events[j].id == Run(events).records[k].id
  {
    if events != [] {
      var n := |events| - 1;
      var earlier := events[..n];
      RunValid(earlier);
      StepFollows(Run(earlier), events[n], k);
      if k in Run(earlier).records {
        LiveWasBegun(earlier, k);
        var j :| 0 <= j < |earlier| && earlier[j].Begun? && earlier[j].k == k
          && earlier[j].id == Run(earlier).records[k].id;
        assert events[j] == earlier[j];
      } else {
        assert events[n].Begun?;
      }
    }
  }

  /**
   A record seen after `m` events and still the one under its key after all of them has only moved forward:
   in particular a settled response never changes and a lost recipient never comes back.
   */
  lemma {:induction false} RecordFollows<R>(events: seq<Event<R>>, m: nat, k: Key)
    requires FreshIDs(events) && m <= |events|
    requires k in Run(events[..m]).records && k in Run(events).records
    requires Run(events[..m]).records[k].id == Run(events).records[k].id
    ensures Follows(Run(events[..m]).records[k], Run(events).records[k])
  {
    if m == |events| {
      assert events[..m] == events;
    } else {
      var n := |events| - 1;
      var earlier := events[..n];
      RunValid(earlier);
      StepFollows(Run(earlier), events[n], k);
      assert events[..m] == earlier[..m];
      if k !in Run(earlier).records {
        LiveWasBegun(events[..m], k);
        assert false;
      } else {
        RecordFollows(earlier, m, k);
      }
    }
  }

  /** A worker finishing with a handle from an earlier generation changes nothing. */
  lemma StaleCompletion<R>(l: Ledger<R>, k: Key, id: R, response: Response, respond: bool)
    requires k in l.records && (l.records[k].id != id || l.records[k].response.Some?)
    ensures Complete(l, k, id, response, respond) == (l, None)
  {
  }

  // -------- settlement order --------

  /** `w` lists the keys oldest settlement first: `later` strictly decreases along it. */
  ghost predicate Ordered<R>(i: Ideal<R>, w: seq<Key>) {
    && (forall k :: k in w ==> k in i.latest)
    && (forall a, b :: 0 <= a < b < |w| ==> i.latest[w[a]].later > i.latest[w[b]].later)
  }

  lemma {:induction false} OrderedCons<R>(i: Ideal<R>, x: Key, r: seq<Key>)
    requires Ordered(i, r) && x in i.latest
    requires forall k :: k in r ==> i.latest[x].later > i.latest[k].later
    ensures Ordered(i, [x] + r)
  {
    var w := [x] + r;
    forall a, b | 0 <= a < b < |w| ensures i.latest[w[a]].later > i.latest[w[b]].later {
      assert w[b] == r[b - 1];
      if a > 0 { assert w[a] == r[a - 1]; }
    }
  }

  lemma {:induction false} OrderedTail<R>(i: Ideal<R>, w: seq<Key>)
    requires Ordered(i, w) && w != []
    ensures Ordered(i, w[1..])
    ensures forall k :: k in w[1..] ==> i.latest[w[0]].later > i.latest[k].later
  {
    forall k | k in w[1..] ensures i.latest[w[0]].later > i.latest[k].later {
      var b :| 0 <= b < |w| - 1 && w[1..][b] == k;
      assert w[b + 1] == k;
    }
  }

  lemma {:induction false} OrderedWithout<R>(i: Ideal<R>, w: seq<Key>, gone: set<Key>)
    requires Ordered(i, w)
    ensures Ordered(i, Without(w, gone))
  {
    if w != [] {
      OrderedTail(i, w);
      OrderedWithout(i, w[1..], gone);
      if w[0] !in gone {
        OrderedCons(i, w[0], Without(w[1..], gone));
      }
    }
  }

  lemma {:induction false} OrderedEntered<R>(l: Ledger<R>, i: Ideal<R>, k: Key, response: Response, w: seq<Key>)
    requires Agrees(l, i) && Valid(l) && k in l.records && l.records[k].Pending() && l.records[k].recipientOwned
    requires w == Window(l, l.records[k].recipient.value) && Ordered(i, w) && k !in w
    requires k in i.latest && Retainable(response.code)
    ensures Ordered(Settle(i, k, response), w + [k])
    ensures Ordered(Settle(i, k, response), (w + [k])[1..])
  {
    var i' := Settle(i, k, response);
    var s := l.records[k].recipient.value;
    assert AgreesAt(l, i, k);
    assert s in l.windows ==> WindowOK(l, s);
    forall x | x in w ensures x in i.latest && i'.latest[x].later == i.latest[x].later + 1 { assert AgreesAt(l, i, x); }
    assert forall a :: 0 <= a < |w| ==> w[a] in w;
  }

  ghost predicate Enters<R>(l: Ledger<R>, e: Event<R>) {
    e.Completed? && e.respond && e.k in l.records && l.records[e.k].id == e.id && l.records[e.k].Pending()
    && l.records[e.k].recipientOwned && Retainable(e.response.code)
  }

  /** An event that enters no window leaves each one as it was, thins it out, or removes it. */
  lemma {:induction false} OthersThin<R>(l: Ledger<R>, e: Event<R>, s: Session)
    requires Valid(l) && !Enters(l, e) && s in Apply(l, e).windows
    ensures s in l.windows
    ensures exists gone :: Apply(l, e).windows[s] == Without(l.windows[s], gone)
  {
    if e.Completed? && !e.respond && Live(l, e.k, e.id) && l.records[e.k].Pending() {
      assert Apply(l, e).windows[s] == Without(l.windows[s], {e.k});
    } else if e.SenderLost? {
      assert Apply(l, e).windows[s] == Without(l.windows[s], set k | k in l.records && k.sender == e.sender);
    } else {
      WithoutNone(l.windows[s]);
      assert Apply(l, e).windows[s] == l.windows[s];
    }
  }

  lemma {:induction false} WithoutNone(w: seq<Key>)
    ensures Without(w, {}) == w
  {
    if w != [] { WithoutNone(w[1..]); }
  }

  /** Only a result entering a window counts as a later settlement for the others. */
  lemma {:induction false} LaterUnchanged<R>(l: Ledger<R>, i: Ideal<R>, e: Event<R>, x: Key)
    requires Agrees(l, i) && !Enters(l, e) && x in l.records && !l.records[x].Pending()
    ensures x in i.latest && x in Track(l, i, e).latest && Track(l, i, e).latest[x].later == i.latest[x].later
  {
    assert AgreesAt(l, i, x);
    if e.Completed? { assert AgreesAt(l, i, e.k); }
  }

  lemma {:induction false} StepOrdered<R>(l: Ledger<R>, i: Ideal<R>, e: Event<R>, s: Session)
    requires Agrees(l, i) && Valid(l)
    requires forall s :: s in l.windows ==> Ordered(i, l.windows[s])
    requires s in Apply(l, e).windows
    ensures Ordered(Track(l, i, e), Apply(l, e).windows[s])
  {
    if Enters(l, e) {
      CompletedOrdered(l, i, e, s);
    } else {
      OthersThin(l, e, s);
      var gone :| Apply(l, e).windows[s] == Without(l.windows[s], gone);
      var w := l.windows[s];
      assert WindowOK(l, s);
      forall x | x in w
        ensures x in i.latest && x in Track(l, i, e).latest && Track(l, i, e).latest[x].later == i.latest[x].later
      {
        LaterUnchanged(l, i, e, x);
      }
      assert forall a :: 0 <= a < |w| ==> w[a] in w;
      OrderedWithout(Track(l, i, e), w, gone);
    }
  }

  lemma {:induction false} CompletedOrdered<R>(l: Ledger<R>, i: Ideal<R>, e: Event<R>, s: Session)
    requires Agrees(l, i) && Valid(l) && Enters(l, e)
    requires forall s :: s in l.windows ==> Ordered(i, l.windows[s])
    requires s in Apply(l, e).windows
    ensures Ordered(Track(l, i, e), Apply(l, e).windows[s])
  {
    assert AgreesAt(l, i, e.k);
    var r := l.records[e.k];
    var settled :=
      l.(records := l.records[e.k := r.(response := Some(e.response), attached := None, recipientOwned := true)]);
    EnterEffect(l, settled, e.k);
    var t := r.recipient.value;
    var i' := Settle(i, e.k, e.response);
    if s == t {
      OrderedEntered(l, i, e.k, e.response, Window(l, t));
    } else {
      var w := l.windows[s];
      assert WindowOK(l, s);
      forall x | x in w ensures x in i.latest && i'.latest[x].later == i.latest[x].later { assert AgreesAt(l, i, x); }
      assert forall a :: 0 <= a < |w| ==> w[a] in w;
    }
  }

  /** Over every run, each recipient's window lists its records in the order they settled. */
  lemma {:induction false} WindowsOrdered<R>(events: seq<Event<R>>)
    ensures forall s :: s in Run(events).windows ==> Ordered(IdealRun(events), Run(events).windows[s])
  {
    RunAgrees(events);
    if events != [] {
      var earlier := events[..|events| - 1];
      WindowsOrdered(earlier);
      RunAgrees(earlier);
      forall s | s in Run(events).windows ensures Ordered(IdealRun(events), Run(events).windows[s]) {
        StepOrdered(Run(earlier), IdealRun(earlier), events[|events| - 1], s);
      }
    }
  }

  // -------- size --------

  function PendingKeys<R>(l: Ledger<R>): set<Key> {
    set k | k in l.records && l.records[k].Pending()
  }

  function InWindows(windows: map<Session, seq<Key>>): set<Key> {
    set s, k | s in windows && k in windows[s] :: k
  }

  lemma {:induction false} ElementsBounded(w: seq<Key>)
    ensures |set k | k in w| <= |w|
  {
    if w != [] {
      ElementsBounded(w[1..]);
      assert (set k | k in w) == {w[0]} + set k | k in w[1..];
    }
  }

  lemma {:induction false} InWindowsBounded(windows: map<Session, seq<Key>>)
    requires forall s :: s in windows ==> |windows[s]| <= MAX_SETTLED_PER_RECIPIENT
    ensures |InWindows(windows)| <= MAX_SETTLED_PER_RECIPIENT * |windows|
    decreases |windows|
  {
    if windows == map[] {
      assert InWindows(windows) == {};
    } else {
      var s :| s in windows;
      var rest := windows - {s};
      assert |rest| == |windows| - 1 by { assert rest.Keys == windows.Keys - {s}; }
      InWindowsBounded(rest);
      ElementsBounded(windows[s]);
      var here := set k | k in windows[s];
      forall k ensures k in InWindows(windows) <==> k in InWindows(rest) || k in here {
        if k in InWindows(windows) {
          var t :| t in windows && k in windows[t];
          assert t == s || t in rest;
        }
      }
      assert InWindows(windows) == InWindows(rest) + here;
    }
  }

  lemma {:induction false} ValuesBounded(m: map<Session, Key>)
    ensures |m.Values| <= |m|
    decreases |m|
  {
    if m == map[] {
      assert m.Values == {};
    } else {
      var s :| s in m;
      var rest := m - {s};
      assert |rest| == |m| - 1 by { assert rest.Keys == m.Keys - {s}; }
      ValuesBounded(rest);
      forall v | v in m.Values ensures v in rest.Values + {m[s]} {
        var t :| t in m && m[t] == v;
        assert t == s || t in rest;
        if t in rest { assert rest[t] == v; }
      }
      Subset(m.Values, rest.Values + {m[s]});
    }
  }

  lemma {:induction false} Subset(a: set<Key>, b: set<Key>)
    requires a <= b
    ensures |a| <= |b|
  {
    assert b == a + (b - a);
  }

  /**
   Over every run: no more records than unsettled ones, one per current sender, and 1024 per recipient with a window.
   */
  lemma MemoryBound<R>(events: seq<Event<R>>)
    ensures var l := Run(events);
      |l.records| <= |PendingKeys(l)| + |l.current| + MAX_SETTLED_PER_RECIPIENT * |l.windows|
  {
    RunValid(events);
    var l := Run(events);
    var bound := PendingKeys(l) + l.current.Values + InWindows(l.windows);
    forall k | k in l.records ensures k in bound {
      assert Retained(l, k);
      if !l.records[k].Pending() && l.records[k].recipientOwned { assert k in Window(l, l.records[k].recipient.value); }
    }
    Subset(l.records.Keys, bound);
    ValuesBounded(l.current);
    InWindowsBounded(l.windows);
  }

  /** The record settled, and kept for its recipient. */
  function Kept<R>(l: Ledger<R>, k: Key, response: Response): Ledger<R>
    requires k in l.records
  {
    l.(records := l.records[k := l.records[k].(response := Some(response), attached := None, recipientOwned := true)])
  }

  ghost predicate Overflows<R>(l: Ledger<R>, k: Key) {
    k in l.records && l.records[k].recipient.Some?
      && |Window(l, l.records[k].recipient.value)| == MAX_SETTLED_PER_RECIPIENT
  }

  lemma {:induction false} CompleteKeeps<R>(l: Ledger<R>, k: Key, id: R, response: Response)
    requires Valid(l) && Live(l, k, id) && l.records[k].Pending() && l.records[k].recipientOwned
      && Retainable(response.code)
    ensures l.records[k].recipient.Some?
      && Complete(l, k, id, response, true).0 == Collect(Enter(Kept(l, k, response), k))
  {
    hide Enter, Collect;
  }

  /** Which records a result entering its recipient's window leaves. */
  lemma {:induction false} EvictedAt<R>(l: Ledger<R>, k: Key, response: Response, x: Key)
    requires Valid(l) && k in l.records && l.records[k].Pending() && l.records[k].recipientOwned && x in l.records
    ensures x in Collect(Enter(Kept(l, k, response), k)).records <==>
      !Overflows(l, k) || x != Window(l, l.records[k].recipient.value)[0] || IsCurrent(l, x)
  {
    EnterEffect(l, Kept(l, k, response), k);
    assert Retained(l, x);
    hide Enter, Valid;
  }

  /** Overflow evicts exactly the oldest entry, and never an unsettled or sender-current record. */
  lemma {:induction false} EvictsOldest<R>(l: Ledger<R>, k: Key, id: R, response: Response)
    requires Valid(l) && Live(l, k, id) && l.records[k].Pending() && l.records[k].recipientOwned
      && Retainable(response.code)
    ensures var s := l.records[k].recipient.value;
      var before := Window(l, s);
      var l' := Complete(l, k, id, response, true).0;
      && (|before| < MAX_SETTLED_PER_RECIPIENT ==> Window(l', s) == before + [k] && l'.records.Keys == l.records.Keys)
      && (|before| == MAX_SETTLED_PER_RECIPIENT ==>
            && Window(l', s) == before[1..] + [k]
            && l'.records.Keys == if IsCurrent(l, before[0]) then l.records.Keys else l.records.Keys - {before[0]})
      && (forall t :: t != s ==> Window(l', t) == Window(l, t))
  {
    CompleteKeeps(l, k, id, response);
    EnterEffect(l, Kept(l, k, response), k);
    var before := Window(l, l.records[k].recipient.value);
    if |before| == MAX_SETTLED_PER_RECIPIENT { assert (before + [k])[1..] == before[1..] + [k]; }
    forall x | x in l.records
      ensures x in Collect(Enter(Kept(l, k, response), k)).records <==>
        !Overflows(l, k) || x != before[0] || IsCurrent(l, x)
    {
      EvictedAt(l, k, response, x);
    }
    hide Enter, Valid, Complete;
  }

  // -------- a sender forgotten --------

  ghost predicate HoldsNothing<R>(l: Ledger<R>, sender: Session) {
    sender !in l.current && forall k :: k in l.records ==> k.sender != sender
  }

  predicate Begins<R>(e: Event<R>, sender: Session) {
    e.Begun? && e.k.sender == sender
  }

  /**
   Forgetting a sender leaves nothing of it; and the next event does so too, unless it begins a send of that sender,
   which `Begin` does not refuse.  A reader still holding a frame when its sender was forgotten is how that happens.
   */
  lemma {:induction false} ForgottenUntilBegun<R>(l: Ledger<R>, sender: Session, e: Event<R>)
    requires Valid(l)
    ensures HoldsNothing(ForgetSender(l, sender), sender)
    ensures HoldsNothing(Apply(ForgetSender(l, sender), e), sender) <==> !Begins(e, sender)
  {
    hide *;
    ForgetEmpties(l, sender);
    if Begins(e, sender) {
      BeginEnters(ForgetSender(l, sender), sender, e);
    } else {
      NothingComesBack(ForgetSender(l, sender), sender, e);
    }
  }

  lemma {:induction false} ForgetEmpties<R>(l: Ledger<R>, sender: Session)
    requires Valid(l)
    ensures Valid(ForgetSender(l, sender)) && HoldsNothing(ForgetSender(l, sender), sender)
  {
    assert Apply(l, SenderLost(sender)) == ForgetSender(l, sender) && CurrentOK(l);
    hide Valid, Linked, Apply;
    ApplyValid(l, SenderLost(sender));
    ForgetIs(l, sender);
  }

  lemma {:induction false} ForgetIs<R>(l: Ledger<R>, sender: Session)
    requires CurrentOK(l)
    ensures HoldsNothing(ForgetSender(l, sender), sender)
  {
    var gone := set k | k in l.records && k.sender == sender;
    var f := ForgetSender(l, sender);
    assert f.records == l.records - gone;
    assert sender in l.current ==> l.current[sender] in gone;
  }

  lemma {:induction false} BeginEnters<R>(l: Ledger<R>, sender: Session, e: Event<R>)
    requires Begins(e, sender) && HoldsNothing(l, sender)
    ensures !HoldsNothing(Apply(l, e), sender)
  {
    assert e.k in Apply(l, e).records;
  }

  lemma {:induction false} NothingComesBack<R>(l: Ledger<R>, sender: Session, e: Event<R>)
    requires Valid(l) && HoldsNothing(l, sender) && !Begins(e, sender)
    ensures HoldsNothing(Apply(l, e), sender)
  {
    ApplyValid(l, e);
    forall k | k in Apply(l, e).records ensures k.sender != sender { StepFollows(l, e, k); }
    assert CurrentOK(Apply(l, e));
  }

  /** Over any run: once forgotten, a sender has nothing in the ledger until one of its sends begins. */
  lemma {:induction false} StaysForgotten<R>(before: seq<Event<R>>, sender: Session, later: seq<Event<R>>)
    requires forall j :: 0 <= j < |later| ==> !Begins(later[j], sender)
    ensures HoldsNothing(Run(before + [SenderLost(sender)] + later), sender)
  {
    var all := before + [SenderLost(sender)] + later;
    if |later| == 0 {
      assert all == before + [SenderLost(sender)] && all[..|all| - 1] == before;
      RunValid(before);
      ForgottenUntilBegun(Run(before), sender, ShutDown);
    } else {
      var n := |later| - 1;
      StaysForgotten(before, sender, later[..n]);
      assert all[..|all| - 1] == before + [SenderLost(sender)] + later[..n] && all[|all| - 1] == later[n];
      RunValid(all[..|all| - 1]);
      NothingComesBack(Run(all[..|all| - 1]), sender, later[n]);
    }
  }
}
