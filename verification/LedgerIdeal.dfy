/**
 The bounded ledger against an ideal one that forgets nothing.

 `Ideal` remembers the latest generation of every key ever begun.  After any run the bounded ledger answers a frame
 either "new" or exactly as the ideal ledger does (`Refines`), and it answers as the ideal ledger does whenever the
 generation is unsettled, is its sender's current send, or has fewer than 1024 later settlements in its recipient's
 window (`Remembers`).
 */
module LedgerIdeal {
  import opened Wrappers
  import opened Messages
  import opened LedgerSpec
  import opened LedgerInvariant

  /**
   One begun send.  `over`: abandoned without a response, or its sender left, or the relay shut down.
   `lost`: the recipient it was bound to left afterwards.  `kept`: it settled with a result its recipient's window
   keeps; `later` then counts the results kept for that recipient since.
   */
  datatype Generation<R> = Generation(
    id: R,
    fingerprint: Fingerprint,
    recipient: Option<Session>,
    response: Option<Response>,
    repeatUsed: bool,
    over: bool,
    lost: bool,
    kept: bool,
    later: nat)

  datatype Ideal<R> = Ideal(latest: map<Key, Generation<R>>, current: map<Session, Key>)

  function Answer<R>(i: Ideal<R>, sender: Session, op: Operation, fingerprint: Fingerprint): Observation {
    var k := Key(sender, op.send.messageID);
    if k !in i.latest then New
    else
      var g := i.latest[k];
      if g.response.None? && g.repeatUsed then Overflow
      else if g.fingerprint != fingerprint then Conflict(ConflictResponse(sender, op.send.messageID, op.send.to))
      else if g.response.Some? then Replayed(g.response.value)
      else PendingAttached
  }

  predicate Open<R(==)>(i: Ideal<R>, k: Key, id: R) {
    k in i.latest && i.latest[k].id == id && i.latest[k].response.None? && !i.latest[k].over
  }

  function Settle<R>(i: Ideal<R>, k: Key, response: Response): Ideal<R>
    requires k in i.latest
  {
    var g := i.latest[k];
    var kept := g.recipient.Some? && !g.lost && Retainable(response.code);
    i.(latest := map x | x in i.latest ::
         if x == k then g.(response := Some(response), kept := kept, later := 0)
         else if kept && i.latest[x].recipient == g.recipient then i.latest[x].(later := i.latest[x].later + 1)
         else i.latest[x])
  }

  /** `l` is the bounded ledger before the event: a generation starts only if that ledger accepts a `Begun`. */
  function Track<R(==)>(l: Ledger<R>, i: Ideal<R>, e: Event<R>): Ideal<R> {
    match e
    case Observed(sender, op, fingerprint) =>
      var k := Key(sender, op.send.messageID);
      if k in i.latest && i.latest[k].response.None? then i.(latest := i.latest[k := i.latest[k].(repeatUsed := true)])
        else i
    case Begun(k, fingerprint, id) =>
      if k !in l.records
        then Ideal(i.latest[k := Generation(id, fingerprint, None, None, false, false, false, false, 0)],
                   i.current[k.sender := k])
      else i
    case Bound(k, id, recipient) =>
      if Open(i, k, id) && i.latest[k].recipient.None?
        then i.(latest := i.latest[k := i.latest[k].(recipient := Some(recipient))])
      else i
    case Completed(k, id, response, respond) =>
      if !Open(i, k, id) then i
      else if respond then Settle(i, k, response)
      else Ideal(i.latest[k := i.latest[k].(over := true)], map s | s in i.current && i.current[s] != k :: i.current[s])
    case Released(k, id) =>
      if k in i.latest && i.latest[k].id == id && k.sender in i.current && i.current[k.sender] == k
        then i.(current := i.current - {k.sender})
      else i
    case Advanced(sender) => i.(current := i.current - {sender})
    case SenderLost(sender) =>
      Ideal(map k | k in i.latest :: if k.sender == sender then i.latest[k].(over := true)
        else i.latest[k], i.current - {sender})
    case RecipientLost(recipient) =>
      i.(latest := map k | k in i.latest :: if i.latest[k].recipient == Some(recipient) then i.latest[k].(lost := true)
        else i.latest[k])
    case ShutDown =>
      Ideal(map k | k in i.latest :: i.latest[k].(over := true), map[])
  }

  function IdealRun<R(==)>(events: seq<Event<R>>): Ideal<R> {
    if events == [] then Ideal(map[], map[])
    else
      var earlier := events[..|events| - 1];
      var e := events[|events| - 1];
      Track(Run(earlier), IdealRun(earlier), e)
  }

  // -------- the relation --------

  /** How many elements follow `k` in `w`. */
  function After(w: seq<Key>, k: Key): nat {
    if w == [] then 0 else if w[0] == k then |w| - 1 else After(w[1..], k)
  }

  ghost predicate Same<R>(r: Record<R>, g: Generation<R>) {
    && r.id == g.id && r.fingerprint == g.fingerprint && r.response == g.response && r.repeatUsed == g.repeatUsed
    && r.recipient == g.recipient && !g.over
    && (r.Pending() ==> (r.recipientOwned <==> g.recipient.Some? && !g.lost) && r.recipientGone == g.lost)
    && (!r.Pending() && r.recipientOwned ==> g.kept && !g.lost)
  }

  /** An entry the window still owes its recipient: owned, with no more than `later` entries behind it. */
  ghost predicate Windowed<R>(l: Ledger<R>, k: Key, g: Generation<R>) {
    && k in l.records && l.records[k].recipientOwned && g.recipient.Some?
    && After(Window(l, g.recipient.value), k) <= g.later
  }

  ghost predicate AgreesAt<R>(l: Ledger<R>, i: Ideal<R>, k: Key) {
    && (k in l.records ==> k in i.latest && Same(l.records[k], i.latest[k]))
    && (k in i.latest ==>
          var g := i.latest[k];
          && (g.response.None? && !g.over ==> k in l.records)
          && (g.kept ==> g.response.Some?)
          && (Kept(g) ==> Windowed(l, k, g)))
  }

  ghost predicate Agrees<R>(l: Ledger<R>, i: Ideal<R>) {
    && l.current == i.current
    && (forall k :: AgreesAt(l, i, k))
  }

  /** Settled into a window, both parties still present, fewer than 1024 results kept since. */
  predicate Kept<R>(g: Generation<R>) {
    g.kept && !g.over && !g.lost && g.later < MAX_SETTLED_PER_RECIPIENT
  }

  // -------- windows --------

  lemma {:induction false} AfterPush(w: seq<Key>, x: Key, k: Key)
    requires k in w
    ensures After(w + [x], k) == After(w, k) + 1
  {
    if w[0] != k {
      AfterPush(w[1..], x, k);
      assert (w + [x])[1..] == w[1..] + [x];
    } else {
      assert (w + [x])[0] == k;
    }
  }

  lemma {:induction false} AfterNew(w: seq<Key>, k: Key)
    requires k !in w
    ensures After(w + [k], k) == 0
  {
    if w == [] {
      assert w + [k] == [k];
    } else {
      AfterNew(w[1..], k);
      assert (w + [k])[1..] == w[1..] + [k];
    }
  }

  lemma {:induction false} AfterWithout(w: seq<Key>, gone: set<Key>, k: Key)
    requires k in w && k !in gone
    ensures After(Without(w, gone), k) <= After(w, k)
  {
    if w[0] == k {
      assert Without(w, gone) == [k] + Without(w[1..], gone);
    } else {
      AfterWithout(w[1..], gone, k);
      if w[0] !in gone {
        assert Without(w, gone) == [w[0]] + Without(w[1..], gone);
        assert Without(w, gone)[1..] == Without(w[1..], gone);
      }
    }
  }

  // -------- one step --------

  lemma {:induction false} AgreesObserved<R>(l: Ledger<R>, i: Ideal<R>, e: Event<R>)
    requires Agrees(l, i) && Valid(l) && e.Observed?
    ensures Agrees(Apply(l, e), Track(l, i, e))
  {
    var l', i' := Apply(l, e), Track(l, i, e);
    var key := Key(e.sender, e.op.send.messageID);
    ObserveEffect(l, e.sender, e.op, e.fingerprint);
    assert AgreesAt(l, i, key);
    forall k ensures AgreesAt(l', i', k) {
      assert AgreesAt(l, i, k);
      if k == key && k in i'.latest && Kept(i'.latest[k]) { assert Kept(i.latest[k]); }
    }
  }

  /** A repeat changes only the record under its key, and only while that record is unsettled. */
  lemma {:induction false} ObserveEffect<R>(l: Ledger<R>, sender: Session, op: Operation, fingerprint: Fingerprint)
    ensures var k := Key(sender, op.send.messageID);
      var l' := Observe(l, sender, op, fingerprint).0;
      && l'.records.Keys == l.records.Keys && l'.current == l.current && l'.windows == l.windows
      && (forall x :: x in l.records && x != k ==> l'.records[x] == l.records[x])
      && (k in l.records && !l.records[k].Pending() ==> l' == l)
      && (k in l.records && l.records[k].Pending() ==>
            l'.records[k] == l.records[k].(repeatUsed := true, attached := l'.records[k].attached))
  {
  }

  lemma {:induction false} AgreesAdvanced<R>(l: Ledger<R>, i: Ideal<R>, sender: Session)
    requires Agrees(l, i) && Valid(l)
    ensures Agrees(AdvanceSender(l, sender), i.(current := i.current - {sender}))
  {
    var l', i' := AdvanceSender(l, sender), i.(current := i.current - {sender});
    forall k ensures AgreesAt(l', i', k) { assert AgreesAt(l, i, k); }
  }

  lemma {:induction false} AgreesBegun<R>(l: Ledger<R>, i: Ideal<R>, e: Event<R>)
    requires Agrees(l, i) && Valid(l) && e.Begun?
    ensures Agrees(Apply(l, e), Track(l, i, e))
  {
    if e.k !in l.records {
      var swept, i1 := AdvanceSender(l, e.k.sender), i.(current := i.current - {e.k.sender});
      AgreesAdvanced(l, i, e.k.sender);
      var l', i' := Apply(l, e), Track(l, i, e);
      forall k ensures AgreesAt(l', i', k) { assert AgreesAt(swept, i1, k); }
    }
  }

  lemma {:induction false} AgreesBound<R>(l: Ledger<R>, i: Ideal<R>, e: Event<R>)
    requires Agrees(l, i) && Valid(l) && e.Bound?
    ensures Agrees(Apply(l, e), Track(l, i, e))
  {
    var l', i' := Apply(l, e), Track(l, i, e);
    assert AgreesAt(l, i, e.k);
    forall k ensures AgreesAt(l', i', k) { assert AgreesAt(l, i, k); }
  }

  lemma {:induction false} AgreesDropped<R>(l: Ledger<R>, i: Ideal<R>, gone: set<Key>, i': Ideal<R>)
    requires Agrees(l, i) && Valid(l)
    requires i'.latest.Keys == i.latest.Keys
    requires forall k :: k in i.latest ==> i'.latest[k] == i.latest[k] || i'.latest[k] == i.latest[k].(over := true)
    requires forall k :: k in i.latest && k in gone ==> i'.latest[k].over
    requires forall k :: k in l.records && k in i.latest && k !in gone ==> i'.latest[k] == i.latest[k]
    requires i'.current == map s | s in i.current && i.current[s] !in gone :: i.current[s]
    ensures Agrees(Drop(l, gone), i')
  {
    var l' := Drop(l, gone);
    forall k ensures AgreesAt(l', i', k) {
      assert AgreesAt(l, i, k);
      if k in i'.latest && Kept(i'.latest[k]) {
        var s := i.latest[k].recipient.value;
        assert Windowed(l, k, i.latest[k]);
        assert k in Window(l, s);
        AfterWithout(Window(l, s), gone, k);
        assert k in Without(l.windows[s], gone);
      }
    }
  }

  lemma {:induction false} AgreesSettled<R>(l: Ledger<R>, i: Ideal<R>, e: Event<R>)
    requires Agrees(l, i) && Valid(l) && e.Completed? && e.respond && Open(i, e.k, e.id)
    ensures Agrees(Apply(l, e), Track(l, i, e))
  {
    var k, response := e.k, e.response;
    assert AgreesAt(l, i, k);
    var r := l.records[k];
    var keep := r.recipientOwned && !r.recipientGone && r.recipient.Some? && Retainable(response.code);
    var settled :=
      l.(records := l.records[k := r.(response := Some(response), attached := None, recipientOwned := keep)]);
    var i' := Settle(i, k, response);
    if keep {
      AgreesEntered(l, i, settled, k, response, i');
    } else {
      var l' := Collect(settled);
      forall x ensures AgreesAt(l', i', x) { assert AgreesAt(l, i, x); }
    }
  }

  /** What entering a window does: `k` is appended, and only a full window loses its oldest entry. */
  lemma EnterEffect<R>(l: Ledger<R>, settled: Ledger<R>, k: Key)
    requires Valid(l) && k in l.records && l.records[k].Pending() && l.records[k].recipientOwned
    requires settled.records.Keys == l.records.Keys && settled.current == l.current && settled.windows == l.windows
    requires settled.records[k].recipient == l.records[k].recipient
    ensures var s := l.records[k].recipient.value;
      var before := Window(l, s);
      var after := Enter(settled, k);
      && k !in before && Distinct(before)
      && after.records.Keys == l.records.Keys && after.current == l.current
      && (forall t :: t != s ==> Window(after, t) == Window(l, t))
      && (|before| < MAX_SETTLED_PER_RECIPIENT ==> Window(after, s) == before + [k] && after.records == settled.records)
      && (|before| == MAX_SETTLED_PER_RECIPIENT ==>
            && Window(after, s) == (before + [k])[1..]
            && before[0] in l.records && OwnedBy(l.records[before[0]], s) && before[0] != k
            && after.records == settled.records[before[0] := settled.records[before[0]].(recipientOwned := false)])
      && |before| <= MAX_SETTLED_PER_RECIPIENT
  {
    var s := l.records[k].recipient.value;
    var before := Window(l, s);
    assert s in l.windows ==> WindowOK(l, s);
    if |before| == MAX_SETTLED_PER_RECIPIENT {
      assert (before + [k])[0] == before[0];
      assert before[0] in before;
    }
  }

  lemma {:induction false} AgreesEntered<R>(l: Ledger<R>, i: Ideal<R>, settled: Ledger<R>, k: Key, response: Response,
    i': Ideal<R>)
    requires Agrees(l, i) && Valid(l) && k in l.records && l.records[k].Pending() && l.records[k].recipientOwned
    requires Retainable(response.code)
    requires settled == l.(records := l.records[k := l.records[k].(response := Some(response), attached := None)])
    requires AgreesAt(l, i, k) && i' == Settle(i, k, response)
    ensures Agrees(Collect(Enter(settled, k)), i')
  {
    EnterEffect(l, settled, k);
    var after := Enter(settled, k);
    forall x ensures AgreesAt(Collect(after), i', x) {
      assert AgreesAt(l, i, x);
      if x == k {
        var before := Window(l, l.records[k].recipient.value);
        AfterNew(before, k);
        if before != [] { AfterPop(before, k, k); }
      } else {
        OthersEntered(l, i, settled, k, response, i', x);
      }
    }
  }

  /** Dropping the head of `w + [k]` moves no other element from the end. */
  lemma {:induction false} AfterPop(w: seq<Key>, k: Key, x: Key)
    requires w != [] && x != w[0]
    ensures After((w + [k])[1..], x) == After(w + [k], x)
  {
    assert (w + [k])[0] == w[0];
  }

  /** Agreement on `x` survives when only its count of later settlements and, once settled, its owner change. */
  lemma {:induction false} AgreesMoved<R>(l: Ledger<R>, i: Ideal<R>, l': Ledger<R>, i': Ideal<R>, x: Key)
    requires AgreesAt(l, i, x)
    requires x in i.latest <==> x in i'.latest
    requires x in i.latest ==> i'.latest[x] == i.latest[x].(later := i'.latest[x].later)
    requires x in l'.records ==> x in l.records
    requires x in l'.records && l'.records[x] != l.records[x] ==>
      !l.records[x].Pending() && l'.records[x] == l.records[x].(recipientOwned := false)
    requires x in l.records && l.records[x].Pending() ==> x in l'.records
    requires x in i'.latest && Kept(i'.latest[x]) ==> Windowed(l', x, i'.latest[x])
    ensures AgreesAt(l', i', x)
  {
  }

  lemma {:induction false} OthersEntered<R>(l: Ledger<R>, i: Ideal<R>, settled: Ledger<R>, k: Key, response: Response,
    i': Ideal<R>, x: Key)
    requires AgreesAt(l, i, x) && AgreesAt(l, i, k) && x != k
    requires Valid(l) && k in l.records && l.records[k].Pending() && l.records[k].recipientOwned
    requires Retainable(response.code)
    requires settled == l.(records := l.records[k := l.records[k].(response := Some(response), attached := None)])
    requires i' == Settle(i, k, response)
    ensures AgreesAt(Collect(Enter(settled, k)), i', x)
  {
    EnterEffect(l, settled, k);
    var l' := Collect(Enter(settled, k));
    if x in i'.latest && Kept(i'.latest[x]) {
      OthersWindowed(l, i, settled, k, i'.latest[x], x);
    }
    AgreesMoved(l, i, l', i', x);
  }

  lemma {:induction false} OthersWindowed<R>(l: Ledger<R>, i: Ideal<R>, settled: Ledger<R>, k: Key, g: Generation<R>,
    x: Key)
    requires Valid(l) && k in l.records && l.records[k].Pending() && l.records[k].recipientOwned
    requires settled.records.Keys == l.records.Keys && settled.current == l.current && settled.windows == l.windows
    requires settled.records[k].recipient == l.records[k].recipient
    requires x != k && x in i.latest && AgreesAt(l, i, x) && Kept(g)
    requires g ==
      i.latest[x].(later := if i.latest[x].recipient == l.records[k].recipient then i.latest[x].later + 1
      else i.latest[x].later)
    requires x in l.records ==> settled.records[x] == l.records[x]
    ensures Windowed(Collect(Enter(settled, k)), x, g)
  {
    EnterEffect(l, settled, k);
    var before := Window(l, l.records[k].recipient.value);
    assert Windowed(l, x, i.latest[x]);
    var t := g.recipient.value;
    assert OwnedBy(l.records[x], t) && x in Window(l, t);
    if g.recipient == l.records[k].recipient {
      AfterPush(before, k, x);
      if |before| == MAX_SETTLED_PER_RECIPIENT {
        assert before[0] == x ==> After(before, x) == |before| - 1;
        AfterPop(before, k, x);
      }
    }
  }

  lemma {:induction false} AgreesRecipientLost<R>(l: Ledger<R>, i: Ideal<R>, recipient: Session)
    requires Agrees(l, i) && Valid(l)
    ensures Agrees(ForgetRecipient(l, recipient), Track(l, i, RecipientLost(recipient)))
  {
    var l' := ForgetRecipient(l, recipient);
    var i' := Track(l, i, RecipientLost(recipient));
    forall k ensures AgreesAt(l', i', k) { assert AgreesAt(l, i, k); }
  }

  lemma {:induction false} AgreesCompleted<R>(l: Ledger<R>, i: Ideal<R>, e: Event<R>)
    requires Agrees(l, i) && Valid(l) && e.Completed?
    ensures Agrees(Apply(l, e), Track(l, i, e))
  {
    assert AgreesAt(l, i, e.k);
    if Open(i, e.k, e.id) {
      if e.respond { AgreesSettled(l, i, e); } else { AgreesDropped(l, i, {e.k}, Track(l, i, e)); }
    }
  }

  lemma {:induction false} AgreesSenderLost<R>(l: Ledger<R>, i: Ideal<R>, sender: Session)
    requires Agrees(l, i) && Valid(l)
    ensures Agrees(ForgetSender(l, sender), Track(l, i, SenderLost(sender)))
  {
    forall k ensures k in l.records ==> k in i.latest { assert AgreesAt(l, i, k); }
    AgreesDropped(l, i, (set k | k in l.records && k.sender == sender), Track(l, i, SenderLost(sender)));
  }

  lemma {:induction false} AgreesReleased<R>(l: Ledger<R>, i: Ideal<R>, e: Event<R>)
    requires Agrees(l, i) && Valid(l) && e.Released?
    ensures Agrees(Apply(l, e), Track(l, i, e))
  {
    assert AgreesAt(l, i, e.k);
    AgreesAdvanced(l, i, e.k.sender);
  }

  lemma {:induction false} AgreesShutDown<R>(l: Ledger<R>, i: Ideal<R>)
    requires Agrees(l, i)
    ensures Agrees(Empty(), Track(l, i, ShutDown))
  {
    var i' := Track(l, i, ShutDown);
    forall k ensures AgreesAt(Empty(), i', k) { assert AgreesAt(l, i, k); }
  }

  lemma {:induction false} AgreesStep<R>(l: Ledger<R>, i: Ideal<R>, e: Event<R>)
    requires Agrees(l, i) && Valid(l)
    ensures Agrees(Apply(l, e), Track(l, i, e))
  {
    match e
    case Observed(_, _, _) => AgreesObserved(l, i, e);
    case Begun(_, _, _) => AgreesBegun(l, i, e);
    case Bound(_, _, _) => AgreesBound(l, i, e);
    case Completed(_, _, _, _) => AgreesCompleted(l, i, e);
    case Released(_, _) => AgreesReleased(l, i, e);
    case Advanced(sender) => AgreesAdvanced(l, i, sender);
    case SenderLost(sender) => AgreesSenderLost(l, i, sender);
    case RecipientLost(recipient) => AgreesRecipientLost(l, i, recipient);
    case ShutDown => AgreesShutDown(l, i);
  }

  lemma {:induction false} RunAgrees<R>(events: seq<Event<R>>)
    ensures Valid(Run(events)) && Agrees(Run(events), IdealRun(events))
  {
    RunValid(events);
    if events == [] {
      assert forall k :: AgreesAt(Run<R>([]), IdealRun<R>([]), k);
    } else {
      var earlier := events[..|events| - 1];
      RunAgrees(earlier);
      AgreesStep(Run(earlier), IdealRun(earlier), events[|events| - 1]);
    }
  }

  // -------- the theorems --------

  /** After any run, a frame is answered "new" or exactly as the ledger that forgets nothing answers it. */
  lemma {:induction false} Refines<R>(events: seq<Event<R>>, sender: Session, op: Operation, fingerprint: Fingerprint)
    ensures var answer := Observe(Run(events), sender, op, fingerprint).1;
      answer == New || answer == Answer(IdealRun(events), sender, op, fingerprint)
  {
    RunAgrees(events);
    assert AgreesAt(Run(events), IdealRun(events), Key(sender, op.send.messageID));
  }

  /** The generation is unsettled, or its sender's current send, or among the latest its recipient's window keeps. */
  predicate Owed<R>(i: Ideal<R>, k: Key) {
    k in i.latest && !i.latest[k].over &&
    (i.latest[k].response.None? || (k.sender in i.current && i.current[k.sender] == k) || Kept(i.latest[k]))
  }

  /** What the bounded ledger may not forget, it does not: the answer is then the ideal one and is not "new". */
  lemma {:induction false} Remembers<R>(events: seq<Event<R>>, sender: Session, op: Operation, fingerprint: Fingerprint)
    requires Owed(IdealRun(events), Key(sender, op.send.messageID))
    ensures Observe(Run(events), sender, op, fingerprint).1 != New
    ensures Observe(Run(events), sender, op, fingerprint).1 == Answer(IdealRun(events), sender, op, fingerprint)
  {
    RunAgrees(events);
    assert AgreesAt(Run(events), IdealRun(events), Key(sender, op.send.messageID));
  }
}
