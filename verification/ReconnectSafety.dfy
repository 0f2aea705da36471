/** One attempt, one deadline, one connection: what the reconnect lifecycle guarantees, and exactly when. */
module ReconnectSafety {
  import opened Wrappers
  import opened Reconnect

  // -------- launches that wait --------

  lemma CountAppend(w: seq<Launch>, l: Launch, g: nat)
    ensures Count(w + [l], g) == Count(w, g) + (if l.generation == g then 1 else 0)
  {
    assert (w + [l])[..|w|] == w;
  }

  lemma {:induction false} CountWithout(w: seq<Launch>, k: nat, g: nat)
    requires k < |w|
    ensures Count(Without(w, k), g) + (if w[k].generation == g then 1 else 0) == Count(w, g)
    decreases |w|
  {
    var n := |w| - 1;
    if k == n {
      assert Without(w, k) == w[..n];
    } else {
      CountWithout(w[..n], k, g);
      assert Without(w, k) == Without(w[..n], k) + [w[n]];
      CountAppend(Without(w[..n], k), w[n], g);
    }
  }

  lemma {:induction false} CountNone(w: seq<Launch>, g: nat)
    requires forall k :: 0 <= k < |w| ==> w[k].generation < g
    ensures Count(w, g) == 0
  {
    if w != [] { CountNone(w[..|w| - 1], g); }
  }

  // -------- always --------

  /** What scheduling and launching leave alone, and how far they count. */
  ghost predicate Onward(s: State, s': State) {
    && s'.connection == s.connection && s'.generation == s.generation && s'.started == s.started
    && s'.startups == s.startups
    && s'.scheduled >= s.scheduled
    && (Bounded(s) ==> Bounded(s'))
  }

  ghost predicate Forth(s: State, s': State) {
    Onward(s, s') == true
  }

  lemma {:induction false} ScheduleForth(s: State, g: nat, how: Scheduling)
    ensures Forth(s, Schedule(s, g, how).0)
  {
  }

  lemma {:induction false} TrackForth(s: State, attempt: Attempt)
    requires attempt.Connecting? ==> attempt.generation <= s.generation
    ensures Forth(s, Track(s, attempt))
  {
  }

  lemma {:induction false} WaitForth(s: State, l: Launch)
    requires l.generation <= s.generation
    ensures Forth(s, s.(waiting := s.waiting + [l]))
  {
  }

  lemma {:induction false} OpenForth(s: State, g: nat, construction: Construction, how: Scheduling)
    requires g <= s.generation && s.task.None?
    ensures Forth(s, Open(s, g, construction, how))
  {
    hide Track, Schedule, Bounded;
    if construction.Throws? {
      var (after, fired) := Schedule(s, g, how);
      ScheduleForth(s, g, how);
      if fired {
        TrackForth(after, Connecting(g));
        TrackForth(Track(after, Connecting(g)), Finishing);
      } else {
        TrackForth(after, Finishing);
      }
    } else {
      TrackForth(s, if construction.Constructs? then Connecting(g) else Finishing);
    }
  }

  lemma {:induction false} LaunchForth(s: State, g: nat, construction: Construction, how: Scheduling)
    requires g <= s.generation
    ensures Forth(s, LaunchNow(s, g, construction, how))
  {
    if s.task.Some? { WaitForth(s, Launch(g, s.task.value)); } else { OpenForth(s, g, construction, how); }
    hide Open;
  }

  lemma {:induction false} RetryForth(s: State, g: nat, how: Scheduling, construction: Construction, again: Scheduling)
    requires g <= s.generation
    ensures Forth(s, RetryAfter(s, g, how, construction, again))
  {
    ScheduleForth(s, g, how);
    LaunchForth(Schedule(s, g, how).0, g, construction, again);
    hide Schedule, LaunchNow, Bounded;
  }

  lemma {:induction false} FinishForth(s: State, id: nat)
    requires IsConnecting(s, id)
    ensures Forth(s, s.(attempts := s.attempts[id := Finishing]))
  {
  }

  /** The state a start-up launches in. */
  function Launching(s: State, k: nat): State
    requires k < |s.starting|
  {
    s.(starting := Without(s.starting, k), attempted := true, deadline := None, startups := s.startups + {s.generation})
  }

  lemma {:induction false} StepBounded(s: State, e: Event)
    requires Bounded(s) == true
    ensures Bounded(Step(s, e)) == true
  {
    match e
    case StartsUp(_, _, _, _) => StartupBounded(s, e);
    case TimerFires(construction, how) =>
      hide LaunchNow;
      if s.deadline.Some? { LaunchForth(s.(deadline := None), s.deadline.value.generation, construction, how); }
    case Connected(_, _, _, _, _) => OutcomeBounded(s, e);
    case AttemptFails(_, _, _, _) => OutcomeBounded(s, e);
    case Resumes(k, construction, how) => ResumeBounded(s, k, construction, how);
    case Disconnects(how, construction, again) =>
      hide RetryAfter;
      if s.connection.Some? { RetryForth(s.(connection := None), s.connection.value, how, construction, again); }
    case _ =>
  }

  lemma {:induction false} StartupBounded(s: State, e: Event)
    requires Bounded(s) == true && e.StartsUp?
    ensures Bounded(Step(s, e)) == true
  {
    hide LaunchNow;
    if e.k < |s.starting| { LaunchForth(Launching(s, e.k), s.generation, e.construction, e.how); }
  }

  lemma {:induction false} OutcomeBounded(s: State, e: Event)
    requires Bounded(s) == true && (e.Connected? || e.AttemptFails?)
    ensures Bounded(Step(s, e)) == true
  {
    hide RetryAfter;
    if IsConnecting(s, e.id) {
      FinishForth(s, e.id);
      RetryForth(s.(attempts := s.attempts[e.id := Finishing]), s.attempts[e.id].generation, e.how, e.construction,
        e.again);
    }
  }

  lemma {:induction false} ResumeBounded(s: State, k: nat, construction: Construction, how: Scheduling)
    requires Bounded(s) == true
    ensures Bounded(Step(s, Resumes(k, construction, how))) == true
  {
    hide Open;
    if k < |s.waiting| {
      assert forall j :: 0 <= j < |s.waiting| - 1 ==> Without(s.waiting, k)[j] == s.waiting[if j < k then j else j + 1];
      var resumed := s.(waiting := Without(s.waiting, k));
      if s.task.None? { OpenForth(resumed, s.waiting[k].generation, construction, how); }
    }
  }

  lemma {:induction false} RunBounded(events: seq<Event>)
    ensures Bounded(Run(events)) == true
  {
    if events != [] {
      RunBounded(events[..|events| - 1]);
      StepBounded(Run(events[..|events| - 1]), events[|events| - 1]);
    }
  }

  // -------- one attempt --------

  ghost predicate Alone(s: State) {
    (OneAttempt(s) && Bounded(s)) == true
  }

  /** The attempts are fine, and their names are used up. */
  ghost predicate Tracked(s: State) {
    (OneAttempt(s) && forall id :: id in s.attempts ==> id < s.next) == true
  }

  /** A callback leaves two attempts unresolved; without one the attempts stay fine. */
  ghost predicate Judged(s: State, callback: bool) {
    (if callback then !Single(s) else OneAttempt(s)) == true
  }

  lemma {:induction false} LaunchTracked(s: State, g: nat, construction: Construction, how: Scheduling)
    requires Tracked(s)
    ensures Judged(LaunchNow(s, g, construction, how), CallsBack(s, g, construction, how))
  {
    if CallsBack(s, g, construction, how) {
      var s' := LaunchNow(s, g, construction, how);
      assert s.next in s'.attempts && s.next + 1 in s'.attempts;
    }
  }

  lemma {:induction false} ScheduleTracked(s: State, g: nat, how: Scheduling)
    requires Tracked(s)
    ensures Tracked(Schedule(s, g, how).0) && Schedule(s, g, how).0.task == s.task
  {
  }

  lemma {:induction false} RetryTracked(s: State, g: nat, how: Scheduling, construction: Construction,
    again: Scheduling)
    requires Tracked(s)
    ensures var (after, fired) := Schedule(s, g, how);
      Judged(RetryAfter(s, g, how, construction, again), fired && CallsBack(after, g, construction, again))
  {
    ScheduleTracked(s, g, how);
    LaunchTracked(Schedule(s, g, how).0, g, construction, again);
    TrackedJudged(Schedule(s, g, how).0);
    hide Schedule, LaunchNow, CallsBack, Tracked, Judged;
  }

  lemma TrackedJudged(s: State)
    requires Tracked(s)
    ensures Judged(s, false)
  {
  }

  /** A step keeps attempts single exactly when no callback runs inside a failing construction. */
  lemma {:induction false} StepAlone(s: State, e: Event)
    requires Alone(s)
    ensures Alone(Step(s, e)) <==> !CallsBackInside(s, e)
    ensures Single(Step(s, e)) <==> !CallsBackInside(s, e)
  {
    StepBounded(s, e);
    StepTracked(s, e);
    hide Step, CallsBackInside, Bounded;
  }

  lemma {:induction false} StepTracked(s: State, e: Event)
    requires Alone(s)
    ensures Judged(Step(s, e), CallsBackInside(s, e))
  {
    match e
    case StartsUp(_, _, _, _) => StartupTracked(s, e);
    case TimerFires(_, _) => TimerTracked(s, e);
    case Connected(_, _, _, _, _) => OutcomeTracked(s, e);
    case AttemptFails(_, _, _, _) => OutcomeTracked(s, e);
    case Resumes(_, _, _) => ResumeTracked(s, e);
    case Disconnects(_, _, _) => DisconnectTracked(s, e);
    case _ => hide LaunchNow, RetryAfter, Open;
  }

  lemma {:induction false} StartupTracked(s: State, e: Event)
    requires Alone(s) && e.StartsUp?
    ensures Judged(Step(s, e), CallsBackInside(s, e))
  {
    if e.k < |s.starting| {
      assert Tracked(s) && Tracked(Launching(s, e.k));
      LaunchTracked(Launching(s, e.k), s.generation, e.construction, e.how);
    }
    hide LaunchNow;
  }

  lemma {:induction false} TimerTracked(s: State, e: Event)
    requires Alone(s) && e.TimerFires?
    ensures Judged(Step(s, e), CallsBackInside(s, e))
  {
    assert Tracked(s) && Tracked(s.(deadline := None));
    if s.deadline.Some? { LaunchTracked(s.(deadline := None), s.deadline.value.generation, e.construction, e.how); }
    hide LaunchNow, CallsBack;
  }

  /** The attempt whose outcome it is is the tracked task, so a launch made now waits for it. */
  lemma {:induction false} OutcomeTracked(s: State, e: Event)
    requires Alone(s) && (e.Connected? || e.AttemptFails?)
    ensures Judged(Step(s, e), false)
  {
    if IsConnecting(s, e.id) {
      var s' := s.(attempts := s.attempts[e.id := Finishing]);
      var g := s.attempts[e.id].generation;
      assert Tracked(s') && s'.task.Some?;
      RetryTracked(s', g, e.how, e.construction, e.again);
      ScheduleTracked(s', g, e.how);
      assert !CallsBack(Schedule(s', g, e.how).0, g, e.construction, e.again);
    }
    hide RetryAfter, Schedule, CallsBack;
  }

  lemma {:induction false} ResumeTracked(s: State, e: Event)
    requires Alone(s) && e.Resumes?
    ensures Judged(Step(s, e), CallsBackInside(s, e))
  {
    if e.k < |s.waiting| {
      var resumed := s.(waiting := Without(s.waiting, e.k));
      var g := s.waiting[e.k].generation;
      assert Tracked(s) && Tracked(resumed);
      LaunchTracked(resumed, g, e.construction, e.how);
      assert CallsBack(resumed, g, e.construction, e.how) <==> CallsBack(s, g, e.construction, e.how);
      hide Open, CallsBack;
    }
  }

  lemma {:induction false} DisconnectTracked(s: State, e: Event)
    requires Alone(s) && e.Disconnects?
    ensures Judged(Step(s, e), CallsBackInside(s, e))
  {
    assert Tracked(s) && Tracked(s.(connection := None));
    if s.connection.Some? { RetryTracked(s.(connection := None), s.connection.value, e.how, e.construction, e.again); }
    hide RetryAfter, Schedule, CallsBack;
  }

  // -------- one thread of control --------

  /** At most one of: an unused start-up, an armed deadline, a waiting launch, an attempt, a retained connection. */
  ghost predicate OneBaton(s: State) {
    (Batons(s) <= 1 && (s.deadline.Some? ==> s.connection.None?)) == true
  }

  /** Nothing of the current generation is under way. */
  predicate Free(s: State) {
    s.generation in s.startups && s.deadline.None? && Count(s.waiting, s.generation) == 0 && !ConnectingNow(s)
    && s.connection != Some(s.generation)
  }

  lemma {:induction false} OpenBaton(s: State, g: nat, construction: Construction, how: Scheduling)
    requires Free(s) && IsCurrent(s, g) && s.connection.None? && s.task.None? && !CallsBack(s, g, construction, how)
    ensures OneBaton(Open(s, g, construction, how))
  {
  }

  lemma {:induction false} FreeIsOne(s: State)
    requires Free(s)
    ensures OneBaton(s)
  {
  }

  lemma {:induction false} LaunchBaton(s: State, g: nat, construction: Construction, how: Scheduling)
    requires Free(s) && !CallsBack(s, g, construction, how)
    ensures OneBaton(LaunchNow(s, g, construction, how))
  {
    hide Open, Batons;
    FreeIsOne(s);
    if IsCurrent(s, g) && s.connection.None? {
      if s.task.None? { OpenBaton(s, g, construction, how); } else { WaitBaton(s, g); }
    }
  }

  lemma {:induction false} WaitBaton(s: State, g: nat)
    requires Free(s) && s.task.Some?
    ensures OneBaton(s.(waiting := s.waiting + [Launch(g, s.task.value)]))
  {
    var w := s.waiting + [Launch(g, s.task.value)];
    CountAppend(s.waiting, Launch(g, s.task.value), s.generation);
    OnlyWaiting(s, w);
  }

  lemma {:induction false} OnlyWaiting(s: State, w: seq<Launch>)
    requires s.generation in s.startups && s.deadline.None? && !ConnectingNow(s) && s.connection != Some(s.generation)
    requires Count(w, s.generation) <= 1
    ensures OneBaton(s.(waiting := w))
  {
    hide Count;
  }

  lemma {:induction false} RetryBaton(s: State, g: nat, how: Scheduling, construction: Construction, again: Scheduling)
    requires Free(s) && !(Schedule(s, g, how).1 && CallsBack(Schedule(s, g, how).0, g, construction, again))
    ensures OneBaton(RetryAfter(s, g, how, construction, again))
  {
    hide LaunchNow, Open, CallsBack;
    var (after, fired) := Schedule(s, g, how);
    if fired {
      LaunchBaton(after, g, construction, again);
    } else {
      ScheduleBaton(s, g, how);
    }
  }

  lemma {:induction false} ScheduleBaton(s: State, g: nat, how: Scheduling)
    requires Free(s)
    ensures OneBaton(Schedule(s, g, how).0)
  {
  }

  /** The step that hands the baton on found the thread of control at one place, so nothing else was under way. */
  lemma {:induction false} TakenFree(s: State, s': State)
    requires OneBaton(s)
    requires s'.generation == s.generation && s'.generation in s'.startups && s'.deadline.None?
    requires s'.waiting == s.waiting && s'.connection != Some(s.generation) && !ConnectingNow(s')
    requires s.generation !in s.startups || s.deadline.Some? || ConnectingNow(s) || s.connection == Some(s.generation)
    ensures Free(s')
  {
  }

  lemma {:induction false} StopBaton(s: State)
    requires Alone(s)
    ensures OneBaton(Step(s, StopBegins))
  {
    CountNone(s.waiting, s.generation + 1);
  }

  lemma {:induction false} StartupBaton(s: State, e: Event)
    requires Alone(s) && OneBaton(s) && e.StartsUp? && !CallsBackInside(s, e) && FreshStartup(s, e)
    ensures OneBaton(Step(s, e))
  {
    if e.k < |s.starting| && s.starting[e.k] == Startup(s.generation, None) && e.configured {
      var s' := Launching(s, e.k);
      TakenFree(s, s');
      assert CallsBack(s', s.generation, e.construction, e.how) <==>
        CallsBack(s.(deadline := None), s.generation, e.construction, e.how);
      LaunchBaton(s', s.generation, e.construction, e.how);
    }
  }

  lemma {:induction false} TimerBaton(s: State, e: Event)
    requires Alone(s) && OneBaton(s) && e.TimerFires? && !CallsBackInside(s, e)
    ensures OneBaton(Step(s, e))
  {
    if s.deadline.Some? {
      var s' := s.(deadline := None);
      TakenFree(s, s');
      LaunchBaton(s', s.deadline.value.generation, e.construction, e.how);
    }
  }

  lemma {:induction false} AttemptBaton(s: State, e: Event)
    requires Alone(s) && OneBaton(s) && (e.Connected? || e.AttemptFails?) && !CallsBackInside(s, e)
    ensures OneBaton(Step(s, e))
  {
    if IsConnecting(s, e.id) {
      var g := s.attempts[e.id].generation;
      var s' := s.(attempts := s.attempts[e.id := Finishing]);
      if g == s.generation {
        TakenFree(s, s');
        RetryBaton(s', g, e.how, e.construction, e.again);
      } else {
        StaleRetry(s', g, e.how, e.construction, e.again);
      }
    }
  }

  lemma {:induction false} StaleRetry(s: State, g: nat, how: Scheduling, construction: Construction, again: Scheduling)
    requires g != s.generation
    ensures RetryAfter(s, g, how, construction, again) == s
  {
  }

  lemma {:induction false} DisconnectBaton(s: State, e: Event)
    requires Alone(s) && OneBaton(s) && e.Disconnects? && !CallsBackInside(s, e)
    ensures OneBaton(Step(s, e))
  {
    if s.connection.Some? {
      var s' := s.(connection := None);
      var g := s.connection.value;
      if g == s.generation {
        TakenFree(s, s');
        RetryBaton(s', g, e.how, e.construction, e.again);
      } else {
        StaleRetry(s', g, e.how, e.construction, e.again);
      }
    }
  }

  lemma {:induction false} ResumeBaton(s: State, e: Event)
    requires Alone(s) && OneBaton(s) && e.Resumes? && !CallsBackInside(s, e)
    ensures OneBaton(Step(s, e))
  {
    if e.k < |s.waiting| && s.waiting[e.k].after !in s.attempts {
      var g := s.waiting[e.k].generation;
      var s' := s.(waiting := Without(s.waiting, e.k));
      CountWithout(s.waiting, e.k, s.generation);
      if IsCurrent(s, g) && s.connection.None? && s.task.None? { OpenBaton(s', g, e.construction, e.how); }
    }
  }

  lemma {:induction false} StepBaton(s: State, e: Event)
    requires Alone(s) && OneBaton(s) && !CallsBackInside(s, e) && FreshStartup(s, e)
    ensures OneBaton(Step(s, e))
  {
    match e
    case StopBegins => StopBaton(s);
    case StartsUp(_, _, _, _) => StartupBaton(s, e);
    case TimerFires(_, _) => TimerBaton(s, e);
    case Connected(_, _, _, _, _) => AttemptBaton(s, e);
    case AttemptFails(_, _, _, _) => AttemptBaton(s, e);
    case Resumes(_, _, _) => ResumeBaton(s, e);
    case Disconnects(_, _, _) => DisconnectBaton(s, e);
    case _ =>
  }

  // -------- a deadline beside a connection --------

  /** A current connection was the current attempt, so there is none. */
  ghost predicate Kept(s: State) {
    (s.connection == Some(s.generation) ==>
      forall id :: id in s.attempts && s.attempts[id].Connecting? ==> s.attempts[id].generation != s.generation) == true
  }

  /** What is left of `Kept` and `Quiet` for one state: the parts a step may change. */
  ghost predicate NoneConnecting(s: State) {
    (forall id :: id in s.attempts && s.attempts[id].Connecting? ==> s.attempts[id].generation != s.generation) == true
  }

  lemma {:induction false} StepQuiet(s: State, e: Event)
    requires Alone(s) && Kept(s) && Quiet(s) && !CallsBackInside(s, e)
    ensures Kept(Step(s, e)) && (Quiet(Step(s, e)) <==> !ResumesBeside(s, e))
  {
    match e
    case StartsUp(_, _, _, _) => StartupQuiet(s, e);
    case TimerFires(construction, how) =>
      if s.deadline.Some? { LaunchQuiet(s.(deadline := None), s.deadline.value.generation, construction, how); }
    case Connected(_, _, _, _, _) => OutcomeQuiet(s, e);
    case AttemptFails(_, _, _, _) => OutcomeQuiet(s, e);
    case Resumes(_, _, _) => ResumeQuiet(s, e);
    case Disconnects(_, _, _) => DisconnectQuiet(s, e);
    case _ =>
  }

  lemma {:induction false} LaunchQuiet(s: State, g: nat, construction: Construction, how: Scheduling)
    requires Tracked(s) && Kept(s) && s.deadline.None? && !CallsBack(s, g, construction, how)
    ensures Kept(LaunchNow(s, g, construction, how)) && Quiet(LaunchNow(s, g, construction, how))
  {
  }

  lemma {:induction false} StartupQuiet(s: State, e: Event)
    requires Alone(s) && Kept(s) && Quiet(s) && e.StartsUp? && !CallsBackInside(s, e)
    ensures Kept(Step(s, e)) && Quiet(Step(s, e))
  {
    if e.k < |s.starting| && s.starting[e.k] == Startup(s.generation, None) && e.configured {
      var s' := Launching(s, e.k);
      assert CallsBack(s', s.generation, e.construction, e.how) <==>
        CallsBack(s.(deadline := None), s.generation, e.construction, e.how);
      LaunchQuiet(s', s.generation, e.construction, e.how);
    }
    hide LaunchNow, CallsBack;
  }

  /** Where nothing of the current generation is connecting, scheduling and launching are harmless. */
  lemma {:induction false} RetryQuiet(s: State, g: nat, how: Scheduling, construction: Construction, again: Scheduling)
    requires Tracked(s) && s.connection.None? && s.deadline.None? && NoneConnecting(s)
    requires !(Schedule(s, g, how).1 && CallsBack(Schedule(s, g, how).0, g, construction, again))
    ensures Kept(RetryAfter(s, g, how, construction, again)) && Quiet(RetryAfter(s, g, how, construction, again))
  {
    var (after, fired) := Schedule(s, g, how);
    if fired { LaunchQuiet(after, g, construction, again); }
    hide LaunchNow, CallsBack;
  }

  lemma {:induction false} OutcomeQuiet(s: State, e: Event)
    requires Alone(s) && Kept(s) && Quiet(s) && (e.Connected? || e.AttemptFails?)
    ensures Kept(Step(s, e)) && Quiet(Step(s, e))
  {
    if IsConnecting(s, e.id) {
      var s' := s.(attempts := s.attempts[e.id := Finishing]);
      var g := s.attempts[e.id].generation;
      assert Tracked(s') && NoneConnecting(s');
      ScheduleTracked(s', g, e.how);
      assert !CallsBack(Schedule(s', g, e.how).0, g, e.construction, e.again);
      if IsCurrent(s, g) && s.connection.None? {
        RetryQuiet(s', g, e.how, e.construction, e.again);
      } else {
        assert RetryAfter(s', g, e.how, e.construction, e.again) == s';
      }
    }
    hide RetryAfter, Schedule;
  }

  lemma {:induction false} ResumeQuiet(s: State, e: Event)
    requires Alone(s) && Kept(s) && Quiet(s) && e.Resumes? && !CallsBackInside(s, e)
    ensures Kept(Step(s, e)) && (Quiet(Step(s, e)) <==> !ResumesBeside(s, e))
  {
    if ResumesBeside(s, e) {
      var s' := Step(s, e);
      assert s'.deadline.Some? && s.next in s'.attempts && s'.attempts[s.next] == Connecting(s.generation);
    }
  }

  lemma {:induction false} DisconnectQuiet(s: State, e: Event)
    requires Alone(s) && Kept(s) && Quiet(s) && e.Disconnects? && !CallsBackInside(s, e)
    ensures Kept(Step(s, e)) && Quiet(Step(s, e))
  {
    if s.connection.Some? {
      var s' := s.(connection := None);
      var g := s.connection.value;
      if g == s.generation {
        RetryQuiet(s', g, e.how, e.construction, e.again);
      } else {
        StaleRetry(s', g, e.how, e.construction, e.again);
      }
    }
    hide RetryAfter, Schedule;
  }

  // -------- whatever the run --------

  ghost predicate SameConnecting(s: State, s': State) {
    && (forall id :: IsConnecting(s', id) ==> IsConnecting(s, id) && s'.attempts[id] == s.attempts[id])
    && (forall id :: IsConnecting(s, id) ==> IsConnecting(s', id) && s'.attempts[id] == s.attempts[id])
  }

  /** A retry is armed only without a connection, and what is connecting then was connecting before. */
  ghost predicate OnlyArms(s: State, s': State) {
    (&& s'.generation == s.generation && s'.connection == s.connection
     && (s'.deadline.Some? ==> s'.connection.None? && SameConnecting(s, s'))) == true
  }

  lemma {:induction false} LaunchArms(s: State, g: nat, construction: Construction, how: Scheduling)
    requires s.deadline.None? && forall id :: id in s.attempts ==> id < s.next
    ensures OnlyArms(s, LaunchNow(s, g, construction, how))
  {
  }

  lemma {:induction false} RetryArms(s: State, g: nat, how: Scheduling, construction: Construction, again: Scheduling)
    requires s.deadline.None? && forall id :: id in s.attempts ==> id < s.next
    ensures OnlyArms(s, RetryAfter(s, g, how, construction, again))
  {
    if Schedule(s, g, how).1 { LaunchArms(Schedule(s, g, how).0, g, construction, again); }
    hide LaunchNow;
  }

  /** What a step may break, and how: by arming beside an attempt, or by opening beside what is armed. */
  ghost predicate Told(s: State, e: Event) {
    (Quiet(Step(s, e)) <==> !ResumesBeside(s, e) && !ArmsBeside(s, e)) == true
  }

  lemma {:induction false} StartupTold(s: State, e: Event)
    requires Bounded(s) && Quiet(s) && e.StartsUp?
    ensures Told(s, e)
  {
    if e.k < |s.starting| { LaunchArms(Launching(s, e.k), s.generation, e.construction, e.how); }
    hide LaunchNow;
  }

  lemma {:induction false} TimerTold(s: State, e: Event)
    requires Bounded(s) && Quiet(s) && e.TimerFires?
    ensures Told(s, e)
  {
    if s.deadline.Some? { LaunchArms(s.(deadline := None), s.deadline.value.generation, e.construction, e.how); }
    hide LaunchNow;
  }

  lemma {:induction false} OutcomeTold(s: State, e: Event)
    requires Bounded(s) && Quiet(s) && (e.Connected? || e.AttemptFails?)
    ensures Told(s, e)
  {
    if IsConnecting(s, e.id) {
      var s', g := s.(attempts := s.attempts[e.id := Finishing]), s.attempts[e.id].generation;
      if g == s.generation {
        assert s.deadline.None?;
        RetryArms(s', g, e.how, e.construction, e.again);
        hide RetryAfter;
        assert forall id :: id != e.id ==> (IsConnecting(s', id) <==> IsConnecting(s, id));
        assert !IsConnecting(s', e.id);
        assert forall id ::
          id in Step(s, e).attempts && Step(s, e).attempts[id].Connecting? ==> IsConnecting(Step(s, e), id);
      } else {
        StaleRetry(s', g, e.how, e.construction, e.again);
        hide RetryAfter;
      }
    }
  }

  lemma {:induction false} ResumeTold(s: State, e: Event)
    requires Bounded(s) && Quiet(s) && e.Resumes?
    ensures Told(s, e)
  {
    if e.k < |s.waiting| && s.waiting[e.k].after !in s.attempts {
      var s', g := s.(waiting := Without(s.waiting, e.k)), s.waiting[e.k].generation;
      if IsCurrent(s, g) && s.connection.None? && s.task.None? {
        if s.deadline.None? {
          LaunchArms(s', g, e.construction, e.how);
        } else if e.construction.Constructs? {
          assert Step(s, e).attempts[s.next] == Connecting(s.generation);
        }
      }
    }
  }

  lemma {:induction false} DisconnectTold(s: State, e: Event)
    requires Bounded(s) && Quiet(s) && e.Disconnects?
    ensures Told(s, e)
  {
    if s.connection.Some? {
      RetryArms(s.(connection := None), s.connection.value, e.how, e.construction, e.again);
    }
    hide RetryAfter;
  }

  lemma {:induction false} StepTold(s: State, e: Event)
    requires Bounded(s) && Quiet(s)
    ensures Told(s, e)
  {
    match e
    case StartsUp(_, _, _, _) => StartupTold(s, e);
    case TimerFires(_, _) => TimerTold(s, e);
    case Connected(_, _, _, _, _) => OutcomeTold(s, e);
    case AttemptFails(_, _, _, _) => OutcomeTold(s, e);
    case Resumes(_, _, _) => ResumeTold(s, e);
    case Disconnects(_, _, _) => DisconnectTold(s, e);
    case _ =>
  }

  lemma {:induction false} NextTold(events: seq<Event>, n: nat)
    requires n < |events| && Quiet(Run(events[..n]))
    ensures Quiet(Run(events[..n + 1])) <==>
      !ResumesBeside(Run(events[..n]), events[n]) && !ArmsBeside(Run(events[..n]), events[n])
  {
    hide *;
    RunBounded(events[..n]);
    Forward(events, n);
    StepTold(Run(events[..n]), events[n]);
    ToldIs(Run(events[..n]), events[n]);
  }

  lemma ToldIs(s: State, e: Event)
    requires Told(s, e)
    ensures Quiet(Step(s, e)) <==> !ResumesBeside(s, e) && !ArmsBeside(s, e)
  {
  }

  // -------- every run --------

  lemma CalmBefore(events: seq<Event>)
    requires events != [] && Calm(events)
    ensures Calm(events[..|events| - 1])
  {
    var n := |events| - 1;
    forall m: nat | m < n ensures !CallsBackInside(Run(events[..n][..m]), events[..n][m]) {
      assert events[..n][..m] == events[..m];
    }
  }

  lemma {:induction false} RunAlone(events: seq<Event>)
    requires Calm(events)
    ensures Alone(Run(events))
  {
    if events != [] {
      CalmBefore(events);
      RunAlone(events[..|events| - 1]);
      StepAlone(Run(events[..|events| - 1]), events[|events| - 1]);
    }
  }

  lemma {:induction false} RunBaton(events: seq<Event>)
    requires Orderly(events)
    ensures OneBaton(Run(events)) && Alone(Run(events))
  {
    if events != [] {
      var n := |events| - 1;
      CalmBefore(events);
      forall m: nat | m < n ensures FreshStartup(Run(events[..n][..m]), events[..n][m]) {
        assert events[..n][..m] == events[..m];
      }
      RunBaton(events[..n]);
      RunAlone(events);
      StepBaton(Run(events[..n]), events[n]);
    }
  }

  // -------- what it comes to --------

  /** In a calm run at most one attempt is unresolved, and it is the tracked task. */
  lemma {:induction false} SingleAttempt(events: seq<Event>, a: nat, b: nat)
    requires Calm(events) && a in Run(events).attempts && b in Run(events).attempts
    ensures a == b && Run(events).task == Some(a)
  {
    RunAlone(events);
  }

  /** Exactly then: attempts stay single throughout a run just when no callback runs inside a failing construction. */
  lemma {:induction false} AttemptsExactly(events: seq<Event>)
    ensures (forall n: nat :: n <= |events| ==> Single(Run(events[..n]))) <==> Calm(events)
  {
    if Calm(events) {
      forall n: nat | n <= |events| ensures Single(Run(events[..n])) {
        CalmPrefix(events, n);
        RunAlone(events[..n]);
      }
    }
    if forall n: nat :: n <= |events| ==> Single(Run(events[..n])) {
      SingleIsCalm(events, |events|);
      assert events[..|events|] == events;
    }
  }

  lemma CalmPrefix(events: seq<Event>, n: nat)
    requires Calm(events) && n <= |events|
    ensures Calm(events[..n])
  {
    forall m: nat | m < n ensures !CallsBackInside(Run(events[..n][..m]), events[..n][m]) {
      assert events[..n][..m] == events[..m];
    }
  }

  lemma {:induction false} SingleIsCalm(events: seq<Event>, n: nat)
    requires n <= |events| && forall m: nat :: m <= |events| ==> Single(Run(events[..m]))
    ensures Calm(events[..n])
  {
    if n > 0 {
      hide *;
      SingleIsCalm(events, n - 1);
      RunAlone(events[..n - 1]);
      StepAlone(Run(events[..n - 1]), events[n - 1]);
      Forward(events, n - 1);
      assert Single(Run(events[..n]));
      CalmExtends(events, n);
    }
  }

  lemma CalmExtends(events: seq<Event>, n: nat)
    requires 0 < n <= |events| && Calm(events[..n - 1]) && !CallsBackInside(Run(events[..n - 1]), events[n - 1])
    ensures Calm(events[..n])
  {
    hide CallsBackInside, Run;
    forall m: nat | m < n ensures !CallsBackInside(Run(events[..n][..m]), events[..n][m]) {
      assert events[..n][..m] == events[..m];
      if m < n - 1 { assert events[..n - 1][..m] == events[..m] && events[..n - 1][m] == events[m]; }
    }
  }

  /**
   Session starts that do not overlap leave no deadline beside a retained connection, nor beside a current attempt.
   */
  lemma {:induction false} NoDeadlineWhileConnected(events: seq<Event>)
    requires Orderly(events) && Run(events).deadline.Some?
    ensures var s := Run(events);
      s.connection.None? && forall id :: id in s.attempts && s.attempts[id].Connecting? ==>
        s.attempts[id].generation < s.generation
  {
    RunBaton(events);
    RunBounded(events);
  }

  ghost predicate NeverBeside(events: seq<Event>) {
    forall n: nat :: n < |events| ==> !ResumesBeside(Run(events[..n]), events[n])
  }

  /** In a calm run one cause is left: a waiting launch that opens while a retry is armed. */
  lemma {:induction false} CalmDeadlines(events: seq<Event>)
    requires Calm(events)
    ensures (forall n: nat :: n <= |events| ==> Quiet(Run(events[..n]))) <==> NeverBeside(events)
  {
    if NeverBeside(events) {
      forall n: nat | n <= |events| ensures Quiet(Run(events[..n])) { QuietUpTo(events, n); }
    }
    if forall n: nat :: n <= |events| ==> Quiet(Run(events[..n])) {
      forall n: nat | n < |events| ensures !ResumesBeside(Run(events[..n]), events[n]) { KeptUpTo(events, n); }
    }
  }

  lemma StartQuiet(events: seq<Event>)
    ensures Kept(Run(events[..0])) && Quiet(Run(events[..0]))
  {
    assert events[..0] == [];
  }

  lemma {:induction false} QuietUpTo(events: seq<Event>, n: nat)
    requires Calm(events) && n <= |events| && NeverBeside(events)
    ensures Kept(Run(events[..n])) && Quiet(Run(events[..n]))
  {
    if n > 0 {
      assert !CallsBackInside(Run(events[..n - 1]), events[n - 1])
        && !ResumesBeside(Run(events[..n - 1]), events[n - 1]);
      hide *;
      QuietUpTo(events, n - 1);
      CalmPrefix(events, n - 1);
      RunAlone(events[..n - 1]);
      Forward(events, n - 1);
      StepQuiet(Run(events[..n - 1]), events[n - 1]);
    } else {
      StartQuiet(events);
    }
  }

  lemma {:induction false} KeptUpTo(events: seq<Event>, n: nat)
    requires Calm(events) && n <= |events| && forall m: nat :: m <= |events| ==> Quiet(Run(events[..m]))
    ensures Kept(Run(events[..n]))
    ensures n < |events| ==> !ResumesBeside(Run(events[..n]), events[n])
  {
    if n > 0 {
      KeptUpTo(events, n - 1);
      NextKept(events, n - 1);
    } else {
      StartQuiet(events);
    }
    if n < |events| { NextKept(events, n); }
  }

  lemma {:induction false} NextKept(events: seq<Event>, n: nat)
    requires Calm(events) && n < |events| && Kept(Run(events[..n])) && Quiet(Run(events[..n]))
      && Quiet(Run(events[..n + 1]))
    ensures Kept(Run(events[..n + 1])) && !ResumesBeside(Run(events[..n]), events[n])
  {
    assert !CallsBackInside(Run(events[..n]), events[n]);
    hide *;
    CalmPrefix(events, n);
    RunAlone(events[..n]);
    Forward(events, n);
    StepQuiet(Run(events[..n]), events[n]);
  }

  ghost predicate NothingBeside(events: seq<Event>) {
    forall n: nat :: n < |events| ==>
      !ResumesBeside(Run(events[..n]), events[n]) && !ArmsBeside(Run(events[..n]), events[n])
  }

  lemma {:induction false} QuietThroughout(events: seq<Event>, n: nat)
    requires NothingBeside(events) && n <= |events|
    ensures Quiet(Run(events[..n]))
  {
    if n > 0 {
      QuietThroughout(events, n - 1);
      NextTold(events, n - 1);
    } else {
      StartQuiet(events);
    }
  }

  /**
   For every run: no deadline is ever armed beside a connection or a current attempt if and only if no launch that
   waited opens while a retry is armed, and no retry is armed while another current attempt is connecting.
   */
  lemma {:induction false} DeadlinesExactly(events: seq<Event>)
    ensures (forall n: nat :: n <= |events| ==> Quiet(Run(events[..n]))) <==> NothingBeside(events)
  {
    if NothingBeside(events) {
      forall n: nat | n <= |events| ensures Quiet(Run(events[..n])) { QuietThroughout(events, n); }
    }
    if forall n: nat :: n <= |events| ==> Quiet(Run(events[..n])) {
      forall n: nat | n < |events|
        ensures !ResumesBeside(Run(events[..n]), events[n]) && !ArmsBeside(Run(events[..n]), events[n])
      {
        NextTold(events, n);
      }
    }
  }

  /**
   Always: at most ten retries are scheduled between two resets, and only the current generation installs a
   connection.
   */
  lemma {:induction false} RetriesAndInstalls(events: seq<Event>, e: Event)
    ensures var s, s' := Run(events), Run(events + [e]);
      && s.scheduled <= MAX_RETRIES
      && (s'.connection.Some? && s'.connection != s.connection ==> s.started && s'.connection == Some(s.generation))
      && (s'.scheduled < s.scheduled ==> s'.retryIndex == 0 && (e.StopEnds? || s'.connection.Some?))
  {
    assert (events + [e])[..|events|] == events;
    RunBounded(events);
    InstallsCurrent(Run(events), e);
  }

  lemma {:induction false} InstallsCurrent(s: State, e: Event)
    requires Bounded(s) == true
    ensures var s' := Step(s, e);
      && (s'.connection.Some? && s'.connection != s.connection ==> s.started && s'.connection == Some(s.generation))
      && (s'.scheduled < s.scheduled ==> s'.retryIndex == 0 && (e.StopEnds? || s'.connection.Some?))
  {
    hide Open, LaunchNow, RetryAfter, Schedule;
    match e
    case StartsUp(k, _, construction, how) =>
      if k < |s.starting| { LaunchForth(Launching(s, k), s.generation, construction, how); }
    case TimerFires(construction, how) =>
      if s.deadline.Some? { LaunchForth(s.(deadline := None), s.deadline.value.generation, construction, how); }
    case Connected(id, open, how, construction, again) =>
      if IsConnecting(s, id) {
        RetryForth(s.(attempts := s.attempts[id := Finishing]), s.attempts[id].generation, how, construction, again);
      }
    case AttemptFails(id, how, construction, again) =>
      if IsConnecting(s, id) {
        RetryForth(s.(attempts := s.attempts[id := Finishing]), s.attempts[id].generation, how, construction, again);
      }
    case Resumes(k, construction, how) =>
      if k < |s.waiting| && s.task.None? {
        OpenForth(s.(waiting := Without(s.waiting, k)), s.waiting[k].generation, construction, how);
      }
    case Disconnects(how, construction, again) =>
      if s.connection.Some? { RetryForth(s.(connection := None), s.connection.value, how, construction, again); }
    case _ =>
  }

  // -------- where the conditions are needed --------

  lemma Forward(events: seq<Event>, n: nat)
    requires n < |events|
    ensures Run(events[..n + 1]) == Step(Run(events[..n]), events[n])
  {
    assert events[..n + 1][..n] == events[..n];
  }

  /**
   Every session start awaits a stop; stopping closes the active attempt, which resolves when its socket has closed.
   */
  const UNPUNCTUAL: seq<Event> := [
    StopBegins, StopEnds, SessionStarts(true), StartsUp(0, true, Throws, Fires), TaskFinishes(1),
    StopBegins, StopEnds, SessionStarts(true), StartsUp(0, true, Constructs, Arms)]

  const OVERLAPPING: seq<Event> := [
    StopBegins, StopBegins, StopEnds, StopEnds, SessionStarts(true), SessionStarts(true),
    StartsUp(0, true, Constructs, Arms), StartsUp(0, true, Constructs, Arms),
    AttemptFails(0, Arms, Constructs, Arms), TaskFinishes(0), Resumes(0, Constructs, Arms),
    Connected(1, true, Arms, Constructs, Arms)]

  /** A callback inside a failing construction leaves an attempt untracked; stop and start again, and there are two. */
  lemma {:induction false} UnpunctualBreaksSingleAttempt()
    ensures !Calm(UNPUNCTUAL)
    ensures 0 in Run(UNPUNCTUAL).attempts && 2 in Run(UNPUNCTUAL).attempts
  {
    hide Step, CallsBackInside;
    assert UNPUNCTUAL[..0] == [] && UNPUNCTUAL[..9] == UNPUNCTUAL;
    assert Run([]) == Start();
    hide Run;
    Forward(UNPUNCTUAL, 0);
    Forward(UNPUNCTUAL, 1);
    Forward(UNPUNCTUAL, 2);
    Forward(UNPUNCTUAL, 3);
    Forward(UNPUNCTUAL, 4);
    Forward(UNPUNCTUAL, 5);
    Forward(UNPUNCTUAL, 6);
    Forward(UNPUNCTUAL, 7);
    Forward(UNPUNCTUAL, 8);
    var s3, s5 := Run(UNPUNCTUAL[..3]), Run(UNPUNCTUAL[..5]);
    UnpunctualStart(s3, Run(UNPUNCTUAL[..4]), s5);
    UnpunctualEnd(s5, Run(UNPUNCTUAL[..7]), Run(UNPUNCTUAL[..8]), Run(UNPUNCTUAL[..9]));
  }

  lemma UnpunctualStart(s3: State, s4: State, s5: State)
    requires s3 == Step(Step(Step(Start(), StopBegins), StopEnds), SessionStarts(true))
    requires s4 == Step(s3, StartsUp(0, true, Throws, Fires)) && s5 == Step(s4, TaskFinishes(1))
    ensures CallsBackInside(s3, StartsUp(0, true, Throws, Fires))
    ensures s5.task.None? && s5.connection.None? && s5.next == 2 && s5.attempts == map[0 := Connecting(1)]
      && s5.starting == []
  {
    assert s3 == Start().(started := true, generation := 1, starting := [Startup(1, None)]);
    assert s4.attempts == map[0 := Connecting(1), 1 := Finishing] && s4.starting == [];
  }

  lemma UnpunctualEnd(s5: State, s7: State, s8: State, s9: State)
    requires s5.task.None? && s5.connection.None? && s5.next == 2 && 0 in s5.attempts && s5.starting == []
    requires s7 == Step(Step(s5, StopBegins), StopEnds)
    requires s8 == Step(s7, SessionStarts(true)) && s9 == Step(s8, StartsUp(0, true, Constructs, Arms))
    ensures 0 in s9.attempts && 2 in s9.attempts
  {
    assert s8.starting == [Startup(s7.generation, None)];
  }

  /** Two start-ups in one generation: the second waits, opens although a retry is armed, and connects beside it. */
  lemma {:induction false} OverlappingStartsArmBesideConnection()
    ensures Calm(OVERLAPPING)
    ensures Run(OVERLAPPING).deadline.Some? && Run(OVERLAPPING).connection.Some?
  {
    OverlappingCalm();
    hide Step, CallsBackInside;
    assert OVERLAPPING[..0] == [] && OVERLAPPING[..12] == OVERLAPPING;
    assert Run([]) == Start();
    hide Run;
    Forward(OVERLAPPING, 0);
    Forward(OVERLAPPING, 1);
    Forward(OVERLAPPING, 2);
    Forward(OVERLAPPING, 3);
    Forward(OVERLAPPING, 4);
    Forward(OVERLAPPING, 5);
    Forward(OVERLAPPING, 6);
    Forward(OVERLAPPING, 7);
    Forward(OVERLAPPING, 8);
    Forward(OVERLAPPING, 9);
    Forward(OVERLAPPING, 10);
    Forward(OVERLAPPING, 11);
    OverlapStops(Run(OVERLAPPING[..4]));
    OverlapStart(Run(OVERLAPPING[..5]), Run(OVERLAPPING[..6]), Run(OVERLAPPING[..7]), Run(OVERLAPPING[..8]));
    OverlapFail(Run(OVERLAPPING[..8]), Run(OVERLAPPING[..9]));
    OverlapEnd(Run(OVERLAPPING[..9]), Run(OVERLAPPING[..10]), Run(OVERLAPPING[..11]), Run(OVERLAPPING[..12]));
  }

  lemma OverlapStops(s: State)
    requires s == Step(Step(Step(Step(Start(), StopBegins), StopBegins), StopEnds), StopEnds)
    ensures s == Start().(generation := 2)
  {
  }

  lemma OverlappingCalm()
    ensures Calm(OVERLAPPING)
  {
    hide Run, Schedule;
    forall n: nat | n < |OVERLAPPING| ensures !CallsBackInside(Run(OVERLAPPING[..n]), OVERLAPPING[n]) {
      NeverThrows(Run(OVERLAPPING[..n]), OVERLAPPING[n]);
    }
  }

  lemma NeverThrows(s: State, e: Event)
    requires e.StartsUp? || e.TimerFires? || e.Resumes? || e.Disconnects? ==> !e.construction.Throws?
    ensures !CallsBackInside(s, e)
  {
  }

  lemma OverlapStart(s1: State, s2: State, s3: State, s4: State)
    requires s1 == Step(Start().(generation := 2), SessionStarts(true)) && s2 == Step(s1, SessionStarts(true))
    requires s3 == Step(s2, StartsUp(0, true, Constructs, Arms)) && s4 == Step(s3, StartsUp(0, true, Constructs, Arms))
    ensures s4.started && s4.generation == 2 && s4.attempts == map[0 := Connecting(2)] && s4.task == Some(0)
      && s4.next == 1
    ensures s4.waiting == [Launch(2, 0)] && s4.deadline.None? && s4.connection.None? && s4.retryIndex == 0
  {
    assert s2.starting == [Startup(2, None), Startup(2, None)] && s3.starting == [Startup(2, None)];
  }

  lemma OverlapFail(s4: State, s5: State)
    requires s4.started && s4.generation == 2 && s4.attempts == map[0 := Connecting(2)] && s4.task == Some(0)
      && s4.next == 1
    requires s4.waiting == [Launch(2, 0)] && s4.deadline.None? && s4.connection.None? && s4.retryIndex == 0
    requires s5 == Step(s4, AttemptFails(0, Arms, Constructs, Arms))
    ensures s5.started && s5.generation == 2 && s5.attempts == map[0 := Finishing] && s5.task == Some(0) && s5.next == 1
    ensures s5.waiting == [Launch(2, 0)] && s5.deadline == Some(Deadline(2, 1)) && s5.connection.None?
  {
  }

  lemma OverlapEnd(s5: State, s6: State, s7: State, s8: State)
    requires s5.started && s5.generation == 2 && s5.attempts == map[0 := Finishing] && s5.task == Some(0)
      && s5.next == 1
    requires s5.waiting == [Launch(2, 0)] && s5.deadline == Some(Deadline(2, 1)) && s5.connection.None?
    requires s6 == Step(s5, TaskFinishes(0)) && s7 == Step(s6, Resumes(0, Constructs, Arms))
    requires s8 == Step(s7, Connected(1, true, Arms, Constructs, Arms))
    ensures s8.deadline.Some? && s8.connection.Some?
  {
    assert s6.attempts == map[];
  }
}
