/** The closures that own a session's connection, as methods on the variables they share. */
module ConnectionOwners {
  import opened Wrappers
  import opened Reconnect
  import opened ReconnectSafety

  class ConnectionOwner {
    var sessionStarted: bool
    var startupAttempted: bool
    var starting: seq<Startup>
    var lifecycleGeneration: nat
    var activeConnection: Option<nat>
    var attempts: map<nat, Attempt>
    var activeTask: Option<nat>
    var next: nat
    var waiting: seq<Launch>
    var retryDeadline: Option<Deadline>
    var retryIndex: nat
    var reconnectExhausted: bool
    var scheduled: nat
    var startups: set<nat>

    function Now(): State
      reads this
    {
      State(sessionStarted, startupAttempted, starting, lifecycleGeneration, activeConnection, attempts, activeTask,
            next, waiting, retryDeadline, retryIndex, reconnectExhausted, scheduled, startups)
    }

    ghost predicate Valid()
      reads this
    {
      Bounded(Now())
    }

    constructor ()
      ensures Valid() && Now() == Start()
    {
      sessionStarted, startupAttempted, starting, lifecycleGeneration := false, false, [], 0;
      activeConnection, attempts, activeTask, next := None, map[], None, 0;
      waiting, retryDeadline, retryIndex, reconnectExhausted, scheduled, startups := [], None, 0, false, 0, {};
    }

    /** Is the generation the one the session runs in? */
    predicate Current(generation: nat)
      reads this
    {
      sessionStarted && lifecycleGeneration == generation
    }

    /** `scheduleRetry`: at most one deadline, at most ten retries; `fired` when the callback ran before it returned. */
    method ScheduleRetry(generation: nat, how: Scheduling) returns (fired: bool)
      requires Valid()
      modifies this
      ensures Valid() && (Now(), fired) == Schedule(old(Now()), generation, how)
      ensures retryDeadline != old(retryDeadline) ==>
        old(retryDeadline).None? && activeConnection.None? && Current(generation)
      ensures attempts == old(attempts) && activeTask == old(activeTask) && activeConnection == old(activeConnection)
      ensures lifecycleGeneration == old(lifecycleGeneration) && sessionStarted == old(sessionStarted)
    {
      ScheduleForth(Now(), generation, how);
      hide Bounded;
      if !(sessionStarted && lifecycleGeneration == generation) || activeConnection.Some? || retryDeadline.Some? {
        return false;
      }
      if retryIndex >= MAX_RETRIES {
        reconnectExhausted := true;
        return false;
      }
      if how.BadSample? {
        return false;
      }
      var scheduledRetryIndex := retryIndex + 1;
      retryIndex := retryIndex + 1;
      if how.Rejects? {
        return false;
      }
      scheduled := scheduled + 1;
      if how.Fires? {
        return true;
      }
      retryDeadline := Some(Deadline(generation, scheduledRetryIndex));
      fired := false;
    }

    method TrackTask(attempt: Attempt)
      requires Valid() && (attempt.Connecting? ==> attempt.generation <= lifecycleGeneration)
      modifies this
      ensures Valid() && Now() == Track(old(Now()), attempt)
      ensures activeTask == Some(old(next)) && old(next) !in old(attempts)
      ensures activeConnection == old(activeConnection) && lifecycleGeneration == old(lifecycleGeneration)
    {
      TrackForth(Now(), attempt);
      attempts := attempts[next := attempt];
      activeTask := Some(next);
      next := next + 1;
    }

    /** The rest of `launchConnection` once no task is tracked: a new one is, unless there is no route ID for it. */
    method OpenAttempt(generation: nat, construction: Construction, how: Scheduling)
      requires Valid() && activeTask.None? && generation <= lifecycleGeneration
      modifies this
      ensures Valid() && Now() == Open(old(Now()), generation, construction, how)
      ensures activeConnection == old(activeConnection) && lifecycleGeneration == old(lifecycleGeneration)
      ensures if construction.NoRouteID? then Now() == old(Now())
        else activeTask.Some? && activeTask.value in attempts && activeTask.value !in old(attempts)
    {
      hide Schedule, Bounded;
      if construction.NoRouteID? {
        return;
      }
      if construction.Constructs? {
        TrackTask(Connecting(generation));
        return;
      }
      if construction.Throws? {
        var fired := ScheduleRetry(generation, how);
        if fired {
          TrackTask(Connecting(generation));
        }
      }
      TrackTask(Finishing);
    }

    /**
     Nothing happens for a stale generation or beside a connection; beside a tracked task the launch waits and no
     attempt is added; otherwise a new attempt is tracked.
     */
    method LaunchConnection(generation: nat, construction: Construction, how: Scheduling)
      requires Valid() && generation <= lifecycleGeneration
      modifies this
      ensures Valid() && Now() == LaunchNow(old(Now()), generation, construction, how)
      ensures activeConnection == old(activeConnection) && lifecycleGeneration == old(lifecycleGeneration)
      ensures !old(Current(generation)) || old(activeConnection).Some? ==> Now() == old(Now())
      ensures old(activeTask).Some? ==> attempts == old(attempts) && activeTask == old(activeTask)
      ensures old(Current(generation)) && old(activeConnection).None? ==>
        if old(activeTask).Some? then waiting == old(waiting) + [Launch(generation, old(activeTask).value)]
        else if construction.NoRouteID? then Now() == old(Now())
        else activeTask.Some? && activeTask.value in attempts && activeTask.value !in old(attempts)
    {
      LaunchForth(Now(), generation, construction, how);
      hide Bounded, Open;
      if !(sessionStarted && lifecycleGeneration == generation) || activeConnection.Some? {
        return;
      }
      if activeTask.Some? {
        waiting := waiting + [Launch(generation, activeTask.value)];
        return;
      }
      OpenAttempt(generation, construction, how);
    }

    /** A stale generation schedules nothing and launches nothing. */
    method RetryNow(generation: nat, how: Scheduling, construction: Construction, again: Scheduling)
      requires Valid() && generation <= lifecycleGeneration
      modifies this
      ensures Valid() && Now() == RetryAfter(old(Now()), generation, how, construction, again)
      ensures activeConnection == old(activeConnection) && lifecycleGeneration == old(lifecycleGeneration)
      ensures !old(Current(generation)) || old(activeConnection).Some? ==> Now() == old(Now())
      ensures old(activeTask).Some? ==> attempts == old(attempts) && activeTask == old(activeTask)
    {
      hide Bounded, LaunchNow;
      var fired := ScheduleRetry(generation, how);
      if fired {
        LaunchConnection(generation, construction, again);
      }
    }

    /** A launch that waited for an earlier attempt looks again at everything it had checked. */
    method Resume(k: nat, construction: Construction, how: Scheduling)
      requires Valid() && k < |waiting| && waiting[k].after !in attempts
      modifies this
      ensures Valid() && Now() == Step(old(Now()), Resumes(k, construction, how))
      ensures attempts != old(attempts) ==>
        old(Current(waiting[k].generation)) && old(activeConnection).None? && old(activeTask).None?
    {
      StepBounded(Now(), Resumes(k, construction, how));
      WithoutValid(Now(), k);
      var generation := waiting[k].generation;
      waiting := Without(waiting, k);
      hide Bounded, Open;
      if !(sessionStarted && lifecycleGeneration == generation) || activeConnection.Some? || activeTask.Some? {
        return;
      }
      OpenAttempt(generation, construction, how);
    }

    /** The timer's callback. */
    method Fire(construction: Construction, how: Scheduling)
      requires Valid()
      modifies this
      ensures Valid() && Now() == Step(old(Now()), TimerFires(construction, how))
      ensures old(retryDeadline).None? ==> Now() == old(Now())
      ensures activeConnection == old(activeConnection)
      ensures !old(sessionStarted) || old(activeConnection).Some? || old(activeTask).Some? ==>
        retryDeadline.None? && attempts == old(attempts)
    {
      StepBounded(Now(), TimerFires(construction, how));
      hide LaunchNow;
      if retryDeadline.None? {
        return;
      }
      var generation := retryDeadline.value.generation;
      retryDeadline := None;
      LaunchConnection(generation, construction, how);
    }

    /** The end of the `session_start` handler, when it gets that far, and `connectOnce` up to its first await. */
    method StartSession(connects: bool)
      requires Valid()
      modifies this
      ensures Valid() && Now() == Step(old(Now()), SessionStarts(connects))
      ensures sessionStarted && attempts == old(attempts) && retryDeadline == old(retryDeadline)
    {
      StepBounded(Now(), SessionStarts(connects));
      sessionStarted := true;
      if !connects {
        return;
      }
      startupAttempted := false;
      ConnectOnce();
    }

    method ConnectOnce()
      modifies this
      ensures Now() == BeginStartup(old(Now()))
      ensures starting != old(starting) ==> sessionStarted && activeConnection.None? && !startupAttempted
    {
      if !sessionStarted || activeConnection.Some? {
        return;
      }
      if startupAttempted {
        return;
      }
      starting := starting + [Startup(lifecycleGeneration, activeTask)];
    }

    /** `connectOnce` after the attempt it waited for. */
    method ConnectAfterTask(k: nat)
      requires Valid() && k < |starting| && starting[k].after.Some? && starting[k].after.value !in attempts
      modifies this
      ensures Valid() && Now() == Step(old(Now()), StartupAwaits(k))
      ensures |starting| < |old(starting)| <==> !sessionStarted || activeConnection.Some?
    {
      StepBounded(Now(), StartupAwaits(k));
      if !sessionStarted || activeConnection.Some? {
        starting := Without(starting, k);
        return;
      }
      starting := starting[k := starting[k].(after := None)];
    }

    /** `connectOnce` once its configuration is read: a start-up of an earlier generation does nothing more. */
    method ConnectConfigured(k: nat, configured: bool, construction: Construction, how: Scheduling)
      requires Valid() && k < |starting| && starting[k].after.None?
      modifies this
      ensures Valid() && Now() == Step(old(Now()), StartsUp(k, configured, construction, how))
      ensures !configured || old(starting[k].generation != lifecycleGeneration) ==>
        attempts == old(attempts) && retryDeadline == old(retryDeadline) && waiting == old(waiting)
    {
      StepBounded(Now(), StartsUp(k, configured, construction, how));
      ConfiguredIs(Now(), k, configured, construction, how);
      LaunchingValid(Now(), k);
      var generation := starting[k].generation;
      ghost var goal := Step(Now(), StartsUp(k, configured, construction, how));
      hide LaunchNow, Step, FinishStartup, Bounded, Schedule, Open, Track, RetryAfter;
      starting := Without(starting, k);
      startupAttempted := true;
      if configured && generation == lifecycleGeneration {
        retryDeadline := None;
        startups := startups + {lifecycleGeneration};
        assert Now() == Launching(old(Now()), k);
        LaunchConnection(generation, construction, how);
      }
      assert Now() == goal;
    }

    /** The attempt's result: only the current generation retains a connection that is still open. */
    method Retain(id: nat, open: bool, how: Scheduling, construction: Construction, again: Scheduling)
      requires Valid() && id in attempts && attempts[id].Connecting?
      modifies this
      ensures Valid() && Now() == Step(old(Now()), Connected(id, open, how, construction, again))
      ensures activeConnection != old(activeConnection) ==>
        open && activeConnection == Some(lifecycleGeneration) && old(attempts[id].generation) == lifecycleGeneration
          && retryIndex == 0
    {
      StepBounded(Now(), Connected(id, open, how, construction, again));
      RetainedIs(Now(), id, open, how, construction, again);
      FinishForth(Now(), id);
      GenerationBelow(Now(), id);
      var generation := attempts[id].generation;
      ghost var finished := Finished(Now(), id);
      ghost var goal := Step(Now(), Connected(id, open, how, construction, again));
      hide Bounded, RetryAfter, Step, Forth, LaunchNow, Schedule, Open, Track, Onward;
      attempts := attempts[id := Finishing];
      assert Now() == finished;
      if sessionStarted && lifecycleGeneration == generation {
        if open {
          activeConnection := Some(generation);
          retryIndex, reconnectExhausted, scheduled := 0, false, 0;
        } else {
          RetryNow(generation, how, construction, again);
        }
      }
      assert Now() == goal;
    }

    method Reject(id: nat, how: Scheduling, construction: Construction, again: Scheduling)
      requires Valid() && id in attempts && attempts[id].Connecting?
      modifies this
      ensures Valid() && Now() == Step(old(Now()), AttemptFails(id, how, construction, again))
      ensures activeConnection == old(activeConnection)
      ensures !old(Current(attempts[id].generation)) || old(activeConnection).Some? ==>
        attempts == old(attempts)[id := Finishing] && retryDeadline == old(retryDeadline)
          && retryIndex == old(retryIndex)
    {
      StepBounded(Now(), AttemptFails(id, how, construction, again));
      RejectedIs(Now(), id, how, construction, again);
      FinishForth(Now(), id);
      GenerationBelow(Now(), id);
      var generation := attempts[id].generation;
      ghost var finished := Finished(Now(), id);
      ghost var goal := Step(Now(), AttemptFails(id, how, construction, again));
      hide Bounded, RetryAfter, Step, Forth, LaunchNow, Schedule, Open, Track, Onward;
      attempts := attempts[id := Finishing];
      assert Now() == finished;
      RetryNow(generation, how, construction, again);
      assert Now() == goal;
    }

    method OnDisconnected(how: Scheduling, construction: Construction, again: Scheduling)
      requires Valid()
      modifies this
      ensures Valid() && Now() == Step(old(Now()), Disconnects(how, construction, again))
      ensures activeConnection.None?
      ensures old(activeConnection).None? || old(!Current(activeConnection.value)) ==>
        attempts == old(attempts) && retryDeadline == old(retryDeadline) && retryIndex == old(retryIndex)
      ensures old(activeTask).Some? ==> attempts == old(attempts) && activeTask == old(activeTask)
    {
      StepBounded(Now(), Disconnects(how, construction, again));
      if activeConnection.None? {
        return;
      }
      assert Bounded(Now().(connection := None)) && activeConnection.value <= lifecycleGeneration;
      ghost var dropped := Now().(connection := None);
      ghost var goal := Step(Now(), Disconnects(how, construction, again));
      assert goal == RetryAfter(dropped, activeConnection.value, how, construction, again);
      hide Bounded, RetryAfter, Step, Forth, LaunchNow, Schedule, Open, Track, Onward;
      var generation := activeConnection.value;
      activeConnection := None;
      assert Now() == dropped;
      RetryNow(generation, how, construction, again);
      assert Now() == goal;
    }

    /** The part of `stopSession` before its first await: whatever comes later of the old generation is stale. */
    method StopSession()
      requires Valid()
      modifies this
      ensures Valid() && Now() == Step(old(Now()), StopBegins)
      ensures retryDeadline.None? && forall generation: nat :: generation <= old(lifecycleGeneration) ==>
        !Current(generation)
    {
      StepBounded(Now(), StopBegins);
      sessionStarted := false;
      lifecycleGeneration := lifecycleGeneration + 1;
      retryDeadline := None;
    }

    /** Its next part, once the tracked attempt is over: the connection is given up. */
    method DropConnection()
      requires Valid()
      modifies this`activeConnection
      ensures Valid() && Now() == Step(old(Now()), StopDropsConnection)
      ensures activeConnection.None?
    {
      StepBounded(Now(), StopDropsConnection);
      activeConnection := None;
    }

    /** Its last part, once that connection is closed: retries count from the start again. */
    method EndStop()
      requires Valid()
      modifies this`retryIndex, this`reconnectExhausted, this`scheduled
      ensures Valid() && Now() == Step(old(Now()), StopEnds)
      ensures retryIndex == 0 && !reconnectExhausted
    {
      StepBounded(Now(), StopEnds);
      retryIndex, reconnectExhausted, scheduled := 0, false, 0;
    }
  }

  function Finished(s: State, id: nat): State {
    s.(attempts := s.attempts[id := Finishing])
  }

  lemma GenerationBelow(s: State, id: nat)
    requires Bounded(s) && IsConnecting(s, id)
    ensures s.attempts[id].generation <= s.generation
  {
  }

  lemma WithoutValid(s: State, k: nat)
    requires Bounded(s) && k < |s.waiting|
    ensures Bounded(s.(waiting := Without(s.waiting, k))) && s.waiting[k].generation <= s.generation
  {
    assert forall j :: 0 <= j < |s.waiting| - 1 ==> Without(s.waiting, k)[j] == s.waiting[if j < k then j else j + 1];
  }

  lemma LaunchingValid(s: State, k: nat)
    requires Bounded(s) && k < |s.starting|
    ensures Bounded(Launching(s, k))
  {
  }

  lemma ConfiguredIs(s: State, k: nat, configured: bool, construction: Construction, how: Scheduling)
    requires k < |s.starting| && s.starting[k].after.None?
    ensures Step(s, StartsUp(k, configured, construction, how)) ==
      if !configured || s.starting[k].generation != s.generation
        then s.(starting := Without(s.starting, k), attempted := true)
      else LaunchNow(Launching(s, k), s.generation, construction, how)
  {
    hide LaunchNow;
  }

  lemma RejectedIs(s: State, id: nat, how: Scheduling, construction: Construction, again: Scheduling)
    requires id in s.attempts && s.attempts[id].Connecting?
    ensures Step(s, AttemptFails(id, how, construction, again)) ==
      RetryAfter(Finished(s, id), s.attempts[id].generation, how, construction, again)
  {
  }

  lemma RetainedIs(s: State, id: nat, open: bool, how: Scheduling, construction: Construction, again: Scheduling)
    requires id in s.attempts && s.attempts[id].Connecting?
    ensures var g := s.attempts[id].generation;
      var finishing := s.(attempts := s.attempts[id := Finishing]);
      Step(s, Connected(id, open, how, construction, again)) ==
      if !IsCurrent(s, g) then finishing
      else if open then finishing.(connection := Some(g), retryIndex := 0, exhausted := false, scheduled := 0)
      else RetryAfter(finishing, g, how, construction, again)
  {
  }
}
