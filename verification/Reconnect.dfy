/**
 The client's reconnect lifecycle: retry delays, and the tasks that open, retain and lose one connection.

 A step is what runs between two awaits.  `Fires` is a scheduler that calls back before it returns.
 */
module Reconnect {
  import opened Wrappers

  // -------- delays --------

  const INITIAL_MS: real := 500.0
  const CAP_MS: real := 30_000.0
  const MAX_RETRIES: nat := 10

  function Power2(n: nat): (p: real)
    ensures p >= 1.0
  {
    if n == 0 then 1.0 else 2.0 * Power2(n - 1)
  }

  function Least(a: real, b: real): real {
    if a <= b then a else b
  }

  /** Rounding half up. */
  function Round(x: real): int {
    (x + 0.5).Floor
  }

  function Nominal(retryIndex: nat): real {
    Least(CAP_MS, INITIAL_MS * Power2(if retryIndex <= 32 then retryIndex else 32))
  }

  function Times(a: real, f: real): real {
    a * f
  }

  function Jitter(sample: real): real {
    0.75 + 0.5 * sample
  }

  function DelayMS(retryIndex: int, sample: real): Result<int> {
    if retryIndex < 0 || retryIndex >= MAX_RETRIES then Failure("Reconnect retry index is invalid.")
    else if sample < 0.0 || sample >= 1.0 then Failure("Reconnect randomness must be in [0, 1).")
    else
      var rounded := Round(Times(Nominal(retryIndex), Jitter(sample)));
      Success(if rounded <= 30_000 then rounded else 30_000)
  }

  lemma {:induction false} NominalGrows(i: nat)
    requires i < 32
    ensures 500.0 <= Nominal(i) <= Nominal(i + 1) <= CAP_MS
  {
    assert Power2(i + 1) == 2.0 * Power2(i);
  }

  lemma {:induction false} NominalMonotone(i: nat, j: nat)
    requires i <= j <= 32
    ensures 500.0 <= Nominal(i) <= Nominal(j) <= CAP_MS
    decreases j - i
  {
    if i == j {
      if i < 32 { NominalGrows(i); } else { NominalGrows(31); }
    } else {
      NominalMonotone(i, j - 1);
      NominalGrows(j - 1);
    }
  }

  lemma TimesMonotone(a: real, b: real, f: real, g: real)
    requires 0.0 <= a <= b && 0.0 <= f <= g
    ensures Times(a, f) <= Times(b, g)
  {
    var d, e := b - a, g - f;
    assert b * g == a * f + d * f + b * e;
    assert d * f >= 0.0 && b * e >= 0.0;
  }

  lemma RoundMonotone(a: real, b: real)
    requires a <= b
    ensures Round(a) <= Round(b)
  {
    var x, y := (a + 0.5).Floor, (b + 0.5).Floor;
    assert x as real <= a + 0.5 < (x + 1) as real;
    assert y as real <= b + 0.5 < (y + 1) as real;
    assert x as real < (y + 1) as real;
  }

  /**
   Every delay lies between 375 ms and 30 s; a later retry never waits less for the same sample, and a larger sample
   never waits less for the same retry.
   */
  lemma {:induction false} DelaysBoundedAndMonotone(i: int, j: int, sample: real, larger: real)
    requires 0 <= i <= j < MAX_RETRIES && 0.0 <= sample <= larger < 1.0
    ensures DelayMS(i, sample).Success? && DelayMS(j, larger).Success?
    ensures 375 <= DelayMS(i, sample).value <= DelayMS(j, larger).value <= 30_000
  {
    NominalMonotone(i, j);
    TimesMonotone(500.0, Nominal(i), 0.75, Jitter(sample));
    TimesMonotone(Nominal(i), Nominal(j), Jitter(sample), Jitter(larger));
    assert Times(500.0, 0.75) == 375.0 && Round(375.0) == 375;
    hide Nominal, Times, Jitter, Round;
    RoundMonotone(375.0, Times(Nominal(i), Jitter(sample)));
    RoundMonotone(Times(Nominal(i), Jitter(sample)), Times(Nominal(j), Jitter(larger)));
  }

  // -------- the lifecycle --------

  datatype Attempt = Connecting(generation: nat) | Finishing

  datatype Deadline = Deadline(generation: nat, retryIndex: nat)

  /** A launch that waits for an earlier attempt. */
  datatype Launch = Launch(generation: nat, after: nat)

  /** A `connectOnce` under way: waiting for an earlier attempt, and then for its configuration. */
  datatype Startup = Startup(generation: nat, after: Option<nat>)

  /**
   `attempts` are the connection operations not yet resolved, `task` the one the client tracks.  `scheduled` counts
   the retries scheduled since `retryIndex` was last reset, and `startups` the generations that launched at start-up.
   */
  datatype State = State(
    started: bool,
    attempted: bool,
    starting: seq<Startup>,
    generation: nat,
    connection: Option<nat>,
    attempts: map<nat, Attempt>,
    task: Option<nat>,
    next: nat,
    waiting: seq<Launch>,
    deadline: Option<Deadline>,
    retryIndex: nat,
    exhausted: bool,
    scheduled: nat,
    startups: set<nat>)

  function Start(): State {
    State(false, false, [], 0, None, map[], None, 0, [], None, 0, false, 0, {})
  }

  /**
   How a connection attempt is constructed, and how a retry is scheduled when it is not. Without a route ID the launch
   is over before anything is tracked.
   */
  datatype Construction = Constructs | Throws | ClockFails | NoRouteID

  datatype Scheduling = Arms | BadSample | Rejects | Fires

  predicate IsCurrent(s: State, generation: nat) {
    s.started && s.generation == generation
  }

  /** What scheduling a retry comes to: the state, and whether the callback has run already. */
  function Schedule(s: State, generation: nat, how: Scheduling): (State, bool) {
    if !IsCurrent(s, generation) || s.connection.Some? || s.deadline.Some? then (s, false)
    else if s.retryIndex >= MAX_RETRIES then (s.(exhausted := true), false)
    else if how.BadSample? then (s, false)
    else
      var counted := s.(retryIndex := s.retryIndex + 1);
      match how
      case Rejects => (counted, false)
      case Arms => (counted.(deadline := Some(Deadline(generation, s.retryIndex + 1)), scheduled := s.scheduled + 1),
        false)
      case Fires => (counted.(scheduled := s.scheduled + 1), true)
      case BadSample => (s, false)
  }

  function Track(s: State, attempt: Attempt): State {
    s.(attempts := s.attempts[s.next := attempt], task := Some(s.next), next := s.next + 1)
  }

  /** Opens an attempt now.  A construction that throws schedules a retry on the spot. */
  function Open(s: State, generation: nat, construction: Construction, how: Scheduling): State
    requires s.task.None?
  {
    match construction
    case Constructs => Track(s, Connecting(generation))
    case ClockFails => Track(s, Finishing)
    case NoRouteID => s
    case Throws =>
      var (after, fired) := Schedule(s, generation, how);
      // A callback that runs here launches before this operation is tracked: its attempt is tracked first.
      if fired then Track(Track(after, Connecting(generation)), Finishing) else Track(after, Finishing)
  }

  function LaunchNow(s: State, generation: nat, construction: Construction, how: Scheduling): State {
    if !IsCurrent(s, generation) || s.connection.Some? then s
    else if s.task.Some? then s.(waiting := s.waiting + [Launch(generation, s.task.value)])
    else Open(s, generation, construction, how)
  }

  /** Schedules a retry; a callback that runs at once launches, and `again` is what scheduling does if that fails. */
  function RetryAfter(s: State, generation: nat, how: Scheduling, construction: Construction, again: Scheduling): State
  {
    var (after, fired) := Schedule(s, generation, how);
    if fired then LaunchNow(after, generation, construction, again) else after
  }

  datatype Event =
    | SessionStarts(connects: bool)
    | StartupAwaits(k: nat)
    | StopBegins
    | StopDropsConnection
    | StopEnds
    | StartsUp(k: nat, configured: bool, construction: Construction, how: Scheduling)
    | TimerFires(construction: Construction, how: Scheduling)
    | Connected(id: nat, open: bool, how: Scheduling, construction: Construction, again: Scheduling)
    | AttemptFails(id: nat, how: Scheduling, construction: Construction, again: Scheduling)
    | TaskFinishes(id: nat)
    | Resumes(k: nat, construction: Construction, how: Scheduling)
    | Disconnects(how: Scheduling, construction: Construction, again: Scheduling)

  predicate IsConnecting(s: State, id: nat) {
    id in s.attempts && s.attempts[id].Connecting?
  }

  function Without<T>(w: seq<T>, k: nat): seq<T>
    requires k < |w|
  {
    w[..k] + w[k + 1..]
  }

  /** The part of `connectOnce` before its first await. */
  function BeginStartup(s: State): State {
    if !s.started || s.connection.Some? || s.attempted then s
    else s.(starting := s.starting + [Startup(s.generation, s.task)])
  }

  /** Its second part, when it had to wait for a task. */
  function AwaitStartup(s: State, k: nat): State {
    if k >= |s.starting| || s.starting[k].after.None? || s.starting[k].after.value in s.attempts then s
    else if !s.started || s.connection.Some? then s.(starting := Without(s.starting, k))
    else s.(starting := s.starting[k := s.starting[k].(after := None)])
  }

  /** Its last part, once the configuration is read: an endpoint and a host name, or not. */
  function FinishStartup(s: State, k: nat, configured: bool, construction: Construction, how: Scheduling): State {
    if k >= |s.starting| || s.starting[k].after.Some? then s
    else
      var tried := s.(starting := Without(s.starting, k), attempted := true);
      if !configured || s.starting[k].generation != s.generation then tried
      else LaunchNow(tried.(deadline := None, startups := s.startups + {s.generation}), s.generation, construction, how)
  }

  function Step(s: State, e: Event): State {
    match e
    case SessionStarts(connects) =>
      if connects then BeginStartup(s.(started := true, attempted := false)) else s.(started := true)
    case StartupAwaits(k) => AwaitStartup(s, k)
    case StopBegins => s.(started := false, generation := s.generation + 1, deadline := None)
    case StopDropsConnection => s.(connection := None)
    case StopEnds => s.(retryIndex := 0, exhausted := false, scheduled := 0)
    case StartsUp(k, configured, construction, how) => FinishStartup(s, k, configured, construction, how)
    case TimerFires(construction, how) =>
      if s.deadline.None? then s else LaunchNow(s.(deadline := None), s.deadline.value.generation, construction, how)
    case Connected(id, open, how, construction, again) =>
      if !IsConnecting(s, id) then s
      else
        var g := s.attempts[id].generation;
        var finishing := s.(attempts := s.attempts[id := Finishing]);
        if !IsCurrent(s, g) then finishing
        else if open then finishing.(connection := Some(g), retryIndex := 0, exhausted := false, scheduled := 0)
        else RetryAfter(finishing, g, how, construction, again)
    case AttemptFails(id, how, construction, again) =>
      if !IsConnecting(s, id) then s
      else RetryAfter(s.(attempts := s.attempts[id := Finishing]), s.attempts[id].generation, how, construction, again)
    case TaskFinishes(id) =>
      if id in s.attempts && s.attempts[id].Finishing? then
        s.(attempts := s.attempts - {id}, task := if s.task == Some(id) then None else s.task)
      else s
    case Resumes(k, construction, how) =>
      if k < |s.waiting| && s.waiting[k].after !in s.attempts then
        var g := s.waiting[k].generation;
        var resumed := s.(waiting := Without(s.waiting, k));
        if !IsCurrent(s, g) || s.connection.Some? || s.task.Some? then resumed else Open(resumed, g, construction, how)
      else s
    case Disconnects(how, construction, again) =>
      if s.connection.None? then s else RetryAfter(s.(connection := None), s.connection.value, how, construction, again)
  }

  function Run(events: seq<Event>): State {
    if events == [] then Start() else Step(Run(events[..|events| - 1]), events[|events| - 1])
  }

  // -------- when the guarantees hold --------

  /** The launch opens now, and its construction throws with a retry whose callback runs before it returns. */
  predicate CallsBack(s: State, g: nat, construction: Construction, how: Scheduling) {
    IsCurrent(s, g) && s.connection.None? && s.task.None? && construction.Throws? && Schedule(s, g, how).1
  }

  /** Does a retry's callback run inside a failing construction during this step? */
  predicate CallsBackInside(s: State, e: Event) {
    match e
    case StartsUp(k, configured, construction, how) =>
      && k < |s.starting| && s.starting[k] == Startup(s.generation, None) && configured
      && CallsBack(s.(deadline := None), s.generation, construction, how)
    case TimerFires(construction, how) =>
      s.deadline.Some? && CallsBack(s.(deadline := None), s.deadline.value.generation, construction, how)
    case Resumes(k, construction, how) =>
      k < |s.waiting| && s.waiting[k].after !in s.attempts && CallsBack(s, s.waiting[k].generation, construction, how)
    case Disconnects(how, construction, again) =>
      s.connection.Some? &&
      var dropped := s.(connection := None);
      var g := s.connection.value;
      Schedule(dropped, g, how).1 && CallsBack(Schedule(dropped, g, how).0, g, construction, again)
    case _ => false
  }

  /** A launch that waited opens a connection although a retry is armed: it looks at everything again but at that. */
  predicate ResumesBeside(s: State, e: Event) {
    && e.Resumes? && e.construction.Constructs? && e.k < |s.waiting| && s.waiting[e.k].after !in s.attempts
    && IsCurrent(s, s.waiting[e.k].generation) && s.connection.None? && s.task.None? && s.deadline.Some?
  }

  /** An attempt of the current generation is connecting, and the event is not its outcome. */
  ghost predicate OtherConnecting(s: State, e: Event) {
    exists id :: IsConnecting(s, id) && s.attempts[id].generation == s.generation
      && !(e.Connected? && e.id == id) && !(e.AttemptFails? && e.id == id)
  }

  /** A retry is armed, which looks at the connection and at the deadline but not at attempts that are connecting. */
  ghost predicate ArmsBeside(s: State, e: Event) {
    s.deadline.None? && Step(s, e).deadline.Some? && OtherConnecting(s, e)
  }

  /** One start-up launch per generation: session starts do not overlap. */
  predicate FreshStartup(s: State, e: Event) {
    e.StartsUp? && e.configured ==> s.generation !in s.startups
  }

  ghost predicate Calm(events: seq<Event>) {
    forall n: nat :: n < |events| ==> !CallsBackInside(Run(events[..n]), events[n])
  }

  ghost predicate Orderly(events: seq<Event>) {
    Calm(events) && forall n: nat :: n < |events| ==> FreshStartup(Run(events[..n]), events[n])
  }

  // -------- invariants --------

  function Count(w: seq<Launch>, generation: nat): nat {
    if w == [] then 0 else Count(w[..|w| - 1], generation) + (if w[|w| - 1].generation == generation then 1 else 0)
  }

  function Bit(b: bool): nat {
    if b then 1 else 0
  }

  predicate ConnectingNow(s: State) {
    s.task.Some? && IsConnecting(s, s.task.value) && s.attempts[s.task.value].generation == s.generation
  }

  /** The ways the current generation's one thread of control can stand: only one of them at a time. */
  function Batons(s: State): nat {
    Bit(s.generation !in s.startups) + Bit(s.deadline.Some?) + Count(s.waiting, s.generation)
    + Bit(ConnectingNow(s)) + Bit(s.connection == Some(s.generation))
  }

  /** The tracked task is the only unresolved attempt. */
  ghost predicate OneAttempt(s: State) {
    && (forall id :: id in s.attempts ==> s.task == Some(id))
    && (s.task.Some? ==> s.task.value in s.attempts)
  }

  /** At most one attempt is unresolved, and it is the tracked one. */
  ghost predicate Single(s: State) {
    forall a, b :: a in s.attempts && b in s.attempts ==> a == b && s.task == Some(a)
  }

  /** No deadline is armed beside a retained connection, nor beside an attempt of the current generation. */
  ghost predicate Quiet(s: State) {
    s.deadline.Some? ==>
      s.connection.None? && forall id :: id in s.attempts && s.attempts[id].Connecting? ==>
        s.attempts[id].generation != s.generation
  }

  ghost predicate Bounded(s: State) {
    && s.scheduled <= s.retryIndex <= MAX_RETRIES
    && (forall id :: id in s.attempts ==> id < s.next)
    && (forall id :: id in s.attempts && s.attempts[id].Connecting? ==> s.attempts[id].generation <= s.generation)
    && (forall k :: 0 <= k < |s.waiting| ==> s.waiting[k].generation <= s.generation)
    && (s.connection.Some? ==> s.connection.value <= s.generation)
    && (forall g :: g in s.startups ==> g <= s.generation)
    && (s.deadline.Some? ==> s.deadline.value.generation == s.generation)
  }
}
