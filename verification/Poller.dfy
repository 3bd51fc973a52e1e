/** The poll loop with its timer, notifications and cancellation; one action is one step of the
    loop or of its surroundings. */
module Poller {
  import opened Common
  import opened Delays
  import opened Timers

  /** Where the loop is: in Poll, at the first select, before arming the timer, in the second
      select, after it, or out of the loop. */
  datatype Pc = Polling | Selecting | Arming | Sleeping | Woken(byTimer: bool) | Returned

  datatype Cause = First | Notified | TimedOut | NoDelay

  datatype Begin = Begin(time: Instant, cause: Cause)

  datatype State = State(
    now: Instant,
    pc: Pc,
    timer: TimerState,
    token: bool,
    cancelled: bool,
    // What follows only records the past.
    begins: seq<Begin>,
    armedAt: Instant,
    deadline: Instant,
    pending: bool,
    notifies: nat,
    taken: nat,
    longest: int64)
  {
    function BeginPoll(cause: Cause): State {
      this.(pc := Polling, begins := begins + [Begin(now, cause)], pending := false)
    }
  }

  datatype Action =
    // surroundings
    | Advance(dt: nat)
    | Fire
    | Notify
    | Cancel
    // the loop
    | EndPoll
    | SeeCancel
    | TakeToken
    | PassOn
    | Arm(wanted: int64, random: real)
    | TakeTick
    | StopTimer

  predicate IsLoopAction(a: Action) {
    !(a.Advance? || a.Fire? || a.Notify? || a.Cancel?)
  }

  /** The first select takes its default only if nothing else is ready. */
  predicate Enabled(s: State, a: Action) {
    match a
    case Advance(_) => true
    case Fire => s.timer.CanFire(s.now)
    case Notify => true
    case Cancel => true
    case EndPoll => s.pc.Polling?
    case SeeCancel => (s.pc.Selecting? || s.pc.Sleeping?) && s.cancelled
    case TakeToken => (s.pc.Selecting? || s.pc.Sleeping?) && s.token
    case PassOn => s.pc.Selecting? && !s.cancelled && !s.token
    case Arm(_, random) => s.pc.Arming? && 0.0 <= random < 1.0
    case TakeTick => s.pc.Sleeping? && s.timer.tick
    case StopTimer => s.pc.Woken?
  }

  function Do(o: Options, s: State, a: Action): State
    requires Enabled(s, a)
  {
    match a
    case Advance(dt) => s.(now := s.now + dt)
    case Fire => s.(timer := s.timer.Fired())
    case Notify => s.(token := true, pending := true, notifies := s.notifies + 1)
    case Cancel => s.(cancelled := true)
    case EndPoll => s.(pc := Selecting)
    case SeeCancel => s.(pc := Returned)
    case TakeToken =>
      var s1 := s.(token := false, taken := s.taken + 1);
      if s.pc.Selecting? then s1.BeginPoll(Notified) else s1.(pc := Woken(false))
    case PassOn => s.(pc := Arming)
    case Arm(wanted, random) =>
      var delay := DelayOf(o, wanted, random);
      var s1 := s.(longest := if wanted > s.longest then wanted else s.longest);
      if delay > 0 then s1.(pc := Sleeping, timer := s.timer.Armed(s.now + delay), armedAt := s.now, deadline := s.now + delay)
      else s1.BeginPoll(NoDelay)
    case TakeTick => s.(pc := Woken(true), timer := s.timer.(tick := false))
    case StopTimer =>
      s.(timer := s.timer.StoppedAndDrained()).BeginPoll(if s.pc.byTimer then TimedOut else Notified)
  }

  predicate Init(s: State) {
    && s.pc.Polling? && s.timer == STOPPED
    && s.begins == [Begin(s.now, First)]
    && !s.pending && s.taken == 0 && s.longest == INT64_MIN && s.notifies == (if s.token then 1 else 0)
  }

  predicate Runs(o: Options, s0: State, actions: seq<Action>, s: State)
    decreases |actions|
  {
    if actions == [] then s == s0
    else Enabled(s0, actions[0]) && Runs(o, Do(o, s0, actions[0]), actions[1..], s)
  }

  ghost predicate Reachable(o: Options, s: State) {
    exists s0, actions :: Init(s0) && Runs(o, s0, actions, s)
  }

  // ---------------------------------------------------------------- invariants

  /** While the loop does not sleep, the timer is stopped and its channel empty; while it sleeps,
      a tick means that the deadline has passed. */
  predicate TimerOk(s: State) {
    match s.pc
    case Sleeping => s.timer == TimerState(Some(s.deadline), false) || (s.timer == TimerState(None, true) && s.deadline <= s.now)
    case Woken(true) => s.timer == STOPPED && s.deadline <= s.now
    case Woken(false) => s.timer == TimerState(Some(s.deadline), false) || s.timer == TimerState(None, true)
    case Returned => true
    case _ => s.timer == STOPPED
  }

  predicate PendingOk(s: State) {
    && (s.pc.Returned? ==> s.cancelled)
    && (s.pending && !s.pc.Returned? ==> s.token || s.pc.Woken?)
  }

  function Count(begins: seq<Begin>): nat {
    if begins == [] then 0
    else Count(begins[..|begins| - 1]) + if begins[|begins| - 1].cause.Notified? then 1 else 0
  }

  predicate CountOk(s: State) {
    && s.taken + (if s.token then 1 else 0) <= s.notifies
    && Count(s.begins) + (if s.pc == Woken(false) then 1 else 0) == s.taken
  }

  /** The time between two polls of which the second was not asked for. */
  predicate Apart(o: Options, a: Instant, b: Instant) {
    a + 1 <= b && Shortest(o) <= (b - a) as real
  }

  predicate SpacingOk(o: Options, s: State) {
    && s.begins != []
    && s.begins[|s.begins| - 1].time <= s.now
    && (forall i | 0 < i < |s.begins| :: s.begins[i - 1].time <= s.begins[i].time && !s.begins[i].cause.First?)
    && (InRange(o, s.longest) ==>
          && (forall i | 0 < i < |s.begins| ::
                !s.begins[i].cause.NoDelay?
                && (s.begins[i].cause.TimedOut? ==> Apart(o, s.begins[i - 1].time, s.begins[i].time)))
          && (s.pc.Sleeping? || s.pc.Woken? ==> Apart(o, s.begins[|s.begins| - 1].time, s.deadline)))
  }

  /** A sleep that goes on began in the past and is not too long. */
  predicate SleepOk(o: Options, s: State) {
    s.pc.Sleeping? ==>
      && s.armedAt <= s.now && s.armedAt < s.deadline
      && (InRange(o, s.longest) && o.maxDelay != 0 ==> (s.deadline - s.armedAt) as real <= Longest(o))
  }

  predicate Inv(o: Options, s: State) {
    TimerOk(s) && PendingOk(s) && CountOk(s) && (Sane(o) ==> SpacingOk(o, s) && SleepOk(o, s))
  }

  lemma StepKeepsTimer(o: Options, s: State, a: Action)
    requires TimerOk(s) && Enabled(s, a)
    ensures TimerOk(Do(o, s, a))
  {
    hide DelayOf;
  }

  lemma StepKeepsPending(o: Options, s: State, a: Action)
    requires PendingOk(s) && Enabled(s, a)
    ensures PendingOk(Do(o, s, a))
  {
    hide DelayOf;
  }

  lemma BeginCounts(s: State, cause: Cause)
    ensures Count(s.BeginPoll(cause).begins) == Count(s.begins) + if cause.Notified? then 1 else 0
  {
    var b := Begin(s.now, cause);
    assert (s.begins + [b])[..|s.begins|] == s.begins;
  }

  lemma StepKeepsCount(o: Options, s: State, a: Action)
    requires CountOk(s) && Enabled(s, a)
    ensures CountOk(Do(o, s, a))
  {
    hide DelayOf, Count;
    match a
    case TakeToken => BeginCounts(s, Notified);
    case Arm(_, _) => BeginCounts(s, NoDelay);
    case StopTimer => BeginCounts(s, if s.pc.byTimer then TimedOut else Notified);
    case _ =>
  }

  lemma ArmKeepsSpacing(o: Options, s: State, wanted: int64, random: real)
    requires Sane(o) && SpacingOk(o, s) && Enabled(s, Arm(wanted, random))
    ensures SpacingOk(o, Do(o, s, Arm(wanted, random)))
  {
    hide DelayOf, Fits, Shortest, InRange;
    var t := Do(o, s, Arm(wanted, random));
    if InRange(o, t.longest) {
      InRangeBelow(o, wanted, t.longest);
      InRangeBelow(o, s.longest, t.longest);
      AllFitIff(o, wanted);
      DelayBounds(o, wanted, random);
    }
  }

  lemma BeginKeepsSpacing(o: Options, s: State, cause: Cause)
    requires SpacingOk(o, s) && !cause.First? && !cause.NoDelay?
    requires InRange(o, s.longest) && cause.TimedOut? ==> Apart(o, s.begins[|s.begins| - 1].time, s.now)
    ensures SpacingOk(o, s.BeginPoll(cause))
  {
  }

  lemma ApartLater(o: Options, a: Instant, b: Instant, c: Instant)
    requires Apart(o, a, b) && b <= c
    ensures Apart(o, a, c)
  {
  }

  lemma GoingOnKeepsSpacing(o: Options, s: State, t: State)
    requires SpacingOk(o, s) && t.begins == s.begins && t.deadline == s.deadline && t.longest == s.longest && s.now <= t.now
    requires t.pc.Sleeping? || t.pc.Woken? ==> s.pc.Sleeping? || s.pc.Woken?
    ensures SpacingOk(o, t)
  {
    hide Apart;
  }

  lemma StopTimerKeepsSpacing(o: Options, s: State)
    requires TimerOk(s) && SpacingOk(o, s) && s.pc.Woken?
    ensures SpacingOk(o, Do(o, s, StopTimer))
  {
    hide Apart;
    if InRange(o, s.longest) && s.pc.byTimer {
      ApartLater(o, s.begins[|s.begins| - 1].time, s.deadline, s.now);
    }
    BeginKeepsSpacing(o, s, if s.pc.byTimer then TimedOut else Notified);
  }

  lemma StepKeepsSpacing(o: Options, s: State, a: Action)
    requires Sane(o) && TimerOk(s) && SpacingOk(o, s) && Enabled(s, a)
    ensures SpacingOk(o, Do(o, s, a))
  {
    match a
    case Arm(wanted, random) => ArmKeepsSpacing(o, s, wanted, random);
    case TakeToken => TakeTokenKeepsSpacing(o, s);
    case StopTimer => StopTimerKeepsSpacing(o, s);
    case _ =>
      hide SpacingOk, TimerOk;
      GoingOnKeepsSpacing(o, s, Do(o, s, a));
  }

  lemma TakeTokenKeepsSpacing(o: Options, s: State)
    requires SpacingOk(o, s) && Enabled(s, TakeToken)
    ensures SpacingOk(o, Do(o, s, TakeToken))
  {
    hide SpacingOk;
    var s1 := s.(token := false, taken := s.taken + 1);
    if s.pc.Selecting? {
      GoingOnKeepsSpacing(o, s, s1);
      BeginKeepsSpacing(o, s1, Notified);
    } else {
      GoingOnKeepsSpacing(o, s, s1.(pc := Woken(false)));
    }
  }

  lemma StepKeepsSleep(o: Options, s: State, a: Action)
    requires Sane(o) && SleepOk(o, s) && Enabled(s, a)
    ensures SleepOk(o, Do(o, s, a))
  {
    hide DelayOf, Fits, Shortest, Longest, InRange;
    if a.Arm? && InRange(o, Do(o, s, a).longest) {
      InRangeBelow(o, a.wanted, Do(o, s, a).longest);
      AllFitIff(o, a.wanted);
      DelayBounds(o, a.wanted, a.random);
    }
  }

  lemma StepInv(o: Options, s: State, a: Action)
    requires Inv(o, s) && Enabled(s, a)
    ensures Inv(o, Do(o, s, a))
  {
    hide Do, Enabled, TimerOk, PendingOk, CountOk, SpacingOk, SleepOk;
    StepKeepsTimer(o, s, a);
    StepKeepsPending(o, s, a);
    StepKeepsCount(o, s, a);
    if Sane(o) {
      StepKeepsSpacing(o, s, a);
      StepKeepsSleep(o, s, a);
    }
  }

  lemma {:induction false} RunInv(o: Options, s0: State, actions: seq<Action>, s: State)
    requires Inv(o, s0) && Runs(o, s0, actions, s)
    ensures Inv(o, s)
    decreases |actions|
  {
    hide Do, Enabled, Inv;
    if actions != [] {
      StepInv(o, s0, actions[0]);
      RunInv(o, Do(o, s0, actions[0]), actions[1..], s);
    }
  }

  lemma InitInv(o: Options, s: State)
    requires Init(s)
    ensures Inv(o, s)
  {
    hide Shortest;
    assert s.begins[..0] == [];
    assert Count([]) == 0;
  }

  lemma ReachableInv(o: Options, s: State)
    requires Reachable(o, s)
    ensures Inv(o, s)
  {
    hide Runs, Init, Inv;
    var s0, actions :| Init(s0) && Runs(o, s0, actions, s);
    InitInv(o, s0);
    RunInv(o, s0, actions, s);
  }

  // ---------------------------------------------------------------- notifications

  /** In every run: a notification sent since the latest poll began is in the channel, or the loop
      has taken it, or the tick of its timer, and has nothing left to do before it polls. */
  lemma NoLostNotification(o: Options, s: State)
    requires Reachable(o, s) && s.pending && !s.cancelled
    ensures s.token || s.pc.Woken?
    ensures forall a | Enabled(s, a) && IsLoopAction(a) && s.pc.Woken? :: Do(o, s, a).pc.Polling?
  {
    ReachableInv(o, s);
  }

  /** The steps of the loop that are left before the poll that answers a notification. */
  function StepsLeft(pc: Pc): nat {
    match pc
    case Arming => 3
    case Polling => 2
    case Sleeping => 2
    case Selecting => 1
    case Woken(_) => 1
    case Returned => 0
  }

  /** After a notification the loop never waits for the timer: as long as the context is not
      cancelled it can always go on, and within three of its own steps the next poll begins. */
  lemma NotifiedPollFollows(o: Options, s: State)
    requires Reachable(o, s) && s.pending && !s.cancelled
    ensures Enabled(s, EndPoll) || Enabled(s, TakeToken) || Enabled(s, StopTimer) || Enabled(s, Arm(0, 0.0))
    ensures forall a | Enabled(s, a) && IsLoopAction(a) ::
              var t := Do(o, s, a);
              || (t.pc.Polling? && |t.begins| == |s.begins| + 1)
              || (t.begins == s.begins && t.pending && StepsLeft(t.pc) < StepsLeft(s.pc))
  {
    hide DelayOf, SpacingOk;
    ReachableInv(o, s);
  }

  /** Notifications never cause more polls than there were calls. */
  lemma NotificationsBoundPolls(o: Options, s: State)
    requires Reachable(o, s)
    ensures Count(s.begins) + (if s.token then 1 else 0) <= s.notifies
  {
    ReachableInv(o, s);
  }

  // ---------------------------------------------------------------- the timer

  /** In every run the timer is stopped and its channel empty whenever it is reset, and a sleep
      that ends by the timer has lasted until the deadline: no stale tick cuts it short. */
  lemma NoStaleTick(o: Options, s: State)
    requires Reachable(o, s)
    ensures s.pc.Arming? ==> s.timer == STOPPED
    ensures Enabled(s, TakeTick) ==> s.deadline <= s.now
  {
    ReachableInv(o, s);
  }

  /** Arming sets the deadline near the wanted delay, or near the bound it exceeds, from now. */
  lemma ArmedDeadline(o: Options, s: State, wanted: int64, random: real)
    requires Sane(o) && Enabled(s, Arm(wanted, random))
    ensures var t := Do(o, s, Arm(wanted, random));
            if t.pc.Sleeping? then
              && t.armedAt == s.now < t.deadline && t.timer.armed == Some(t.deadline) && t.begins == s.begins
              && t.deadline - s.now <= INT64_MAX
              && var delay: int64 := t.deadline - s.now;
                 && (wanted < o.minDelay ==> Near(o.minDelay, o.jitter, random, delay))
                 && (o.maxDelay != 0 && o.maxDelay < wanted ==> Near(o.maxDelay, o.jitter, random, delay))
                 && (o.minDelay <= wanted && (o.maxDelay == 0 || wanted <= o.maxDelay) ==> Near(wanted, o.jitter, random, delay))
            else
              t.pc.Polling? && !Fits(o, wanted, random)
  {
    hide DelayOf, Near, Fits, Shortest, Longest;
    DelayIsNear(o, wanted, random);
    DelayBounds(o, wanted, random);
  }

  /** In every run a sleep lasts at most (1 + jitter/2) times the maximum delay: that long after it
      was armed the timer's tick is there or about to come. */
  lemma SleepEnds(o: Options, s: State)
    requires Sane(o) && o.maxDelay != 0 && InRange(o, s.longest) && Reachable(o, s) && s.pc.Sleeping?
    ensures s.armedAt <= s.now && s.armedAt < s.deadline && (s.deadline - s.armedAt) as real <= Longest(o)
    ensures (s.now - s.armedAt) as real >= Longest(o) ==> Enabled(s, TakeTick) || Enabled(s, Fire)
  {
    ReachableInv(o, s);
  }

  // ---------------------------------------------------------------- cancellation

  /** The steps of the loop that are left once its context is cancelled and nothing more is notified. */
  function StepsToReturn(s: State): nat {
    (match s.pc
     case Arming => 5
     case Sleeping => 4
     case Woken(_) => 3
     case Polling => 2
     case Selecting => 1
     case Returned => 0)
    + if s.token then 2 else 0
  }

  /** A cancelled loop can always go on without the timer, and unless it is notified again it
      returns within seven of its own steps. */
  lemma CancelledLoopReturns(o: Options, s: State)
    requires s.cancelled
    ensures s.pc.Returned? || Enabled(s, SeeCancel) || Enabled(s, EndPoll) || Enabled(s, StopTimer) || Enabled(s, Arm(0, 0.0))
    ensures StepsToReturn(s) <= 7
    ensures forall a | Enabled(s, a) && !a.Notify? ::
              var t := Do(o, s, a);
              t.cancelled && if IsLoopAction(a) then StepsToReturn(t) < StepsToReturn(s) else StepsToReturn(t) == StepsToReturn(s)
  {
    hide DelayOf;
  }

  /** The loop returns for no other reason. */
  lemma ReturnsOnlyCancelled(o: Options, s: State)
    requires Reachable(o, s) && s.pc.Returned?
    ensures s.cancelled
  {
    ReachableInv(o, s);
  }

  /** No poll from the one numbered i + 1 to the one numbered j answers a notification. */
  predicate Unasked(s: State, i: nat, j: nat)
    requires i <= j < |s.begins|
  {
    forall k | i < k <= j :: !s.begins[k].cause.Notified?
  }

  lemma {:induction false} UnaskedSpacing(o: Options, s: State, i: nat, j: nat)
    requires SpacingOk(o, s) && InRange(o, s.longest) && i <= j < |s.begins| && Unasked(s, i, j)
    ensures (s.begins[j].time - s.begins[i].time) as real >= (j - i) as real * Shortest(o)
    ensures s.begins[j].time - s.begins[i].time >= j - i
    decreases j
  {
    hide Shortest;
    if i < j {
      UnaskedSpacing(o, s, i, j - 1);
      assert Apart(o, s.begins[j - 1].time, s.begins[j].time);
      OneMore(j - 1 - i, Shortest(o), s.begins[j - 1].time - s.begins[i].time, s.begins[j].time - s.begins[j - 1].time);
    } else {
      NoneYet(Shortest(o));
    }
  }

  lemma OneMore(n: nat, d: real, before: int, step: int)
    requires before as real >= n as real * d && step as real >= d
    ensures (before + step) as real >= (n + 1) as real * d
  {
    assert (n + 1) as real * d == n as real * d + d;
  }

  lemma NoneYet(d: real)
    ensures 0 as real * d == 0.0
  {
  }

  /** In every run whose longest wanted delay is in range, polls that no notification asked for are
      at least (1 - jitter/2) times the minimum delay and at least a nanosecond apart, each from
      the one before it. */
  lemma SpacingUpTo(o: Options, s: State, i: nat, j: nat)
    requires Sane(o) && Reachable(o, s) && InRange(o, s.longest) && i <= j < |s.begins| && Unasked(s, i, j)
    ensures (s.begins[j].time - s.begins[i].time) as real >= (j - i) as real * Shortest(o)
    ensures s.begins[j].time - s.begins[i].time >= j - i
  {
    ReachableInv(o, s);
    UnaskedSpacing(o, s, i, j);
  }

  /** With a maximum delay that, extended by half the jitter, stays within 2^63, this holds in
      every run. */
  lemma PollSpacing(o: Options, s: State, i: nat, j: nat)
    requires Sane(o) && o.maxDelay != 0 && Longest(o) <= INT64_MAX as real + 1.0
    requires Reachable(o, s) && i <= j < |s.begins| && Unasked(s, i, j)
    ensures (s.begins[j].time - s.begins[i].time) as real >= (j - i) as real * Shortest(o)
    ensures s.begins[j].time - s.begins[i].time >= j - i
  {
    MaximumDecides(o);
    SpacingUpTo(o, s, i, j);
  }
}
