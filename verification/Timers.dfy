/** The timer of the poll loop and the channel that wakes it. */
module Timers {
  import opened Common

  /** A timer that is armed for a time or not, and its channel of one slot. A timer that fires is
      no longer armed and leaves a tick in the channel. */
  datatype TimerState = TimerState(armed: Option<Instant>, tick: bool) {
    predicate CanFire(now: Instant) {
      armed.Some? && armed.value <= now
    }

    function Fired(): TimerState {
      TimerState(None, true)
    }

    function Armed(deadline: Instant): TimerState {
      TimerState(Some(deadline), tick)
    }

    /** Stopping an armed timer leaves the channel alone; otherwise a tick is taken out. */
    function StoppedAndDrained(): TimerState {
      TimerState(None, if armed.Some? then tick else false)
    }
  }

  const STOPPED: TimerState := TimerState(None, false)

  class Timer {
    var state: TimerState

    /** NewTimer. */
    constructor (deadline: Instant)
      ensures state == STOPPED.Armed(deadline)
    {
      state := TimerState(Some(deadline), false);
    }

    method Reset(deadline: Instant)
      modifies this
      ensures state == old(state).Armed(deadline)
    {
      state := state.(armed := Some(deadline));
    }

    method Stop() returns (wasArmed: bool)
      modifies this
      ensures wasArmed <==> old(state).armed.Some?
      ensures state == old(state).(armed := None)
    {
      wasArmed := state.armed.Some?;
      state := state.(armed := None);
    }

    method TryReceive() returns (received: bool)
      modifies this
      ensures received <==> old(state).tick
      ensures state == old(state).(tick := false)
    {
      received := state.tick;
      state := state.(tick := false);
    }
  }

  /** Before it sleeps the loop makes a timer or resets the one it has. */
  method StartTimer(timer: Timer?, deadline: Instant) returns (t: Timer)
    modifies timer
    ensures if timer == null then fresh(t) else t == timer
    ensures timer == null || old(timer.state) == STOPPED ==> t.state == TimerState(Some(deadline), false)
  {
    if timer == null {
      t := new Timer(deadline);
    } else {
      timer.Reset(deadline);
      t := timer;
    }
  }

  /** What the loop does with the timer after it woke up. */
  method StopAndDrain(timer: Timer)
    modifies timer
    ensures timer.state == old(timer.state).StoppedAndDrained()
    ensures old(timer.state).armed.None? || !old(timer.state).tick ==> timer.state == STOPPED
  {
    var wasArmed := timer.Stop();
    if !wasArmed {
      var _ := timer.TryReceive();
    }
  }

  /** The notify channel, with one slot. */
  class Notifications {
    var token: bool

    constructor ()
      ensures !token
    {
      token := false;
    }

    /** Never blocks: a token that is there already serves for both. */
    method NotifyPostConsume()
      modifies this
      ensures token
    {
      if !token {
        token := true;
      }
    }

    method TryReceive() returns (received: bool)
      modifies this
      ensures received <==> old(token)
      ensures !token
    {
      received := token;
      token := false;
    }
  }
}
