/**
 * The stall watchdog (extensions/attention_alert/watchdog.py). Time is in integer
 * ticks of the monotonic clock and every reading is a parameter. One pass of the
 * `_watch` loop after its sleep is `Check(now)`; the loop itself is `Watch` over the
 * instants at which it wakes up. `0` is the source's "never alerted" value of
 * `last_alert_time`.
 */
module Watchdog {

  /** The part of the watchdog the checks depend on. */
  datatype Clock = Clock(lastHeartbeat: int, lastAlertTime: int, paused: bool)

  /** The throttle in effect: `timeout` before the first alert, `repeat` between later ones. */
  function Throttle(c: Clock, timeout: int, repeat: int): int {
    if c.lastAlertTime == 0 then timeout else repeat
  }

  /** A check at `now` fires: not paused, the heartbeat is older than the timeout and the
      last alert is older than the throttle. */
  predicate Fires(c: Clock, timeout: int, repeat: int, now: int) {
    !c.paused && now - c.lastHeartbeat > timeout && now - c.lastAlertTime > Throttle(c, timeout, repeat)
  }

  /** The state after a check at `now`. */
  function Checked(c: Clock, timeout: int, repeat: int, now: int): Clock {
    if Fires(c, timeout, repeat, now) then c.(lastAlertTime := now) else c
  }

  /** `start` with no live thread: paused, never alerted, heartbeat at `now`. */
  function Started(now: int): Clock {
    Clock(now, 0, true)
  }

  /** `heartbeat()` at `now`. */
  function HeartbeatAt(c: Clock, now: int): Clock {
    Clock(now, 0, false)
  }

  /** `pause()`. */
  function PausedClock(c: Clock): Clock {
    c.(paused := true)
  }

  /** `resume()` at `now`: restarts the window only when paused. */
  function ResumedAt(c: Clock, now: int): Clock {
    if c.paused then Clock(now, 0, false) else c
  }

  /** The state after checks at each of `polls`, in order. Checks never move the heartbeat
      or the pause flag; the alert time is the old one or one of the poll instants. */
  function Polled(c: Clock, timeout: int, repeat: int, polls: seq<int>): (d: Clock)
    ensures d.lastHeartbeat == c.lastHeartbeat && d.paused == c.paused
    ensures d.lastAlertTime == c.lastAlertTime || d.lastAlertTime in polls
    decreases |polls|
  {
    if polls == [] then c else Polled(Checked(c, timeout, repeat, polls[0]), timeout, repeat, polls[1..])
  }

  /** Which of the checks at `polls` fire. */
  function FireTrace(c: Clock, timeout: int, repeat: int, polls: seq<int>): (fires: seq<bool>)
    ensures |fires| == |polls|
    ensures forall i :: 0 <= i < |polls| && fires[i] ==> !c.paused && polls[i] - c.lastHeartbeat > timeout
    decreases |polls|
  {
    if polls == [] then []
    else
      assert forall i :: 1 <= i < |polls| ==> polls[1..][i - 1] == polls[i];
      [Fires(c, timeout, repeat, polls[0])] + FireTrace(Checked(c, timeout, repeat, polls[0]), timeout, repeat, polls[1..])
  }

  /** A stall persists until something resets the clock: if a check at `t` would fire,
      a check from the same state at any later instant fires as well, and stamps that
      instant as the alert time. */
  lemma OverdueStaysOverdue(c: Clock, timeout: int, repeat: int, t: int, later: int)
    requires Fires(c, timeout, repeat, t) && t <= later
    ensures Fires(c, timeout, repeat, later)
    ensures Checked(c, timeout, repeat, later) == c.(lastAlertTime := later)
  {
  }

  /** While paused, no check fires however much time passes, and checks change nothing. */
  lemma {:induction false} PausedNeverFires(c: Clock, timeout: int, repeat: int, polls: seq<int>)
    requires c.paused
    ensures forall i :: 0 <= i < |polls| ==> !FireTrace(c, timeout, repeat, polls)[i]
    ensures Polled(c, timeout, repeat, polls) == c
    decreases |polls|
  {
    if polls != [] {
      PausedNeverFires(c, timeout, repeat, polls[1..]);
    }
  }

  /** After a fire at `t` with no heartbeat in between, no check within `repeat` of `t`
      fires: the throttle has switched from `timeout` to `repeat`. `t` must differ from
      the "never alerted" value 0. */
  lemma {:induction false} ThrottleAfterFire(c: Clock, timeout: int, repeat: int, t: int, polls: seq<int>)
    requires Fires(c, timeout, repeat, t) && t != 0
    requires forall i :: 0 <= i < |polls| ==> polls[i] <= t + repeat
    ensures Throttle(Checked(c, timeout, repeat, t), timeout, repeat) == repeat
    ensures forall i :: 0 <= i < |polls| ==> !FireTrace(Checked(c, timeout, repeat, t), timeout, repeat, polls)[i]
    ensures Polled(Checked(c, timeout, repeat, t), timeout, repeat, polls) == Checked(c, timeout, repeat, t)
  {
    var d := Checked(c, timeout, repeat, t);
    QuietUntil(d, timeout, repeat, t + repeat, polls);
  }

  /** A state whose alert time is set and which no check up to `limit` can fire stays
      as it is through checks up to `limit`. */
  lemma {:induction false} QuietUntil(d: Clock, timeout: int, repeat: int, limit: int, polls: seq<int>)
    requires d.lastAlertTime != 0 && limit == d.lastAlertTime + repeat
    requires forall i :: 0 <= i < |polls| ==> polls[i] <= limit
    ensures forall i :: 0 <= i < |polls| ==> !FireTrace(d, timeout, repeat, polls)[i]
    ensures Polled(d, timeout, repeat, polls) == d
    decreases |polls|
  {
    if polls != [] {
      assert !Fires(d, timeout, repeat, polls[0]);
      QuietUntil(d, timeout, repeat, limit, polls[1..]);
      var tr := FireTrace(d, timeout, repeat, polls);
      assert tr == [false] + FireTrace(d, timeout, repeat, polls[1..]);
      forall i | 0 <= i < |polls|
        ensures !tr[i]
      {
        if i > 0 {
          assert tr[i] == FireTrace(d, timeout, repeat, polls[1..])[i - 1];
        }
      }
    }
  }

  /** Re-fires are spaced by `repeat`, not `timeout`: after a fire at `t != 0`, a check
      while still stalled fires again exactly when more than `repeat` has passed. */
  lemma RefireAfterRepeat(c: Clock, timeout: int, repeat: int, t: int, n: int)
    requires Fires(c, timeout, repeat, t) && t != 0
    requires n - c.lastHeartbeat > timeout
    ensures Fires(Checked(c, timeout, repeat, t), timeout, repeat, n) <==> n - t > repeat
  {
  }

  /** A heartbeat unpauses and restores the first-alert throttle: for a non-negative
      heartbeat time `h`, a later check fires exactly when more than `timeout` has passed
      since `h`, whatever the state was. */
  lemma HeartbeatRestoresFirstThrottle(c: Clock, timeout: int, repeat: int, h: int, n: int)
    requires h >= 0
    ensures !HeartbeatAt(c, h).paused && HeartbeatAt(c, h).lastAlertTime == 0
    ensures Throttle(HeartbeatAt(c, h), timeout, repeat) == timeout
    ensures Fires(HeartbeatAt(c, h), timeout, repeat, n) <==> n - h > timeout
  {
  }

  /** `resume` when paused restarts the window like a heartbeat; when not paused it
      changes nothing. */
  lemma ResumeRestartsWindow(c: Clock, timeout: int, repeat: int, r: int, n: int)
    requires r >= 0
    ensures c.paused ==> ResumedAt(c, r) == HeartbeatAt(c, r)
    ensures c.paused ==> (Fires(ResumedAt(c, r), timeout, repeat, n) <==> n - r > timeout)
    ensures !c.paused ==> ResumedAt(c, r) == c
  {
    if c.paused {
      HeartbeatRestoresFirstThrottle(c, timeout, repeat, r, n);
    }
  }

  /** `pause` sets the flag and touches nothing else; no check fires until a heartbeat
      or a resume. */
  lemma PauseOnlySetsFlag(c: Clock, timeout: int, repeat: int, n: int)
    ensures PausedClock(c).paused
    ensures PausedClock(c).lastHeartbeat == c.lastHeartbeat && PausedClock(c).lastAlertTime == c.lastAlertTime
    ensures !Fires(PausedClock(c), timeout, repeat, n)
  {
  }

  /** The sequence of `test_watchdog.py` with timeout 3: started at `s` (paused), kept
      alive by heartbeats, checked within a second of each heartbeat: no fire. Paused:
      no fire at any time. Resumed at `r` and checked more than 3 ticks later: fire. */
  lemma WatchdogScenario(s: int, h: int, r: int, repeat: int, buzz: int, quiet: int, late: int)
    requires 0 <= s <= h && h <= buzz <= h + 1
    requires r >= 0 && late > r + 3
    ensures !Fires(Started(s), 3, repeat, quiet)
    ensures !Fires(HeartbeatAt(Started(s), h), 3, repeat, buzz)
    ensures !Fires(PausedClock(HeartbeatAt(Started(s), h)), 3, repeat, quiet)
    ensures Fires(ResumedAt(PausedClock(HeartbeatAt(Started(s), h)), r), 3, repeat, late)
  {
    HeartbeatRestoresFirstThrottle(Started(s), 3, repeat, h, buzz);
    ResumeRestartsWindow(PausedClock(HeartbeatAt(Started(s), h)), 3, repeat, r, late);
  }

  /** The watch loop's bookkeeping after `i` of `polls`: the fires so far followed by
      the fires still to come from `c` are the whole trace from `start`, and so is the
      state reached at the end. */
  ghost predicate OnTrack(start: Clock, c: Clock, timeout: int, repeat: int, polls: seq<int>, i: nat, fires: seq<bool>)
    requires i <= |polls|
  {
    && fires + FireTrace(c, timeout, repeat, polls[i..]) == FireTrace(start, timeout, repeat, polls)
    && Polled(c, timeout, repeat, polls[i..]) == Polled(start, timeout, repeat, polls)
  }

  /** One pass of the watch loop: checking at the next poll extends the fired prefix
      and leaves the predicted end state unchanged. */
  lemma WatchStep(start: Clock, c: Clock, timeout: int, repeat: int, polls: seq<int>, i: nat, fires: seq<bool>)
    requires i < |polls|
    requires OnTrack(start, c, timeout, repeat, polls, i, fires)
    ensures OnTrack(start, Checked(c, timeout, repeat, polls[i]), timeout, repeat, polls, i + 1,
                    fires + [Fires(c, timeout, repeat, polls[i])])
  {
    assert polls[i..][1..] == polls[i + 1..];
    var rest := FireTrace(Checked(c, timeout, repeat, polls[i]), timeout, repeat, polls[i + 1..]);
    assert FireTrace(c, timeout, repeat, polls[i..]) == [Fires(c, timeout, repeat, polls[i])] + rest;
    assert (fires + [Fires(c, timeout, repeat, polls[i])]) + rest == fires + ([Fires(c, timeout, repeat, polls[i])] + rest);
  }

  class ExecutionWatchdog {
    const timeout: int
    const repeatInterval: int
    /** Whether `on_stall_callback` is set. */
    const hasCallback: bool
    var lastHeartbeat: int
    var lastAlertTime: int
    /** The pause event. */
    var paused: bool
    /** Whether a live `_watch` thread is attached. */
    var threadAlive: bool
    /** The stop event. */
    var stopRequested: bool

    function State(): Clock
      reads this
    {
      Clock(lastHeartbeat, lastAlertTime, paused)
    }

    /** `ExecutionWatchdog(timeout_seconds, on_stall_callback, repeat_interval_seconds)`
        at clock reading `now`: no thread, pause event clear, never alerted. */
    constructor (timeoutSeconds: int, callback: bool, repeatSeconds: int, now: int)
      ensures timeout == timeoutSeconds && repeatInterval == repeatSeconds && hasCallback == callback
      ensures State() == Clock(now, 0, false)
      ensures !threadAlive && !stopRequested
    {
      timeout := timeoutSeconds;
      repeatInterval := repeatSeconds;
      hasCallback := callback;
      lastHeartbeat := now;
      lastAlertTime := 0;
      paused := false;
      threadAlive := false;
      stopRequested := false;
    }

    /** `start()`: with no live thread, attach one in the paused state; otherwise nothing. */
    method Start(now: int)
      modifies this
      ensures threadAlive
      ensures old(threadAlive) ==> State() == old(State()) && stopRequested == old(stopRequested)
      ensures !old(threadAlive) ==> State() == Started(now) && !stopRequested
    {
      if !threadAlive {
        stopRequested := false;
        paused := true;
        lastHeartbeat := now;
        lastAlertTime := 0;
        threadAlive := true;
      }
    }

    /** `stop()`: set the stop event and drop the thread. */
    method Stop()
      modifies this
      ensures stopRequested && !threadAlive
      ensures State() == old(State())
    {
      stopRequested := true;
      threadAlive := false;
    }

    /** `heartbeat()` at `now`. */
    method Heartbeat(now: int)
      modifies this
      ensures State() == HeartbeatAt(old(State()), now)
      ensures threadAlive == old(threadAlive) && stopRequested == old(stopRequested)
    {
      lastHeartbeat := now;
      lastAlertTime := 0;
      if paused {
        paused := false;
      }
    }

    /** `pause()`. */
    method Pause()
      modifies this
      ensures State() == PausedClock(old(State()))
      ensures threadAlive == old(threadAlive) && stopRequested == old(stopRequested)
    {
      paused := true;
    }

    /** `resume()` at `now`. */
    method Resume(now: int)
      modifies this
      ensures State() == ResumedAt(old(State()), now)
      ensures threadAlive == old(threadAlive) && stopRequested == old(stopRequested)
    {
      if paused {
        paused := false;
        lastHeartbeat := now;
        lastAlertTime := 0;
      }
    }

    /** One pass of `_watch` after its sleep, at clock reading `now`. The callback, if
        any, runs when the check fires; whether it raises (`callbackRaises`) makes no
        difference, since the exception is caught after the alert time is stamped. */
    method Check(now: int, callbackRaises: bool) returns (fired: bool, callbackInvoked: bool)
      modifies this
      ensures fired == Fires(old(State()), timeout, repeatInterval, now)
      ensures callbackInvoked == (fired && hasCallback)
      ensures State() == Checked(old(State()), timeout, repeatInterval, now)
      ensures threadAlive == old(threadAlive) && stopRequested == old(stopRequested)
    {
      fired := false;
      callbackInvoked := false;
      if paused {
        return;
      }
      var sinceHeartbeat := now - lastHeartbeat;
      var sinceAlert := now - lastAlertTime;
      var isFirstAlert := lastAlertTime == 0;
      var throttle := if isFirstAlert then timeout else repeatInterval;
      if sinceHeartbeat > timeout && sinceAlert > throttle {
        lastAlertTime := now;
        fired := true;
        if hasCallback {
          callbackInvoked := true;
        }
      }
    }

    /** `_watch`: while the stop event is clear, wake at each of `polls` in turn and
        check. `raises[i]` says whether the callback raises at the i-th wake-up. */
    method Watch(polls: seq<int>, raises: seq<bool>) returns (fires: seq<bool>)
      requires |raises| == |polls|
      modifies this
      ensures stopRequested == old(stopRequested) && threadAlive == old(threadAlive)
      ensures old(stopRequested) ==> fires == [] && State() == old(State())
      ensures !old(stopRequested) ==>
                fires == FireTrace(old(State()), timeout, repeatInterval, polls) &&
                State() == Polled(old(State()), timeout, repeatInterval, polls)
    {
      fires := [];
      var i := 0;
      while !stopRequested && i < |polls|
        invariant 0 <= i <= |polls|
        invariant stopRequested == old(stopRequested) && threadAlive == old(threadAlive)
        invariant stopRequested ==> i == 0 && fires == [] && State() == old(State())
        invariant !stopRequested ==> OnTrack(old(State()), State(), timeout, repeatInterval, polls, i, fires)
      {
        ghost var before := State();
        var fired, _ := Check(polls[i], raises[i]);
        WatchStep(old(State()), before, timeout, repeatInterval, polls, i, fires);
        fires := fires + [fired];
        i := i + 1;
      }
      if !stopRequested {
        assert polls[i..] == [];
        assert OnTrack(old(State()), State(), timeout, repeatInterval, polls, i, fires);
      }
    }
  }
}
