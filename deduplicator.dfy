/**
 * The per-state cooldown gate (extensions/attention_alert/deduplicator.py).
 * `_last_alerted` and `_last_seen` are fields of the class, updated in place.
 */
module Deduplicator {
  import opened Models

  /** `_last_alerted.get(state, 0)`: a state never alerted counts as alerted at time 0. */
  function LastAlertedOrZero(lastAlerted: map<AgentState, int>, s: AgentState): int {
    if s in lastAlerted then lastAlerted[s] else 0
  }

  /** The decision of `should_alert` at time `now`: suppressed exactly when
      `now - last_alerted < cooldown`. */
  predicate Allows(lastAlerted: map<AgentState, int>, cooldown: int, s: AgentState, now: int) {
    !(now - LastAlertedOrZero(lastAlerted, s) < cooldown)
  }

  /** `_last_alerted` after `should_alert(event, s)` with `event.timestamp == now`. */
  function AlertedAfter(lastAlerted: map<AgentState, int>, cooldown: int, s: AgentState, now: int)
    : (r: map<AgentState, int>)
    ensures Allows(lastAlerted, cooldown, s, now) ==> s in r && r[s] == now
    ensures !Allows(lastAlerted, cooldown, s, now) ==> r == lastAlerted
    ensures r.Keys == lastAlerted.Keys + (if Allows(lastAlerted, cooldown, s, now) then {s} else {})
    ensures forall s' :: s' != s && s' in lastAlerted ==> r[s'] == lastAlerted[s']
  {
    if Allows(lastAlerted, cooldown, s, now) then lastAlerted[s := now] else lastAlerted
  }

  class Deduplicator {
    const cooldown: int
    var lastAlerted: map<AgentState, int>
    var lastSeen: map<AgentState, int>

    /** `Deduplicator(cooldown_seconds)`: both maps start empty. */
    constructor (cooldownSeconds: int)
      ensures cooldown == cooldownSeconds
      ensures lastAlerted == map[] && lastSeen == map[]
    {
      cooldown := cooldownSeconds;
      lastAlerted := map[];
      lastSeen := map[];
    }

    /** `should_alert`: always records the sighting; allows the alert, and stamps
        `_last_alerted`, only when the cooldown has expired. Entries for other states
        are untouched. */
    method ShouldAlert(event: AgentEvent, state: AgentState) returns (allow: bool)
      modifies this
      ensures allow <==> !(event.timestamp - LastAlertedOrZero(old(lastAlerted), state) < cooldown)
      ensures lastSeen == old(lastSeen)[state := event.timestamp]
      ensures lastAlerted == AlertedAfter(old(lastAlerted), cooldown, state, event.timestamp)
      ensures allow ==> lastAlerted == old(lastAlerted)[state := event.timestamp]
      ensures !allow ==> lastAlerted == old(lastAlerted)
    {
      var now := event.timestamp;
      var last := if state in lastAlerted then lastAlerted[state] else 0;
      lastSeen := lastSeen[state := now];
      if now - last < cooldown {
        return false;
      }
      lastAlerted := lastAlerted[state := now];
      return true;
    }

    /** `reset`: forgets when `state` last alerted (a no-op if it never did);
        `_last_seen` is never touched. */
    method Reset(state: AgentState)
      modifies this
      ensures lastAlerted == old(lastAlerted) - {state}
      ensures state !in old(lastAlerted) ==> lastAlerted == old(lastAlerted)
      ensures lastSeen == old(lastSeen)
    {
      if state in lastAlerted {
        lastAlerted := lastAlerted - {state};
      }
    }
  }

  /** Cooldowns are per state: an alert decision for `s` never changes the decision for another state. */
  lemma CooldownIsPerState(m: map<AgentState, int>, cooldown: int, s: AgentState, now: int, s': AgentState, later: int)
    requires s' != s
    ensures Allows(AlertedAfter(m, cooldown, s, now), cooldown, s', later) == Allows(m, cooldown, s', later)
  {
  }

  /** Two events for the same state at `t1 < t2`, the first allowed: the second is
      allowed exactly when `t2 - t1 >= cooldown`. */
  lemma SecondAlertAfterCooldown(m: map<AgentState, int>, cooldown: int, s: AgentState, t1: int, t2: int)
    requires Allows(m, cooldown, s, t1) && t1 < t2
    ensures Allows(AlertedAfter(m, cooldown, s, t1), cooldown, s, t2) <==> t2 - t1 >= cooldown
  {
  }

  /** After `reset(s)` the next event for `s` alerts exactly when its timestamp is at
      least the cooldown, whatever happened before. */
  lemma AlertAfterReset(m: map<AgentState, int>, cooldown: int, s: AgentState, now: int)
    ensures Allows(m - {s}, cooldown, s, now) <==> now >= cooldown
  {
  }

  /** An observation of state `state` at time `at`, as fed to `should_alert`. */
  datatype Sighting = Sighting(state: AgentState, at: int)

  /** The decisions `should_alert` makes for a run of sightings, starting from `_last_alerted == m`,
      one per sighting. */
  function Decisions(m: map<AgentState, int>, cooldown: int, xs: seq<Sighting>): (r: seq<bool>)
    ensures |r| == |xs|
    decreases |xs|
  {
    if xs == [] then []
    else [Allows(m, cooldown, xs[0].state, xs[0].at)]
         + Decisions(AlertedAfter(m, cooldown, xs[0].state, xs[0].at), cooldown, xs[1..])
  }

  /** The first sighting in a run of a state that `m` does not hold is judged against the
      "never alerted" stamp 0: it is allowed exactly when its time is at least the cooldown. */
  lemma {:induction false} FirstSightingFromZero(m: map<AgentState, int>, cooldown: int, xs: seq<Sighting>, i: nat)
    requires i < |xs| && xs[i].state !in m
    requires forall j :: 0 <= j < i ==> xs[j].state != xs[i].state
    ensures Decisions(m, cooldown, xs)[i] <==> xs[i].at >= cooldown
    decreases i
  {
    if i > 0 {
      var m' := AlertedAfter(m, cooldown, xs[0].state, xs[0].at);
      assert xs[1..][i - 1] == xs[i];
      assert forall j :: 0 <= j < i - 1 ==> xs[1..][j] == xs[j + 1];
      FirstSightingFromZero(m', cooldown, xs[1..], i - 1);
    }
  }
  predicate NonDecreasing(xs: seq<Sighting>) {
    forall i, j :: 0 <= i < j < |xs| ==> xs[i].at <= xs[j].at
  }

  /** Once `s` has alerted at `v`, every later allowed alert for `s` is at least a cooldown after `v`. */
  lemma {:induction false} AllowedAfterStamp(m: map<AgentState, int>, cooldown: int, xs: seq<Sighting>, s: AgentState, v: int)
    requires s in m && m[s] >= v
    requires forall k :: 0 <= k < |xs| ==> xs[k].at >= v
    ensures forall j :: 0 <= j < |xs| && Decisions(m, cooldown, xs)[j] && xs[j].state == s ==> xs[j].at - v >= cooldown
    decreases |xs|
  {
    if xs != [] {
      var m' := AlertedAfter(m, cooldown, xs[0].state, xs[0].at);
      AllowedAfterStamp(m', cooldown, xs[1..], s, v);
      var d := Decisions(m, cooldown, xs);
      forall j | 0 <= j < |xs| && d[j] && xs[j].state == s ensures xs[j].at - v >= cooldown {
        if j > 0 {
          assert d[j] == Decisions(m', cooldown, xs[1..])[j - 1];
          assert xs[j] == xs[1..][j - 1];
        }
      }
    }
  }

  /** With non-decreasing timestamps and no reset in between, any two allowed alerts
      for the same state are at least `cooldown` apart. */
  lemma {:induction false} AllowedAlertsAreSpaced(m: map<AgentState, int>, cooldown: int, xs: seq<Sighting>)
    requires NonDecreasing(xs)
    ensures forall i, j :: 0 <= i < j < |xs| && xs[i].state == xs[j].state
              && Decisions(m, cooldown, xs)[i] && Decisions(m, cooldown, xs)[j]
              ==> xs[j].at - xs[i].at >= cooldown
    decreases |xs|
  {
    if xs != [] {
      var m' := AlertedAfter(m, cooldown, xs[0].state, xs[0].at);
      var rest := xs[1..];
      var d := Decisions(m, cooldown, xs);
      var d' := Decisions(m', cooldown, rest);
      assert NonDecreasing(rest) by {
        forall i, j | 0 <= i < j < |rest| ensures rest[i].at <= rest[j].at {
          assert rest[i] == xs[i + 1] && rest[j] == xs[j + 1];
        }
      }
      AllowedAlertsAreSpaced(m', cooldown, rest);
      if d[0] {
        forall k | 0 <= k < |rest| ensures rest[k].at >= xs[0].at {
          assert rest[k] == xs[k + 1];
        }
        AllowedAfterStamp(m', cooldown, rest, xs[0].state, xs[0].at);
      }
      forall i, j | 0 <= i < j < |xs| && xs[i].state == xs[j].state && d[i] && d[j]
        ensures xs[j].at - xs[i].at >= cooldown
      {
        assert d[j] == d'[j - 1] && xs[j] == rest[j - 1];
        if i > 0 {
          assert d[i] == d'[i - 1] && xs[i] == rest[i - 1];
        }
      }
    }
  }

  /** smoke_test.py: with the default 10-second cooldown, a repeat of the same state
      two seconds after an allowed alert is suppressed. */
  lemma RepeatWithinCooldownSuppressed(m: map<AgentState, int>, t: int)
    requires Allows(m, 10, WaitingForConfirmation, t)
    ensures Decisions(m, 10, [Sighting(WaitingForConfirmation, t), Sighting(WaitingForConfirmation, t + 2)])
            == [true, false]
  {
    var xs := [Sighting(WaitingForConfirmation, t), Sighting(WaitingForConfirmation, t + 2)];
    var m' := AlertedAfter(m, 10, WaitingForConfirmation, t);
    assert xs[1..] == [Sighting(WaitingForConfirmation, t + 2)];
    assert xs[1..][1..] == [];
    assert Decisions(m', 10, xs[1..]) == [false] + Decisions(AlertedAfter(m', 10, WaitingForConfirmation, t + 2), 10, []);
  }
}
