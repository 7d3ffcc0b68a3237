/**
 * The observer that turns bus events into alerts
 * (extensions/attention_alert/attention_observer.py). The calls `on_event` makes on the
 * deduplicator and the router are kept in the ghost log `calls`. Python iterates the
 * frozen set `ALERT_STATES` in an unspecified order; the model visits it in
 * `AlertStateOrder`, and every property below holds for any order.
 */
module AttentionObserver {
  import opened Wrappers
  import opened Models
  import StateClassifier
  import Deduplicator
  import AlertRouter
  import EventBus

  /** A call `on_event` makes on a collaborator. */
  datatype Call =
    | ResolveBlock
    | ResetCooldown(state: AgentState)
    | ConsultDedup(state: AgentState)
    | DispatchAlert(state: AgentState)

  /** One `reset` per state of `order`, in that order. */
  function Resets(order: seq<AgentState>): (r: seq<Call>)
    ensures |r| == |order|
    ensures forall i :: 0 <= i < |order| ==> r[i] == ResetCooldown(order[i])
  {
    seq(|order|, i requires 0 <= i < |order| => ResetCooldown(order[i]))
  }

  /** The branch selection of `on_event`: the calls made for the classified state and
      the answer `should_alert` would give. The deduplicator is consulted, and the router
      asked to dispatch, only for the classified state and only when it is alertable;
      a dispatch happens only when the deduplicator allowed it. */
  function CallsFor(classified: Option<AgentState>, allowed: bool): (calls: seq<Call>)
    ensures forall c :: c in calls && c.ConsultDedup? ==> c.state in AlertStates && classified == Some(c.state)
    ensures forall c :: c in calls && c.DispatchAlert? ==> c.state in AlertStates && classified == Some(c.state) && allowed
  {
    match classified
    case None => []
    case Some(s) =>
      if s == Running then [ResolveBlock] + Resets(AlertStateOrder)
      else if s !in AlertStates then []
      else [ConsultDedup(s)] + (if allowed then [DispatchAlert(s)] else [])
  }

  /** An event whose type is unknown causes no call to the deduplicator or the router. */
  lemma UnclassifiedMakesNoCalls(allowed: bool)
    ensures CallsFor(None, allowed) == []
  {
  }

  /** A `Running` event resolves the block once and then resets the cooldown of every
      alertable state exactly once; it never consults the deduplicator or dispatches. */
  lemma RunningResolvesAndResets(allowed: bool)
    ensures var calls := CallsFor(Some(Running), allowed);
      && |calls| == 1 + |AlertStates|
      && calls[0] == ResolveBlock
      && (forall i :: 1 <= i < |calls| ==> calls[i].ResetCooldown?)
      && (forall s :: ResetCooldown(s) in calls <==> s in AlertStates)
      && (forall i, j :: 1 <= i < j < |calls| ==> calls[i] != calls[j])
      && (forall c :: c in calls ==> !c.ConsultDedup? && !c.DispatchAlert?)
  {
    AlertStateOrderEnumerates();
    ResolveThenResets(AlertStateOrder);
  }

  /** Resolving and then resetting the states of `order` names exactly those states,
      each once when `order` has no repeats, and never consults or dispatches. */
  lemma ResolveThenResets(order: seq<AgentState>)
    ensures var calls := [ResolveBlock] + Resets(order);
      && (forall i :: 1 <= i < |calls| ==> calls[i].ResetCooldown?)
      && (forall s :: ResetCooldown(s) in calls <==> s in order)
      && ((forall i, j :: 0 <= i < j < |order| ==> order[i] != order[j]) ==>
            forall i, j :: 1 <= i < j < |calls| ==> calls[i] != calls[j])
      && (forall c :: c in calls ==> !c.ConsultDedup? && !c.DispatchAlert?)
  {
    var r := Resets(order);
    var calls := [ResolveBlock] + r;
    assert forall i :: 1 <= i < |calls| ==> calls[i] == r[i - 1];
    forall s ensures ResetCooldown(s) in calls <==> s in order {
      if s in order {
        var k :| 0 <= k < |order| && order[k] == s;
        assert calls[k + 1] == ResetCooldown(s);
      }
    }
  }

  /** `Completed` and `Failed` events cause no calls at all. */
  lemma TerminalStatesMakeNoCalls(allowed: bool)
    ensures CallsFor(Some(Completed), allowed) == []
    ensures CallsFor(Some(Failed), allowed) == []
  {
  }

  /** For an alertable state the deduplicator is consulted exactly once, first, and the
      router is called, once, exactly when the deduplicator allows it. */
  lemma AlertableConsultsOnce(s: AgentState, allowed: bool)
    requires s in AlertStates
    ensures var calls := CallsFor(Some(s), allowed);
      && calls[0] == ConsultDedup(s)
      && (forall i :: 0 < i < |calls| ==> !calls[i].ConsultDedup?)
      && (DispatchAlert(s) in calls <==> allowed)
      && |calls| == (if allowed then 2 else 1)
  {
  }

  // ------------------------------------------------------------------
  // What the observer does to the deduplicator's state
  // ------------------------------------------------------------------

  /** Whether `on_event(event)` reaches the router, given the deduplicator's stamps `m`. */
  predicate Dispatches(m: map<AgentState, int>, cooldown: int, event: AgentEvent) {
    match StateClassifier.Classify(event)
    case None => false
    case Some(s) => s in AlertStates && Deduplicator.Allows(m, cooldown, s, event.timestamp)
  }

  /** The deduplicator's `_last_alerted` after `on_event(event)`. */
  function StampsAfter(m: map<AgentState, int>, cooldown: int, event: AgentEvent): map<AgentState, int> {
    match StateClassifier.Classify(event)
    case None => m
    case Some(s) =>
      if s == Running then m - AlertStates
      else if s !in AlertStates then m
      else Deduplicator.AlertedAfter(m, cooldown, s, event.timestamp)
  }

  /** The deduplicator's `_last_seen` after `on_event(event)`: only a consulted state is stamped. */
  function SeenAfter(seen: map<AgentState, int>, event: AgentEvent): map<AgentState, int> {
    match StateClassifier.Classify(event)
    case None => seen
    case Some(s) => if s in AlertStates then seen[s := event.timestamp] else seen
  }

  /** Which of a sequence of events reach the router, starting from stamps `m`. */
  function Outcomes(m: map<AgentState, int>, cooldown: int, events: seq<AgentEvent>): (r: seq<bool>)
    ensures |r| == |events|
    ensures forall i :: 0 <= i < |events| && r[i] ==>
              StateClassifier.Classify(events[i]).Some? && StateClassifier.Classify(events[i]).value in AlertStates
    decreases |events|
  {
    if events == [] then []
    else
      assert forall i :: 1 <= i < |events| ==> events[1..][i - 1] == events[i];
      [Dispatches(m, cooldown, events[0])] + Outcomes(StampsAfter(m, cooldown, events[0]), cooldown, events[1..])
  }

  /** After a `Running` event every alertable state is back at the "never alerted"
      stamp 0, so the next alert for it passes exactly when its timestamp is at least
      the cooldown. */
  lemma RecoveryResetsCooldowns(m: map<AgentState, int>, cooldown: int, running: AgentEvent, next: AgentEvent)
    requires StateClassifier.Classify(running) == Some(Running)
    requires StateClassifier.Classify(next).Some? && StateClassifier.Classify(next).value in AlertStates
    ensures Dispatches(StampsAfter(m, cooldown, running), cooldown, next) <==> next.timestamp >= cooldown
  {
  }

  function Confirmation(t: int): AgentEvent {
    AgentEvent("awaiting_confirmation", "smoke_test", map["msg" := "User approval needed"], "warning", t)
  }

  function Recovery(t: int): AgentEvent {
    AgentEvent("execution_running", "smoke_test", map["msg" := "User approved, running."], "info", t)
  }

  /** The sequence of `smoke_test.py` with the default cooldown of 10: a confirmation
      request at `t0` alerts, its repeat two ticks later is suppressed, the recovery
      alerts nothing, and the next request after recovery alerts again. */
  lemma {:induction false} SmokeTest(t0: int)
    requires t0 >= 10
    ensures Outcomes(map[], 10, [Confirmation(t0), Confirmation(t0 + 2), Recovery(t0 + 4), Confirmation(t0 + 4)])
            == [true, false, false, true]
  {
    var es := [Confirmation(t0), Confirmation(t0 + 2), Recovery(t0 + 4), Confirmation(t0 + 4)];
    assert StateClassifier.Classify(Confirmation(t0)) == Some(WaitingForConfirmation);
    assert StampsAfter(map[], 10, es[0]) == map[WaitingForConfirmation := t0];
    SmokeTestRepeat(t0);
    assert es[1..] == [Confirmation(t0 + 2), Recovery(t0 + 4), Confirmation(t0 + 4)];
  }

  /** The repeated request two ticks after the first alert of the scenario above is
      suppressed and leaves the stamp as it was. */
  lemma {:induction false} SmokeTestRepeat(t0: int)
    requires t0 >= 10
    ensures Outcomes(map[WaitingForConfirmation := t0], 10, [Confirmation(t0 + 2), Recovery(t0 + 4), Confirmation(t0 + 4)])
            == [false, false, true]
  {
    var m1 := map[WaitingForConfirmation := t0];
    var es := [Confirmation(t0 + 2), Recovery(t0 + 4), Confirmation(t0 + 4)];
    assert StateClassifier.Classify(Confirmation(t0 + 2)) == Some(WaitingForConfirmation);
    assert StampsAfter(m1, 10, es[0]) == m1;
    SmokeTestAfterRecovery(t0);
    assert es[1..] == [Recovery(t0 + 4), Confirmation(t0 + 4)];
  }

  /** The second half of the scenario above: after the recovery the stamp is gone and
      the next confirmation request alerts at once. */
  lemma {:induction false} SmokeTestAfterRecovery(t0: int)
    requires t0 >= 10
    ensures Outcomes(map[WaitingForConfirmation := t0], 10, [Recovery(t0 + 4), Confirmation(t0 + 4)]) == [false, true]
  {
    var es := [Recovery(t0 + 4), Confirmation(t0 + 4)];
    assert StateClassifier.Classify(Recovery(t0 + 4)) == Some(Running);
    assert StateClassifier.Classify(Confirmation(t0 + 4)) == Some(WaitingForConfirmation);
    var m3 := StampsAfter(map[WaitingForConfirmation := t0], 10, es[0]);
    assert WaitingForConfirmation !in m3;
    assert es[1..][1..] == [];
    assert Outcomes(m3, 10, es[1..]) == [true];
  }

  /** Because the "never alerted" stamp is 0, a first request earlier than the cooldown
      is suppressed. */
  lemma EarlyFirstRequestSuppressed(t0: int)
    ensures Outcomes(map[], 10, [Confirmation(t0)]) == [t0 >= 10]
  {
    assert StateClassifier.Classify(Confirmation(t0)) == Some(WaitingForConfirmation);
  }

  // ------------------------------------------------------------------
  // The observer object
  // ------------------------------------------------------------------

  class AttentionObserver {
    const dedup: Deduplicator.Deduplicator
    const router: AlertRouter.AlertRouter
    const bus: EventBus.EventBus
    /** The identity of the bound method `on_event` as a bus subscriber. */
    const handler: EventBus.CallbackId
    /** The calls made on the deduplicator and the router, in order. */
    ghost var calls: seq<Call>

    ghost predicate Valid()
      reads this, router, bus
    {
      router.Valid() && bus.Valid()
    }

    /** The observer over a given bus, deduplicator and router. */
    constructor (d: Deduplicator.Deduplicator, r: AlertRouter.AlertRouter, b: EventBus.EventBus, h: EventBus.CallbackId)
      requires r.Valid() && b.Valid()
      ensures Valid()
      ensures dedup == d && router == r && bus == b && handler == h && calls == []
    {
      dedup := d;
      router := r;
      bus := b;
      handler := h;
      calls := [];
    }

    /** `start()`: subscribe `on_event` to the bus. */
    method Start()
      requires Valid()
      modifies bus
      ensures Valid()
      ensures handler in old(bus.subscribers) ==> bus.subscribers == old(bus.subscribers)
      ensures handler !in old(bus.subscribers) ==> bus.subscribers == old(bus.subscribers) + [handler]
    {
      bus.Subscribe(handler);
    }

    /** `stop()`: unsubscribe `on_event` from the bus. */
    method Stop()
      requires Valid()
      modifies bus
      ensures Valid()
      ensures bus.subscribers == EventBus.RemoveFirst(old(bus.subscribers), handler)
      ensures handler !in bus.subscribers
    {
      bus.Unsubscribe(handler);
    }

    /** What the reset loop has met once it has visited all of `AlertStateOrder`. */
    static lemma OrderCovered(done: set<AgentState>, made: seq<Call>)
      requires done <= AlertStates
      requires forall j :: 0 <= j < |AlertStateOrder| ==> AlertStateOrder[j] in done
      requires |made| == |AlertStateOrder| && forall j :: 0 <= j < |AlertStateOrder| ==> made[j] == ResetCooldown(AlertStateOrder[j])
      ensures done == AlertStates && made == Resets(AlertStateOrder)
    {
      AlertStateOrderEnumerates();
    }

    /** The loop of `on_event` over `ALERT_STATES` after a recovery: every alertable
        state's cooldown is reset, once each, in `AlertStateOrder`. */
    method ResetAll()
      modifies this, dedup
      ensures dedup.lastAlerted == old(dedup.lastAlerted) - AlertStates
      ensures dedup.lastSeen == old(dedup.lastSeen)
      ensures calls == old(calls) + Resets(AlertStateOrder)
    {
      ghost var done: set<AgentState> := {};
      ghost var made: seq<Call> := [];
      for i := 0 to |AlertStateOrder|
        invariant done <= AlertStates
        invariant forall j :: 0 <= j < i ==> AlertStateOrder[j] in done
        invariant dedup.lastAlerted == old(dedup.lastAlerted) - done
        invariant dedup.lastSeen == old(dedup.lastSeen)
        invariant |made| == i && forall j :: 0 <= j < i ==> made[j] == ResetCooldown(AlertStateOrder[j])
        invariant calls == old(calls)
      {
        dedup.Reset(AlertStateOrder[i]);
        done := done + {AlertStateOrder[i]};
        made := made + [ResetCooldown(AlertStateOrder[i])];
      }
      OrderCovered(done, made);
      calls := calls + made;
    }

    /** `on_event(event)`. What the router does on a dispatch is determined by
        `recordedId` (the history id), `respond` (the backends' answers) and `now`. */
    method OnEvent(event: AgentEvent, recordedId: int, respond: AlertRouter.Backend -> AlertRouter.Response, now: int)
      requires Valid()
      modifies this, dedup, router
      ensures Valid()
      ensures calls == old(calls) + CallsFor(StateClassifier.Classify(event), Dispatches(old(dedup.lastAlerted), dedup.cooldown, event))
      ensures dedup.lastAlerted == StampsAfter(old(dedup.lastAlerted), dedup.cooldown, event)
      ensures dedup.lastSeen == SeenAfter(old(dedup.lastSeen), event)
      ensures Dispatches(old(dedup.lastAlerted), dedup.cooldown, event) ==>
                && router.effects == old(router.effects) +
                     AlertRouter.DispatchEffects(router.backends, router.rules, router.hasHistory, event,
                                                 StateClassifier.Classify(event).value, recordedId, respond, now)
                && router.generation == old(router.generation) + 1
                && router.pending == AlertRouter.Scheduled(AlertRouter.DelayedRules(router.rules), |AlertRouter.DelayedRules(router.rules)|,
                                                           router.backends, AlertRouter.AlertTitle(StateClassifier.Classify(event).value),
                                                           AlertRouter.AlertMessage(event), AlertRouter.EventIdFor(router.hasHistory, recordedId),
                                                           router.generation)
      ensures !Dispatches(old(dedup.lastAlerted), dedup.cooldown, event) ==>
                && router.effects == old(router.effects)
                && router.generation == old(router.generation)
                && router.pending == (if StateClassifier.Classify(event) == Some(Running) then map[] else old(router.pending))
    {
      var state := StateClassifier.Classify(event);
      if state.None? {
        return;
      }
      if state.value == Running {
        router.ResolveBlock();
        calls := calls + [ResolveBlock];
        ResetAll();
        return;
      }
      if state.value !in AlertStates {
        return;
      }
      calls := calls + [ConsultDedup(state.value)];
      var allow := dedup.ShouldAlert(event, state.value);
      if !allow {
        return;
      }
      calls := calls + [DispatchAlert(state.value)];
      router.Dispatch(event, state.value, recordedId, respond, now);
    }
  }
}
