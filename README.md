# attention_alert — a verified model of the alerting core

`extensions/attention_alert` watches an agent's event stream and alerts a human when
the agent waits for them or stalls. Raw `AgentEvent`s reach the observer through a
synchronous event bus. The observer works in three steps:

- A fixed lookup classifies each event into one of eight canonical `AgentState`s.
- A per-state cooldown gate drops alerts that repeat too soon.
- An escalation router dispatches the surviving alerts to notification backends. It
  dispatches to some backends at once, and to others on delayed timers that a recovery
  to `Running` cancels.

A separate watchdog synthesises stall alerts when no heartbeat arrives within a
timeout. Configuration documents are merged recursively over the built-in defaults.

The model is one Dafny module per source file:

| module | file | form |
|---|---|---|
| `Models` | models.dfy | the enum, the alertable set, the event record (values) |
| `StateClassifier` | state_classifier.dfy | the type lookup (pure functions) |
| `Deduplicator` | deduplicator.dfy | a class whose `lastAlerted`/`lastSeen` maps are updated in place |
| `EventBus` | event_bus.dfy | a class over the subscriber list; `Publish` is a loop |
| `Config` | config.dfy | the value datatype, `DeepUpdate` as a loop with a recursive call, pure accessors |
| `AlertRouter` | alert_router.dfy | pure rule partitions and lookup; a class holding the pending-timer map |
| `Watchdog` | watchdog.dfy | pure clock transitions; a class whose methods overwrite its fields |
| `AttentionObserver` | attention_observer.dfy | the pure branch selection of `on_event`; a class that drives the other objects |
| `Wrappers` | wrappers.dfy | `Option` and `Result` |

The environment the core touches becomes inputs or ghost state:

- **Time** is integer ticks. Every clock reading is a parameter (`now`, `polls`).
- **Backends.** A backend is `Backend(className, instance)`. What its `dispatch`
  does (returns true, returns false, or raises with a message) is the input function
  `respond`.
- **History sink.** Calls to `record_event` and `record_dispatch`, and to the backends,
  are appended to the router's ghost log `effects`. The id that `record_event` returns,
  possibly -1, is the parameter `recordedId`; the router passes it on unchanged.
- **Timers.** A `threading.Timer` is a token in the router's `pending` map. Cancelling
  a timer removes its token; a timer fires only through `Fire(idx)`. Each token carries
  the generation of the `dispatch` that armed it.
- **Observer calls.** The calls the observer makes on the deduplicator and the router
  are kept in its ghost log `calls`.
- **Callbacks.** Bus subscribers are identifiers. Which callbacks raise, and which of
  them have no `__name__` attribute, are sets given to `Publish`.

The behaviour follows the code where the code and its documentation differ:

- **Router fallback.** The router dispatches to every backend whenever no rule is a
  zero-delay backend rule, not only when the rule list is empty
  (alert_router.py:41). `FallbackToAllBackends` states it.
- **Cooldown default.** A state that never alerted counts as alerted at time 0. After a
  reset, or on the very first alert, an event therefore alerts only if its timestamp is
  at least the cooldown (deduplicator.py:27,31). See `AlertAfterReset` and
  `EarlyFirstRequestSuppressed`.
- **Watchdog start state.** `start()` leaves the watchdog paused, although its docstring
  says active (watchdog.py:25-32). The constructor itself leaves the pause flag clear.
- **Re-fire interval.** After the first stall alert, re-fires are throttled by
  `repeat_interval_seconds`, not by `timeout_seconds` as the class docstring says
  (watchdog.py:10,87).
- **Pending keys.** Timers are keyed by their index into the delayed sublist, not into
  the full rule list (alert_router.py:71-76). A delayed rule that names no configured
  backend, or that has neither a backend nor the `auto_pause` action, arms nothing and
  leaves a gap among the keys.
- **The `auto_pause` timer.** It only logs and removes its own key; it calls nothing.

## Model

| member | source | states |
|---|---|---|
| Models.AlertStatesExactly | extensions/attention_alert/models.py:16-23 | `ALERT_STATES` holds exactly the four waiting states and `Stalled`; `Running`, `Completed` and `Failed` are outside it |
| Models.StateCounts | extensions/attention_alert/models.py:5-23 | the enum has exactly eight members, every state is one of them, and five are alertable |
| Models.StateValueInjective | extensions/attention_alert/models.py:5-14 | the members' string values are pairwise distinct |
| Models.AlertStateOrderEnumerates | extensions/attention_alert/models.py:17-23 | the fixed visiting order lists every alertable state exactly once and nothing else |
| Models.NewEvent | extensions/attention_alert/models.py:25-32 | an event built without severity or timestamp has severity "info" and the clock reading at construction |
| StateClassifier.Classify | extensions/attention_alert/state_classifier.py:21-27 | a state `s` is returned exactly when the event type is the one type string that the lookup sends to `s`; `None` exactly when the type is none of them |
| StateClassifier.TypeNameOf | extensions/attention_alert/state_classifier.py:10-19 | every state has a type string that the lookup sends to it |
| StateClassifier.ClassifyKnownTypes | extensions/attention_alert/state_classifier.py:10-19 | each of the eight type strings classifies to exactly its listed state |
| StateClassifier.ClassifyUnknownType | extensions/attention_alert/state_classifier.py:23-26 | the result is `None` exactly for types outside the eight listed strings |
| StateClassifier.ClassifyDependsOnlyOnType | extensions/attention_alert/state_classifier.py:23 | two events with the same type classify alike, whatever their source, payload, severity and timestamp |
| StateClassifier.TypeMapBijective | extensions/attention_alert/state_classifier.py:10-19 | the lookup is injective and `TypeNameOf` inverts it in both directions |
| StateClassifier.TypeMapImage | extensions/attention_alert/state_classifier.py:10-19 | the image of the lookup is all eight states |
| StateClassifier.AlertingTypes | extensions/attention_alert/state_classifier.py:10-19 | the alerting type strings are exactly the type strings of the alertable states |
| StateClassifier.FiveAlertingTypes | extensions/attention_alert/state_classifier.py:11-15 | exactly the five listed type strings classify into `ALERT_STATES` |
| Deduplicator.AlertedAfter | extensions/attention_alert/deduplicator.py:31-36 | an allowed alert stamps the state with `now`; a suppressed one changes nothing; entries of other states are kept |
| Deduplicator.Deduplicator.constructor | extensions/attention_alert/deduplicator.py:13-18 | the cooldown is the one given and both maps start empty |
| Deduplicator.Deduplicator.ShouldAlert | extensions/attention_alert/deduplicator.py:20-38 | returns false exactly when `now - last_alerted < cooldown`; always records the sighting; stamps `last_alerted` only when it allows |
| Deduplicator.Deduplicator.Reset | extensions/attention_alert/deduplicator.py:40-46 | removes the state's last alert time, is a no-op when there is none, and leaves `last_seen` alone |
| Deduplicator.CooldownIsPerState | extensions/attention_alert/deduplicator.py:27-36 | an alert for one state never changes the decision for another |
| Deduplicator.SecondAlertAfterCooldown | extensions/attention_alert/deduplicator.py:31 | after an allowed alert at `t1`, an alert at `t2 > t1` is allowed exactly when `t2 - t1 >= cooldown` |
| Deduplicator.AlertAfterReset | extensions/attention_alert/deduplicator.py:27-46 | after `reset(s)`, the next alert for `s` passes exactly when its timestamp is at least the cooldown |
| Deduplicator.Decisions | extensions/attention_alert/deduplicator.py:20-38 | a run of sightings gets one decision each, in order |
| Deduplicator.FirstSightingFromZero | extensions/attention_alert/deduplicator.py:27-31 | the first sighting in a run of a state never alerted is allowed exactly when its time is at least the cooldown |
| Deduplicator.AllowedAfterStamp | extensions/attention_alert/deduplicator.py:27-36 | once a state has alerted at `v`, every later allowed alert for it comes at least a cooldown after `v` |
| Deduplicator.AllowedAlertsAreSpaced | extensions/attention_alert/deduplicator.py:27-36 | over any run with non-decreasing timestamps, two allowed alerts of one state are at least the cooldown apart |
| Deduplicator.RepeatWithinCooldownSuppressed | smoke_test.py:16-36 | with the default cooldown of 10, an alert and its repeat two seconds later give allow, then suppress |
| EventBus.IndexOf | extensions/attention_alert/event_bus.py:23-24 | the position found holds the callback and no earlier position does |
| EventBus.RemoveFirst | extensions/attention_alert/event_bus.py:23-24 | `list.remove`: an absent callback leaves the list as it was; otherwise the list is everything before the first occurrence followed by everything after it |
| EventBus.RemoveFirstNoDuplicates | extensions/attention_alert/event_bus.py:16-24 | on a duplicate-free list, removal leaves a duplicate-free list that lacks the callback and holds every other one |
| EventBus.SpliceNoDuplicates | extensions/attention_alert/event_bus.py:16-24 | cutting one position out of a duplicate-free list leaves a duplicate-free list without that element and with every other one |
| EventBus.EventBus.constructor | extensions/attention_alert/event_bus.py:11-14 | a new bus has no subscribers |
| EventBus.EventBus.Subscribe | extensions/attention_alert/event_bus.py:16-19 | a new callback is appended at the end; an already registered one leaves the list as it was; no duplicates ever |
| EventBus.EventBus.Unsubscribe | extensions/attention_alert/event_bus.py:21-24 | the callback's occurrence is removed and the others keep their order; an absent callback changes nothing |
| EventBus.EventBus.Publish | extensions/attention_alert/event_bus.py:26-47 | the subscribers are invoked in list order with the published event, each at most once; a raising subscriber is caught and the loop goes on, except that one without a `__name__` makes the handler itself raise, so the error escapes and no later subscriber runs; the list is not modified |
| EventBus.SubscribedReceivesOnce | extensions/attention_alert/event_bus.py:39-43 | a subscribed callback receives the event exactly when no subscriber ahead of it raised without a `__name__`, and never twice; when every raising subscriber has a name, all receive it |
| EventBus.FirstIn | extensions/attention_alert/event_bus.py:39-43 | the position found holds a subscriber of the given set and no earlier position does |
| EventBus.Reached | extensions/attention_alert/event_bus.py:39-44 | `publish` invokes every subscriber up to and including the first that raises without a `__name__`, or all of them when there is none |
| Config.DeepUpdate | extensions/attention_alert/config.py:88-95 | returns the merged document exactly when the merge can complete, and fails exactly where Python raises |
| Config.MergedEntries | extensions/attention_alert/config.py:89-94 | keys of `d` that `u` lacks are unchanged; non-mapping values of `u` overwrite; mapping values merge recursively; the key set is the union |
| Config.MergedNestedKeys | extensions/attention_alert/config.py:91-92 | at the next level the merged key set is again the union of both key sets |
| Config.MergeIntoNonMapping | extensions/attention_alert/config.py:91-94 | merging into a non-mapping succeeds exactly for an empty update, which returns the target unchanged |
| Config.MergeIdempotent | extensions/attention_alert/config.py:89-95 | merging the same update twice equals merging it once |
| Config.AccessorDefaults | extensions/attention_alert/config.py:32-54 | on missing keys the accessors give True, 10, 30, an empty mapping, an empty list and an empty mapping |
| Config.OverridesKeepDefaults | extensions/attention_alert/config.py:59-67 | a user document merged over the defaults keeps every default it does not mention, and its scalars and lists replace the defaults outright |
| AlertRouter.ImmediateNames | extensions/attention_alert/alert_router.py:36-39 | a name is listed exactly when a zero-delay rule with a backend carries it; the list is empty exactly when no rule is immediate; there are no more names than rules |
| AlertRouter.DelayedRules | extensions/attention_alert/alert_router.py:71-74 | a rule is listed exactly when it is one of the rules and its delay is positive; there are no more than the rules |
| AlertRouter.ImmediateNamesDistribute | extensions/attention_alert/alert_router.py:36-39 | the immediate comprehension keeps rule order: on a concatenation it concatenates |
| AlertRouter.DelayedRulesDistribute | extensions/attention_alert/alert_router.py:71-74 | the delayed comprehension keeps rule order: on a concatenation it concatenates |
| AlertRouter.ParseRule | extensions/attention_alert/alert_router.py:36-96 | an entry reads as a rule exactly when it is a mapping whose `delay_seconds`, if present, is an integer or a boolean and whose `backend`, if present, is a string; the rule's delay is that value (a boolean as 0 or 1), or 0 when absent; it has a backend, a stated delay and an action exactly when the entry has that key, and they are the entry's values |
| AlertRouter.ParseRules | extensions/attention_alert/alert_router.py:17-18 | the escalation list reads as rules exactly when every entry reads as a rule, and then there is one rule per entry, in order, each read from its entry |
| AlertRouter.LowerAll | extensions/attention_alert/alert_router.py:113 | lower-casing maps each character by the ASCII case mapping and keeps the length |
| AlertRouter.FirstOfClass | extensions/attention_alert/alert_router.py:114-117 | the position found holds the class, and no earlier backend has it |
| AlertRouter.BackendByName | extensions/attention_alert/alert_router.py:111-117 | the lookup finds nothing exactly when no backend has the class `name.capitalize() + "Backend"`; otherwise it finds a configured backend of that class with none before it |
| AlertRouter.LowerAllIdempotent | extensions/attention_alert/alert_router.py:113 | lower-casing twice equals lower-casing once |
| AlertRouter.LookupIgnoresCase | extensions/attention_alert/alert_router.py:111-117 | a name and its lower-case form look up the same backend |
| AlertRouter.StandardNames | extensions/attention_alert/alert_router.py:112-113 | "audio", "desktop" and "webhook" look up `AudioBackend`, `DesktopBackend` and `WebhookBackend` |
| AlertRouter.ResolveAll | extensions/attention_alert/alert_router.py:46-50 | every resolved backend is configured and is the lookup of one of the names; every name that looks up a backend contributes it; unknown names are skipped |
| AlertRouter.ImmediateTargets | extensions/attention_alert/alert_router.py:41-50 | every immediate target is a configured backend |
| AlertRouter.FallbackToAllBackends | extensions/attention_alert/alert_router.py:41-44 | with no zero-delay backend rule, even when delayed rules exist, the immediate targets are all backends in order |
| AlertRouter.OnlyNamedBackends | extensions/attention_alert/alert_router.py:45-50 | with an immediate rule, every target is a configured backend whose class an immediate rule names |
| AlertRouter.BackendEffects | extensions/attention_alert/alert_router.py:119-139 | one delivery calls exactly that backend, and records one outcome under the event id with the backend's class exactly when history exists and the event id is set |
| AlertRouter.RecordedAppend | extensions/attention_alert/alert_router.py:119-139 | the recorded outcomes of two logs in sequence are the outcomes of the first followed by those of the second |
| AlertRouter.Stamped | extensions/attention_alert/alert_router.py:124-126 | one outcome per target, in order, each under the given id and the target's class |
| AlertRouter.DeliverAllRecords | extensions/attention_alert/alert_router.py:119-139 | delivering to a target list records one outcome per target, in order, under the event id when history exists and the id is set, and nothing otherwise |
| AlertRouter.RecordedStatus | extensions/attention_alert/alert_router.py:121-139 | the recorded status is success for true, suppressed for false, and failed with the error message for a raise |
| AlertRouter.DeliverAllCallsEachOnce | extensions/attention_alert/alert_router.py:41-50 | delivering to a target list calls each target exactly once, in list order, repeats included |
| AlertRouter.NoRecordEventInDelivery | extensions/attention_alert/alert_router.py:119-139 | a delivery never records an event |
| AlertRouter.AlertTitleInjective | extensions/attention_alert/alert_router.py:28 | distinct states get distinct titles |
| AlertRouter.AlertMessageIdentifies | extensions/attention_alert/alert_router.py:29 | for sources without a line break, the message determines the event's source and type |
| AlertRouter.DispatchCallsImmediateTargets | extensions/attention_alert/alert_router.py:26-53 | `dispatch` calls exactly the immediate targets, after recording the event once, and only when history exists |
| AlertRouter.DispatchRecordsOutcomes | extensions/attention_alert/alert_router.py:31-50 | with history, `dispatch` records one outcome per immediate target, in call order, under the id `record_event` returned, even when it is -1; without history it records none |
| AlertRouter.ScheduledUpTo | extensions/attention_alert/alert_router.py:76-109 | after the first `n` delayed rules, an index is pending exactly when it is below `n` and its rule arms a job; the timer there is that job under the rule's delay |
| AlertRouter.JobFor | extensions/attention_alert/alert_router.py:79-109 | a rule with a backend arms a delivery exactly when some backend has its target class, and that delivery goes to such a backend with the dispatch's title, message and event id; a rule without a backend arms the pause exactly when its action is `auto_pause`; otherwise nothing |
| AlertRouter.Scheduled | extensions/attention_alert/alert_router.py:71-109 | every armed timer sits at an index of the delayed rules visited so far and belongs to the chain that armed it |
| AlertRouter.ScheduledKeys | extensions/attention_alert/alert_router.py:63-109 | the pending keys are exactly the delayed-sublist indices whose rule names a resolvable backend or has the `auto_pause` action, each with its rule's delay |
| AlertRouter.AlertRouter.constructor | extensions/attention_alert/alert_router.py:13-24 | the router holds the given backends, the configured rules and no pending timers |
| AlertRouter.AlertRouter.GetBackendByName | extensions/attention_alert/alert_router.py:111-117 | the linear search returns what the lookup specifies |
| AlertRouter.AlertRouter.DispatchToBackend | extensions/attention_alert/alert_router.py:119-139 | appends exactly one delivery's calls and never touches the timers |
| AlertRouter.AlertRouter.Dispatch | extensions/attention_alert/alert_router.py:26-53 | appends the dispatch calls and replaces every pending timer with a new timer set |
| AlertRouter.AlertRouter.DeliverImmediate | extensions/attention_alert/alert_router.py:35-50 | delivers to the immediate targets in order |
| AlertRouter.AlertRouter.DeliverToEach | extensions/attention_alert/alert_router.py:41-44 | the fallback loop delivers to each backend in order |
| AlertRouter.AlertRouter.DeliverToNamed | extensions/attention_alert/alert_router.py:46-50 | the named loop delivers to each resolved name in order and skips unknown names |
| AlertRouter.AlertRouter.DeliverToName | extensions/attention_alert/alert_router.py:48-50 | one name delivers to its backend, or does nothing when it resolves to none |
| AlertRouter.AlertRouter.ScheduleEscalations | extensions/attention_alert/alert_router.py:63-109 | no previously pending timer survives; the new pending map is the timer set armed for the delayed rules; no call is made |
| AlertRouter.AlertRouter.Arm | extensions/attention_alert/alert_router.py:77-109 | arms the rule's timer under its index when the rule has a job, and otherwise leaves the pending map alone; no call is made |
| AlertRouter.AlertRouter.ResolveBlock | extensions/attention_alert/alert_router.py:55-61 | every pending timer is cancelled and no call is made |
| AlertRouter.AlertRouter.Fire | extensions/attention_alert/alert_router.py:84-104 | a pending timer removes only its own key after doing its job; a cancelled one does nothing |
| AlertRouter.DefaultEscalationPolicy | extensions/attention_alert/config.py:15-20 | the default rules are audio at once, then desktop after 30, webhook after 120 and auto_pause after 600; only audio is immediate; the default backends get audio only |
| AlertRouter.DefaultImmediateNames | extensions/attention_alert/alert_router.py:36-39 | over the default rules the only immediate name is "audio" |
| AlertRouter.DefaultDelayedRules | extensions/attention_alert/alert_router.py:71-74 | over the default rules the delayed rules are desktop, webhook and auto_pause, in that order |
| AlertRouter.DefaultAudioTarget | extensions/attention_alert/alert_router.py:46-50 | over the default backends the name "audio" resolves to the audio backend alone |
| AlertRouter.DefaultRulesParse | extensions/attention_alert/config.py:15-20 | the default escalation list reads as four well-formed rules |
| AlertRouter.DefaultTimers | extensions/attention_alert/alert_router.py:71-109 | with the default rules and backends, desktop is armed under index 0 and the pause under index 2; the webhook rule arms nothing |
| AlertRouter.DefaultJobs | extensions/attention_alert/alert_router.py:79-109 | over the default backends, the desktop rule arms a delivery to the desktop backend, the webhook rule arms nothing, and the auto_pause rule arms the pause |
| Watchdog.OverdueStaysOverdue | extensions/attention_alert/watchdog.py:82-90 | once a check would fire, a check from the same state at any later instant fires too and stamps that instant as the alert time |
| Watchdog.PausedNeverFires | extensions/attention_alert/watchdog.py:79-80 | while paused, no check fires however much time passes, and checks change nothing |
| Watchdog.ThrottleAfterFire | extensions/attention_alert/watchdog.py:86-90 | after a fire, the throttle is the repeat interval and no check within it fires |
| Watchdog.QuietUntil | extensions/attention_alert/watchdog.py:86-88 | no check up to the alert time plus the repeat interval fires |
| Watchdog.RefireAfterRepeat | extensions/attention_alert/watchdog.py:86-88 | a stalled watchdog re-fires exactly once more than the repeat interval has passed since its last fire |
| Watchdog.HeartbeatRestoresFirstThrottle | extensions/attention_alert/watchdog.py:46-55 | a heartbeat unpauses, clears the alert time and restores the timeout as the throttle |
| Watchdog.ResumeRestartsWindow | extensions/attention_alert/watchdog.py:63-69 | `resume` when paused restarts the window like a heartbeat; when not paused it changes nothing |
| Watchdog.PauseOnlySetsFlag | extensions/attention_alert/watchdog.py:58-61 | `pause` sets the flag, keeps both times, and no check fires afterwards |
| Watchdog.WatchdogScenario | test_watchdog.py:20-57 | with timeout 3: no fire while started paused, none during heartbeats, none while paused, and a fire after resume once the timeout has passed |
| Watchdog.Polled | extensions/attention_alert/watchdog.py:76-90 | checks never move the heartbeat or the pause flag; the alert time ends as it was or at one of the poll instants |
| Watchdog.FireTrace | extensions/attention_alert/watchdog.py:76-90 | one answer per poll; a poll fires only when the watchdog is not paused and the heartbeat is older than the timeout |
| Watchdog.WatchStep | extensions/attention_alert/watchdog.py:76-95 | one pass of the loop extends the fired prefix by the check at the next poll and keeps the predicted end state |
| Watchdog.ExecutionWatchdog.constructor | extensions/attention_alert/watchdog.py:14-22 | the configured timeout, repeat interval and callback; not paused; never alerted; no thread |
| Watchdog.ExecutionWatchdog.Start | extensions/attention_alert/watchdog.py:24-37 | with no live thread: paused, never alerted, heartbeat now; with a live thread: no change |
| Watchdog.ExecutionWatchdog.Stop | extensions/attention_alert/watchdog.py:39-44 | requests the stop and drops the thread; the clock state is unchanged |
| Watchdog.ExecutionWatchdog.Heartbeat | extensions/attention_alert/watchdog.py:46-56 | heartbeat now, alert time cleared, unpaused |
| Watchdog.ExecutionWatchdog.Pause | extensions/attention_alert/watchdog.py:58-61 | sets the pause flag only |
| Watchdog.ExecutionWatchdog.Resume | extensions/attention_alert/watchdog.py:63-69 | when paused, unpauses and restarts the window; otherwise changes nothing |
| Watchdog.ExecutionWatchdog.Check | extensions/attention_alert/watchdog.py:79-95 | fires exactly under the three conditions; invokes the callback exactly when it fires and one is set; a raising callback leaves the state consistent |
| Watchdog.ExecutionWatchdog.Watch | extensions/attention_alert/watchdog.py:71-95 | the loop fires exactly at the polls the pure trace predicts and ends in the predicted state; after a stop request it does nothing |
| AttentionObserver.UnclassifiedMakesNoCalls | extensions/attention_alert/attention_observer.py:70-72 | an unclassified event calls neither the deduplicator nor the router |
| AttentionObserver.RunningResolvesAndResets | extensions/attention_alert/attention_observer.py:75-83 | a `Running` event resolves the block once and resets every alertable state exactly once; it never consults the deduplicator or dispatches |
| AttentionObserver.ResolveThenResets | extensions/attention_alert/attention_observer.py:77-82 | resolving and then resetting the states of an order names exactly those states, each once when the order has no repeats, and never consults or dispatches |
| AttentionObserver.TerminalStatesMakeNoCalls | extensions/attention_alert/attention_observer.py:86-88 | `Completed` and `Failed` events make no call |
| AttentionObserver.AlertableConsultsOnce | extensions/attention_alert/attention_observer.py:90-96 | an alertable state consults the deduplicator exactly once, first, and dispatches exactly when that allows |
| AttentionObserver.CallsFor | extensions/attention_alert/attention_observer.py:85-96 | the deduplicator is consulted, and a dispatch asked for, only for the classified state and only when it is alertable; a dispatch only when the deduplicator allowed it |
| AttentionObserver.Resets | extensions/attention_alert/attention_observer.py:79-82 | one reset per state of the visiting order, in that order |
| AttentionObserver.RecoveryResetsCooldowns | extensions/attention_alert/attention_observer.py:75-83 | after a recovery, the next alert for any alertable state passes exactly when its timestamp is at least the cooldown |
| AttentionObserver.SmokeTest | smoke_test.py:16-57 | the confirmation request alerts, its repeat is suppressed, the recovery alerts nothing, and the next request alerts again |
| AttentionObserver.SmokeTestRepeat | smoke_test.py:16-57 | from a stamp at `t0`, the repeat at `t0 + 2` is suppressed, the recovery alerts nothing and the next request alerts |
| AttentionObserver.SmokeTestAfterRecovery | smoke_test.py:39-57 | after the recovery the stamp is gone and the next confirmation request alerts at once |
| AttentionObserver.Outcomes | extensions/attention_alert/attention_observer.py:67-96 | one decision per event; an event is dispatched only when it classifies to an alertable state |
| AttentionObserver.EarlyFirstRequestSuppressed | extensions/attention_alert/deduplicator.py:27-33 | a first request alerts exactly when its timestamp is at least the cooldown of 10 |
| AttentionObserver.AttentionObserver.constructor | extensions/attention_alert/attention_observer.py:22-33 | the observer holds the given bus, deduplicator and router, and has made no call |
| AttentionObserver.AttentionObserver.Start | extensions/attention_alert/attention_observer.py:57-60 | subscribes `on_event` to the bus, idempotently |
| AttentionObserver.AttentionObserver.Stop | extensions/attention_alert/attention_observer.py:62-65 | unsubscribes `on_event`; it is no longer a subscriber |
| AttentionObserver.AttentionObserver.ResetAll | extensions/attention_alert/attention_observer.py:79-82 | every alertable state's last alert time is forgotten, `last_seen` is kept, and one reset per state is made |
| AttentionObserver.AttentionObserver.OnEvent | extensions/attention_alert/attention_observer.py:67-96 | the calls made, the deduplicator's new maps and the router's new state are those the branch selection prescribes; a suppressed or non-alertable event leaves the router alone |

## Left out

- Backends (audio, desktop, webhook, popup UI): operating-system sound, subprocess popups and HTTP with HMAC signing. They are foreign calls; a backend's answer is the input `respond`.
- History storage (history.py): SQLite persistence. It is a ghost log of calls, and the id it returns is an input.
- The observer's construction of its default backends and history from the configuration (attention_observer.py:35-53): object construction over foreign classes. The model's constructor takes the collaborators.
- `Config.load`, `get_config`, `get_global_bus`, `get_watchdog`: file and YAML reading, environment-variable overrides and process-wide singletons. This includes `get_watchdog` overwriting the timeout of the existing instance.
- Config.DeepUpdate: the document is a value, so the in-place update of `d`, the partial update left behind by a failing merge, and the aliasing of nested mappings through the shallow `DEFAULT_CONFIG.copy()` are not modelled.
- Threads, locks and timers: `threading.Timer`, the `_watch` thread, `sleep` and `stop()`'s `join(timeout=2.0)`. Firing, cancelling and checking are explicit methods, the lock is method atomicity, and a timer that is already firing while it is cancelled is not modelled.
- Floating-point time: the poll interval `min(2.0, timeout / 3)`. Polls are explicit integer instants.
- Logging, and the bus's bounded queue with its unused `queue.Full` branch.
- AlertRouter.AlertRouter.constructor: requires an escalation list every entry of which reads as a rule (`RulesOf(config).Some?`), so the failures a malformed entry causes are not modelled. The source accepts any list and fails, if at all, only inside `dispatch`, after the event was recorded. An entry that is not a mapping fails at `rule.get` in the immediate comprehension (alert_router.py:36-39), before any backend is called. A string delay is never immediate and fails at the comparison `> 0` (alert_router.py:73), after the immediate backends were called and the old timers were cancelled. A backend that is not a string fails at `name.capitalize()` (alert_router.py:113), at once for a zero delay and in the timer loop for a positive one; a rule with a negative delay never looks at its backend, so there it is harmless, but the model still refuses it.
- Config.Value has no null and no floating-point leaf, so a YAML `null` or a float delay cannot be written. In the source `delay_seconds: null` fails like a string delay; a float delay works, with `0.0` immediate and `30.0` delayed. A boolean delay is modelled, as 0 or 1, because Python compares `False == 0` and `True > 0`.
- EventBus.EventBus.Publish, EventBus.SubscribedReceivesOnce: a subscriber that subscribes or unsubscribes another callback while `publish` runs is not modelled. Python's `for` over the live list would then skip or add a subscriber; in the model callbacks cannot reach the bus, and `Publish` leaves the list alone.
- The constructors take every argument: the defaults `cooldown_seconds=10` (deduplicator.py:13), `timeout_seconds=5` and `repeat_interval_seconds=60` (watchdog.py:14) are not modelled as defaults; a caller that relies on one passes the value itself.
- The iteration order of `ALERT_STATES`, which Python leaves unspecified for a set. The model visits the states in one fixed order; the resulting state does not depend on the order.
- Watchdog.ThrottleAfterFire: requires the fire instant to be nonzero. A fire at tick 0 stamps the alert time with 0, which the source reads as "never alerted", so the first-alert throttle applies again.
- Watchdog.RefireAfterRepeat: requires the fire instant to be nonzero, for the same reason.
- AlertRouter.LowerAll, AlertRouter.Capitalize, AlertRouter.TargetClass, AlertRouter.BackendByName, AlertRouter.LookupIgnoresCase: case mapping is ASCII only. Python's `str.lower` and `str.capitalize` follow Unicode and can change the length (`'ß'.capitalize()` is `'Ss'`, and the Kelvin sign U+212A lower-cases to `'k'`), so for non-ASCII names the model's target class and lookup can differ from the source's.
- AlertRouter.AlertTitle: the title is written out per state rather than computed by `state.name.replace('_', ' ').title()`; the eight strings are what that expression gives.
- AlertRouter.DispatchEffects: `respond` gives one answer per backend for a whole dispatch, so a backend that two immediate rules name answers alike both times; a backend whose answer changes between two calls of one dispatch is not modelled.
