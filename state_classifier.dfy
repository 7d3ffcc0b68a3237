/**
 * The fixed lookup from raw event type strings to canonical states
 * (extensions/attention_alert/state_classifier.py).
 */
module StateClassifier {
  import opened Wrappers
  import opened Models

  /** `StateClassifier._MAP`. */
  const TypeMap: map<string, AgentState> := map[
    "awaiting_confirmation" := WaitingForConfirmation,
    "awaiting_user_input" := WaitingForExternalInput,
    "stdin_request" := WaitingForStdin,
    "permission_request" := WaitingForPermission,
    "execution_stalled" := Stalled,
    "execution_completed" := Completed,
    "execution_failed" := Failed,
    "execution_running" := Running
  ]

  /** `classify`: the state the event's type maps to, or `None` for an unknown type. An
      event classifies to `s` exactly when its type is the name `TypeNameOf(s)` of
      that state, and to nothing exactly when its type names no state. */
  function Classify(event: AgentEvent): (r: Option<AgentState>)
    ensures forall s :: r == Some(s) <==> event.eventType == TypeNameOf(s)
    ensures r.None? <==> forall s :: event.eventType != TypeNameOf(s)
  {
    if event.eventType in TypeMap then Some(TypeMap[event.eventType]) else None
  }

  /** The type string that the lookup sends to each state: the inverse of `TypeMap`. */
  function TypeNameOf(s: AgentState): (t: string)
    ensures t in TypeMap && TypeMap[t] == s
  {
    match s
    case WaitingForConfirmation => "awaiting_confirmation"
    case WaitingForExternalInput => "awaiting_user_input"
    case WaitingForStdin => "stdin_request"
    case WaitingForPermission => "permission_request"
    case Stalled => "execution_stalled"
    case Completed => "execution_completed"
    case Failed => "execution_failed"
    case Running => "execution_running"
  }

  /** Each of the eight mapped type strings classifies to exactly its listed state. */
  lemma ClassifyKnownTypes(event: AgentEvent)
    ensures event.eventType == "awaiting_confirmation" ==> Classify(event) == Some(WaitingForConfirmation)
    ensures event.eventType == "awaiting_user_input" ==> Classify(event) == Some(WaitingForExternalInput)
    ensures event.eventType == "stdin_request" ==> Classify(event) == Some(WaitingForStdin)
    ensures event.eventType == "permission_request" ==> Classify(event) == Some(WaitingForPermission)
    ensures event.eventType == "execution_stalled" ==> Classify(event) == Some(Stalled)
    ensures event.eventType == "execution_completed" ==> Classify(event) == Some(Completed)
    ensures event.eventType == "execution_failed" ==> Classify(event) == Some(Failed)
    ensures event.eventType == "execution_running" ==> Classify(event) == Some(Running)
  {
  }

  /** Exactly the eight listed type strings are recognised; any other type yields `None`. */
  lemma ClassifyUnknownType(event: AgentEvent)
    ensures Classify(event).None? <==>
      event.eventType !in {"awaiting_confirmation", "awaiting_user_input", "stdin_request", "permission_request",
                           "execution_stalled", "execution_completed", "execution_failed", "execution_running"}
  {
  }

  /** The result depends only on the event's type: source, payload, severity and timestamp are ignored. */
  lemma ClassifyDependsOnlyOnType(e1: AgentEvent, e2: AgentEvent)
    requires e1.eventType == e2.eventType
    ensures Classify(e1) == Classify(e2)
  {
  }

  /** `TypeMap` is injective and `TypeNameOf` inverts it, so its image is every state:
      an event of type `TypeNameOf(s)` classifies to `s`, and every mapped type is the name of its state. */
  lemma {:induction false} TypeMapBijective(s: AgentState, t: string)
    ensures Classify(AgentEvent(TypeNameOf(s), "", map[], "info", 0)) == Some(s)
    ensures t in TypeMap ==> TypeNameOf(TypeMap[t]) == t
  {
    if t in TypeMap {
      // a case split over the eight keys of the lookup
      if t == "awaiting_confirmation" {} else if t == "awaiting_user_input" {}
      else if t == "stdin_request" {} else if t == "permission_request" {}
      else if t == "execution_stalled" {} else if t == "execution_completed" {}
      else if t == "execution_failed" {} else {}
    }
  }

  /** The image of `TypeMap` is all eight states. */
  lemma TypeMapImage()
    ensures TypeMap.Values == AllStates
  {
    forall s | s in AllStates ensures s in TypeMap.Values {
      assert TypeMap[TypeNameOf(s)] == s;
    }
  }

  /** The type strings whose state is alertable: exactly the names of the states of
      `ALERT_STATES`. */
  function AlertingTypes(): (r: set<string>)
    ensures r == set s | s in AlertStates :: TypeNameOf(s)
  {
    set t | t in TypeMap && TypeMap[t] in AlertStates
  }

  /** Exactly five mapped type strings classify into `ALERT_STATES`. */
  lemma {:induction false} FiveAlertingTypes()
    ensures AlertingTypes() == {"awaiting_confirmation", "awaiting_user_input", "stdin_request",
                                "permission_request", "execution_stalled"}
    ensures |AlertingTypes()| == 5
  {
    var expected := {"awaiting_confirmation", "awaiting_user_input", "stdin_request",
                     "permission_request", "execution_stalled"};
    assert TypeMap.Keys == expected + {"execution_completed", "execution_failed", "execution_running"};
    forall t | t in AlertingTypes() ensures t in expected {
      assert t != "execution_completed" && t != "execution_failed" && t != "execution_running";
    }
    assert AlertingTypes() == expected;
  }
}
