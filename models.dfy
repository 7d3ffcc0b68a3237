/**
 * The canonical agent states, the alertable subset and the raw event record
 * (extensions/attention_alert/models.py).
 */
module Models {

  /** `AgentState`: the eight canonical execution states of the agent. */
  datatype AgentState =
    | Running
    | WaitingForConfirmation
    | WaitingForStdin
    | WaitingForPermission
    | WaitingForExternalInput
    | Stalled
    | Completed
    | Failed

  /** The string value each enum member carries. */
  function StateValue(s: AgentState): string {
    match s
    case Running => "running"
    case WaitingForConfirmation => "waiting_for_confirmation"
    case WaitingForStdin => "waiting_for_stdin"
    case WaitingForPermission => "waiting_for_permission"
    case WaitingForExternalInput => "waiting_for_external_input"
    case Stalled => "stalled"
    case Completed => "completed"
    case Failed => "failed"
  }

  /** Every member of the enumeration. */
  const AllStates: set<AgentState> :=
    {Running, WaitingForConfirmation, WaitingForStdin, WaitingForPermission,
     WaitingForExternalInput, Stalled, Completed, Failed}

  /** `ALERT_STATES`: the states that should trigger an alert. */
  const AlertStates: set<AgentState> :=
    {WaitingForConfirmation, WaitingForStdin, WaitingForPermission, WaitingForExternalInput, Stalled}

  /** The alertable states in the fixed order in which this model visits them. */
  const AlertStateOrder: seq<AgentState> :=
    [WaitingForConfirmation, WaitingForStdin, WaitingForPermission, WaitingForExternalInput, Stalled]

  /** `ALERT_STATES` holds exactly the four waiting states and `Stalled`, and never
      `Running`, `Completed` or `Failed`. */
  lemma AlertStatesExactly(s: AgentState)
    ensures s in AlertStates <==> s.WaitingForConfirmation? || s.WaitingForStdin? || s.WaitingForPermission?
                                  || s.WaitingForExternalInput? || s.Stalled?
    ensures s in AlertStates <==> !(s.Running? || s.Completed? || s.Failed?)
  {
  }

  /** The enumeration has exactly eight members, five of them alertable. */
  lemma {:induction false} StateCounts()
    ensures |AllStates| == 8 && |AlertStates| == 5
    ensures forall s: AgentState :: s in AllStates
    ensures AlertStates < AllStates
  {
    forall s: AgentState ensures s in AllStates {
      match s
      case Running => case WaitingForConfirmation => case WaitingForStdin =>
      case WaitingForPermission => case WaitingForExternalInput => case Stalled =>
      case Completed => case Failed =>
    }
  }

  /** The members carry pairwise-distinct string values. */
  lemma StateValueInjective(a: AgentState, b: AgentState)
    requires StateValue(a) == StateValue(b)
    ensures a == b
  {
  }

  /** The alert order lists every alertable state exactly once. */
  lemma {:induction false} AlertStateOrderEnumerates()
    ensures |AlertStateOrder| == |AlertStates|
    ensures forall s :: s in AlertStates <==> s in AlertStateOrder
    ensures forall i, j :: 0 <= i < j < |AlertStateOrder| ==> AlertStateOrder[i] != AlertStateOrder[j]
  {
    StateCounts();
  }

  /**
   * `AgentEvent`: a raw occurrence from a producer. `payload` is not read by the
   * alerting core; its values are abstracted to strings.
   */
  datatype AgentEvent = AgentEvent(
    eventType: string,
    source: string,
    payload: map<string, string>,
    severity: string,
    timestamp: int)

  /** An event built without `severity` or `timestamp`: severity defaults to "info"
      and the timestamp is the clock reading `clock` taken at construction. */
  function NewEvent(eventType: string, source: string, payload: map<string, string>, clock: int): (e: AgentEvent)
    ensures e.severity == "info" && e.timestamp == clock
    ensures e.eventType == eventType && e.source == source && e.payload == payload
  {
    AgentEvent(eventType, source, payload, "info", clock)
  }
}
