/**
 * The lifecycle state machine of the tracker controller: its twelve
 * states, fourteen inputs, the actions its transitions run, and the
 * transition table.  The table is given twice: once as the compact total
 * function `Transition`, and once row by row, one row per state and
 * input, in the order the inputs are declared.
 */
module TrackerControllerTable {

  datatype State =
    | IdleState
    | AttemptingToInitializeState
    | AttemptingToInitializePolarisVicraState
    | AttemptingToInitializePolarisHybridState
    | AttemptingToInitializeAuroraState
    | AttemptingToInitializeMicronState
    | AttemptingToInitializeMedSafeState
    | InitializedState
    | AttemptingToStartTrackingState
    | TrackingState
    | AttemptingToCloseCommunicationState
    | AttemptingToStopTrackingState

  datatype Input =
    | TrackerInitializeInput
    | PolarisVicraInitializeInput
    | PolarisHybridInitializeInput
    | AuroraInitializeInput
    | MicronInitializeInput
    | MedSafeInitializeInput
    | StartTrackingInput
    | StopTrackingInput
    | FailedInput
    | SucceededInput
    | CloseCommunicationInput
    | GetToolsInput
    | GetToolInput
    | GetReferenceToolInput

  /** The action a transition runs; the controller's method for action X
      is XProcessing. */
  datatype Action =
    | TrackerInitialize
    | PolarisVicraInitialize
    | PolarisHybridInitialize
    | AuroraInitialize
    | MicronInitialize
    | MedSafeInitialize
    | StartTracking
    | StopTracking
    | CloseCommunication
    | GetTools
    | GetTool
    | GetReferenceTool
    | ReportInitializationSuccess
    | ReportInitializationFailure
    | ReportStartTrackingSuccess
    | ReportStartTrackingFailure
    | ReportStopTrackingSuccess
    | ReportStopTrackingFailure
    | ReportCloseCommunicationSuccess
    | ReportCloseCommunicationFailure
    | ReportInvalidRequest

  /** The five states that wait for one tracker family to open. */
  predicate IsFamilyAttempt(s: State)
  {
    s.AttemptingToInitializePolarisVicraState? || s.AttemptingToInitializePolarisHybridState? ||
    s.AttemptingToInitializeAuroraState? || s.AttemptingToInitializeMicronState? ||
    s.AttemptingToInitializeMedSafeState?
  }

  /** The next state and the action for every state and input. */
  function Transition(s: State, i: Input): (r: (State, Action))
    ensures r.1 == ReportInvalidRequest ==>
      r.0 == s || ((s == AttemptingToInitializeState || IsFamilyAttempt(s)) && r.0 == IdleState)
    ensures r.0 == TrackingState <==>
      (s == AttemptingToStartTrackingState && i == SucceededInput) ||
      (s == TrackingState && i != StopTrackingInput) ||
      (s == AttemptingToStopTrackingState && i == FailedInput)
  {
    match s
    case IdleState =>
      if i == TrackerInitializeInput then (AttemptingToInitializeState, TrackerInitialize)
      else if i == StopTrackingInput then (IdleState, ReportStopTrackingSuccess)
      else if i == CloseCommunicationInput then (IdleState, ReportCloseCommunicationSuccess)
      else (IdleState, ReportInvalidRequest)
    case AttemptingToInitializeState =>
      (match i
       case FailedInput => (IdleState, ReportInitializationFailure)
       case PolarisVicraInitializeInput => (AttemptingToInitializePolarisVicraState, PolarisVicraInitialize)
       case PolarisHybridInitializeInput => (AttemptingToInitializePolarisHybridState, PolarisHybridInitialize)
       case AuroraInitializeInput => (AttemptingToInitializeAuroraState, AuroraInitialize)
       case MicronInitializeInput => (AttemptingToInitializeMicronState, MicronInitialize)
       case MedSafeInitializeInput => (AttemptingToInitializeMedSafeState, MedSafeInitialize)
       case _ => (IdleState, ReportInvalidRequest))
    case InitializedState =>
      (match i
       case GetToolsInput => (InitializedState, GetTools)
       case GetToolInput => (InitializedState, GetTool)
       case GetReferenceToolInput => (InitializedState, GetReferenceTool)
       case StartTrackingInput => (AttemptingToStartTrackingState, StartTracking)
       case StopTrackingInput => (InitializedState, ReportStopTrackingSuccess)
       case TrackerInitializeInput => (AttemptingToInitializeState, TrackerInitialize)
       case CloseCommunicationInput => (AttemptingToCloseCommunicationState, CloseCommunication)
       case _ => (InitializedState, ReportInvalidRequest))
    case AttemptingToStartTrackingState =>
      if i == SucceededInput then (TrackingState, ReportStartTrackingSuccess)
      else if i == FailedInput then (InitializedState, ReportStartTrackingFailure)
      else (s, ReportInvalidRequest)
    case TrackingState =>
      if i == StopTrackingInput then (AttemptingToStopTrackingState, StopTracking)
      else (s, ReportInvalidRequest)
    case AttemptingToStopTrackingState =>
      if i == SucceededInput then (InitializedState, ReportStopTrackingSuccess)
      else if i == FailedInput then (TrackingState, ReportStopTrackingFailure)
      else (s, ReportInvalidRequest)
    case AttemptingToCloseCommunicationState =>
      if i == SucceededInput then (IdleState, ReportCloseCommunicationSuccess)
      else if i == FailedInput then (InitializedState, ReportCloseCommunicationFailure)
      else (s, ReportInvalidRequest)
    case _ =>
      if i == SucceededInput then (InitializedState, ReportInitializationSuccess)
      else if i == FailedInput then (IdleState, ReportInitializationFailure)
      else (IdleState, ReportInvalidRequest)
  }

  // ------------------------------------------------- the table, row by row

  datatype Row = Row(from: State, input: Input, to: State, action: Action)

  /** Every input, in declaration order. */
  const AllInputs: seq<Input> := [
    TrackerInitializeInput, PolarisVicraInitializeInput, PolarisHybridInitializeInput,
    AuroraInitializeInput, MicronInitializeInput, MedSafeInitializeInput, StartTrackingInput,
    StopTrackingInput, FailedInput, SucceededInput, CloseCommunicationInput, GetToolsInput,
    GetToolInput, GetReferenceToolInput]

  /** The rows declared for state s, one per input. */
  function Rows(s: State): seq<Row>
  {
    match s
    case IdleState => [
      Row(IdleState, TrackerInitializeInput, AttemptingToInitializeState, TrackerInitialize),
      Row(IdleState, PolarisVicraInitializeInput, IdleState, ReportInvalidRequest),
      Row(IdleState, PolarisHybridInitializeInput, IdleState, ReportInvalidRequest),
      Row(IdleState, AuroraInitializeInput, IdleState, ReportInvalidRequest),
      Row(IdleState, MicronInitializeInput, IdleState, ReportInvalidRequest),
      Row(IdleState, MedSafeInitializeInput, IdleState, ReportInvalidRequest),
      Row(IdleState, StartTrackingInput, IdleState, ReportInvalidRequest),
      Row(IdleState, StopTrackingInput, IdleState, ReportStopTrackingSuccess),
      Row(IdleState, FailedInput, IdleState, ReportInvalidRequest),
      Row(IdleState, SucceededInput, IdleState, ReportInvalidRequest),
      Row(IdleState, CloseCommunicationInput, IdleState, ReportCloseCommunicationSuccess),
      Row(IdleState, GetToolsInput, IdleState, ReportInvalidRequest),
      Row(IdleState, GetToolInput, IdleState, ReportInvalidRequest),
      Row(IdleState, GetReferenceToolInput, IdleState, ReportInvalidRequest)]
    case AttemptingToInitializeState => [
      Row(AttemptingToInitializeState, TrackerInitializeInput, IdleState, ReportInvalidRequest),
      Row(AttemptingToInitializeState, PolarisVicraInitializeInput, AttemptingToInitializePolarisVicraState, PolarisVicraInitialize),
      Row(AttemptingToInitializeState, PolarisHybridInitializeInput, AttemptingToInitializePolarisHybridState, PolarisHybridInitialize),
      Row(AttemptingToInitializeState, AuroraInitializeInput, AttemptingToInitializeAuroraState, AuroraInitialize),
      Row(AttemptingToInitializeState, MicronInitializeInput, AttemptingToInitializeMicronState, MicronInitialize),
      Row(AttemptingToInitializeState, MedSafeInitializeInput, AttemptingToInitializeMedSafeState, MedSafeInitialize),
      Row(AttemptingToInitializeState, StartTrackingInput, IdleState, ReportInvalidRequest),
      Row(AttemptingToInitializeState, StopTrackingInput, IdleState, ReportInvalidRequest),
      Row(AttemptingToInitializeState, FailedInput, IdleState, ReportInitializationFailure),
      Row(AttemptingToInitializeState, SucceededInput, IdleState, ReportInvalidRequest),
      Row(AttemptingToInitializeState, CloseCommunicationInput, IdleState, ReportInvalidRequest),
      Row(AttemptingToInitializeState, GetToolsInput, IdleState, ReportInvalidRequest),
      Row(AttemptingToInitializeState, GetToolInput, IdleState, ReportInvalidRequest),
      Row(AttemptingToInitializeState, GetReferenceToolInput, IdleState, ReportInvalidRequest)]
    case AttemptingToInitializePolarisVicraState => [
      Row(AttemptingToInitializePolarisVicraState, TrackerInitializeInput, IdleState, ReportInvalidRequest),
      Row(AttemptingToInitializePolarisVicraState, PolarisVicraInitializeInput, IdleState, ReportInvalidRequest),
      Row(AttemptingToInitializePolarisVicraState, PolarisHybridInitializeInput, IdleState, ReportInvalidRequest),
      Row(AttemptingToInitializePolarisVicraState, AuroraInitializeInput, IdleState, ReportInvalidRequest),
      Row(AttemptingToInitializePolarisVicraState, MicronInitializeInput, IdleState, ReportInvalidRequest),
      Row(AttemptingToInitializePolarisVicraState, MedSafeInitializeInput, IdleState, ReportInvalidRequest),
      Row(AttemptingToInitializePolarisVicraState, StartTrackingInput, IdleState, ReportInvalidRequest),
      Row(AttemptingToInitializePolarisVicraState, StopTrackingInput, IdleState, ReportInvalidRequest),
      Row(AttemptingToInitializePolarisVicraState, FailedInput, IdleState, ReportInitializationFailure),
      Row(AttemptingToInitializePolarisVicraState, SucceededInput, InitializedState, ReportInitializationSuccess),
      Row(AttemptingToInitializePolarisVicraState, CloseCommunicationInput, IdleState, ReportInvalidRequest),
      Row(AttemptingToInitializePolarisVicraState, GetToolsInput, IdleState, ReportInvalidRequest),
      Row(AttemptingToInitializePolarisVicraState, GetToolInput, IdleState, ReportInvalidRequest),
      Row(AttemptingToInitializePolarisVicraState, GetReferenceToolInput, IdleState, ReportInvalidRequest)]
    case AttemptingToInitializePolarisHybridState => [
      Row(AttemptingToInitializePolarisHybridState, TrackerInitializeInput, IdleState, ReportInvalidRequest),
      Row(AttemptingToInitializePolarisHybridState, PolarisVicraInitializeInput, IdleState, ReportInvalidRequest),
      Row(AttemptingToInitializePolarisHybridState, PolarisHybridInitializeInput, IdleState, ReportInvalidRequest),
      Row(AttemptingToInitializePolarisHybridState, AuroraInitializeInput, IdleState, ReportInvalidRequest),
      Row(AttemptingToInitializePolarisHybridState, MicronInitializeInput, IdleState, ReportInvalidRequest),
      Row(AttemptingToInitializePolarisHybridState, MedSafeInitializeInput, IdleState, ReportInvalidRequest),
      Row(AttemptingToInitializePolarisHybridState, StartTrackingInput, IdleState, ReportInvalidRequest),
      Row(AttemptingToInitializePolarisHybridState, StopTrackingInput, IdleState, ReportInvalidRequest),
      Row(AttemptingToInitializePolarisHybridState, FailedInput, IdleState, ReportInitializationFailure),
      Row(AttemptingToInitializePolarisHybridState, SucceededInput, InitializedState, ReportInitializationSuccess),
      Row(AttemptingToInitializePolarisHybridState, CloseCommunicationInput, IdleState, ReportInvalidRequest),
      Row(AttemptingToInitializePolarisHybridState, GetToolsInput, IdleState, ReportInvalidRequest),
      Row(AttemptingToInitializePolarisHybridState, GetToolInput, IdleState, ReportInvalidRequest),
      Row(AttemptingToInitializePolarisHybridState, GetReferenceToolInput, IdleState, ReportInvalidRequest)]
    case AttemptingToInitializeAuroraState => [
      Row(AttemptingToInitializeAuroraState, TrackerInitializeInput, IdleState, ReportInvalidRequest),
      Row(AttemptingToInitializeAuroraState, PolarisVicraInitializeInput, IdleState, ReportInvalidRequest),
      Row(AttemptingToInitializeAuroraState, PolarisHybridInitializeInput, IdleState, ReportInvalidRequest),
      Row(AttemptingToInitializeAuroraState, AuroraInitializeInput, IdleState, ReportInvalidRequest),
      Row(AttemptingToInitializeAuroraState, MicronInitializeInput, IdleState, ReportInvalidRequest),
      Row(AttemptingToInitializeAuroraState, MedSafeInitializeInput, IdleState, ReportInvalidRequest),
      Row(AttemptingToInitializeAuroraState, StartTrackingInput, IdleState, ReportInvalidRequest),
      Row(AttemptingToInitializeAuroraState, StopTrackingInput, IdleState, ReportInvalidRequest),
      Row(AttemptingToInitializeAuroraState, FailedInput, IdleState, ReportInitializationFailure),
      Row(AttemptingToInitializeAuroraState, SucceededInput, InitializedState, ReportInitializationSuccess),
      Row(AttemptingToInitializeAuroraState, CloseCommunicationInput, IdleState, ReportInvalidRequest),
      Row(AttemptingToInitializeAuroraState, GetToolsInput, IdleState, ReportInvalidRequest),
      Row(AttemptingToInitializeAuroraState, GetToolInput, IdleState, ReportInvalidRequest),
      Row(AttemptingToInitializeAuroraState, GetReferenceToolInput, IdleState, ReportInvalidRequest)]
    case AttemptingToInitializeMicronState => [
      Row(AttemptingToInitializeMicronState, TrackerInitializeInput, IdleState, ReportInvalidRequest),
      Row(AttemptingToInitializeMicronState, PolarisVicraInitializeInput, IdleState, ReportInvalidRequest),
      Row(AttemptingToInitializeMicronState, PolarisHybridInitializeInput, IdleState, ReportInvalidRequest),
      Row(AttemptingToInitializeMicronState, AuroraInitializeInput, IdleState, ReportInvalidRequest),
      Row(AttemptingToInitializeMicronState, MicronInitializeInput, IdleState, ReportInvalidRequest),
      Row(AttemptingToInitializeMicronState, MedSafeInitializeInput, IdleState, ReportInvalidRequest),
      Row(AttemptingToInitializeMicronState, StartTrackingInput, IdleState, ReportInvalidRequest),
      Row(AttemptingToInitializeMicronState, StopTrackingInput, IdleState, ReportInvalidRequest),
      Row(AttemptingToInitializeMicronState, FailedInput, IdleState, ReportInitializationFailure),
      Row(AttemptingToInitializeMicronState, SucceededInput, InitializedState, ReportInitializationSuccess),
      Row(AttemptingToInitializeMicronState, CloseCommunicationInput, IdleState, ReportInvalidRequest),
      Row(AttemptingToInitializeMicronState, GetToolsInput, IdleState, ReportInvalidRequest),
      Row(AttemptingToInitializeMicronState, GetToolInput, IdleState, ReportInvalidRequest),
      Row(AttemptingToInitializeMicronState, GetReferenceToolInput, IdleState, ReportInvalidRequest)]
    case AttemptingToInitializeMedSafeState => [
      Row(AttemptingToInitializeMedSafeState, TrackerInitializeInput, IdleState, ReportInvalidRequest),
      Row(AttemptingToInitializeMedSafeState, PolarisVicraInitializeInput, IdleState, ReportInvalidRequest),
      Row(AttemptingToInitializeMedSafeState, PolarisHybridInitializeInput, IdleState, ReportInvalidRequest),
      Row(AttemptingToInitializeMedSafeState, AuroraInitializeInput, IdleState, ReportInvalidRequest),
      Row(AttemptingToInitializeMedSafeState, MicronInitializeInput, IdleState, ReportInvalidRequest),
      Row(AttemptingToInitializeMedSafeState, MedSafeInitializeInput, IdleState, ReportInvalidRequest),
      Row(AttemptingToInitializeMedSafeState, StartTrackingInput, IdleState, ReportInvalidRequest),
      Row(AttemptingToInitializeMedSafeState, StopTrackingInput, IdleState, ReportInvalidRequest),
      Row(AttemptingToInitializeMedSafeState, FailedInput, IdleState, ReportInitializationFailure),
      Row(AttemptingToInitializeMedSafeState, SucceededInput, InitializedState, ReportInitializationSuccess),
      Row(AttemptingToInitializeMedSafeState, CloseCommunicationInput, IdleState, ReportInvalidRequest),
      Row(AttemptingToInitializeMedSafeState, GetToolsInput, IdleState, ReportInvalidRequest),
      Row(AttemptingToInitializeMedSafeState, GetToolInput, IdleState, ReportInvalidRequest),
      Row(AttemptingToInitializeMedSafeState, GetReferenceToolInput, IdleState, ReportInvalidRequest)]
    case InitializedState => [
      Row(InitializedState, TrackerInitializeInput, AttemptingToInitializeState, TrackerInitialize),
      Row(InitializedState, PolarisVicraInitializeInput, InitializedState, ReportInvalidRequest),
      Row(InitializedState, PolarisHybridInitializeInput, InitializedState, ReportInvalidRequest),
      Row(InitializedState, AuroraInitializeInput, InitializedState, ReportInvalidRequest),
      Row(InitializedState, MicronInitializeInput, InitializedState, ReportInvalidRequest),
      Row(InitializedState, MedSafeInitializeInput, InitializedState, ReportInvalidRequest),
      Row(InitializedState, StartTrackingInput, AttemptingToStartTrackingState, StartTracking),
      Row(InitializedState, StopTrackingInput, InitializedState, ReportStopTrackingSuccess),
      Row(InitializedState, FailedInput, InitializedState, ReportInvalidRequest),
      Row(InitializedState, SucceededInput, InitializedState, ReportInvalidRequest),
      Row(InitializedState, CloseCommunicationInput, AttemptingToCloseCommunicationState, CloseCommunication),
      Row(InitializedState, GetToolsInput, InitializedState, GetTools),
      Row(InitializedState, GetToolInput, InitializedState, GetTool),
      Row(InitializedState, GetReferenceToolInput, InitializedState, GetReferenceTool)]
    case AttemptingToStartTrackingState => [
      Row(AttemptingToStartTrackingState, TrackerInitializeInput, AttemptingToStartTrackingState, ReportInvalidRequest),
      Row(AttemptingToStartTrackingState, PolarisVicraInitializeInput, AttemptingToStartTrackingState, ReportInvalidRequest),
      Row(AttemptingToStartTrackingState, PolarisHybridInitializeInput, AttemptingToStartTrackingState, ReportInvalidRequest),
      Row(AttemptingToStartTrackingState, AuroraInitializeInput, AttemptingToStartTrackingState, ReportInvalidRequest),
      Row(AttemptingToStartTrackingState, MicronInitializeInput, AttemptingToStartTrackingState, ReportInvalidRequest),
      Row(AttemptingToStartTrackingState, MedSafeInitializeInput, AttemptingToStartTrackingState, ReportInvalidRequest),
      Row(AttemptingToStartTrackingState, StartTrackingInput, AttemptingToStartTrackingState, ReportInvalidRequest),
      Row(AttemptingToStartTrackingState, StopTrackingInput, AttemptingToStartTrackingState, ReportInvalidRequest),
      Row(AttemptingToStartTrackingState, FailedInput, InitializedState, ReportStartTrackingFailure),
      Row(AttemptingToStartTrackingState, SucceededInput, TrackingState, ReportStartTrackingSuccess),
      Row(AttemptingToStartTrackingState, CloseCommunicationInput, AttemptingToStartTrackingState, ReportInvalidRequest),
      Row(AttemptingToStartTrackingState, GetToolsInput, AttemptingToStartTrackingState, ReportInvalidRequest),
      Row(AttemptingToStartTrackingState, GetToolInput, AttemptingToStartTrackingState, ReportInvalidRequest),
      Row(AttemptingToStartTrackingState, GetReferenceToolInput, AttemptingToStartTrackingState, ReportInvalidRequest)]
    case TrackingState => [
      Row(TrackingState, TrackerInitializeInput, TrackingState, ReportInvalidRequest),
      Row(TrackingState, PolarisVicraInitializeInput, TrackingState, ReportInvalidRequest),
      Row(TrackingState, PolarisHybridInitializeInput, TrackingState, ReportInvalidRequest),
      Row(TrackingState, AuroraInitializeInput, TrackingState, ReportInvalidRequest),
      Row(TrackingState, MicronInitializeInput, TrackingState, ReportInvalidRequest),
      Row(TrackingState, MedSafeInitializeInput, TrackingState, ReportInvalidRequest),
      Row(TrackingState, StartTrackingInput, TrackingState, ReportInvalidRequest),
      Row(TrackingState, StopTrackingInput, AttemptingToStopTrackingState, StopTracking),
      Row(TrackingState, FailedInput, TrackingState, ReportInvalidRequest),
      Row(TrackingState, SucceededInput, TrackingState, ReportInvalidRequest),
      Row(TrackingState, CloseCommunicationInput, TrackingState, ReportInvalidRequest),
      Row(TrackingState, GetToolsInput, TrackingState, ReportInvalidRequest),
      Row(TrackingState, GetToolInput, TrackingState, ReportInvalidRequest),
      Row(TrackingState, GetReferenceToolInput, TrackingState, ReportInvalidRequest)]
    case AttemptingToCloseCommunicationState => [
      Row(AttemptingToCloseCommunicationState, TrackerInitializeInput, AttemptingToCloseCommunicationState, ReportInvalidRequest),
      Row(AttemptingToCloseCommunicationState, PolarisVicraInitializeInput, AttemptingToCloseCommunicationState, ReportInvalidRequest),
      Row(AttemptingToCloseCommunicationState, PolarisHybridInitializeInput, AttemptingToCloseCommunicationState, ReportInvalidRequest),
      Row(AttemptingToCloseCommunicationState, AuroraInitializeInput, AttemptingToCloseCommunicationState, ReportInvalidRequest),
      Row(AttemptingToCloseCommunicationState, MicronInitializeInput, AttemptingToCloseCommunicationState, ReportInvalidRequest),
      Row(AttemptingToCloseCommunicationState, MedSafeInitializeInput, AttemptingToCloseCommunicationState, ReportInvalidRequest),
      Row(AttemptingToCloseCommunicationState, StartTrackingInput, AttemptingToCloseCommunicationState, ReportInvalidRequest),
      Row(AttemptingToCloseCommunicationState, StopTrackingInput, AttemptingToCloseCommunicationState, ReportInvalidRequest),
      Row(AttemptingToCloseCommunicationState, FailedInput, InitializedState, ReportCloseCommunicationFailure),
      Row(AttemptingToCloseCommunicationState, SucceededInput, IdleState, ReportCloseCommunicationSuccess),
      Row(AttemptingToCloseCommunicationState, CloseCommunicationInput, AttemptingToCloseCommunicationState, ReportInvalidRequest),
      Row(AttemptingToCloseCommunicationState, GetToolsInput, AttemptingToCloseCommunicationState, ReportInvalidRequest),
      Row(AttemptingToCloseCommunicationState, GetToolInput, AttemptingToCloseCommunicationState, ReportInvalidRequest),
      Row(AttemptingToCloseCommunicationState, GetReferenceToolInput, AttemptingToCloseCommunicationState, ReportInvalidRequest)]
    case AttemptingToStopTrackingState => [
      Row(AttemptingToStopTrackingState, TrackerInitializeInput, AttemptingToStopTrackingState, ReportInvalidRequest),
      Row(AttemptingToStopTrackingState, PolarisVicraInitializeInput, AttemptingToStopTrackingState, ReportInvalidRequest),
      Row(AttemptingToStopTrackingState, PolarisHybridInitializeInput, AttemptingToStopTrackingState, ReportInvalidRequest),
      Row(AttemptingToStopTrackingState, AuroraInitializeInput, AttemptingToStopTrackingState, ReportInvalidRequest),
      Row(AttemptingToStopTrackingState, MicronInitializeInput, AttemptingToStopTrackingState, ReportInvalidRequest),
      Row(AttemptingToStopTrackingState, MedSafeInitializeInput, AttemptingToStopTrackingState, ReportInvalidRequest),
      Row(AttemptingToStopTrackingState, StartTrackingInput, AttemptingToStopTrackingState, ReportInvalidRequest),
      Row(AttemptingToStopTrackingState, StopTrackingInput, AttemptingToStopTrackingState, ReportInvalidRequest),
      Row(AttemptingToStopTrackingState, FailedInput, TrackingState, ReportStopTrackingFailure),
      Row(AttemptingToStopTrackingState, SucceededInput, InitializedState, ReportStopTrackingSuccess),
      Row(AttemptingToStopTrackingState, CloseCommunicationInput, AttemptingToStopTrackingState, ReportInvalidRequest),
      Row(AttemptingToStopTrackingState, GetToolsInput, AttemptingToStopTrackingState, ReportInvalidRequest),
      Row(AttemptingToStopTrackingState, GetToolInput, AttemptingToStopTrackingState, ReportInvalidRequest),
      Row(AttemptingToStopTrackingState, GetReferenceToolInput, AttemptingToStopTrackingState, ReportInvalidRequest)]
  }

  lemma EveryInputListed(i: Input)
    ensures i in AllInputs
  {
  }

  /** The declared rows for each state cover every input exactly once, in
      order, and each agrees with `Transition`. */
  lemma TableIsTransition(s: State)
    ensures |Rows(s)| == |AllInputs|
    ensures forall k :: 0 <= k < |AllInputs| ==>
      Rows(s)[k].from == s && Rows(s)[k].input == AllInputs[k] &&
      Transition(s, AllInputs[k]) == (Rows(s)[k].to, Rows(s)[k].action)
  {
    forall k | 0 <= k < |AllInputs|
      ensures Rows(s)[k].from == s && Rows(s)[k].input == AllInputs[k]
      ensures Transition(s, AllInputs[k]) == (Rows(s)[k].to, Rows(s)[k].action)
    {
      RowAgrees(s, k);
    }
  }

  lemma RowAgrees(s: State, k: nat)
    requires k < |AllInputs|
    ensures |Rows(s)| == |AllInputs|
    ensures Rows(s)[k].from == s && Rows(s)[k].input == AllInputs[k]
    ensures Transition(s, AllInputs[k]) == (Rows(s)[k].to, Rows(s)[k].action)
  {
    match s
    case IdleState => IdleRowsAgree(k);
    case AttemptingToInitializeState => AttemptingToInitializeRowsAgree(k);
    case AttemptingToInitializePolarisVicraState => AttemptingToInitializePolarisVicraRowsAgree(k);
    case AttemptingToInitializePolarisHybridState => AttemptingToInitializePolarisHybridRowsAgree(k);
    case AttemptingToInitializeAuroraState => AttemptingToInitializeAuroraRowsAgree(k);
    case AttemptingToInitializeMicronState => AttemptingToInitializeMicronRowsAgree(k);
    case AttemptingToInitializeMedSafeState => AttemptingToInitializeMedSafeRowsAgree(k);
    case InitializedState => InitializedRowsAgree(k);
    case AttemptingToStartTrackingState => AttemptingToStartTrackingRowsAgree(k);
    case TrackingState => TrackingRowsAgree(k);
    case AttemptingToCloseCommunicationState => AttemptingToCloseCommunicationRowsAgree(k);
    case AttemptingToStopTrackingState => AttemptingToStopTrackingRowsAgree(k);
  }

  // One lemma per state: each checks that state's fourteen rows.

  lemma IdleRowsAgree(k: nat)
    requires k < |AllInputs|
    ensures |Rows(IdleState)| == |AllInputs|
    ensures Rows(IdleState)[k].from == IdleState && Rows(IdleState)[k].input == AllInputs[k]
    ensures Transition(IdleState, AllInputs[k]) == (Rows(IdleState)[k].to, Rows(IdleState)[k].action)
  {
    if k == 0 {
    } else if k == 1 {
    } else if k == 2 {
    } else if k == 3 {
    } else if k == 4 {
    } else if k == 5 {
    } else if k == 6 {
    } else if k == 7 {
    } else if k == 8 {
    } else if k == 9 {
    } else if k == 10 {
    } else if k == 11 {
    } else if k == 12 {
    } else {
    }
  }

  lemma AttemptingToInitializeRowsAgree(k: nat)
    requires k < |AllInputs|
    ensures |Rows(AttemptingToInitializeState)| == |AllInputs|
    ensures Rows(AttemptingToInitializeState)[k].from == AttemptingToInitializeState && Rows(AttemptingToInitializeState)[k].input == AllInputs[k]
    ensures Transition(AttemptingToInitializeState, AllInputs[k]) == (Rows(AttemptingToInitializeState)[k].to, Rows(AttemptingToInitializeState)[k].action)
  {
    if k == 0 {
    } else if k == 1 {
    } else if k == 2 {
    } else if k == 3 {
    } else if k == 4 {
    } else if k == 5 {
    } else if k == 6 {
    } else if k == 7 {
    } else if k == 8 {
    } else if k == 9 {
    } else if k == 10 {
    } else if k == 11 {
    } else if k == 12 {
    } else {
    }
  }

  lemma AttemptingToInitializePolarisVicraRowsAgree(k: nat)
    requires k < |AllInputs|
    ensures |Rows(AttemptingToInitializePolarisVicraState)| == |AllInputs|
    ensures Rows(AttemptingToInitializePolarisVicraState)[k].from == AttemptingToInitializePolarisVicraState && Rows(AttemptingToInitializePolarisVicraState)[k].input == AllInputs[k]
    ensures Transition(AttemptingToInitializePolarisVicraState, AllInputs[k]) == (Rows(AttemptingToInitializePolarisVicraState)[k].to, Rows(AttemptingToInitializePolarisVicraState)[k].action)
  {
    if k == 0 {
    } else if k == 1 {
    } else if k == 2 {
    } else if k == 3 {
    } else if k == 4 {
    } else if k == 5 {
    } else if k == 6 {
    } else if k == 7 {
    } else if k == 8 {
    } else if k == 9 {
    } else if k == 10 {
    } else if k == 11 {
    } else if k == 12 {
    } else {
    }
  }

  lemma AttemptingToInitializePolarisHybridRowsAgree(k: nat)
    requires k < |AllInputs|
    ensures |Rows(AttemptingToInitializePolarisHybridState)| == |AllInputs|
    ensures Rows(AttemptingToInitializePolarisHybridState)[k].from == AttemptingToInitializePolarisHybridState && Rows(AttemptingToInitializePolarisHybridState)[k].input == AllInputs[k]
    ensures Transition(AttemptingToInitializePolarisHybridState, AllInputs[k]) == (Rows(AttemptingToInitializePolarisHybridState)[k].to, Rows(AttemptingToInitializePolarisHybridState)[k].action)
  {
    if k == 0 {
    } else if k == 1 {
    } else if k == 2 {
    } else if k == 3 {
    } else if k == 4 {
    } else if k == 5 {
    } else if k == 6 {
    } else if k == 7 {
    } else if k == 8 {
    } else if k == 9 {
    } else if k == 10 {
    } else if k == 11 {
    } else if k == 12 {
    } else {
    }
  }

  lemma AttemptingToInitializeAuroraRowsAgree(k: nat)
    requires k < |AllInputs|
    ensures |Rows(AttemptingToInitializeAuroraState)| == |AllInputs|
    ensures Rows(AttemptingToInitializeAuroraState)[k].from == AttemptingToInitializeAuroraState && Rows(AttemptingToInitializeAuroraState)[k].input == AllInputs[k]
    ensures Transition(AttemptingToInitializeAuroraState, AllInputs[k]) == (Rows(AttemptingToInitializeAuroraState)[k].to, Rows(AttemptingToInitializeAuroraState)[k].action)
  {
    if k == 0 {
    } else if k == 1 {
    } else if k == 2 {
    } else if k == 3 {
    } else if k == 4 {
    } else if k == 5 {
    } else if k == 6 {
    } else if k == 7 {
    } else if k == 8 {
    } else if k == 9 {
    } else if k == 10 {
    } else if k == 11 {
    } else if k == 12 {
    } else {
    }
  }

  lemma AttemptingToInitializeMicronRowsAgree(k: nat)
    requires k < |AllInputs|
    ensures |Rows(AttemptingToInitializeMicronState)| == |AllInputs|
    ensures Rows(AttemptingToInitializeMicronState)[k].from == AttemptingToInitializeMicronState && Rows(AttemptingToInitializeMicronState)[k].input == AllInputs[k]
    ensures Transition(AttemptingToInitializeMicronState, AllInputs[k]) == (Rows(AttemptingToInitializeMicronState)[k].to, Rows(AttemptingToInitializeMicronState)[k].action)
  {
    if k == 0 {
    } else if k == 1 {
    } else if k == 2 {
    } else if k == 3 {
    } else if k == 4 {
    } else if k == 5 {
    } else if k == 6 {
    } else if k == 7 {
    } else if k == 8 {
    } else if k == 9 {
    } else if k == 10 {
    } else if k == 11 {
    } else if k == 12 {
    } else {
    }
  }

  lemma AttemptingToInitializeMedSafeRowsAgree(k: nat)
    requires k < |AllInputs|
    ensures |Rows(AttemptingToInitializeMedSafeState)| == |AllInputs|
    ensures Rows(AttemptingToInitializeMedSafeState)[k].from == AttemptingToInitializeMedSafeState && Rows(AttemptingToInitializeMedSafeState)[k].input == AllInputs[k]
    ensures Transition(AttemptingToInitializeMedSafeState, AllInputs[k]) == (Rows(AttemptingToInitializeMedSafeState)[k].to, Rows(AttemptingToInitializeMedSafeState)[k].action)
  {
    if k == 0 {
    } else if k == 1 {
    } else if k == 2 {
    } else if k == 3 {
    } else if k == 4 {
    } else if k == 5 {
    } else if k == 6 {
    } else if k == 7 {
    } else if k == 8 {
    } else if k == 9 {
    } else if k == 10 {
    } else if k == 11 {
    } else if k == 12 {
    } else {
    }
  }

  lemma InitializedRowsAgree(k: nat)
    requires k < |AllInputs|
    ensures |Rows(InitializedState)| == |AllInputs|
    ensures Rows(InitializedState)[k].from == InitializedState && Rows(InitializedState)[k].input == AllInputs[k]
    ensures Transition(InitializedState, AllInputs[k]) == (Rows(InitializedState)[k].to, Rows(InitializedState)[k].action)
  {
    if k == 0 {
    } else if k == 1 {
    } else if k == 2 {
    } else if k == 3 {
    } else if k == 4 {
    } else if k == 5 {
    } else if k == 6 {
    } else if k == 7 {
    } else if k == 8 {
    } else if k == 9 {
    } else if k == 10 {
    } else if k == 11 {
    } else if k == 12 {
    } else {
    }
  }

  lemma AttemptingToStartTrackingRowsAgree(k: nat)
    requires k < |AllInputs|
    ensures |Rows(AttemptingToStartTrackingState)| == |AllInputs|
    ensures Rows(AttemptingToStartTrackingState)[k].from == AttemptingToStartTrackingState && Rows(AttemptingToStartTrackingState)[k].input == AllInputs[k]
    ensures Transition(AttemptingToStartTrackingState, AllInputs[k]) == (Rows(AttemptingToStartTrackingState)[k].to, Rows(AttemptingToStartTrackingState)[k].action)
  {
    if k == 0 {
    } else if k == 1 {
    } else if k == 2 {
    } else if k == 3 {
    } else if k == 4 {
    } else if k == 5 {
    } else if k == 6 {
    } else if k == 7 {
    } else if k == 8 {
    } else if k == 9 {
    } else if k == 10 {
    } else if k == 11 {
    } else if k == 12 {
    } else {
    }
  }

  lemma TrackingRowsAgree(k: nat)
    requires k < |AllInputs|
    ensures |Rows(TrackingState)| == |AllInputs|
    ensures Rows(TrackingState)[k].from == TrackingState && Rows(TrackingState)[k].input == AllInputs[k]
    ensures Transition(TrackingState, AllInputs[k]) == (Rows(TrackingState)[k].to, Rows(TrackingState)[k].action)
  {
    if k == 0 {
    } else if k == 1 {
    } else if k == 2 {
    } else if k == 3 {
    } else if k == 4 {
    } else if k == 5 {
    } else if k == 6 {
    } else if k == 7 {
    } else if k == 8 {
    } else if k == 9 {
    } else if k == 10 {
    } else if k == 11 {
    } else if k == 12 {
    } else {
    }
  }

  lemma AttemptingToCloseCommunicationRowsAgree(k: nat)
    requires k < |AllInputs|
    ensures |Rows(AttemptingToCloseCommunicationState)| == |AllInputs|
    ensures Rows(AttemptingToCloseCommunicationState)[k].from == AttemptingToCloseCommunicationState && Rows(AttemptingToCloseCommunicationState)[k].input == AllInputs[k]
    ensures Transition(AttemptingToCloseCommunicationState, AllInputs[k]) == (Rows(AttemptingToCloseCommunicationState)[k].to, Rows(AttemptingToCloseCommunicationState)[k].action)
  {
    if k == 0 {
    } else if k == 1 {
    } else if k == 2 {
    } else if k == 3 {
    } else if k == 4 {
    } else if k == 5 {
    } else if k == 6 {
    } else if k == 7 {
    } else if k == 8 {
    } else if k == 9 {
    } else if k == 10 {
    } else if k == 11 {
    } else if k == 12 {
    } else {
    }
  }

  lemma AttemptingToStopTrackingRowsAgree(k: nat)
    requires k < |AllInputs|
    ensures |Rows(AttemptingToStopTrackingState)| == |AllInputs|
    ensures Rows(AttemptingToStopTrackingState)[k].from == AttemptingToStopTrackingState && Rows(AttemptingToStopTrackingState)[k].input == AllInputs[k]
    ensures Transition(AttemptingToStopTrackingState, AllInputs[k]) == (Rows(AttemptingToStopTrackingState)[k].to, Rows(AttemptingToStopTrackingState)[k].action)
  {
    if k == 0 {
    } else if k == 1 {
    } else if k == 2 {
    } else if k == 3 {
    } else if k == 4 {
    } else if k == 5 {
    } else if k == 6 {
    } else if k == 7 {
    } else if k == 8 {
    } else if k == 9 {
    } else if k == 10 {
    } else if k == 11 {
    } else if k == 12 {
    } else {
    }
  }

  /** A family attempt state goes to Initialized on success, back to Idle
      on failure, and rejects everything else by falling back to Idle. */
  lemma FamilyAttemptEdges(s: State, i: Input)
    requires IsFamilyAttempt(s)
    ensures i == SucceededInput <==> Transition(s, i) == (InitializedState, ReportInitializationSuccess)
    ensures i == FailedInput <==> Transition(s, i) == (IdleState, ReportInitializationFailure)
    ensures i != SucceededInput && i != FailedInput <==> Transition(s, i) == (IdleState, ReportInvalidRequest)
  {
  }

  /** The start, stop and close attempts: Succeeded and Failed lead on,
      every other input keeps the state and is reported as invalid. */
  lemma AttemptOutcomes(s: State, i: Input)
    requires s in {AttemptingToStartTrackingState, AttemptingToStopTrackingState, AttemptingToCloseCommunicationState}
    ensures s == AttemptingToStartTrackingState ==>
      Transition(s, SucceededInput) == (TrackingState, ReportStartTrackingSuccess) &&
      Transition(s, FailedInput) == (InitializedState, ReportStartTrackingFailure)
    ensures s == AttemptingToStopTrackingState ==>
      Transition(s, SucceededInput) == (InitializedState, ReportStopTrackingSuccess) &&
      Transition(s, FailedInput) == (TrackingState, ReportStopTrackingFailure)
    ensures s == AttemptingToCloseCommunicationState ==>
      Transition(s, SucceededInput) == (IdleState, ReportCloseCommunicationSuccess) &&
      Transition(s, FailedInput) == (InitializedState, ReportCloseCommunicationFailure)
    ensures i != SucceededInput && i != FailedInput <==> Transition(s, i) == (s, ReportInvalidRequest)
  {
  }

  /** Stopping while not tracking, and closing while idle, succeed at once
      without changing state. */
  lemma StopAndCloseWhenIdle(s: State)
    requires s == IdleState || s == InitializedState
    ensures Transition(s, StopTrackingInput) == (s, ReportStopTrackingSuccess)
    ensures s == IdleState ==> Transition(s, CloseCommunicationInput) == (s, ReportCloseCommunicationSuccess)
  {
  }
}
