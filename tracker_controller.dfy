/**
 * The tracker controller: given a tracker configuration it opens the
 * serial port and the tracker of the configured family, builds the table
 * of tools by name, starts and stops tracking, and shuts down.
 *
 * Queue discipline.  Every request pushes its inputs onto one FIFO queue
 * and drains it.  Draining takes the input at the head, commits the state
 * the table gives, then runs the action; an action's own input goes to the
 * tail, and the action's closing call to drain continues the same loop.
 * `Drain` is that loop as a function; `TrackerController.ProcessInputs`
 * is the loop itself.
 *
 * The devices are outside the model: what the serial port and the tracker
 * do when asked to open, start, stop and close is fixed by an
 * `Environment`, as the name of the error event each raises, if any.
 */
module TrackerControl {
  import opened Wrappers
  import opened TrackerControllerTable

  // ------------------------------------------------------- configurations

  /** The dynamic type of a tracker configuration. */
  datatype ConfigurationType =
    | PolarisVicraConfiguration
    | PolarisHybridConfiguration
    | AuroraConfiguration
    | MicronConfiguration
    | MedSafeConfiguration
    | OtherConfiguration

  datatype ToolConfiguration = ToolConfiguration(sromFile: string, portNumber: int, wireless: bool)

  datatype TrackerConfiguration = TrackerConfiguration(
    kind: ConfigurationType,
    toolList: map<string, ToolConfiguration>,
    referenceTool: Option<ToolConfiguration>)

  /** A tool the controller created from a tool configuration. */
  datatype TrackerTool = TrackerTool(kind: ConfigurationType, configuration: ToolConfiguration)

  /** The error events the controller's observer may be told of: the
      seven it recognises and any other error event, which it ignores. */
  datatype ErrorEvent =
    | OpenPortErrorEvent
    | ClosePortErrorEvent
    | TrackerOpenErrorEvent
    | TrackerInitializeErrorEvent
    | TrackerStartTrackingErrorEvent
    | TrackerStopTrackingErrorEvent
    | TrackerCloseErrorEvent
    | UnlistedErrorEvent

  /** What the devices do: whether the serial port fails to open or close
      (it then raises an open-port or close-port error), and the error
      event, if any, the tracker raises on open, start, stop and close.
      `micronSandbox` is the build flag that enables the Micron tracker. */
  datatype Environment = Environment(
    openPortFails: bool,
    trackerOpenError: Option<ErrorEvent>,
    startTrackingError: Option<ErrorEvent>,
    stopTrackingError: Option<ErrorEvent>,
    closeError: Option<ErrorEvent>,
    closePortFails: bool,
    micronSandbox: bool)

  /** The controller's error message, by its cause; `MessageText` gives
      the text. */
  datatype Message =
    | NoMessage
    | NullConfiguration
    | UnknownConfigurationType
    | ErrorMessage(cause: ErrorEvent)

  /** The events the controller emits to its observers. */
  datatype Event =
    | InitializeEvent
    | InitializeErrorEvent(message: Message)
    | TrackerStartTrackingEvent
    | TrackerStartTrackingErrorEvent(message: Message)
    | TrackerStopTrackingEvent
    | TrackerStopTrackingErrorEvent(message: Message)
    | CloseCommunicationEvent
    | CloseCommunicationErrorEvent(message: Message)
    | InvalidRequestErrorEvent
    | RequestToolsEvent(tools: map<string, TrackerTool>)
    | RequestToolEvent(tool: Option<TrackerTool>)
    | RequestToolErrorEvent

  // ------------------------------------------------------- error observer

  /** The observer's table: the message of each error event it
      recognises, None for any other. */
  function ErrorEventMessage(e: ErrorEvent): Option<string>
  {
    match e
    case OpenPortErrorEvent => Some("Error opening com port.")
    case ClosePortErrorEvent => Some("Error closing com port.")
    case TrackerOpenErrorEvent => Some("Error opening tracker communication.")
    case TrackerInitializeErrorEvent => Some("Error initializing tracker.")
    case TrackerStartTrackingErrorEvent => Some("Error starting tracking.")
    case TrackerStopTrackingErrorEvent => Some("Error stopping tracking.")
    case TrackerCloseErrorEvent => Some("Error closing tracker communication.")
    case UnlistedErrorEvent => None
  }

  /** The text of a controller message. */
  function MessageText(m: Message): string
  {
    match m
    case NoMessage => ""
    case NullConfiguration => "Null tracker configuration received."
    case UnknownConfigurationType => "Unknown tracker configuration type."
    case ErrorMessage(e) => if ErrorEventMessage(e).Some? then ErrorEventMessage(e).value else ""
  }

  /** The observer recognises exactly the seven listed events, and tells
      them apart: no two share a message. */
  lemma ErrorMessagesIdentifyEvents(a: ErrorEvent, b: ErrorEvent)
    ensures ErrorEventMessage(a).None? <==> a == UnlistedErrorEvent
    ensures ErrorEventMessage(a).Some? && ErrorEventMessage(a) == ErrorEventMessage(b) ==> a == b
  {
  }

  /** The message the observer leaves for a device operation that raised
      `raised`: the raised event's, when the observer recognises it. */
  function Observed(raised: Option<ErrorEvent>): (m: Option<Message>)
    ensures m.Some? <==> raised.Some? && ErrorEventMessage(raised.value).Some?
    ensures m.Some? ==> MessageText(m.value) == ErrorEventMessage(raised.value).value
  {
    if raised.Some? && raised.value != UnlistedErrorEvent then Some(ErrorMessage(raised.value)) else None
  }

  class ErrorObserver {
    var errorOccured: bool
    var errorMessage: string

    constructor ()
      ensures !errorOccured && errorMessage == ""
    {
      errorOccured := false;
      errorMessage := "";
    }

    /** Records the message of a recognised event; ignores any other. */
    method Execute(e: ErrorEvent)
      modifies this
      ensures ErrorEventMessage(e).Some? ==> errorOccured && errorMessage == ErrorEventMessage(e).value
      ensures ErrorEventMessage(e).None? ==> errorOccured == old(errorOccured) && errorMessage == old(errorMessage)
    {
      var m := ErrorEventMessage(e);
      if m.Some? {
        errorOccured := true;
        errorMessage := m.value;
      }
    }

    method ClearError()
      modifies this
      ensures !errorOccured && errorMessage == ""
    {
      errorOccured := false;
      errorMessage := "";
    }
  }

  // ------------------------------------------------ the controller's state

  datatype Controller = Controller(
    state: State,
    queue: seq<Input>,
    tmpConfiguration: Option<TrackerConfiguration>,
    configuration: Option<TrackerConfiguration>,
    tracker: Option<ConfigurationType>,
    tools: map<string, TrackerTool>,
    referenceTool: Option<TrackerTool>,
    errorMessage: Message,
    requestedToolName: string,
    serialCommunication: bool,
    portOpen: bool,
    events: seq<Event>)

  /** The family input TrackerInitialize pushes for a configuration type;
      None for a type it does not recognise.  Without the Micron build flag
      a Micron configuration is not recognised. */
  function FamilyInput(kind: ConfigurationType, micronSandbox: bool): (i: Option<Input>)
    ensures i.Some? ==> i.value in {PolarisVicraInitializeInput, PolarisHybridInitializeInput,
      AuroraInitializeInput, MicronInitializeInput, MedSafeInitializeInput}
  {
    match kind
    case PolarisVicraConfiguration => Some(PolarisVicraInitializeInput)
    case PolarisHybridConfiguration => Some(PolarisHybridInitializeInput)
    case AuroraConfiguration => Some(AuroraInitializeInput)
    case MicronConfiguration => if micronSandbox then Some(MicronInitializeInput) else None
    case MedSafeConfiguration => Some(MedSafeInitializeInput)
    case OtherConfiguration => None
  }

  /** The tools created for the named entries of a configuration's tool
      list. */
  function Attached(cfg: TrackerConfiguration, names: set<string>): (m: map<string, TrackerTool>)
    ensures m.Keys == names * cfg.toolList.Keys
  {
    map name | name in names && name in cfg.toolList :: TrackerTool(cfg.kind, cfg.toolList[name])
  }

  /** The tools a configuration lists, by name. */
  function ConfiguredTools(configuration: Option<TrackerConfiguration>): map<string, TrackerTool>
  {
    match configuration
    case None => map[]
    case Some(cfg) => Attached(cfg, cfg.toolList.Keys)
  }

  /** The reference tool a configuration names. */
  function ConfiguredReference(configuration: Option<TrackerConfiguration>): Option<TrackerTool>
  {
    match configuration
    case Some(cfg) =>
      if cfg.referenceTool.Some? then Some(TrackerTool(cfg.kind, cfg.referenceTool.value)) else None
    case None => None
  }

  /** What an action does: the controller after it, and the input it
      pushes, if any. */
  datatype Outcome = Outcome(next: Controller, push: Option<Input>)

  /** The weight of an input: what draining it can cost at most. */
  function Weight(i: Input): nat
  {
    match i
    case TrackerInitializeInput => 3
    case PolarisVicraInitializeInput => 2
    case PolarisHybridInitializeInput => 2
    case AuroraInitializeInput => 2
    case MicronInitializeInput => 2
    case MedSafeInitializeInput => 2
    case StartTrackingInput => 2
    case StopTrackingInput => 2
    case CloseCommunicationInput => 2
    case _ => 1
  }

  /** The weight of the inputs that can trigger an action. */
  function ActionWeight(a: Action): nat
  {
    match a
    case TrackerInitialize => 3
    case PolarisVicraInitialize => 2
    case PolarisHybridInitialize => 2
    case AuroraInitialize => 2
    case MicronInitialize => 2
    case MedSafeInitialize => 2
    case StartTracking => 2
    case StopTracking => 2
    case CloseCommunication => 2
    case _ => 1
  }

  lemma TransitionWeight(s: State, i: Input)
    ensures ActionWeight(Transition(s, i).1) <= Weight(i)
  {
  }

  function QueueWeight(q: seq<Input>): nat
  {
    if q == [] then 0 else Weight(q[0]) + QueueWeight(q[1..])
  }

  lemma {:induction false} QueueWeightAppend(a: seq<Input>, b: seq<Input>)
    ensures QueueWeight(a + b) == QueueWeight(a) + QueueWeight(b)
    decreases |a|
  {
    if a != [] {
      assert (a + b)[1..] == a[1..] + b;
      QueueWeightAppend(a[1..], b);
    } else {
      assert a + b == b;
    }
  }

  /** The result of a tracker open: on a recognised error the message is
      recorded, the serial port is closed when `closesPort`, and Failed is
      pushed; otherwise every configured tool not yet in the table is added
      under its name, the reference tool is replaced when the configuration
      names one, and Succeeded is pushed. */
  function OpenTracker(c: Controller, env: Environment, closesPort: bool): Outcome
  {
    match Observed(env.trackerOpenError)
    case Some(message) =>
      Outcome(c.(errorMessage := message, portOpen := if closesPort then false else c.portOpen), Some(FailedInput))
    case None =>
      var reference := ConfiguredReference(c.configuration);
      Outcome(c.(tools := ConfiguredTools(c.configuration) + c.tools,
                 referenceTool := if reference.Some? then reference else c.referenceTool),
              Some(SucceededInput))
  }

  /** Opening a tracker on a serial port: the port is created and opened;
      a port that fails to open records its message and pushes Failed;
      otherwise the tracker of the family is opened. */
  function SerialTrackerInitialize(c: Controller, kind: ConfigurationType, env: Environment): Outcome
  {
    var c1 := c.(serialCommunication := true);
    if env.openPortFails then
      Outcome(c1.(errorMessage := ErrorMessage(OpenPortErrorEvent), portOpen := false), Some(FailedInput))
    else
      OpenTracker(c1.(portOpen := true, tracker := Some(kind)), env, true)
  }

  /** A tracker request that succeeds or records the error it raised. */
  function Attempt(c: Controller, raised: Option<ErrorEvent>): Outcome
  {
    match Observed(raised)
    case Some(message) => Outcome(c.(errorMessage := message), Some(FailedInput))
    case None => Outcome(c, Some(SucceededInput))
  }

  function Emit(c: Controller, e: Event): Outcome
  {
    Outcome(c.(events := c.events + [e]), None)
  }

  /** The action processing methods of the controller. */
  function Act(c: Controller, a: Action, env: Environment): Outcome
  {
    match a
    case TrackerInitialize =>
      (match c.tmpConfiguration
       case None => Outcome(c.(errorMessage := NullConfiguration), Some(FailedInput))
       case Some(cfg) =>
         match FamilyInput(cfg.kind, env.micronSandbox)
         case None => Outcome(c.(errorMessage := UnknownConfigurationType), Some(FailedInput))
         case Some(i) => Outcome(c.(configuration := Some(cfg)), Some(i)))
    case PolarisVicraInitialize => SerialTrackerInitialize(c, PolarisVicraConfiguration, env)
    case PolarisHybridInitialize => SerialTrackerInitialize(c, PolarisHybridConfiguration, env)
    case AuroraInitialize => SerialTrackerInitialize(c, AuroraConfiguration, env)
    case MicronInitialize =>
      if env.micronSandbox then OpenTracker(c.(tracker := Some(MicronConfiguration)), env, false)
      else Outcome(c, Some(FailedInput))
    case MedSafeInitialize => Outcome(c, None)
    case StartTracking => Attempt(c, env.startTrackingError)
    case StopTracking => Attempt(c, env.stopTrackingError)
    case CloseCommunication =>
      (match Observed(env.closeError)
       case Some(message) => Outcome(c.(errorMessage := message), Some(FailedInput))
       case None =>
         if !c.serialCommunication then Outcome(c, Some(SucceededInput))
         else if env.closePortFails then
           Outcome(c.(errorMessage := ErrorMessage(ClosePortErrorEvent)), Some(FailedInput))
         else Outcome(c.(portOpen := false), Some(SucceededInput)))
    case GetTools => Emit(c, RequestToolsEvent(c.tools))
    case GetTool =>
      var e := if c.requestedToolName in c.tools then RequestToolEvent(Some(c.tools[c.requestedToolName]))
               else RequestToolErrorEvent;
      Emit(c.(requestedToolName := ""), e)
    case GetReferenceTool => Emit(c, RequestToolEvent(c.referenceTool))
    case ReportInitializationSuccess => Emit(c, InitializeEvent)
    case ReportInitializationFailure => Emit(c, InitializeErrorEvent(c.errorMessage))
    case ReportStartTrackingSuccess => Emit(c, TrackerStartTrackingEvent)
    case ReportStartTrackingFailure => Emit(c, Event.TrackerStartTrackingErrorEvent(c.errorMessage))
    case ReportStopTrackingSuccess => Emit(c, TrackerStopTrackingEvent)
    case ReportStopTrackingFailure => Emit(c, Event.TrackerStopTrackingErrorEvent(c.errorMessage))
    case ReportCloseCommunicationSuccess => Emit(c, CloseCommunicationEvent)
    case ReportCloseCommunicationFailure => Emit(c, CloseCommunicationErrorEvent(c.errorMessage))
    case ReportInvalidRequest => Emit(c, InvalidRequestErrorEvent)
  }

  /** No action touches the state or the queue, each pushes at most one
      input, of smaller weight than the inputs that trigger it, and only
      the initialisation actions push anything other than a verdict. */
  lemma ActFrame(c: Controller, a: Action, env: Environment)
    ensures Act(c, a, env).next.queue == c.queue && Act(c, a, env).next.state == c.state
    ensures Act(c, a, env).push.Some? ==> Weight(Act(c, a, env).push.value) < ActionWeight(a)
    ensures Act(c, a, env).push.Some? && a != TrackerInitialize ==>
      Act(c, a, env).push.value in {SucceededInput, FailedInput}
  {
    match a
    case PolarisVicraInitialize => SerialTrackerInitializeFrame(c, PolarisVicraConfiguration, env);
    case PolarisHybridInitialize => SerialTrackerInitializeFrame(c, PolarisHybridConfiguration, env);
    case AuroraInitialize => SerialTrackerInitializeFrame(c, AuroraConfiguration, env);
    case MicronInitialize => OpenTrackerFrame(c.(tracker := Some(MicronConfiguration)), env, false);
    case _ =>
  }

  /** Opening a tracker keeps the state and the queue and pushes a verdict. */
  lemma OpenTrackerFrame(c: Controller, env: Environment, closesPort: bool)
    ensures OpenTracker(c, env, closesPort).next.queue == c.queue
    ensures OpenTracker(c, env, closesPort).next.state == c.state
    ensures OpenTracker(c, env, closesPort).push in {Some(SucceededInput), Some(FailedInput)}
  {
  }

  /** So does opening a serial tracker. */
  lemma SerialTrackerInitializeFrame(c: Controller, kind: ConfigurationType, env: Environment)
    ensures SerialTrackerInitialize(c, kind, env).next.queue == c.queue
    ensures SerialTrackerInitialize(c, kind, env).next.state == c.state
    ensures SerialTrackerInitialize(c, kind, env).push in {Some(SucceededInput), Some(FailedInput)}
  {
    OpenTrackerFrame(c.(serialCommunication := true, portOpen := true, tracker := Some(kind)), env, true);
  }

  /** The controller after an outcome, its pushed input at the tail. */
  function Apply(c: Controller, o: Outcome): Controller
  {
    o.next.(queue := c.queue + if o.push.Some? then [o.push.value] else [])
  }

  /** The controller after an action. */
  function Perform(c: Controller, a: Action, env: Environment): Controller
  {
    Apply(c, Act(c, a, env))
  }

  /** One turn of the drain loop: take the head input, commit the state
      the table gives, run the action. */
  function Step(c: Controller, env: Environment): Controller
    requires c.queue != []
  {
    var (next, action) := Transition(c.state, c.queue[0]);
    Perform(c.(state := next, queue := c.queue[1..]), action, env)
  }

  /** Every step lowers the weight of the queue, so draining ends. */
  lemma StepDecreases(c: Controller, env: Environment)
    requires c.queue != []
    ensures QueueWeight(Step(c, env).queue) < QueueWeight(c.queue)
  {
    var (next, action) := Transition(c.state, c.queue[0]);
    var o := Act(c.(state := next, queue := c.queue[1..]), action, env);
    assert Step(c, env) == Apply(c.(state := next, queue := c.queue[1..]), o);
    var pushed := if o.push.Some? then [o.push.value] else [];
    ActFrame(c.(state := next, queue := c.queue[1..]), action, env);
    TransitionWeight(c.state, c.queue[0]);
    QueueWeightAppend(c.queue[1..], pushed);
    assert QueueWeight(c.queue) == Weight(c.queue[0]) + QueueWeight(c.queue[1..]);
    if o.push.Some? {
      assert QueueWeight(pushed) == Weight(o.push.value) + QueueWeight([]);
    }
  }

  /** The drain loop: steps until the queue is empty. */
  function Drain(c: Controller, env: Environment): Controller
    decreases QueueWeight(c.queue)
  {
    if c.queue == [] then c
    else
      StepDecreases(c, env);
      Drain(Step(c, env), env)
  }

  /** Draining always ends with an empty queue. */
  lemma {:induction false} DrainEmptiesQueue(c: Controller, env: Environment)
    ensures Drain(c, env).queue == []
    decreases QueueWeight(c.queue)
  {
    if c.queue != [] {
      StepDecreases(c, env);
      DrainEmptiesQueue(Step(c, env), env);
    }
  }

  /** A drain that takes one step, two or three. */
  lemma DrainOne(c: Controller, env: Environment)
    requires c.queue != [] && Step(c, env).queue == []
    ensures Drain(c, env) == Step(c, env)
  {
  }

  lemma DrainTwo(c: Controller, env: Environment)
    requires c.queue != [] && Step(c, env).queue != [] && Step(Step(c, env), env).queue == []
    ensures Drain(c, env) == Step(Step(c, env), env)
  {
    assert Drain(c, env) == Drain(Step(c, env), env);
    DrainOne(Step(c, env), env);
  }

  lemma DrainThree(c: Controller, env: Environment)
    requires c.queue != [] && Step(c, env).queue != [] && Step(Step(c, env), env).queue != []
    requires Step(Step(Step(c, env), env), env).queue == []
    ensures Drain(c, env) == Step(Step(Step(c, env), env), env)
  {
    assert Drain(c, env) == Drain(Step(c, env), env);
    DrainTwo(Step(c, env), env);
  }

  // ------------------------------------------------------------- requests

  /** The controller after a request pushes its inputs and drains. */
  function Request(c: Controller, inputs: seq<Input>, env: Environment): Controller
  {
    Drain(c.(queue := c.queue + inputs), env)
  }

  /** The three tracker families opened on a serial port. */
  predicate IsSerialFamily(kind: ConfigurationType)
  {
    kind == PolarisVicraConfiguration || kind == PolarisHybridConfiguration || kind == AuroraConfiguration
  }

  // ------------------------------------------------------ step by step

  /** The initialisation request, taken from Idle: the configuration is
      checked and the family's input pushed, or Failed with the reason. */
  lemma InitializeRequestStep(c: Controller, env: Environment, rest: seq<Input>)
    requires c.state == IdleState && c.queue == [TrackerInitializeInput] + rest
    ensures var cfg := c.tmpConfiguration;
      var family := if cfg.None? then None else FamilyInput(cfg.value.kind, env.micronSandbox);
      Step(c, env) ==
        if family.None? then
          c.(state := AttemptingToInitializeState, queue := rest + [FailedInput],
             errorMessage := if cfg.None? then NullConfiguration else UnknownConfigurationType)
        else
          c.(state := AttemptingToInitializeState, queue := rest + [family.value], configuration := cfg)
  {
  }

  /** The attempt state of each serial family. */
  function SerialAttemptState(kind: ConfigurationType): State
  {
    match kind
    case PolarisVicraConfiguration => AttemptingToInitializePolarisVicraState
    case PolarisHybridConfiguration => AttemptingToInitializePolarisHybridState
    case _ => AttemptingToInitializeAuroraState
  }

  /** Whether a serial initialisation opens both the port and the tracker. */
  predicate SerialOpens(env: Environment)
  {
    !env.openPortFails && Observed(env.trackerOpenError).None?
  }

  /** The message a failed serial initialisation leaves. */
  function SerialFailure(env: Environment): Message
  {
    if env.openPortFails then ErrorMessage(OpenPortErrorEvent)
    else if Observed(env.trackerOpenError).Some? then Observed(env.trackerOpenError).value
    else NoMessage
  }

  /** A serial family's initialisation, taken while attempting to
      initialise: the port and the tracker are opened; on success the
      tools are attached, on failure the message is recorded and the port
      closed. */
  lemma SerialFamilyStep(c: Controller, env: Environment, kind: ConfigurationType, rest: seq<Input>)
    requires IsSerialFamily(kind) && c.state == AttemptingToInitializeState
    requires c.queue == [FamilyInput(kind, env.micronSandbox).value] + rest
    ensures var reference := ConfiguredReference(c.configuration);
      Step(c, env) ==
        if SerialOpens(env) then
          c.(state := SerialAttemptState(kind), queue := rest + [SucceededInput],
             serialCommunication := true, portOpen := true, tracker := Some(kind),
             tools := ConfiguredTools(c.configuration) + c.tools,
             referenceTool := if reference.Some? then reference else c.referenceTool)
        else
          c.(state := SerialAttemptState(kind), queue := rest + [FailedInput],
             serialCommunication := true, portOpen := false,
             tracker := if env.openPortFails then c.tracker else Some(kind),
             errorMessage := SerialFailure(env))
  {
    if kind == PolarisVicraConfiguration {
    } else if kind == PolarisHybridConfiguration {
    } else {
    }
  }

  /** The verdict on an initialisation attempt. */
  lemma InitializeVerdictStep(c: Controller, env: Environment, rest: seq<Input>)
    requires IsFamilyAttempt(c.state) || c.state == AttemptingToInitializeState
    requires c.queue != [] && c.queue[0] in {SucceededInput, FailedInput} && c.queue[1..] == rest
    requires c.state == AttemptingToInitializeState ==> c.queue[0] == FailedInput
    ensures Step(c, env) ==
      if c.queue[0] == SucceededInput then
        c.(state := InitializedState, queue := rest, events := c.events + [InitializeEvent])
      else
        c.(state := IdleState, queue := rest, events := c.events + [InitializeErrorEvent(c.errorMessage)])
  {
  }

  /** The MedSafe family's initialisation does nothing. */
  lemma MedSafeFamilyStep(c: Controller, env: Environment, rest: seq<Input>)
    requires c.state == AttemptingToInitializeState && c.queue == [MedSafeInitializeInput] + rest
    ensures Step(c, env) == c.(state := AttemptingToInitializeMedSafeState, queue := rest)
  {
  }

  /** A start or stop request taken where the table accepts it: the
      tracker is asked and the verdict pushed. */
  lemma TrackingRequestStep(c: Controller, env: Environment, rest: seq<Input>)
    requires c.queue != [] && c.queue[1..] == rest
    requires (c.state == InitializedState && c.queue[0] == StartTrackingInput) ||
             (c.state == TrackingState && c.queue[0] == StopTrackingInput)
    ensures var starting := c.queue[0] == StartTrackingInput;
      var m := Observed(if starting then env.startTrackingError else env.stopTrackingError);
      Step(c, env) ==
        c.(state := if starting then AttemptingToStartTrackingState else AttemptingToStopTrackingState,
           queue := rest + [if m.None? then SucceededInput else FailedInput],
           errorMessage := if m.None? then c.errorMessage else m.value)
  {
  }

  /** The verdict on a start attempt. */
  lemma StartVerdictStep(c: Controller, env: Environment, rest: seq<Input>)
    requires c.state == AttemptingToStartTrackingState
    requires c.queue != [] && c.queue[0] in {SucceededInput, FailedInput} && c.queue[1..] == rest
    ensures Step(c, env) ==
      if c.queue[0] == SucceededInput then
        c.(state := TrackingState, queue := rest, events := c.events + [TrackerStartTrackingEvent])
      else
        c.(state := InitializedState, queue := rest,
           events := c.events + [Event.TrackerStartTrackingErrorEvent(c.errorMessage)])
  {
  }

  /** The verdict on a stop attempt. */
  lemma StopVerdictStep(c: Controller, env: Environment, rest: seq<Input>)
    requires c.state == AttemptingToStopTrackingState
    requires c.queue != [] && c.queue[0] in {SucceededInput, FailedInput} && c.queue[1..] == rest
    ensures Step(c, env) ==
      if c.queue[0] == SucceededInput then
        c.(state := InitializedState, queue := rest, events := c.events + [TrackerStopTrackingEvent])
      else
        c.(state := TrackingState, queue := rest,
           events := c.events + [Event.TrackerStopTrackingErrorEvent(c.errorMessage)])
  {
  }

  /** An input the table answers with ReportInvalidRequest commits its
      state and only adds the invalid-request event. */
  lemma InvalidRequestStep(c: Controller, env: Environment)
    requires c.queue != [] && Transition(c.state, c.queue[0]).1 == ReportInvalidRequest
    ensures Step(c, env) ==
      c.(state := Transition(c.state, c.queue[0]).0, queue := c.queue[1..],
         events := c.events + [InvalidRequestErrorEvent])
  {
  }

  /** A close request taken while a stop is being attempted is invalid. */
  lemma CloseWhileStoppingStep(c: Controller, env: Environment, rest: seq<Input>)
    requires c.state == AttemptingToStopTrackingState && c.queue == [CloseCommunicationInput] + rest
    ensures Step(c, env) == c.(queue := rest, events := c.events + [InvalidRequestErrorEvent])
  {
  }

  /** A stop request taken when initialised reports success at once. */
  lemma StopWhenInitializedStep(c: Controller, env: Environment, rest: seq<Input>)
    requires c.state == InitializedState && c.queue == [StopTrackingInput] + rest
    ensures Step(c, env) == c.(queue := rest, events := c.events + [TrackerStopTrackingEvent])
  {
  }

  /** Whether closing communication succeeds: the tracker raises no
      recognised error and, on a serial connection, the port closes. */
  predicate ClosesCleanly(c: Controller, env: Environment)
  {
    Observed(env.closeError).None? && !(c.serialCommunication && env.closePortFails)
  }

  /** The message a failed close leaves. */
  function CloseFailure(env: Environment): Message
  {
    if Observed(env.closeError).Some? then Observed(env.closeError).value else ErrorMessage(ClosePortErrorEvent)
  }

  /** A close request taken when initialised: the tracker is closed, then
      a serial port. */
  lemma CloseRequestStep(c: Controller, env: Environment, rest: seq<Input>)
    requires c.state == InitializedState && c.queue == [CloseCommunicationInput] + rest
    ensures Step(c, env) ==
      if ClosesCleanly(c, env) then
        c.(state := AttemptingToCloseCommunicationState, queue := rest + [SucceededInput],
           portOpen := c.portOpen && !c.serialCommunication)
      else
        c.(state := AttemptingToCloseCommunicationState, queue := rest + [FailedInput],
           errorMessage := CloseFailure(env))
  {
  }

  /** The verdict on a close attempt. */
  lemma CloseVerdictStep(c: Controller, env: Environment, rest: seq<Input>)
    requires c.state == AttemptingToCloseCommunicationState
    requires c.queue != [] && c.queue[0] in {SucceededInput, FailedInput} && c.queue[1..] == rest
    ensures Step(c, env) ==
      if c.queue[0] == SucceededInput then
        c.(state := IdleState, queue := rest, events := c.events + [CloseCommunicationEvent])
      else
        c.(state := InitializedState, queue := rest,
           events := c.events + [CloseCommunicationErrorEvent(c.errorMessage)])
  {
  }

  // ------------------------------------------------------------ scenarios

  /** Initialising with no configuration, or with one of a type the
      controller does not recognise, returns to Idle and reports an
      initialisation error carrying the reason; nothing else changes. */
  lemma UnusableConfigurationFails(c: Controller, env: Environment)
    requires c.state == IdleState && c.queue == []
    requires c.tmpConfiguration.None? || FamilyInput(c.tmpConfiguration.value.kind, env.micronSandbox).None?
    ensures var reason := if c.tmpConfiguration.None? then NullConfiguration else UnknownConfigurationType;
      Request(c, [TrackerInitializeInput], env) ==
        c.(errorMessage := reason, events := c.events + [InitializeErrorEvent(reason)])
  {
    var c0 := c.(queue := [TrackerInitializeInput]);
    assert c.(queue := c.queue + [TrackerInitializeInput]) == c0;
    InitializeRequestStep(c0, env, []);
    InitializeVerdictStep(Step(c0, env), env, []);
    DrainTwo(c0, env);
  }

  /** A Micron configuration without the Micron build flag is an unknown
      configuration type. */
  lemma MicronNeedsSandbox(kind: ConfigurationType)
    ensures FamilyInput(kind, false).None? <==> kind == MicronConfiguration || kind == OtherConfiguration
  {
  }

  /** Initialising a serial tracker from Idle: when the port and the
      tracker open, the controller is Initialized with the port open, the
      configured tools join the tool table (a name already present keeps
      its tool), the configured reference tool, if any, replaces the old
      one, and an initialisation event is reported; otherwise it is back in
      Idle with the port closed, the tools unchanged, and an
      initialisation error carrying the port's or the tracker's message. */
  lemma SerialInitialization(c: Controller, env: Environment)
    requires c.state == IdleState && c.queue == []
    requires c.tmpConfiguration.Some? && IsSerialFamily(c.tmpConfiguration.value.kind)
    ensures var kind := c.tmpConfiguration.value.kind;
      var reference := ConfiguredReference(c.tmpConfiguration);
      Request(c, [TrackerInitializeInput], env) ==
        if SerialOpens(env) then
          c.(state := InitializedState, configuration := c.tmpConfiguration,
             serialCommunication := true, portOpen := true, tracker := Some(kind),
             tools := ConfiguredTools(c.tmpConfiguration) + c.tools,
             referenceTool := if reference.Some? then reference else c.referenceTool,
             events := c.events + [InitializeEvent])
        else
          c.(configuration := c.tmpConfiguration, serialCommunication := true, portOpen := false,
             tracker := if env.openPortFails then c.tracker else Some(kind),
             errorMessage := SerialFailure(env), events := c.events + [InitializeErrorEvent(SerialFailure(env))])
  {
    var kind := c.tmpConfiguration.value.kind;
    var c0 := c.(queue := [TrackerInitializeInput]);
    assert c.(queue := c.queue + [TrackerInitializeInput]) == c0;
    InitializeRequestStep(c0, env, []);
    DrainFirstStep(c0, env);
    SerialAttemptDrains(Step(c0, env), env, kind);
  }

  /** A drain that has work takes one step first. */
  lemma DrainFirstStep(c: Controller, env: Environment)
    requires c.queue != []
    ensures Drain(c, env) == Drain(Step(c, env), env)
  {
  }

  /** A serial family's attempt and its verdict, drained. */
  lemma SerialAttemptDrains(c: Controller, env: Environment, kind: ConfigurationType)
    requires IsSerialFamily(kind) && c.state == AttemptingToInitializeState
    requires c.queue == [FamilyInput(kind, env.micronSandbox).value]
    ensures var reference := ConfiguredReference(c.configuration);
      Drain(c, env) ==
        if SerialOpens(env) then
          c.(state := InitializedState, queue := [],
             serialCommunication := true, portOpen := true, tracker := Some(kind),
             tools := ConfiguredTools(c.configuration) + c.tools,
             referenceTool := if reference.Some? then reference else c.referenceTool,
             events := c.events + [InitializeEvent])
        else
          c.(state := IdleState, queue := [], serialCommunication := true, portOpen := false,
             tracker := if env.openPortFails then c.tracker else Some(kind),
             errorMessage := SerialFailure(env), events := c.events + [InitializeErrorEvent(SerialFailure(env))])
  {
    SerialFamilyStep(c, env, kind, []);
    var c1 := Step(c, env);
    assert IsFamilyAttempt(c1.state) by {
      if kind == PolarisVicraConfiguration {
      } else if kind == PolarisHybridConfiguration {
      } else {
      }
    }
    InitializeVerdictStep(c1, env, []);
    DrainTwo(c, env);
  }

  /** The serial initialisation reaches Initialized exactly when both the
      port and the tracker open, and otherwise returns to Idle; the port is
      open exactly when it succeeded. */
  lemma SerialInitializationVerdict(c: Controller, env: Environment)
    requires c.state == IdleState && c.queue == []
    requires c.tmpConfiguration.Some? && IsSerialFamily(c.tmpConfiguration.value.kind)
    ensures var r := Request(c, [TrackerInitializeInput], env);
      (r.state == InitializedState <==> !env.openPortFails && Observed(env.trackerOpenError).None?) &&
      (r.state != InitializedState ==> r.state == IdleState) &&
      r.portOpen == (r.state == InitializedState)
  {
    SerialInitialization(c, env);
  }

  /** A MedSafe configuration is accepted but its initialisation does
      nothing: the controller is left in the MedSafe attempt state with
      an empty queue and no event, neither success nor failure. */
  lemma MedSafeInitializationIsSilent(c: Controller, env: Environment)
    requires c.state == IdleState && c.queue == []
    requires c.tmpConfiguration.Some? && c.tmpConfiguration.value.kind == MedSafeConfiguration
    ensures Request(c, [TrackerInitializeInput], env) ==
      c.(state := AttemptingToInitializeMedSafeState, configuration := c.tmpConfiguration)
  {
    var c0 := c.(queue := [TrackerInitializeInput]);
    assert c.(queue := c.queue + [TrackerInitializeInput]) == c0;
    InitializeRequestStep(c0, env, []);
    MedSafeFamilyStep(Step(c0, env), env, []);
    DrainTwo(c0, env);
  }

  /** Starting tracking from Initialized: Tracking and a start event when
      the tracker raises no recognised error, else still Initialized with a
      start error carrying the tracker's message. */
  lemma StartTrackingOutcome(c: Controller, env: Environment)
    requires c.state == InitializedState && c.queue == []
    ensures var m := Observed(env.startTrackingError);
      Request(c, [StartTrackingInput], env) ==
        if m.None? then c.(state := TrackingState, events := c.events + [TrackerStartTrackingEvent])
        else c.(errorMessage := m.value, events := c.events + [Event.TrackerStartTrackingErrorEvent(m.value)])
  {
    var c0 := c.(queue := [StartTrackingInput]);
    assert c.(queue := c.queue + [StartTrackingInput]) == c0;
    TrackingRequestStep(c0, env, []);
    StartVerdictStep(Step(c0, env), env, []);
    DrainTwo(c0, env);
  }

  /** Shutting down while tracking does not close communication: the
      close input is taken while the stop is still being attempted and is
      rejected as an invalid request, then the stop completes.  Nothing
      but the state, the message and the events changes; in particular the
      port stays as it was. */
  lemma ShutdownWhileTrackingLeavesCommunicationOpen(c: Controller, env: Environment)
    requires c.state == TrackingState && c.queue == []
    ensures var m := Observed(env.stopTrackingError);
      Request(c, [StopTrackingInput, CloseCommunicationInput], env) ==
        if m.None? then
          c.(state := InitializedState, events := c.events + [InvalidRequestErrorEvent, TrackerStopTrackingEvent])
        else
          c.(errorMessage := m.value,
             events := c.events + [InvalidRequestErrorEvent, Event.TrackerStopTrackingErrorEvent(m.value)])
  {
    var c0 := c.(queue := [StopTrackingInput, CloseCommunicationInput]);
    assert c.(queue := c.queue + [StopTrackingInput, CloseCommunicationInput]) == c0;
    TrackingRequestStep(c0, env, [CloseCommunicationInput]);
    DrainFirstStep(c0, env);
    CloseWhileStoppingDrains(Step(c0, env), env);
  }

  /** A close taken while a stop is being attempted, then the stop's
      verdict, drained. */
  lemma CloseWhileStoppingDrains(c: Controller, env: Environment)
    requires c.state == AttemptingToStopTrackingState
    requires |c.queue| == 2 && c.queue[0] == CloseCommunicationInput && c.queue[1] in {SucceededInput, FailedInput}
    ensures Drain(c, env) ==
      if c.queue[1] == SucceededInput then
        c.(state := InitializedState, queue := [],
           events := c.events + [InvalidRequestErrorEvent, TrackerStopTrackingEvent])
      else
        c.(state := TrackingState, queue := [],
           events := c.events + [InvalidRequestErrorEvent, Event.TrackerStopTrackingErrorEvent(c.errorMessage)])
  {
    CloseWhileStoppingStep(c, env, c.queue[1..]);
    var c1 := Step(c, env);
    StopVerdictStep(c1, env, []);
    DrainTwo(c, env);
    assert c1.events + [TrackerStopTrackingEvent] == c.events + [InvalidRequestErrorEvent, TrackerStopTrackingEvent];
    assert c1.events + [Event.TrackerStopTrackingErrorEvent(c.errorMessage)] ==
           c.events + [InvalidRequestErrorEvent, Event.TrackerStopTrackingErrorEvent(c.errorMessage)];
  }

  /** Shutting down from Initialized reports the (trivial) stop, then
      closes communication: back to Idle, with a serial port closed, when
      the close succeeds; otherwise still Initialized with a close error
      carrying the tracker's or the port's message. */
  lemma ShutdownWhenInitialized(c: Controller, env: Environment)
    requires c.state == InitializedState && c.queue == []
    ensures Request(c, [StopTrackingInput, CloseCommunicationInput], env) ==
      if ClosesCleanly(c, env) then
        c.(state := IdleState, portOpen := c.portOpen && !c.serialCommunication,
           events := c.events + [TrackerStopTrackingEvent, CloseCommunicationEvent])
      else
        c.(errorMessage := CloseFailure(env),
           events := c.events + [TrackerStopTrackingEvent, CloseCommunicationErrorEvent(CloseFailure(env))])
  {
    var c1 := c.(queue := [CloseCommunicationInput], events := c.events + [TrackerStopTrackingEvent]);
    StopThenCloseFirstStep(c, env);
    CloseDrains(c1, env);
    assert ClosesCleanly(c1, env) == ClosesCleanly(c, env);
    if ClosesCleanly(c, env) {
      assert c1.events + [CloseCommunicationEvent] == c.events + [TrackerStopTrackingEvent, CloseCommunicationEvent];
    } else {
      assert c1.events + [CloseCommunicationErrorEvent(CloseFailure(env))] ==
             c.events + [TrackerStopTrackingEvent, CloseCommunicationErrorEvent(CloseFailure(env))];
    }
  }

  /** The stop of a stop-then-close request, taken when initialised. */
  lemma StopThenCloseFirstStep(c: Controller, env: Environment)
    requires c.state == InitializedState && c.queue == []
    ensures Request(c, [StopTrackingInput, CloseCommunicationInput], env) ==
      Drain(c.(queue := [CloseCommunicationInput], events := c.events + [TrackerStopTrackingEvent]), env)
  {
    var c0 := c.(queue := [StopTrackingInput, CloseCommunicationInput]);
    assert c.(queue := c.queue + [StopTrackingInput, CloseCommunicationInput]) == c0;
    StopWhenInitializedStep(c0, env, [CloseCommunicationInput]);
    DrainFirstStep(c0, env);
  }

  /** A close request taken when initialised, and its verdict, drained. */
  lemma CloseDrains(c: Controller, env: Environment)
    requires c.state == InitializedState && c.queue == [CloseCommunicationInput]
    ensures Drain(c, env) ==
      if ClosesCleanly(c, env) then
        c.(state := IdleState, queue := [], portOpen := c.portOpen && !c.serialCommunication,
           events := c.events + [CloseCommunicationEvent])
      else
        c.(queue := [], errorMessage := CloseFailure(env),
           events := c.events + [CloseCommunicationErrorEvent(CloseFailure(env))])
  {
    CloseRequestStep(c, env, []);
    CloseVerdictStep(Step(c, env), env, []);
    DrainTwo(c, env);
  }

  /** Asking for a tool by name when initialised answers with that tool
      when the table has the name and with a tool error otherwise; the
      requested name is cleared either way. */
  lemma GetToolAnswers(c: Controller, env: Environment, name: string)
    requires c.state == InitializedState && c.queue == []
    ensures Request(c.(requestedToolName := name), [GetToolInput], env) ==
      c.(requestedToolName := "",
         events := c.events + [if name in c.tools then RequestToolEvent(Some(c.tools[name])) else RequestToolErrorEvent])
  {
    var c0 := c.(requestedToolName := name, queue := [GetToolInput]);
    assert c.(requestedToolName := name).(queue := c.queue + [GetToolInput]) == c0;
    DrainOne(c0, env);
  }

  /** Outside Initialized a tool request is an invalid request, and the
      requested name is left as it was. */
  lemma GetToolRejectedUnlessInitialized(c: Controller, env: Environment, name: string)
    requires c.state != InitializedState && c.queue == []
    ensures var r := Request(c.(requestedToolName := name), [GetToolInput], env);
      r.requestedToolName == name && r.tools == c.tools &&
      r.events == c.events + [InvalidRequestErrorEvent]
  {
    var c0 := c.(requestedToolName := name, queue := [GetToolInput]);
    assert c.(requestedToolName := name).(queue := c.queue + [GetToolInput]) == c0;
    GetToolInvalidOutsideInitialized(c.state);
    InvalidRequestStep(c0, env);
    DrainOne(c0, env);
  }

  /** Asking for the tool list when initialised reports the whole tool
      table in one event and changes nothing else. */
  lemma GetToolsAnswers(c: Controller, env: Environment)
    requires c.state == InitializedState && c.queue == []
    ensures Request(c, [GetToolsInput], env) == c.(events := c.events + [RequestToolsEvent(c.tools)])
  {
    var c0 := c.(queue := [GetToolsInput]);
    assert c.(queue := c.queue + [GetToolsInput]) == c0;
    DrainOne(c0, env);
  }

  /** Asking for the reference tool when initialised reports it, or its
      absence, in one event and changes nothing else. */
  lemma GetReferenceToolAnswers(c: Controller, env: Environment)
    requires c.state == InitializedState && c.queue == []
    ensures Request(c, [GetReferenceToolInput], env) == c.(events := c.events + [RequestToolEvent(c.referenceTool)])
  {
    var c0 := c.(queue := [GetReferenceToolInput]);
    assert c.(queue := c.queue + [GetReferenceToolInput]) == c0;
    DrainOne(c0, env);
  }

  /** Outside Initialized, asking for the tool list or the reference tool
      is an invalid request: one error event, the state the table gives,
      and nothing else changes. */
  lemma ToolQueriesRejectedUnlessInitialized(c: Controller, env: Environment, i: Input)
    requires c.state != InitializedState && c.queue == []
    requires i == GetToolsInput || i == GetReferenceToolInput
    ensures Transition(c.state, i).1 == ReportInvalidRequest
    ensures Request(c, [i], env) ==
      c.(state := Transition(c.state, i).0, events := c.events + [InvalidRequestErrorEvent])
  {
    var c0 := c.(queue := [i]);
    assert c.(queue := c.queue + [i]) == c0;
    InvalidRequestStep(c0, env);
    DrainOne(c0, env);
  }

  /** The table answers a tool request with ReportInvalidRequest in every
      state but Initialized. */
  lemma GetToolInvalidOutsideInitialized(s: State)
    requires s != InitializedState
    ensures Transition(s, GetToolInput).1 == ReportInvalidRequest
  {
  }

  // -------------------------------------------------------- the controller

  class TrackerController {
    const environment: Environment
    const observer: ErrorObserver
    var state: State
    var queue: seq<Input>
    var tmpConfiguration: Option<TrackerConfiguration>
    var configuration: Option<TrackerConfiguration>
    var tracker: Option<ConfigurationType>
    var tools: map<string, TrackerTool>
    var referenceTool: Option<TrackerTool>
    var errorMessage: Message
    var requestedToolName: string
    var serialCommunication: bool
    var portOpen: bool
    var events: seq<Event>

    /** The controller's fields as a value. */
    function Snapshot(): Controller
      reads this
    {
      Controller(state, queue, tmpConfiguration, configuration, tracker, tools, referenceTool,
                 errorMessage, requestedToolName, serialCommunication, portOpen, events)
    }

    /** Between device operations the observer holds no error. */
    ghost predicate Valid()
      reads observer
    {
      !observer.errorOccured
    }

    /** A new controller is Idle, with no tools and nothing queued. */
    constructor (env: Environment)
      ensures Valid() && fresh(observer) && environment == env
      ensures Snapshot() == Controller(IdleState, [], None, None, None, map[], None, NoMessage, "", false, false, [])
    {
      environment := env;
      observer := new ErrorObserver();
      state := IdleState;
      queue := [];
      tmpConfiguration := None;
      configuration := None;
      tracker := None;
      tools := map[];
      referenceTool := None;
      errorMessage := NoMessage;
      requestedToolName := "";
      serialCommunication := false;
      portOpen := false;
      events := [];
    }

    /** Lets the observer watch one device operation that raised `raised`,
        then takes its message, if any, and clears it. */
    method ObserveError(raised: Option<ErrorEvent>) returns (message: Option<Message>)
      requires Valid()
      modifies observer
      ensures Valid() && message == Observed(raised)
    {
      if raised.Some? {
        observer.Execute(raised.value);
      }
      if observer.errorOccured {
        message := Some(ErrorMessage(raised.value));
        assert MessageText(message.value) == observer.errorMessage;
        observer.ClearError();
      } else {
        message := None;
      }
    }

    method Push(i: Input)
      modifies this
      ensures Snapshot() == old(Snapshot()).(queue := old(queue) + [i])
    {
      queue := queue + [i];
    }

    method TrackerInitializeProcessing()
      modifies this
      ensures Snapshot() == Perform(old(Snapshot()), TrackerInitialize, environment)
    {
      match tmpConfiguration
      case None =>
        errorMessage := NullConfiguration;
        Push(FailedInput);
      case Some(cfg) =>
        var family := FamilyInput(cfg.kind, environment.micronSandbox);
        if family.None? {
          errorMessage := UnknownConfigurationType;
          Push(FailedInput);
        } else {
          configuration := Some(cfg);
          Push(family.value);
        }
    }

    /** Adds a tool for every entry of the configuration's tool list whose
        name is not in the table yet. */
    method AttachTools()
      modifies this
      ensures Snapshot() == old(Snapshot()).(tools := ConfiguredTools(configuration) + old(tools))
    {
      if configuration.None? {
        assert ConfiguredTools(configuration) + tools == tools;
        return;
      }
      var cfg := configuration.value;
      var pending := cfg.toolList.Keys;
      while pending != {}
        invariant pending <= cfg.toolList.Keys
        invariant Snapshot() == old(Snapshot()).(tools := Attached(cfg, cfg.toolList.Keys - pending) + old(tools))
        decreases |pending|
      {
        var name :| name in pending;
        if name !in tools {
          tools := tools[name := TrackerTool(cfg.kind, cfg.toolList[name])];
        }
        pending := pending - {name};
      }
      assert cfg.toolList.Keys - pending == cfg.toolList.Keys;
    }

    /** Opens the tracker; on success attaches the tools and the
        reference tool, on failure records the message and, when
        `closesPort`, closes the serial port. */
    method OpenTrackerProcessing(closesPort: bool)
      requires Valid()
      modifies this, observer
      ensures Valid() && Snapshot() == Apply(old(Snapshot()), OpenTracker(old(Snapshot()), environment, closesPort))
    {
      var message := ObserveError(environment.trackerOpenError);
      if message.Some? {
        errorMessage := message.value;
        if closesPort {
          portOpen := false;
        }
        Push(FailedInput);
      } else {
        AttachTools();
        var reference := ConfiguredReference(configuration);
        if reference.Some? {
          referenceTool := reference;
        }
        Push(SucceededInput);
      }
    }

    /** Opens the serial port, then the tracker of the family. */
    method SerialInitializeProcessing(kind: ConfigurationType)
      requires Valid()
      modifies this, observer
      ensures Valid()
      ensures Snapshot() == Apply(old(Snapshot()), SerialTrackerInitialize(old(Snapshot()), kind, environment))
    {
      serialCommunication := true;
      var message := ObserveError(if environment.openPortFails then Some(OpenPortErrorEvent) else None);
      if message.Some? {
        errorMessage := message.value;
        portOpen := false;
        Push(FailedInput);
      } else {
        portOpen := true;
        tracker := Some(kind);
        OpenTrackerProcessing(true);
      }
    }

    method MicronInitializeProcessing()
      requires Valid()
      modifies this, observer
      ensures Valid() && Snapshot() == Perform(old(Snapshot()), MicronInitialize, environment)
    {
      if environment.micronSandbox {
        tracker := Some(MicronConfiguration);
        OpenTrackerProcessing(false);
      } else {
        Push(FailedInput);
      }
    }

    /** Asks the tracker to start or stop and pushes the verdict. */
    method TrackingRequestProcessing(raised: Option<ErrorEvent>)
      requires Valid()
      modifies this, observer
      ensures Valid() && Snapshot() == Apply(old(Snapshot()), Attempt(old(Snapshot()), raised))
    {
      var message := ObserveError(raised);
      if message.Some? {
        errorMessage := message.value;
        Push(FailedInput);
      } else {
        Push(SucceededInput);
      }
    }

    /** Closes the tracker, then a serial port. */
    method CloseCommunicationProcessing()
      requires Valid()
      modifies this, observer
      ensures Valid() && Snapshot() == Perform(old(Snapshot()), CloseCommunication, environment)
    {
      var message := ObserveError(environment.closeError);
      if message.Some? {
        errorMessage := message.value;
        Push(FailedInput);
      } else if serialCommunication {
        var portMessage := ObserveError(if environment.closePortFails then Some(ClosePortErrorEvent) else None);
        if portMessage.Some? {
          errorMessage := portMessage.value;
          Push(FailedInput);
        } else {
          portOpen := false;
          Push(SucceededInput);
        }
      } else {
        Push(SucceededInput);
      }
    }

    method GetToolProcessing()
      modifies this
      ensures Snapshot() == Perform(old(Snapshot()), GetTool, environment)
    {
      var found := requestedToolName in tools;
      var tool := if found then Some(tools[requestedToolName]) else None;
      requestedToolName := "";
      if found {
        events := events + [RequestToolEvent(tool)];
      } else {
        events := events + [RequestToolErrorEvent];
      }
    }

    /** Runs the action the table chose. */
    method PerformAction(a: Action)
      requires Valid()
      modifies this, observer
      ensures Valid() && Snapshot() == Perform(old(Snapshot()), a, environment)
    {
      match a
      case TrackerInitialize => TrackerInitializeProcessing();
      case PolarisVicraInitialize => SerialInitializeProcessing(PolarisVicraConfiguration);
      case PolarisHybridInitialize => SerialInitializeProcessing(PolarisHybridConfiguration);
      case AuroraInitialize => SerialInitializeProcessing(AuroraConfiguration);
      case MicronInitialize => MicronInitializeProcessing();
      case MedSafeInitialize =>
      case StartTracking => TrackingRequestProcessing(environment.startTrackingError);
      case StopTracking => TrackingRequestProcessing(environment.stopTrackingError);
      case CloseCommunication => CloseCommunicationProcessing();
      case GetTools => events := events + [RequestToolsEvent(tools)];
      case GetTool => GetToolProcessing();
      case GetReferenceTool => events := events + [RequestToolEvent(referenceTool)];
      case ReportInitializationSuccess => events := events + [InitializeEvent];
      case ReportInitializationFailure => events := events + [InitializeErrorEvent(errorMessage)];
      case ReportStartTrackingSuccess => events := events + [TrackerStartTrackingEvent];
      case ReportStartTrackingFailure => events := events + [Event.TrackerStartTrackingErrorEvent(errorMessage)];
      case ReportStopTrackingSuccess => events := events + [TrackerStopTrackingEvent];
      case ReportStopTrackingFailure => events := events + [Event.TrackerStopTrackingErrorEvent(errorMessage)];
      case ReportCloseCommunicationSuccess => events := events + [CloseCommunicationEvent];
      case ReportCloseCommunicationFailure => events := events + [CloseCommunicationErrorEvent(errorMessage)];
      case ReportInvalidRequest => events := events + [InvalidRequestErrorEvent];
    }

    /** Takes inputs from the head of the queue until it is empty: each
        commits the state the table gives, then runs its action, which may
        push one more input at the tail. */
    method ProcessInputs()
      requires Valid()
      modifies this, observer
      ensures Valid() && Snapshot() == Drain(old(Snapshot()), environment)
    {
      while queue != []
        invariant Valid()
        invariant Drain(Snapshot(), environment) == Drain(old(Snapshot()), environment)
        decreases QueueWeight(queue)
      {
        ghost var before := Snapshot();
        var (next, action) := Transition(state, queue[0]);
        state := next;
        queue := queue[1..];
        PerformAction(action);
        assert Snapshot() == Step(before, environment);
        StepDecreases(before, environment);
        DrainFirstStep(before, environment);
      }
    }

    /** The request methods: each pushes its inputs and drains. */
    method RequestInitialize(cfg: Option<TrackerConfiguration>)
      requires Valid()
      modifies this, observer
      ensures Valid() && Snapshot() == Request(old(Snapshot()).(tmpConfiguration := cfg), [TrackerInitializeInput], environment)
    {
      tmpConfiguration := cfg;
      Push(TrackerInitializeInput);
      ProcessInputs();
    }

    method RequestStartTracking()
      requires Valid()
      modifies this, observer
      ensures Valid() && Snapshot() == Request(old(Snapshot()), [StartTrackingInput], environment)
    {
      Push(StartTrackingInput);
      ProcessInputs();
    }

    method RequestStopTracking()
      requires Valid()
      modifies this, observer
      ensures Valid() && Snapshot() == Request(old(Snapshot()), [StopTrackingInput], environment)
    {
      Push(StopTrackingInput);
      ProcessInputs();
    }

    /** Pushes a stop and a close together, then drains. */
    method RequestShutdown()
      requires Valid()
      modifies this, observer
      ensures Valid() && Snapshot() == Request(old(Snapshot()), [StopTrackingInput, CloseCommunicationInput], environment)
    {
      Push(StopTrackingInput);
      Push(CloseCommunicationInput);
      assert queue == old(queue) + [StopTrackingInput, CloseCommunicationInput];
      ProcessInputs();
    }

    method RequestGetNonReferenceToolList()
      requires Valid()
      modifies this, observer
      ensures Valid() && Snapshot() == Request(old(Snapshot()), [GetToolsInput], environment)
    {
      Push(GetToolsInput);
      ProcessInputs();
    }

    method RequestGetTool(name: string)
      requires Valid()
      modifies this, observer
      ensures Valid() && Snapshot() == Request(old(Snapshot()).(requestedToolName := name), [GetToolInput], environment)
    {
      requestedToolName := name;
      Push(GetToolInput);
      ProcessInputs();
    }

    method RequestGetReferenceTool()
      requires Valid()
      modifies this, observer
      ensures Valid() && Snapshot() == Request(old(Snapshot()), [GetReferenceToolInput], environment)
    {
      Push(GetReferenceToolInput);
      ProcessInputs();
    }
  }
}
