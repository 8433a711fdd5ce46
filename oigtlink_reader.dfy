/**
 * The OpenIGTLink tracker configuration-file reader: a state machine that
 * takes an XML reader and a file name (each checked and committed by its
 * own attempt), reads the tracker configuration and the OpenIGTLink tool
 * table from the file, and hands the data out on request.
 *
 * The machine is modelled like the tracker controller: one FIFO queue,
 * the state committed before the action runs, an action's verdict pushed
 * at the tail and drained by the same loop (`Drain`).  The file system
 * and the two XML parsers are an oracle (`FileSystem`).
 *
 * The table exists in two versions: `AsWritten` has a Read in HaveData
 * enter AttemptingRead with the invalid-request report, so no verdict is
 * ever pushed and the reader can never leave AttemptingRead; `Corrected`
 * runs the read action there, as Initialized does.  The reader class uses
 * the corrected table.
 */
module OIGTLinkReader {
  import opened Wrappers

  datatype State =
    | IdleState
    | AttemptingSetFileNameState
    | AttemptingSetReaderState
    | FileNameSetState
    | ReaderSetState
    | AttemptingSetReaderHaveFileNameState
    | AttemptingSetFileNameHaveReaderState
    | InitializedState
    | AttemptingReadState
    | HaveDataState

  datatype Input = SetReaderInput | SetFileNameInput | ReadInput | GetDataInput | SuccessInput | FailureInput

  datatype Action =
    | SetReader
    | SetFileName
    | Read
    | GetData
    | ReportInvalidRequest
    | ReportSetReaderSuccess
    | ReportSetReaderFailure
    | ReportSetFileNameSuccess
    | ReportSetFileNameFailure
    | ReportReadSuccess
    | ReportReadFailure

  datatype Table = AsWritten | Corrected

  /** The inputs a client can request; Success and Failure are pushed only
      by the reader's own actions. */
  predicate IsRequest(i: Input)
  {
    i in {SetReaderInput, SetFileNameInput, ReadInput, GetDataInput}
  }

  /** The states in which the reader waits for a verdict. */
  predicate Attempting(s: State)
  {
    s in {AttemptingSetFileNameState, AttemptingSetReaderState, AttemptingSetReaderHaveFileNameState,
          AttemptingSetFileNameHaveReaderState, AttemptingReadState}
  }

  /** The transition table: the next state and the action for every state
      and input. */
  function Transition(t: Table, s: State, i: Input): (r: (State, Action))
    ensures r.1 == ReportInvalidRequest ==> r.0 == s || (t == AsWritten && s == HaveDataState && i == ReadInput)
    ensures r.0 == HaveDataState <==>
      (s == AttemptingReadState && i == SuccessInput) ||
      (s == HaveDataState && i !in {SetReaderInput, SetFileNameInput, ReadInput})
  {
    match s
    case IdleState =>
      (match i
       case SetReaderInput => (AttemptingSetReaderState, SetReader)
       case SetFileNameInput => (AttemptingSetFileNameState, SetFileName)
       case _ => (s, ReportInvalidRequest))
    case AttemptingSetFileNameState =>
      (match i
       case SuccessInput => (FileNameSetState, ReportSetFileNameSuccess)
       case FailureInput => (IdleState, ReportSetFileNameFailure)
       case _ => (s, ReportInvalidRequest))
    case AttemptingSetReaderState =>
      (match i
       case SuccessInput => (ReaderSetState, ReportSetReaderSuccess)
       case FailureInput => (IdleState, ReportSetReaderFailure)
       case _ => (s, ReportInvalidRequest))
    case FileNameSetState =>
      (match i
       case SetReaderInput => (AttemptingSetReaderHaveFileNameState, SetReader)
       case SetFileNameInput => (AttemptingSetFileNameState, SetFileName)
       case _ => (s, ReportInvalidRequest))
    case ReaderSetState =>
      (match i
       case SetReaderInput => (AttemptingSetReaderState, SetReader)
       case SetFileNameInput => (AttemptingSetFileNameHaveReaderState, SetFileName)
       case _ => (s, ReportInvalidRequest))
    case AttemptingSetReaderHaveFileNameState =>
      (match i
       case SuccessInput => (InitializedState, ReportSetReaderSuccess)
       case FailureInput => (FileNameSetState, ReportSetReaderFailure)
       case _ => (s, ReportInvalidRequest))
    case AttemptingSetFileNameHaveReaderState =>
      (match i
       case SuccessInput => (InitializedState, ReportSetFileNameSuccess)
       case FailureInput => (ReaderSetState, ReportSetFileNameFailure)
       case _ => (s, ReportInvalidRequest))
    case InitializedState =>
      (match i
       case SetReaderInput => (AttemptingSetReaderHaveFileNameState, SetReader)
       case SetFileNameInput => (AttemptingSetFileNameHaveReaderState, SetFileName)
       case ReadInput => (AttemptingReadState, Read)
       case _ => (s, ReportInvalidRequest))
    case AttemptingReadState =>
      (match i
       case SuccessInput => (HaveDataState, ReportReadSuccess)
       case FailureInput => (InitializedState, ReportReadFailure)
       case _ => (s, ReportInvalidRequest))
    case HaveDataState =>
      (match i
       case SetReaderInput => (AttemptingSetReaderHaveFileNameState, SetReader)
       case SetFileNameInput => (AttemptingSetFileNameHaveReaderState, SetFileName)
       case ReadInput => (AttemptingReadState, if t == AsWritten then ReportInvalidRequest else Read)
       case GetDataInput => (s, GetData)
       case _ => (s, ReportInvalidRequest))
  }

  /** The actions that push a verdict. */
  predicate Attempts(a: Action)
  {
    a in {SetReader, SetFileName, Read}
  }

  /** A read starts only once the reader and the file name are set (and,
      in the corrected table, again after data was read). */
  lemma ReadAcceptance(t: Table, s: State)
    ensures Transition(t, s, ReadInput).1 == Read <==> s == InitializedState || (t == Corrected && s == HaveDataState)
  {
  }

  /** Data is handed out only once it was read. */
  lemma GetDataAcceptance(t: Table, s: State)
    ensures Transition(t, s, GetDataInput).1 == GetData <==> s == HaveDataState
  {
  }

  /** While an attempt is pending every request is rejected and the state
      kept; its verdict leads to a state that waits for no verdict. */
  lemma AttemptsAwaitVerdict(t: Table, s: State, i: Input)
    requires Attempting(s)
    ensures IsRequest(i) ==> Transition(t, s, i) == (s, ReportInvalidRequest)
    ensures !IsRequest(i) ==> !Attempting(Transition(t, s, i).0) && !Attempts(Transition(t, s, i).1)
  {
  }

  /** In the corrected table a request enters an attempt state exactly
      when its action will push the verdict; the table as written breaks
      this for a Read in HaveData. */
  lemma AttemptMatchesAction(s: State, i: Input)
    requires !Attempting(s)
    ensures Attempting(Transition(Corrected, s, i).0) <==> Attempts(Transition(Corrected, s, i).1)
    ensures Transition(AsWritten, HaveDataState, ReadInput) == (AttemptingReadState, ReportInvalidRequest)
  {
  }

  // ------------------------------------------------------------ the data

  /** The tracker-specific XML reader object, by identity. */
  datatype XmlReader = XmlReader(handle: nat)

  /** The tracker configuration an XML reader produces, by identity. */
  datatype TrackerData = TrackerData(handle: nat)

  /** The OpenIGTLink part of the file: tool names with their ports, and
      the host name. */
  datatype OIGTLinkData = OIGTLinkData(toolNamesAndPorts: map<string, nat>, hostName: string)

  /** What the reader hands out. */
  datatype OIGTLinkTrackerConfiguration = OIGTLinkTrackerConfiguration(
    trackerConfiguration: Option<TrackerData>,
    toolNamesAndPorts: map<string, nat>,
    hostName: string)

  /** The outcome of parsing an XML file: an exception with its text, a
      file without the expected data, or the data. */
  datatype Parse<T> = Thrown(what: string) | NoData | Parsed(data: T)

  /** The file system and the two XML parsers. */
  datatype FileSystem = FileSystem(
    fileLength: string -> nat,
    isDirectory: string -> bool,
    trackerXml: (XmlReader, string) -> Parse<TrackerData>,
    oigtLinkXml: string -> Parse<OIGTLinkData>)

  /** Why a read failed. */
  datatype ReadFailure =
    | NoReadFailure
    | FileMissingOrDirectory(fileName: string)
    | NoTrackerData
    | NoOIGTLinkData
    | XmlException(what: string)

  /** The text of a read failure. */
  function ReadFailureText(m: ReadFailure): string
  {
    match m
    case NoReadFailure => ""
    case FileMissingOrDirectory(name) => "File (" + name + ") does not exist or is a directory"
    case NoTrackerData => "XML file does not contain tracker configuration data"
    case NoOIGTLinkData => "XML file does not contain openIGTLink configuration data"
    case XmlException(what) => what
  }

  datatype Event =
    | InvalidRequestErrorEvent
    | SetReaderSuccessEvent
    | SetReaderFailureEvent
    | SetFileNameSuccessEvent
    | SetFileNameFailureEvent
    | ReadSuccessEvent
    | ReadFailureEvent(failure: ReadFailure)
    | ConfigurationDataEvent(configuration: OIGTLinkTrackerConfiguration)

  /** The reader's fields as a value. */
  datatype Reader = Reader(
    state: State,
    queue: seq<Input>,
    tmpReader: Option<XmlReader>,
    xmlReader: Option<XmlReader>,
    tmpFileName: string,
    fileName: string,
    configuration: OIGTLinkTrackerConfiguration,
    readFailure: ReadFailure,
    events: seq<Event>)

  /** A new reader. */
  const Initial := Reader(IdleState, [], None, None, "", "", OIGTLinkTrackerConfiguration(None, map[], ""),
                          NoReadFailure, [])

  /** The states that have committed a reader, a file name. */
  predicate HasReader(s: State)
  {
    s in {ReaderSetState, AttemptingSetFileNameHaveReaderState, InitializedState, AttemptingReadState, HaveDataState}
  }

  predicate HasFileName(s: State)
  {
    s in {FileNameSetState, AttemptingSetReaderHaveFileNameState, InitializedState, AttemptingReadState, HaveDataState}
  }

  /** Between requests: nothing is queued, no verdict is awaited, and the
      state agrees with what has been committed. */
  predicate Consistent(r: Reader)
  {
    r.queue == [] && !Attempting(r.state) &&
    (HasReader(r.state) ==> r.xmlReader.Some?) &&
    (HasFileName(r.state) ==> r.fileName != "") &&
    (r.state == HaveDataState ==> r.configuration.trackerConfiguration.Some?)
  }

  // ------------------------------------------------------------ actions

  datatype Outcome = Outcome(next: Reader, push: Option<Input>)

  function Emit(r: Reader, e: Event): Outcome
  {
    Outcome(r.(events := r.events + [e]), None)
  }

  /** Reads the file: a missing file, a directory, a parser exception, or
      a file without tracker or without OpenIGTLink data is a failure with
      its reason; the tracker configuration is stored as soon as it is
      parsed, the OpenIGTLink part only when it is parsed too.  A reader
      without an XML reader is not reachable (see `RequestKeepsConsistent`)
      and is left as it is. */
  function ReadFile(r: Reader, fs: FileSystem): (o: Outcome)
    ensures o.next.state == r.state && o.next.queue == r.queue
    ensures r.xmlReader.Some? || fs.fileLength(r.fileName) == 0 || fs.isDirectory(r.fileName) ==> o.push.Some?
    ensures o.push.Some? ==> o.push.value in {SuccessInput, FailureInput}
    ensures o.push == Some(SuccessInput) <==>
      fs.fileLength(r.fileName) != 0 && !fs.isDirectory(r.fileName) && r.xmlReader.Some? &&
      fs.trackerXml(r.xmlReader.value, r.fileName).Parsed? && fs.oigtLinkXml(r.fileName).Parsed?
    ensures o.push == Some(SuccessInput) ==> o.next.configuration.trackerConfiguration.Some?
  {
    if fs.fileLength(r.fileName) == 0 || fs.isDirectory(r.fileName) then
      Outcome(r.(readFailure := FileMissingOrDirectory(r.fileName)), Some(FailureInput))
    else if r.xmlReader.None? then
      Outcome(r, None)
    else
      match fs.trackerXml(r.xmlReader.value, r.fileName)
      case Thrown(what) => Outcome(r.(readFailure := XmlException(what)), Some(FailureInput))
      case NoData => Outcome(r.(readFailure := NoTrackerData), Some(FailureInput))
      case Parsed(tracker) =>
        var r1 := r.(configuration := r.configuration.(trackerConfiguration := Some(tracker)));
        match fs.oigtLinkXml(r.fileName)
        case Thrown(what) => Outcome(r1.(readFailure := XmlException(what)), Some(FailureInput))
        case NoData => Outcome(r1.(readFailure := NoOIGTLinkData), Some(FailureInput))
        case Parsed(link) =>
          Outcome(r1.(configuration := r1.configuration.(toolNamesAndPorts := link.toolNamesAndPorts,
                                                         hostName := link.hostName)),
                  Some(SuccessInput))
  }

  /** The action processing methods of the reader. */
  function Act(r: Reader, a: Action, fs: FileSystem): Outcome
  {
    match a
    case SetReader =>
      if r.tmpReader.None? then Outcome(r, Some(FailureInput))
      else Outcome(r.(xmlReader := r.tmpReader, tmpReader := None), Some(SuccessInput))
    case SetFileName =>
      if r.tmpFileName == "" then Outcome(r, Some(FailureInput))
      else Outcome(r.(fileName := r.tmpFileName, tmpFileName := ""), Some(SuccessInput))
    case Read => ReadFile(r, fs)
    case GetData => Emit(r, ConfigurationDataEvent(r.configuration))
    case ReportInvalidRequest => Emit(r, InvalidRequestErrorEvent)
    case ReportSetReaderSuccess => Emit(r, SetReaderSuccessEvent)
    case ReportSetReaderFailure => Emit(r, SetReaderFailureEvent)
    case ReportSetFileNameSuccess => Emit(r, SetFileNameSuccessEvent)
    case ReportSetFileNameFailure => Emit(r, SetFileNameFailureEvent)
    case ReportReadSuccess => Emit(r, ReadSuccessEvent)
    case ReportReadFailure => Emit(r, ReadFailureEvent(r.readFailure))
  }

  /** No action touches the state or the queue; only the three attempts
      push anything, and what they push is a verdict. */
  lemma ActFrame(r: Reader, a: Action, fs: FileSystem)
    ensures Act(r, a, fs).next.queue == r.queue && Act(r, a, fs).next.state == r.state
    ensures Act(r, a, fs).push.Some? ==> Attempts(a) && Act(r, a, fs).push.value in {SuccessInput, FailureInput}
    ensures Attempts(a) && (a == Read ==> r.xmlReader.Some?) ==> Act(r, a, fs).push.Some?
  {
  }

  function Apply(r: Reader, o: Outcome): Reader
  {
    o.next.(queue := r.queue + if o.push.Some? then [o.push.value] else [])
  }

  function Perform(r: Reader, a: Action, fs: FileSystem): Reader
  {
    Apply(r, Act(r, a, fs))
  }

  /** One turn of the drain loop. */
  function Step(r: Reader, fs: FileSystem, t: Table): Reader
    requires r.queue != []
  {
    var (next, action) := Transition(t, r.state, r.queue[0]);
    Perform(r.(state := next, queue := r.queue[1..]), action, fs)
  }

  /** Requests weigh 2, verdicts 1. */
  function Weight(i: Input): nat
  {
    if IsRequest(i) then 2 else 1
  }

  function QueueWeight(q: seq<Input>): nat
  {
    if q == [] then 0 else Weight(q[0]) + QueueWeight(q[1..])
  }

  lemma {:induction false} QueueWeightAppend(a: seq<Input>, b: seq<Input>)
    ensures QueueWeight(a + b) == QueueWeight(a) + QueueWeight(b)
    decreases |a|
  {
    if a != [] {
      assert (a + b)[1..] == a[1..] + b;
      QueueWeightAppend(a[1..], b);
    } else {
      assert a + b == b;
    }
  }

  /** Every step lowers the weight of the queue, so draining ends. */
  lemma StepDecreases(r: Reader, fs: FileSystem, t: Table)
    requires r.queue != []
    ensures QueueWeight(Step(r, fs, t).queue) < QueueWeight(r.queue)
  {
    var (next, action) := Transition(t, r.state, r.queue[0]);
    var r1 := r.(state := next, queue := r.queue[1..]);
    var o := Act(r1, action, fs);
    var pushed := if o.push.Some? then [o.push.value] else [];
    ActFrame(r1, action, fs);
    assert Attempts(action) ==> IsRequest(r.queue[0]);
    QueueWeightAppend(r.queue[1..], pushed);
    assert QueueWeight(r.queue) == Weight(r.queue[0]) + QueueWeight(r.queue[1..]);
    if o.push.Some? {
      assert QueueWeight(pushed) == Weight(o.push.value) + QueueWeight([]);
    }
  }

  /** The drain loop: steps until the queue is empty. */
  function Drain(r: Reader, fs: FileSystem, t: Table): Reader
    decreases QueueWeight(r.queue)
  {
    if r.queue == [] then r
    else
      StepDecreases(r, fs, t);
      Drain(Step(r, fs, t), fs, t)
  }

  lemma DrainFirstStep(r: Reader, fs: FileSystem, t: Table)
    requires r.queue != []
    ensures Drain(r, fs, t) == Drain(Step(r, fs, t), fs, t)
  {
  }

  /** A request: its input pushed at the tail, then the queue drained. */
  function Request(r: Reader, i: Input, fs: FileSystem, t: Table): Reader
  {
    Drain(r.(queue := r.queue + [i]), fs, t)
  }

  /** A run of requests, each drained before the next. */
  function Requests(r: Reader, inputs: seq<Input>, fs: FileSystem, t: Table): Reader
    decreases |inputs|
  {
    if inputs == [] then r else Requests(Request(r, inputs[0], fs, t), inputs[1..], fs, t)
  }

  // ------------------------------------------------------- request by request

  /** A request the state rejects: one event, nothing else changes. */
  lemma RejectedRequest(r: Reader, i: Input, fs: FileSystem, t: Table)
    requires r.queue == [] && Transition(t, r.state, i) == (r.state, ReportInvalidRequest)
    ensures Request(r, i, fs, t) == r.(events := r.events + [InvalidRequestErrorEvent])
  {
    var r0 := r.(queue := [i]);
    assert r.(queue := r.queue + [i]) == r0;
    DrainFirstStep(r0, fs, t);
  }

  /** An attempt in a consistent state: the action runs, then its verdict
      is taken from the attempt state. */
  lemma AttemptRequest(r: Reader, i: Input, fs: FileSystem, t: Table)
    requires r.queue == [] && Attempts(Transition(t, r.state, i).1)
    requires Transition(t, r.state, i).1 == Read ==> r.xmlReader.Some?
    ensures var r1 := Step(r.(queue := [i]), fs, t);
      r1.queue != [] && r1.queue[1..] == [] && Request(r, i, fs, t) == Step(r1, fs, t)
  {
    var r0 := r.(queue := [i]);
    assert r.(queue := r.queue + [i]) == r0;
    var (next, action) := Transition(t, r.state, i);
    ActFrame(r0.(state := next, queue := []), action, fs);
    DrainFirstStep(r0, fs, t);
    var r1 := Step(r0, fs, t);
    DrainFirstStep(r1, fs, t);
    AttemptsAwaitVerdict(t, next, r1.queue[0]);
    ActFrame(r1.(state := Transition(t, next, r1.queue[0]).0, queue := []), Transition(t, next, r1.queue[0]).1, fs);
  }

  /** Setting the XML reader: a missing reader is refused and the state
      falls back; otherwise the reader is committed and the temporary
      cleared.  Nothing but the reader, the state and the events change. */
  lemma SetReaderOutcome(r: Reader, reader: Option<XmlReader>, fs: FileSystem, t: Table)
    requires Consistent(r)
    ensures var r' := Request(r.(tmpReader := reader), SetReaderInput, fs, t);
      var haveName := HasFileName(r.state);
      if reader.None? then
        r' == r.(state := if haveName then FileNameSetState else IdleState, tmpReader := None,
                 events := r.events + [SetReaderFailureEvent])
      else
        r' == r.(state := if haveName then InitializedState else ReaderSetState, xmlReader := reader,
                 tmpReader := None, events := r.events + [SetReaderSuccessEvent])
  {
    AttemptRequest(r.(tmpReader := reader), SetReaderInput, fs, t);
  }

  /** Setting the file name: an empty name is refused and the state falls
      back; otherwise the name is committed and the temporary cleared. */
  lemma SetFileNameOutcome(r: Reader, name: string, fs: FileSystem, t: Table)
    requires Consistent(r)
    ensures var r' := Request(r.(tmpFileName := name), SetFileNameInput, fs, t);
      var haveReader := HasReader(r.state);
      if name == "" then
        r' == r.(state := if haveReader then ReaderSetState else IdleState, tmpFileName := "",
                 events := r.events + [SetFileNameFailureEvent])
      else
        r' == r.(state := if haveReader then InitializedState else FileNameSetState, fileName := name,
                 tmpFileName := "", events := r.events + [SetFileNameSuccessEvent])
  {
    AttemptRequest(r.(tmpFileName := name), SetFileNameInput, fs, t);
  }

  /** Whether the file exists, is no directory, and both parsers find
      their data in it. */
  predicate Readable(r: Reader, fs: FileSystem)
    requires r.xmlReader.Some?
  {
    fs.fileLength(r.fileName) > 0 && !fs.isDirectory(r.fileName) &&
    fs.trackerXml(r.xmlReader.value, r.fileName).Parsed? && fs.oigtLinkXml(r.fileName).Parsed?
  }

  /** A read, once the reader and file name are set: a readable file
      yields HaveData with both parts of the configuration; anything else
      returns to Initialized and reports why. */
  lemma ReadOutcome(r: Reader, fs: FileSystem)
    requires Consistent(r) && r.state in {InitializedState, HaveDataState}
    ensures var r' := Request(r, ReadInput, fs, Corrected);
      var name := r.fileName;
      r.xmlReader.Some? &&
      if Readable(r, fs) then
        r' == r.(state := HaveDataState, events := r.events + [ReadSuccessEvent],
                 configuration := OIGTLinkTrackerConfiguration(
                   Some(fs.trackerXml(r.xmlReader.value, name).data),
                   fs.oigtLinkXml(name).data.toolNamesAndPorts, fs.oigtLinkXml(name).data.hostName))
      else
        var missing := fs.fileLength(name) == 0 || fs.isDirectory(name);
        var tracker := fs.trackerXml(r.xmlReader.value, name);
        var failure :=
          if missing then FileMissingOrDirectory(name)
          else match tracker
            case Thrown(what) => XmlException(what)
            case NoData => NoTrackerData
            case Parsed(_) =>
              if fs.oigtLinkXml(name).Thrown? then XmlException(fs.oigtLinkXml(name).what) else NoOIGTLinkData;
        r' == r.(state := InitializedState, readFailure := failure,
                 events := r.events + [ReadFailureEvent(failure)],
                 configuration :=
                   if !missing && tracker.Parsed? then r.configuration.(trackerConfiguration := Some(tracker.data))
                   else r.configuration)
  {
    AttemptRequest(r, ReadInput, fs, Corrected);
  }

  /** Data is handed out, complete, only in HaveData; anywhere else the
      request is rejected and nothing changes. */
  lemma GetDataOutcome(r: Reader, fs: FileSystem, t: Table)
    requires Consistent(r)
    ensures var r' := Request(r, GetDataInput, fs, t);
      if r.state == HaveDataState then
        r' == r.(events := r.events + [ConfigurationDataEvent(r.configuration)]) &&
        r.configuration.trackerConfiguration.Some?
      else
        r' == r.(events := r.events + [InvalidRequestErrorEvent])
  {
    var r0 := r.(queue := [GetDataInput]);
    assert r.(queue := r.queue + [GetDataInput]) == r0;
    DrainFirstStep(r0, fs, t);
  }

  /** Every request, taken in a consistent state with the corrected table,
      leaves the reader consistent: it never waits for a verdict that no
      action will push, and what its state promises is there. */
  lemma RequestKeepsConsistent(r: Reader, i: Input, fs: FileSystem)
    requires Consistent(r) && IsRequest(i)
    ensures Consistent(Request(r, i, fs, Corrected))
  {
    match i
    case SetReaderInput => SetReaderOutcome(r, r.tmpReader, fs, Corrected);
    case SetFileNameInput => SetFileNameOutcome(r, r.tmpFileName, fs, Corrected);
    case GetDataInput => GetDataOutcome(r, fs, Corrected);
    case ReadInput =>
      if r.state in {InitializedState, HaveDataState} {
        ReadOutcome(r, fs);
      } else {
        RejectedRequest(r, i, fs, Corrected);
      }
  }

  /** With the table as written, a Read after data was read leaves the
      reader in AttemptingRead with nothing queued. */
  lemma ReadAfterDataStuckAsWritten(r: Reader, fs: FileSystem)
    requires Consistent(r) && r.state == HaveDataState
    ensures Request(r, ReadInput, fs, AsWritten) == r.(state := AttemptingReadState, events := r.events + [InvalidRequestErrorEvent])
    ensures !Consistent(Request(r, ReadInput, fs, AsWritten))
  {
    var r0 := r.(queue := [ReadInput]);
    assert r.(queue := r.queue + [ReadInput]) == r0;
    DrainFirstStep(r0, fs, AsWritten);
  }

  /** ... and from there every request is rejected, forever. */
  lemma {:induction false} StuckForeverAsWritten(r: Reader, inputs: seq<Input>, fs: FileSystem)
    requires r.state == AttemptingReadState && r.queue == []
    requires forall k :: 0 <= k < |inputs| ==> IsRequest(inputs[k])
    ensures Requests(r, inputs, fs, AsWritten).state == AttemptingReadState
    ensures Requests(r, inputs, fs, AsWritten).events == r.events + seq(|inputs|, _ => InvalidRequestErrorEvent)
    decreases |inputs|
  {
    if inputs != [] {
      AttemptsAwaitVerdict(AsWritten, r.state, inputs[0]);
      RejectedRequest(r, inputs[0], fs, AsWritten);
      var r1 := Request(r, inputs[0], fs, AsWritten);
      StuckForeverAsWritten(r1, inputs[1..], fs);
      assert r1.events + seq(|inputs[1..]|, _ => InvalidRequestErrorEvent)
          == r.events + seq(|inputs|, _ => InvalidRequestErrorEvent);
    }
  }

  // ------------------------------------------------------------ the reader

  class ConfigurationFileReader {
    const fileSystem: FileSystem
    var state: State
    var queue: seq<Input>
    var tmpReader: Option<XmlReader>
    var xmlReader: Option<XmlReader>
    var tmpFileName: string
    var fileName: string
    var configuration: OIGTLinkTrackerConfiguration
    var readFailure: ReadFailure
    var events: seq<Event>

    /** The reader's fields as a value. */
    function Snapshot(): Reader
      reads this
    {
      Reader(state, queue, tmpReader, xmlReader, tmpFileName, fileName, configuration, readFailure, events)
    }

    constructor (fs: FileSystem)
      ensures fileSystem == fs && Snapshot() == Initial && Consistent(Snapshot())
    {
      fileSystem := fs;
      state := IdleState;
      queue := [];
      tmpReader := None;
      xmlReader := None;
      tmpFileName := "";
      fileName := "";
      configuration := OIGTLinkTrackerConfiguration(None, map[], "");
      readFailure := NoReadFailure;
      events := [];
    }

    method Push(i: Input)
      modifies this
      ensures Snapshot() == old(Snapshot()).(queue := old(queue) + [i])
    {
      queue := queue + [i];
    }

    method SetReaderProcessing()
      modifies this
      ensures Snapshot() == Perform(old(Snapshot()), SetReader, fileSystem)
    {
      if tmpReader.None? {
        Push(FailureInput);
      } else {
        xmlReader := tmpReader;
        tmpReader := None;
        Push(SuccessInput);
      }
    }

    method SetFileNameProcessing()
      modifies this
      ensures Snapshot() == Perform(old(Snapshot()), SetFileName, fileSystem)
    {
      if tmpFileName == "" {
        Push(FailureInput);
      } else {
        fileName := tmpFileName;
        tmpFileName := "";
        Push(SuccessInput);
      }
    }

    method ReadProcessing()
      modifies this
      ensures Snapshot() == Perform(old(Snapshot()), Read, fileSystem)
    {
      if fileSystem.fileLength(fileName) == 0 || fileSystem.isDirectory(fileName) {
        readFailure := FileMissingOrDirectory(fileName);
        Push(FailureInput);
        return;
      }
      if xmlReader.None? {
        return;
      }
      match fileSystem.trackerXml(xmlReader.value, fileName)
      case Thrown(what) =>
        readFailure := XmlException(what);
        Push(FailureInput);
      case NoData =>
        readFailure := NoTrackerData;
        Push(FailureInput);
      case Parsed(tracker) =>
        configuration := configuration.(trackerConfiguration := Some(tracker));
        match fileSystem.oigtLinkXml(fileName)
        case Thrown(what) =>
          readFailure := XmlException(what);
          Push(FailureInput);
        case NoData =>
          readFailure := NoOIGTLinkData;
          Push(FailureInput);
        case Parsed(link) =>
          configuration := configuration.(toolNamesAndPorts := link.toolNamesAndPorts, hostName := link.hostName);
          Push(SuccessInput);
    }

    /** Runs the action the table chose. */
    method PerformAction(a: Action)
      modifies this
      ensures Snapshot() == Perform(old(Snapshot()), a, fileSystem)
    {
      match a
      case SetReader => SetReaderProcessing();
      case SetFileName => SetFileNameProcessing();
      case Read => ReadProcessing();
      case GetData => events := events + [ConfigurationDataEvent(configuration)];
      case ReportInvalidRequest => events := events + [InvalidRequestErrorEvent];
      case ReportSetReaderSuccess => events := events + [SetReaderSuccessEvent];
      case ReportSetReaderFailure => events := events + [SetReaderFailureEvent];
      case ReportSetFileNameSuccess => events := events + [SetFileNameSuccessEvent];
      case ReportSetFileNameFailure => events := events + [SetFileNameFailureEvent];
      case ReportReadSuccess => events := events + [ReadSuccessEvent];
      case ReportReadFailure => events := events + [ReadFailureEvent(readFailure)];
    }

    /** Takes inputs from the head of the queue until it is empty. */
    method ProcessInputs()
      modifies this
      ensures Snapshot() == Drain(old(Snapshot()), fileSystem, Corrected)
    {
      while queue != []
        invariant Drain(Snapshot(), fileSystem, Corrected) == Drain(old(Snapshot()), fileSystem, Corrected)
        decreases QueueWeight(queue)
      {
        ghost var before := Snapshot();
        var (next, action) := Transition(Corrected, state, queue[0]);
        state := next;
        queue := queue[1..];
        PerformAction(action);
        assert Snapshot() == Step(before, fileSystem, Corrected);
        StepDecreases(before, fileSystem, Corrected);
        DrainFirstStep(before, fileSystem, Corrected);
      }
    }

    /** The request methods: each stores its argument, pushes its input and
        drains; each keeps the reader consistent. */
    method RequestSetReader(reader: Option<XmlReader>)
      requires Consistent(Snapshot())
      modifies this
      ensures Snapshot() == Request(old(Snapshot()).(tmpReader := reader), SetReaderInput, fileSystem, Corrected)
      ensures Consistent(Snapshot())
    {
      tmpReader := reader;
      RequestKeepsConsistent(Snapshot(), SetReaderInput, fileSystem);
      Push(SetReaderInput);
      ProcessInputs();
    }

    method RequestSetFileName(name: string)
      requires Consistent(Snapshot())
      modifies this
      ensures Snapshot() == Request(old(Snapshot()).(tmpFileName := name), SetFileNameInput, fileSystem, Corrected)
      ensures Consistent(Snapshot())
    {
      tmpFileName := name;
      RequestKeepsConsistent(Snapshot(), SetFileNameInput, fileSystem);
      Push(SetFileNameInput);
      ProcessInputs();
    }

    method RequestRead()
      requires Consistent(Snapshot())
      modifies this
      ensures Snapshot() == Request(old(Snapshot()), ReadInput, fileSystem, Corrected)
      ensures Consistent(Snapshot())
    {
      RequestKeepsConsistent(Snapshot(), ReadInput, fileSystem);
      Push(ReadInput);
      ProcessInputs();
    }

    method RequestGetData()
      requires Consistent(Snapshot())
      modifies this
      ensures Snapshot() == Request(old(Snapshot()), GetDataInput, fileSystem, Corrected)
      ensures Consistent(Snapshot())
    {
      RequestKeepsConsistent(Snapshot(), GetDataInput, fileSystem);
      Push(GetDataInput);
      ProcessInputs();
    }
  }
}
