/**
 * The webcam imager: the camera's error-code descriptions, the frequency
 * check, the per-tool frame buffer and status containers kept under each
 * imager tool's identifier, the two status updates (the capture thread's
 * and the main thread's) and the result of opening the camera.
 *
 * The camera is outside the model: whether it opens and what a grab
 * delivers are parameters.  The two buffer locks are not modelled; the
 * updates are sequential calls.
 */
module WebcamImaging {
  import opened Wrappers

  datatype ResultType = Failure | Success

  // ------------------------------------------------------------ error codes

  const UnknownErrorCode: string := "Unknown error code"

  /** The description of each camera error code from 0 to 55, none of
      them empty, and none as long as the text shown for an unknown code
      (so none equal to it).  The table is split in groups of seven codes
      to keep each proof small. */
  function ErrorCodeText(code: nat): (d: string)
    requires code <= 55
    ensures 0 < |d| != |UnknownErrorCode|
  {
    if code < 7 then ErrorCodeText0(code)
    else if code < 14 then ErrorCodeText7(code)
    else if code < 21 then ErrorCodeText14(code)
    else if code < 28 then ErrorCodeText21(code)
    else if code < 35 then ErrorCodeText28(code)
    else if code < 42 then ErrorCodeText35(code)
    else if code < 49 then ErrorCodeText42(code)
    else ErrorCodeText49(code)
  }

  function ErrorCodeText0(code: nat): (d: string)
    requires 0 <= code < 7
    ensures 0 < |d| != |UnknownErrorCode|
  {
    match code
    case 0 => "OK"
    case 1 => "Invalid object handle"
    case 2 => "Reentrant access - library is not thread-safe"
    case 3 => "Internal WebcamWinImager software error"
    case 4 => "Null pointer parameter"
    case 5 => "Out of memory"
    case 6 => "Parameter out of range"
    case _ => assert false; ""
  }

  function ErrorCodeText7(code: nat): (d: string)
    requires 7 <= code < 14
    ensures 0 < |d| != |UnknownErrorCode|
  {
    match code
    case 7 => "String parameter too long"
    case 8 => "Insufficient space allocated by the client to the output buffer"
    case 9 => "Camera not initialized"
    case 10 => "Camera already initialized - cannot be initialized twice"
    case 11 => "Camera initialization failed"
    case 12 => "MTC is incompatible with a software module it calls"
    case 13 => "Calibration file error: unrecognized camera model"
    case _ => assert false; ""
  }

  function ErrorCodeText14(code: nat): (d: string)
    requires 14 <= code < 21
    ensures 0 < |d| != |UnknownErrorCode|
  {
    match code
    case 14 => "Path not set"
    case 15 => "Cannot access the directory specified"
    case 16 => "Write to file failed"
    case 17 => "Invalid Index parameter"
    case 18 => "Invalid SideI parameter"
    case 19 => "Invalid Divisor parameter"
    case 20 => "Attempting to access an item of an empty IntCollection"
    case _ => assert false; ""
  }

  function ErrorCodeText21(code: nat): (d: string)
    requires 21 <= code < 28
    ensures 0 < |d| != |UnknownErrorCode|
  {
    match code
    case 21 => "Insufficient samples"
    case 22 => "Insufficient samples that fit within the acceptance tolerance"
    case 23 => "Odd number of vector samples"
    case 24 => "Less than 2 vectors"
    case 25 => "More than maximum vectors per facet"
    case 26 => "Error exceeds tolerance"
    case 27 => "Insufficient angle between vectors"
    case _ => assert false; ""
  }

  function ErrorCodeText28(code: nat): (d: string)
    requires 28 <= code < 35
    ensures 0 < |d| != |UnknownErrorCode|
  {
    match code
    case 28 => "First vector is shorter than the second"
    case 29 => "Vector lengths are too similar"
    case 30 => "Template vector has 0 length"
    case 31 => "The template has not been created or loaded"
    case 32 => "Template file is corrupt"
    case 33 => "Maximum number of marker templates allowed exceeded"
    case 34 => "Geometries of different facets are too similar"
    case _ => assert false; ""
  }

  function ErrorCodeText35(code: nat): (d: string)
    requires 35 <= code < 42
    ensures 0 < |d| != |UnknownErrorCode|
  {
    match code
    case 35 => "Noncompliant facet definition"
    case 36 => "The SampledVectorPairsCollection contains non-Vector handles"
    case 37 => "Empty pixels buffer"
    case 38 => "Dimensions do not match"
    case 39 => "File open failed"
    case 40 => "File read failed"
    case 41 => "File write failed"
    case _ => assert false; ""
  }

  function ErrorCodeText42(code: nat): (d: string)
    requires 42 <= code < 49
    ensures 0 < |d| != |UnknownErrorCode|
  {
    match code
    case 42 => "Cannot open calibration file (typically named [driver]_[ser num].calib"
    case 43 => "Not a calibration file"
    case 44 => "Calibration file contents corrupt"
    case 45 => "Calibration file was not generated from this camera"
    case 46 => "Calibration file not loaded"
    case 47 => "Incorrect file version"
    case 48 => "Input image location is out of bounds of the measurement volume"
    case _ => assert false; ""
  }

  function ErrorCodeText49(code: nat): (d: string)
    requires 49 <= code < 56
    ensures 0 < |d| != |UnknownErrorCode|
  {
    match code
    case 49 => "Input image locations do not triangulate to a valid 3-D point"
    case 50 => "Transform between coordinate spaces is unknown"
    case 51 => "The given camera object was not found in the cameras array"
    case 52 => "Feature Data unavailable for the current frame"
    case 53 => "Feature Data is corrupt or incompatible with the current version"
    case 54 => "XYZ position is outside of calibrated field of view"
    case 55 => "Grab frame error"
    case _ => assert false; ""
  }

  /** The description of a code: its table entry for codes 0 to 55, the
      unknown-code text otherwise, so that text marks exactly the codes
      past the table. */
  function GetErrorDescription(code: nat): (d: string)
    ensures code <= 55 ==> d == ErrorCodeText(code)
    ensures d == UnknownErrorCode <==> code > 55
    ensures d != ""
  {
    if code <= 55 then ErrorCodeText(code) else UnknownErrorCode
  }

  // ------------------------------------------------------------ frequency

  const MaximumFrequency: real := 30.0

  /** A frequency is accepted exactly when it lies between 0 and 30 Hz,
      both ends included. */
  function ValidateSpecifiedFrequency(frequencyInHz: real): (r: ResultType)
    ensures r == Success <==> 0.0 <= frequencyInHz <= MaximumFrequency
  {
    if frequencyInHz < 0.0 || frequencyInHz > MaximumFrequency then Failure else Success
  }

  /** Accepting is monotone inside the range: any frequency between two
      accepted ones is accepted too. */
  lemma AcceptedFrequenciesFormAnInterval(low: real, f: real, high: real)
    requires ValidateSpecifiedFrequency(low) == Success && ValidateSpecifiedFrequency(high) == Success
    requires low <= f <= high
    ensures ValidateSpecifiedFrequency(f) == Success
  {
  }

  // ------------------------------------------------------------ opening

  /** The camera initialisation as written: when the camera cannot be
      opened it returns 1, which converts to true, the same truth value
      it returns when the camera opens. */
  function InitializeAsWritten(cameraOpens: bool): (initialized: bool)
    ensures initialized
  {
    if !cameraOpens then 1 != 0 else true
  }

  /** Opening fails only when the initialisation reports false. */
  function OpenResult(initialized: bool): ResultType
  {
    if !initialized then Failure else Success
  }

  /** As written, a camera that cannot be opened is reported as opened. */
  lemma CameraFailureReportedAsSuccessAsWritten()
    ensures OpenResult(InitializeAsWritten(false)) == Success
  {
  }

  // ------------------------------------------------------------ containers

  /** A frame: its pixels and the time until it expires. */
  datatype Frame = Frame(pixels: seq<int>, timeToExpiration: real)

  /** What a newly added tool's frame holds. */
  const EmptyFrame: Frame := Frame([], 0.0)

  /** The identifier of the only tool that receives frames. */
  const Camera: string := "Camera"

  datatype ImagerTool = ImagerTool(identifier: string)

  /** The frame buffer and status container as a value. */
  datatype Containers = Containers(frames: map<string, Frame>, status: map<string, int>)

  predicate Aligned(c: Containers)
  {
    c.frames.Keys == c.status.Keys
  }

  /** Adding a tool: a new empty frame and status 0 under its identifier,
      replacing any it had. */
  function AddTool(c: Containers, id: string): Containers
  {
    Containers(c.frames[id := EmptyFrame], c.status[id := 0])
  }

  /** Removing a tool: its identifier leaves both containers. */
  function RemoveTool(c: Containers, id: string): Containers
  {
    Containers(c.frames - {id}, c.status - {id})
  }

  /** Both keep the containers aligned; adding holds the tool with an
      empty frame and status 0, removing drops it; every other tool keeps
      its frame and status. */
  lemma AddRemoveOutcome(c: Containers, id: string)
    requires Aligned(c)
    ensures Aligned(AddTool(c, id)) && Aligned(RemoveTool(c, id))
    ensures AddTool(c, id).frames[id] == EmptyFrame && AddTool(c, id).status[id] == 0
    ensures id !in RemoveTool(c, id).frames && id !in RemoveTool(c, id).status
    ensures forall other :: other != id && other in c.frames ==>
      other in AddTool(c, id).frames && AddTool(c, id).frames[other] == c.frames[other] &&
      AddTool(c, id).status[other] == c.status[other] &&
      other in RemoveTool(c, id).frames && RemoveTool(c, id).frames[other] == c.frames[other] &&
      RemoveTool(c, id).status[other] == c.status[other]
    ensures RemoveTool(c, id).frames.Keys == c.frames.Keys - {id}
    ensures AddTool(c, id).frames.Keys == c.frames.Keys + {id}
  {
  }

  /** Removing a tool that was just added restores the containers, when
      the tool was not there before. */
  lemma RemoveUndoesAdd(c: Containers, id: string)
    requires id !in c.frames && id !in c.status
    ensures RemoveTool(AddTool(c, id), id) == c
  {
    assert c.frames[id := EmptyFrame] - {id} == c.frames;
    assert c.status[id := 0] - {id} == c.status;
  }

  /** What the main thread tells a tool. */
  datatype ToolReport = NotAvailable | Visible(frame: Frame)

  /** What a grab from the capture thread gives: a frame's pixels, or an
      exception. */
  datatype Grab = Grabbed(pixels: seq<int>) | Threw

  class WebcamWinImager {
    var toolFrameBuffer: map<string, Frame>
    var toolStatusContainer: map<string, int>
    var cameraOpen: bool

    function Snapshot(): Containers
      reads this
    {
      Containers(toolFrameBuffer, toolStatusContainer)
    }

    /** The two containers hold the same tools. */
    ghost predicate Valid()
      reads this
    {
      Aligned(Snapshot())
    }

    constructor ()
      ensures Valid() && Snapshot() == Containers(map[], map[]) && !cameraOpen
    {
      toolFrameBuffer := map[];
      toolStatusContainer := map[];
      cameraOpen := false;
    }

    /** Opens the camera and reports whether it did. */
    method Initialize(cameraOpens: bool) returns (ok: bool)
      modifies this
      ensures ok == cameraOpens && cameraOpen == cameraOpens && Snapshot() == old(Snapshot())
    {
      cameraOpen := cameraOpens;
      if !cameraOpen {
        return false;
      }
      return true;
    }

    /** Opening succeeds exactly when the camera opens. */
    method InternalOpen(cameraOpens: bool) returns (result: ResultType)
      modifies this
      ensures result == OpenResult(cameraOpens) && (result == Success <==> cameraOpens)
      ensures cameraOpen == cameraOpens && Snapshot() == old(Snapshot())
    {
      var ok := Initialize(cameraOpens);
      if !ok {
        return Failure;
      }
      return Success;
    }

    method InternalClose() returns (result: ResultType)
      modifies this
      ensures result == Success && !cameraOpen && Snapshot() == old(Snapshot())
    {
      cameraOpen := false;
      result := Success;
    }

    /** A missing tool is refused and changes nothing. */
    method AddImagerToolToInternalDataContainers(tool: Option<ImagerTool>) returns (result: ResultType)
      requires Valid()
      modifies this
      ensures Valid() && (result == Failure <==> tool.None?)
      ensures Snapshot() == if tool.None? then old(Snapshot()) else AddTool(old(Snapshot()), tool.value.identifier)
    {
      if tool.None? {
        return Failure;
      }
      var id := tool.value.identifier;
      AddRemoveOutcome(Snapshot(), id);
      toolFrameBuffer := toolFrameBuffer[id := EmptyFrame];
      toolStatusContainer := toolStatusContainer[id := 0];
      return Success;
    }

    method RemoveImagerToolFromInternalDataContainers(tool: ImagerTool) returns (result: ResultType)
      requires Valid()
      modifies this
      ensures Valid() && result == Success
      ensures Snapshot() == RemoveTool(old(Snapshot()), tool.identifier)
    {
      AddRemoveOutcome(Snapshot(), tool.identifier);
      toolStatusContainer := toolStatusContainer - {tool.identifier};
      toolFrameBuffer := toolFrameBuffer - {tool.identifier};
      return Success;
    }

    /** The main thread's update: every tool with status 0 is told it is
        not available; every other tool receives its buffered frame. */
    method InternalUpdateStatus() returns (result: ResultType, reports: map<string, ToolReport>)
      requires Valid()
      ensures result == Success
      ensures reports.Keys == toolFrameBuffer.Keys
      ensures forall id :: id in reports ==>
        reports[id] == if toolStatusContainer[id] == 0 then NotAvailable else Visible(toolFrameBuffer[id])
    {
      reports := map[];
      var remaining := toolFrameBuffer.Keys;
      while remaining != {}
        invariant remaining <= toolFrameBuffer.Keys
        invariant reports.Keys == toolFrameBuffer.Keys - remaining
        invariant forall id :: id in reports ==>
          reports[id] == if toolStatusContainer[id] == 0 then NotAvailable else Visible(toolFrameBuffer[id])
        decreases remaining
      {
        var id :| id in remaining;
        if toolStatusContainer[id] == 0 {
          reports := reports[id := NotAvailable];
        } else {
          reports := reports[id := Visible(toolFrameBuffer[id])];
        }
        remaining := remaining - {id};
      }
      result := Success;
    }

    /** The capture thread's update: every tool's status drops to 0; then,
        if a "Camera" tool is present, the grabbed frame, valid for
        `validityTime`, becomes its frame and its status 1.  An exception
        during the grab leaves every status at 0 and fails. */
    method InternalThreadedUpdateStatus(grab: Grab, validityTime: real) returns (result: ResultType)
      requires Valid()
      modifies this
      ensures Valid() && toolStatusContainer.Keys == old(toolStatusContainer.Keys)
      ensures result == Failure <==> Camera in old(toolFrameBuffer) && grab.Threw?
      ensures forall id :: id in toolStatusContainer ==>
        toolStatusContainer[id] == if id == Camera && grab.Grabbed? then 1 else 0
      ensures toolFrameBuffer ==
        if Camera in old(toolFrameBuffer) && grab.Grabbed? then old(toolFrameBuffer)[Camera := Frame(grab.pixels, validityTime)]
        else old(toolFrameBuffer)
      ensures cameraOpen == old(cameraOpen)
    {
      var remaining := toolFrameBuffer.Keys;
      while remaining != {}
        invariant remaining <= toolFrameBuffer.Keys
        invariant toolFrameBuffer == old(toolFrameBuffer) && cameraOpen == old(cameraOpen)
        invariant toolStatusContainer.Keys == old(toolStatusContainer.Keys)
        invariant forall id :: id in toolStatusContainer ==>
          toolStatusContainer[id] == if id in remaining then old(toolStatusContainer)[id] else 0
        decreases remaining
      {
        var id :| id in remaining;
        toolStatusContainer := toolStatusContainer[id := 0];
        remaining := remaining - {id};
      }
      if Camera in toolFrameBuffer {
        match grab
        case Threw =>
          return Failure;
        case Grabbed(pixels) =>
          toolFrameBuffer := toolFrameBuffer[Camera := Frame(pixels, validityTime)];
          toolStatusContainer := toolStatusContainer[Camera := 1];
      }
      return Success;
    }
  }
}
