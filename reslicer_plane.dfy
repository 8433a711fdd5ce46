/**
 * The reslicer plane spatial object: a state machine that takes a
 * reslicing mode, an orientation, a bounding-box provider (an image), an
 * optional tool and a cursor, and computes the plane through which an
 * image is resliced.
 *
 * The machine is modelled like the tracker controller: one FIFO queue,
 * the state committed before the action runs, pushed inputs appended at
 * the tail and drained by the same loop (`Drain`).  Unlike the
 * controller's, this table is partial: an input with no row in the
 * current state is dropped, with no action and no change of state.
 *
 * The tool is outside the model: what it reports when asked for its
 * transform is a parameter (`answer`), and only the translation of that
 * transform is kept.  Oblique and off-orthogonal planes are modelled for
 * their centre and tool position only; their normals are left as they
 * were.
 */
module ReslicerPlane {
  import opened Wrappers

  datatype ReslicingMode = Orthogonal | Oblique | OffOrthogonal

  datatype OrientationType =
    | Axial
    | Sagittal
    | Coronal
    | OffAxial
    | OffSagittal
    | OffCoronal
    | PlaneOrientationWithXAxesNormal
    | PlaneOrientationWithYAxesNormal
    | PlaneOrientationWithZAxesNormal

  datatype State =
    | InitialState
    | ReslicingModeSetState
    | OrientationTypeSetState
    | BoundingBoxProviderSpatialObjectSetState
    | AttemptingToGetToolTransformState
    | AttemptingToSetCursorPositionState
    | AttemptingToSetBoundingBoxProviderSpatialObjectState

  datatype Input =
    | SetBoundingBoxProviderSpatialObjectInput
    | ValidReslicingModeInput
    | InValidReslicingModeInput
    | ValidOrientationTypeInput
    | InValidOrientationTypeInput
    | ValidBoundingBoxProviderSpatialObjectInput
    | InValidBoundingBoxProviderSpatialObjectInput
    | ValidToolSpatialObjectInput
    | InValidToolSpatialObjectInput
    | SetCursorPositionInput
    | ValidCursorPositionInput
    | InValidCursorPositionInput
    | GetToolPositionInput
    | GetReslicingPlaneParametersInput
    | GetToolTransformInput
    | ToolTransformInput
    | ComputeReslicePlaneInput

  datatype Action =
    | SetReslicingMode
    | ReportInvalidReslicingMode
    | ReportInvalidRequest
    | SetOrientationType
    | ReportInvalidOrientationType
    | AttemptSetBoundingBoxProviderSpatialObject
    | SetBoundingBoxProviderSpatialObject
    | ReportInvalidBoundingBoxProviderSpatialObject
    | SetToolSpatialObject
    | ReportInvalidToolSpatialObject
    | AttemptSetCursorPosition
    | SetCursorPosition
    | ReportInvalidCursorPosition
    | ComputeReslicePlane
    | ReportToolPosition
    | ReportReslicingPlaneParameters
    | RequestGetToolTransform
    | ReceiveToolTransform

  /** The transition table; None where it has no row. */
  function Transition(s: State, i: Input): (r: Option<(State, Action)>)
    ensures r.Some? && r.value.1 == ReportInvalidRequest ==> r.value.0 == s
    ensures r.Some? ==> (r.value.0 == AttemptingToGetToolTransformState <==> i == GetToolTransformInput)
    ensures s == AttemptingToGetToolTransformState ==> (r.Some? <==> i == ToolTransformInput)
  {
    match s
    case InitialState =>
      (match i
       case ValidReslicingModeInput => Some((ReslicingModeSetState, SetReslicingMode))
       case InValidReslicingModeInput => Some((s, ReportInvalidReslicingMode))
       case ValidOrientationTypeInput => Some((s, ReportInvalidRequest))
       case InValidOrientationTypeInput => Some((s, ReportInvalidRequest))
       case SetCursorPositionInput => Some((s, ReportInvalidRequest))
       case SetBoundingBoxProviderSpatialObjectInput => Some((s, ReportInvalidRequest))
       case _ => None)
    case ReslicingModeSetState =>
      (match i
       case ValidOrientationTypeInput => Some((OrientationTypeSetState, SetOrientationType))
       case InValidOrientationTypeInput => Some((s, ReportInvalidOrientationType))
       case SetCursorPositionInput => Some((s, ReportInvalidRequest))
       case _ => None)
    case OrientationTypeSetState =>
      (match i
       case SetBoundingBoxProviderSpatialObjectInput =>
         Some((AttemptingToSetBoundingBoxProviderSpatialObjectState, AttemptSetBoundingBoxProviderSpatialObject))
       case SetCursorPositionInput => Some((s, ReportInvalidRequest))
       case _ => None)
    case AttemptingToSetBoundingBoxProviderSpatialObjectState =>
      (match i
       case ValidBoundingBoxProviderSpatialObjectInput =>
         Some((BoundingBoxProviderSpatialObjectSetState, SetBoundingBoxProviderSpatialObject))
       case InValidBoundingBoxProviderSpatialObjectInput =>
         Some((OrientationTypeSetState, ReportInvalidBoundingBoxProviderSpatialObject))
       case _ => None)
    case BoundingBoxProviderSpatialObjectSetState =>
      (match i
       case ValidOrientationTypeInput => Some((s, SetOrientationType))
       case InValidOrientationTypeInput => Some((s, ReportInvalidOrientationType))
       case ValidReslicingModeInput => Some((s, SetReslicingMode))
       case InValidReslicingModeInput => Some((s, ReportInvalidReslicingMode))
       case ValidToolSpatialObjectInput => Some((s, SetToolSpatialObject))
       case InValidToolSpatialObjectInput => Some((s, ReportInvalidToolSpatialObject))
       case SetCursorPositionInput => Some((AttemptingToSetCursorPositionState, AttemptSetCursorPosition))
       case ComputeReslicePlaneInput => Some((s, ComputeReslicePlane))
       case GetToolPositionInput => Some((s, ReportToolPosition))
       case GetReslicingPlaneParametersInput => Some((s, ReportReslicingPlaneParameters))
       case GetToolTransformInput => Some((AttemptingToGetToolTransformState, RequestGetToolTransform))
       case _ => None)
    case AttemptingToSetCursorPositionState =>
      (match i
       case ValidCursorPositionInput => Some((BoundingBoxProviderSpatialObjectSetState, SetCursorPosition))
       case InValidCursorPositionInput => Some((BoundingBoxProviderSpatialObjectSetState, ReportInvalidCursorPosition))
       case _ => None)
    case AttemptingToGetToolTransformState =>
      (match i
       case ToolTransformInput => Some((BoundingBoxProviderSpatialObjectSetState, ReceiveToolTransform))
       case _ => None)
  }

  /** The plane computation and the two reports have rows only once the
      bounding box is set. */
  lemma PlaneRequestsNeedBoundingBox(s: State, i: Input)
    requires i in {ComputeReslicePlaneInput, GetToolPositionInput, GetReslicingPlaneParametersInput}
    ensures Transition(s, i).Some? <==> s == BoundingBoxProviderSpatialObjectSetState
  {
  }

  /** The orientations that are neither tilted nor off-axis are the three
      orthogonal ones. */
  lemma OrthogonalOrientations(o: OrientationType)
    ensures o !in {OffAxial, OffCoronal, OffSagittal, PlaneOrientationWithZAxesNormal,
                   PlaneOrientationWithXAxesNormal, PlaneOrientationWithYAxesNormal}
        <==> o in {Axial, Sagittal, Coronal}
  {
    match o
    case _ =>
  }

  /** Whether an orientation suits a reslicing mode. */
  predicate OrientationAccepted(mode: ReslicingMode, o: OrientationType)
    ensures mode == Orthogonal ==> (OrientationAccepted(mode, o) <==> o in {Axial, Sagittal, Coronal})
  {
    OrthogonalOrientations(o);
    match mode
    case Orthogonal =>
      o !in {OffAxial, OffCoronal, OffSagittal, PlaneOrientationWithZAxesNormal,
             PlaneOrientationWithXAxesNormal, PlaneOrientationWithYAxesNormal}
    case Oblique =>
      o !in {OffAxial, OffCoronal, OffSagittal, Axial, Sagittal, Coronal}
    case OffOrthogonal =>
      o !in {PlaneOrientationWithZAxesNormal, PlaneOrientationWithXAxesNormal,
             PlaneOrientationWithYAxesNormal, Axial, Sagittal, Coronal}
  }

  /** Each mode accepts exactly its own three orientations, so every
      orientation suits exactly one mode. */
  lemma OrientationAcceptance(mode: ReslicingMode, o: OrientationType)
    ensures mode == Orthogonal ==> (OrientationAccepted(mode, o) <==> o in {Axial, Sagittal, Coronal})
    ensures mode == Oblique ==> (OrientationAccepted(mode, o) <==>
      o in {PlaneOrientationWithXAxesNormal, PlaneOrientationWithYAxesNormal, PlaneOrientationWithZAxesNormal})
    ensures mode == OffOrthogonal ==> (OrientationAccepted(mode, o) <==> o in {OffAxial, OffSagittal, OffCoronal})
    ensures exists m :: OrientationAccepted(m, o)
    ensures forall m :: OrientationAccepted(m, o) && OrientationAccepted(mode, o) ==> m == mode
  {
    match o
    case Axial => assert OrientationAccepted(Orthogonal, o);
    case Sagittal => assert OrientationAccepted(Orthogonal, o);
    case Coronal => assert OrientationAccepted(Orthogonal, o);
    case OffAxial => assert OrientationAccepted(OffOrthogonal, o);
    case OffSagittal => assert OrientationAccepted(OffOrthogonal, o);
    case OffCoronal => assert OrientationAccepted(OffOrthogonal, o);
    case PlaneOrientationWithXAxesNormal => assert OrientationAccepted(Oblique, o);
    case PlaneOrientationWithYAxesNormal => assert OrientationAccepted(Oblique, o);
    case PlaneOrientationWithZAxesNormal => assert OrientationAccepted(Oblique, o);
  }

  // ------------------------------------------------------------ geometry

  datatype Point3 = Point3(x: real, y: real, z: real)

  /** Image bounds: xmin, xmax, ymin, ymax, zmin, zmax. */
  type Bounds = b: seq<real> | |b| == 6 witness [0.0, 0.0, 0.0, 0.0, 0.0, 0.0]

  function Min(a: real, b: real): real
  {
    if a > b then b else a
  }

  function Max(a: real, b: real): real
  {
    if a > b then a else b
  }

  /** Each pair of bounds put in order. */
  function Normalised(b: Bounds): Bounds
  {
    [Min(b[0], b[1]), Max(b[0], b[1]), Min(b[2], b[3]), Max(b[2], b[3]), Min(b[4], b[5]), Max(b[4], b[5])]
  }

  lemma MinMax(a: real, b: real)
    ensures Min(a, b) <= Max(a, b) && multiset{Min(a, b), Max(a, b)} == multiset{a, b}
    ensures Min(Min(a, b), Max(a, b)) == Min(a, b) && Max(Min(a, b), Max(a, b)) == Max(a, b)
  {
    if a > b {
      assert multiset{Min(a, b), Max(a, b)} == multiset{b, a};
    }
  }

  /** Normalised bounds are ordered, each pair holds the same two values
      as before, and normalising again changes nothing. */
  lemma NormalisedBounds(b: Bounds)
    ensures var n := Normalised(b);
      n[0] <= n[1] && n[2] <= n[3] && n[4] <= n[5] &&
      multiset{n[0], n[1]} == multiset{b[0], b[1]} &&
      multiset{n[2], n[3]} == multiset{b[2], b[3]} &&
      multiset{n[4], n[5]} == multiset{b[4], b[5]} &&
      Normalised(n) == n
  {
    MinMax(b[0], b[1]);
    MinMax(b[2], b[3]);
    MinMax(b[4], b[5]);
  }

  /** The middle of the box. */
  function Centre(b: Bounds): Point3
  {
    Point3((b[0] + b[1]) / 2.0, (b[2] + b[3]) / 2.0, (b[4] + b[5]) / 2.0)
  }

  /** Putting the bounds in order does not move the centre, and the
      centre lies between each ordered pair. */
  lemma CentreOfNormalised(b: Bounds)
    ensures Centre(Normalised(b)) == Centre(b)
    ensures var n := Normalised(b); var c := Centre(n);
      n[0] <= c.x <= n[1] && n[2] <= c.y <= n[3] && n[4] <= c.z <= n[5]
  {
  }

  /** Whether a cursor lies in the image along the axis the orientation
      cuts; only the three orthogonal orientations accept a cursor. */
  predicate CursorInBounds(o: OrientationType, b: Bounds, p: Point3)
    ensures CursorInBounds(o, b, p) ==> o in {Axial, Sagittal, Coronal}
  {
    match o
    case Axial => b[4] <= p.z <= b[5]
    case Sagittal => b[0] <= p.x <= b[1]
    case Coronal => b[2] <= p.y <= b[3]
    case _ => false
  }

  /** Once the bounds are in order, the centre of the image is a valid
      cursor for each orthogonal orientation, and for no other. */
  lemma CentreIsValidCursor(o: OrientationType, b: Bounds)
    ensures CursorInBounds(o, Normalised(b), Centre(Normalised(b))) <==> o in {Axial, Sagittal, Coronal}
  {
    CentreOfNormalised(b);
  }

  // ------------------------------------------------------------ the object

  /** The bounding-box provider (the image) by identity, with the box it
      reports, if any. */
  datatype BoundingBoxProvider = BoundingBoxProvider(handle: nat, bounds: Option<Bounds>)

  /** The tool spatial object, by identity. */
  datatype ToolSpatialObject = ToolSpatialObject(handle: nat)

  datatype Event =
    | InvalidRequestErrorEvent
    | ToolTipPositionEvent(position: Point3)
    | ReslicerPlaneCenterEvent(center: Point3)
    | ReslicerPlaneNormalEvent(normal: Point3)

  /** The object's fields as a value. */
  datatype Reslicer = Reslicer(
    state: State,
    queue: seq<Input>,
    reslicingMode: ReslicingMode,
    reslicingModeToBeSet: ReslicingMode,
    orientationType: OrientationType,
    orientationTypeToBeSet: OrientationType,
    boundingBoxProvider: Option<BoundingBoxProvider>,
    boundingBoxProviderToBeSet: Option<BoundingBoxProvider>,
    tool: Option<ToolSpatialObject>,
    toolToBeSet: Option<ToolSpatialObject>,
    toolSpatialObjectSet: bool,
    toolTranslation: Point3,
    toolTranslationToBeSet: Point3,
    cursorPosition: Point3,
    cursorPositionToBeSet: Point3,
    cursorPositionSetFlag: bool,
    toolPosition: Point3,
    planeCenter: Point3,
    planeNormal: Point3,
    imageBounds: Bounds,
    events: seq<Event>)

  datatype Outcome = Outcome(next: Reslicer, push: Option<Input>)

  function Change(r: Reslicer): Outcome
  {
    Outcome(r, None)
  }

  /** The part of the object a plane computation may change: the plane's
      centre and normal, the tool position and whether a cursor is waiting
      to be used. */
  datatype Plane = Plane(center: Point3, normal: Point3, toolPosition: Point3, cursorPending: bool)

  /** The orthogonal plane: its normal is the axis the orientation cuts,
      and its centre lies at the middle of the image along the two other
      axes.  With a tool the plane passes through the tool at `t`; without
      one it passes through the cursor `c` when one is pending, and that
      cursor is then consumed. */
  function OrthogonalPlane(o: OrientationType, b: Bounds, hasTool: bool, t: Point3, c: Point3, p: Plane): (r: Plane)
    ensures o == Axial ==> r.normal == Point3(0.0, 0.0, 1.0) && r.center.x == Centre(b).x && r.center.y == Centre(b).y
    ensures o == Sagittal ==> r.normal == Point3(1.0, 0.0, 0.0) && r.center.y == Centre(b).y && r.center.z == Centre(b).z
    ensures o == Coronal ==> r.normal == Point3(0.0, 1.0, 0.0) && r.center.x == Centre(b).x && r.center.z == Centre(b).z
    ensures hasTool ==> r.toolPosition == t
    ensures !hasTool && o in {Axial, Sagittal, Coronal} ==> !r.cursorPending
    ensures !hasTool && o !in {Axial, Sagittal, Coronal} ==> r == p
  {
    var mid := Centre(b);
    if hasTool then
      match o
      case Axial => Plane(t.(x := mid.x, y := mid.y), Point3(0.0, 0.0, 1.0), t, p.cursorPending)
      case Sagittal => Plane(t.(y := mid.y, z := mid.z), Point3(1.0, 0.0, 0.0), t, p.cursorPending)
      case Coronal => Plane(t.(x := mid.x, z := mid.z), Point3(0.0, 1.0, 0.0), t, p.cursorPending)
      case _ => p.(center := t, toolPosition := t)
    else
      var flag := p.cursorPending;
      match o
      case Axial =>
        var centre := p.center.(x := mid.x, y := mid.y);
        Plane(if flag then centre.(z := c.z) else centre, Point3(0.0, 0.0, 1.0),
              if flag then p.toolPosition.(z := c.z) else p.toolPosition, false)
      case Sagittal =>
        var centre := p.center.(y := mid.y, z := mid.z);
        Plane(if flag then centre.(x := c.x) else centre, Point3(1.0, 0.0, 0.0),
              if flag then p.toolPosition.(x := c.x) else p.toolPosition, false)
      case Coronal =>
        var centre := p.center.(x := mid.x, z := mid.z);
        Plane(if flag then centre.(y := c.y) else centre, Point3(0.0, 1.0, 0.0),
              if flag then p.toolPosition.(y := c.y) else p.toolPosition, false)
      case _ => p
  }

  /** The oblique and off-orthogonal planes, for their centre and tool
      position: both go to the tool, and an off-orthogonal plane keeps the
      middle of the image along the axis it is named after. */
  function TiltedPlane(mode: ReslicingMode, o: OrientationType, b: Bounds, t: Point3, p: Plane): Plane
  {
    var mid := Centre(b);
    var p1 := p.(toolPosition := t, center := t);
    if mode == Oblique then p1
    else
      match o
      case OffAxial => p1.(center := t.(x := mid.x))
      case OffSagittal => p1.(center := t.(z := mid.z))
      case OffCoronal => p1.(center := t.(y := mid.y))
      case _ => p1
  }

  function PlaneOf(r: Reslicer): Plane
  {
    Plane(r.planeCenter, r.planeNormal, r.toolPosition, r.cursorPositionSetFlag)
  }

  function WithPlane(r: Reslicer, p: Plane): Reslicer
  {
    r.(planeCenter := p.center, planeNormal := p.normal, toolPosition := p.toolPosition,
       cursorPositionSetFlag := p.cursorPending)
  }

  /** The plane for the mode in force, from the tool's last reported
      translation; nothing but the plane, the tool position and the cursor
      flag changes. */
  function ComputePlane(r: Reslicer): (r': Reslicer)
    ensures r'.queue == r.queue && r'.state == r.state && r'.events == r.events
    ensures r'.toolTranslation == r.toolTranslation && r'.tool == r.tool
  {
    WithPlane(r, PlaneFor(r))
  }

  function PlaneFor(r: Reslicer): Plane
  {
    if r.reslicingMode == Orthogonal then
      OrthogonalPlane(r.orientationType, r.imageBounds, r.tool.Some?, r.toolTranslation, r.cursorPosition, PlaneOf(r))
    else TiltedPlane(r.reslicingMode, r.orientationType, r.imageBounds, r.toolTranslation, PlaneOf(r))
  }

  /** Storing the provider and, when it reports a box, the box with each
      pair of bounds in order, the tool position and plane centre at its
      middle. */
  function StoreBoundingBox(r: Reslicer): Reslicer
  {
    var p := r.boundingBoxProviderToBeSet;
    if p.None? || p.value.bounds.None? then r.(boundingBoxProvider := p)
    else
      var b := Normalised(p.value.bounds.value);
      r.(boundingBoxProvider := p, imageBounds := b, toolPosition := Centre(b), planeCenter := Centre(b))
  }

  /** The action processing methods; `answer` is what the tool reports
      when asked for its transform.  For the plane computation this is
      the computation proper: with a tool, `Run` first fetches a fresh
      transform. */
  function Act(r: Reslicer, a: Action, answer: Option<Point3>): Outcome
  {
    match a
    case SetReslicingMode => Change(r.(reslicingMode := r.reslicingModeToBeSet))
    case ReportInvalidReslicingMode => Change(r)
    case ReportInvalidRequest => Change(r.(events := r.events + [InvalidRequestErrorEvent]))
    case SetOrientationType => Change(r.(orientationType := r.orientationTypeToBeSet))
    case ReportInvalidOrientationType => Change(r)
    case AttemptSetBoundingBoxProviderSpatialObject =>
      Outcome(r, Some(if r.boundingBoxProviderToBeSet.None? then InValidBoundingBoxProviderSpatialObjectInput
                      else ValidBoundingBoxProviderSpatialObjectInput))
    case SetBoundingBoxProviderSpatialObject => Change(StoreBoundingBox(r))
    case ReportInvalidBoundingBoxProviderSpatialObject => Change(r)
    case SetToolSpatialObject => Change(r.(tool := r.toolToBeSet, toolSpatialObjectSet := true))
    case ReportInvalidToolSpatialObject => Change(r)
    case AttemptSetCursorPosition =>
      Outcome(r, Some(if CursorInBounds(r.orientationType, r.imageBounds, r.cursorPositionToBeSet)
                      then ValidCursorPositionInput else InValidCursorPositionInput))
    case SetCursorPosition =>
      Change(r.(cursorPosition := r.cursorPositionToBeSet, toolPosition := r.cursorPositionToBeSet,
                cursorPositionSetFlag := true))
    case ReportInvalidCursorPosition => Change(r)
    case ComputeReslicePlane => Change(ComputePlane(r))
    case ReportToolPosition => Change(r.(events := r.events + [ToolTipPositionEvent(r.toolPosition)]))
    case ReportReslicingPlaneParameters =>
      Change(r.(events := r.events + [ReslicerPlaneCenterEvent(r.planeCenter), ReslicerPlaneNormalEvent(r.planeNormal)]))
    case RequestGetToolTransform =>
      if r.tool.Some? && answer.Some? then Outcome(r.(toolTranslationToBeSet := answer.value), Some(ToolTransformInput))
      else Change(r)
    case ReceiveToolTransform => Change(r.(toolTranslation := r.toolTranslationToBeSet))
  }

  function Weight(i: Input): nat
  {
    match i
    case ComputeReslicePlaneInput => 3
    case GetToolTransformInput => 2
    case SetBoundingBoxProviderSpatialObjectInput => 2
    case SetCursorPositionInput => 2
    case _ => 1
  }

  function ActionWeight(a: Action): nat
  {
    match a
    case ComputeReslicePlane => 3
    case RequestGetToolTransform => 2
    case AttemptSetBoundingBoxProviderSpatialObject => 2
    case AttemptSetCursorPosition => 2
    case _ => 1
  }

  lemma TransitionWeight(s: State, i: Input)
    requires Transition(s, i).Some?
    ensures ActionWeight(Transition(s, i).value.1) <= Weight(i)
  {
  }

  /** No action touches the state or the queue, and each pushes at most
      one input, lighter than the inputs that trigger it. */
  lemma ActFrame(r: Reslicer, a: Action, answer: Option<Point3>)
    ensures Act(r, a, answer).next.queue == r.queue && Act(r, a, answer).next.state == r.state
    ensures Act(r, a, answer).push.Some? ==> Weight(Act(r, a, answer).push.value) < ActionWeight(a)
  {
  }

  function QueueWeight(q: seq<Input>): nat
  {
    if q == [] then 0 else Weight(q[0]) + QueueWeight(q[1..])
  }

  lemma {:induction false} QueueWeightAppend(a: seq<Input>, b: seq<Input>)
    ensures QueueWeight(a + b) == QueueWeight(a) + QueueWeight(b)
    decreases |a|
  {
    if a != [] {
      assert (a + b)[1..] == a[1..] + b;
      QueueWeightAppend(a[1..], b);
    } else {
      assert a + b == b;
    }
  }

  function Apply(r: Reslicer, o: Outcome): Reslicer
  {
    o.next.(queue := r.queue + if o.push.Some? then [o.push.value] else [])
  }

  function Perform(r: Reslicer, a: Action, answer: Option<Point3>): Reslicer
  {
    Apply(r, Act(r, a, answer))
  }

  /** Running an action.  The plane computation, when there is a tool,
      first asks it for a fresh transform and drains the queue (a drain
      nested inside the action), and only then computes the plane; every
      other action pushes its input at the tail, where the running drain
      finds it. */
  function Run(r: Reslicer, a: Action, answer: Option<Point3>): (r': Reslicer)
    ensures QueueWeight(r'.queue) < QueueWeight(r.queue) + ActionWeight(a)
    decreases QueueWeight(r.queue) + ActionWeight(a), 0
  {
    if a == ComputeReslicePlane && r.tool.Some? then
      QueueWeightAppend(r.queue, [GetToolTransformInput]);
      ComputePlane(Drain(r.(queue := r.queue + [GetToolTransformInput]), answer))
    else
      var o := Act(r, a, answer);
      var pushed := if o.push.Some? then [o.push.value] else [];
      ActFrame(r, a, answer);
      QueueWeightAppend(r.queue, pushed);
      Perform(r, a, answer)
  }

  /** One turn of the drain loop: the head input is taken, the state the
      table gives is committed and its action run; an input without a row
      is dropped. */
  function Step(r: Reslicer, answer: Option<Point3>): (r': Reslicer)
    requires r.queue != []
    ensures QueueWeight(r'.queue) < QueueWeight(r.queue)
    decreases QueueWeight(r.queue), 1
  {
    assert QueueWeight(r.queue) == Weight(r.queue[0]) + QueueWeight(r.queue[1..]);
    match Transition(r.state, r.queue[0])
    case None => r.(queue := r.queue[1..])
    case Some((next, action)) =>
      TransitionWeight(r.state, r.queue[0]);
      Run(r.(state := next, queue := r.queue[1..]), action, answer)
  }

  /** The drain loop; it always ends with the queue empty. */
  function Drain(r: Reslicer, answer: Option<Point3>): (r': Reslicer)
    ensures r'.queue == []
    decreases QueueWeight(r.queue), 2
  {
    if r.queue == [] then r
    else Drain(Step(r, answer), answer)
  }

  lemma DrainFirstStep(r: Reslicer, answer: Option<Point3>)
    requires r.queue != []
    ensures Drain(r, answer) == Drain(Step(r, answer), answer)
  {
  }

  /** A request: its input pushed at the tail, then the queue drained. */
  function Request(r: Reslicer, i: Input, answer: Option<Point3>): Reslicer
  {
    Drain(r.(queue := r.queue + [i]), answer)
  }

  /** The plane computation runs on the state the nested request for the
      tool's transform leaves, or on the state as it is without a tool. */
  lemma RunComputePlane(r: Reslicer, answer: Option<Point3>)
    ensures Run(r, ComputeReslicePlane, answer)
         == ComputePlane(if r.tool.Some? then Request(r, GetToolTransformInput, answer) else r)
  {
  }

  /** The input a reslicing-mode request pushes: always the valid one. */
  function ReslicingModeInput(mode: ReslicingMode): Input
  {
    ValidReslicingModeInput
  }

  /** The input an orientation request pushes, judged against the mode
      in force. */
  function OrientationInput(r: Reslicer, o: OrientationType): (i: Input)
    ensures i == ValidOrientationTypeInput <==> OrientationAccepted(r.reslicingMode, o)
  {
    if OrientationAccepted(r.reslicingMode, o) then ValidOrientationTypeInput else InValidOrientationTypeInput
  }

  /** The input a tool request pushes, judged at once. */
  function ToolInput(t: Option<ToolSpatialObject>): (i: Input)
    ensures i == ValidToolSpatialObjectInput <==> t.Some?
  {
    if t.Some? then ValidToolSpatialObjectInput else InValidToolSpatialObjectInput
  }

  // ------------------------------------------------------ request by request

  /** A reslicing mode is never refused: from the initial state it is set
      and the machine moves on; once the box is set it is replaced; in
      between the valid-mode input has no row and is dropped. */
  lemma ReslicingModeOutcome(r: Reslicer, mode: ReslicingMode, answer: Option<Point3>)
    requires r.queue == []
    ensures var r' := Request(r.(reslicingModeToBeSet := mode), ReslicingModeInput(mode), answer);
      if r.state in {InitialState, BoundingBoxProviderSpatialObjectSetState} then
        r' == r.(reslicingModeToBeSet := mode, reslicingMode := mode,
                 state := if r.state == InitialState then ReslicingModeSetState else r.state)
      else
        r' == r.(reslicingModeToBeSet := mode)
  {
    var r0 := r.(reslicingModeToBeSet := mode, queue := [ValidReslicingModeInput]);
    assert r.(reslicingModeToBeSet := mode).(queue := [] + [ValidReslicingModeInput]) == r0;
    DrainFirstStep(r0, answer);
  }

  /** An orientation is set only if it suits the mode in force, and only
      once the mode was chosen; the initial state rejects it outright. */
  lemma OrientationOutcome(r: Reslicer, o: OrientationType, answer: Option<Point3>)
    requires r.queue == [] && r.state in {InitialState, ReslicingModeSetState, BoundingBoxProviderSpatialObjectSetState}
    ensures var r1 := r.(orientationTypeToBeSet := o);
      var r' := Request(r1, OrientationInput(r1, o), answer);
      if r.state == InitialState then
        r' == r1.(events := r.events + [InvalidRequestErrorEvent])
      else if OrientationAccepted(r.reslicingMode, o) then
        r' == r1.(orientationType := o,
                  state := if r.state == ReslicingModeSetState then OrientationTypeSetState else r.state)
      else
        r' == r1
  {
    var r1 := r.(orientationTypeToBeSet := o);
    var r0 := r1.(queue := [OrientationInput(r1, o)]);
    assert r1.(queue := [] + [OrientationInput(r1, o)]) == r0;
    DrainFirstStep(r0, answer);
  }

  /** Setting the image: a missing provider is refused and the machine
      stays where it was; otherwise the provider is kept and, when it
      reports a box, the bounds are stored in order and the tool position
      and plane centre both move to the middle of the image. */
  lemma BoundingBoxOutcome(r: Reslicer, p: Option<BoundingBoxProvider>, answer: Option<Point3>)
    requires r.queue == [] && r.state == OrientationTypeSetState
    ensures var r1 := r.(boundingBoxProviderToBeSet := p);
      var r' := Request(r1, SetBoundingBoxProviderSpatialObjectInput, answer);
      if p.None? then r' == r1
      else if p.value.bounds.None? then
        r' == r1.(state := BoundingBoxProviderSpatialObjectSetState, boundingBoxProvider := p)
      else
        var b := Normalised(p.value.bounds.value);
        r' == r1.(state := BoundingBoxProviderSpatialObjectSetState, boundingBoxProvider := p,
                  imageBounds := b, toolPosition := Centre(b), planeCenter := Centre(b))
  {
    var r1 := r.(boundingBoxProviderToBeSet := p);
    var r0 := r1.(queue := [SetBoundingBoxProviderSpatialObjectInput]);
    assert r1.(queue := [] + [SetBoundingBoxProviderSpatialObjectInput]) == r0;
    DrainFirstStep(r0, answer);
    BoundingBoxAttemptStep(r0, answer);
    var r2 := Step(r0, answer);
    DrainFirstStep(r2, answer);
    BoundingBoxVerdictStep(r2, answer);
  }

  lemma BoundingBoxAttemptStep(r: Reslicer, answer: Option<Point3>)
    requires r.queue == [SetBoundingBoxProviderSpatialObjectInput] && r.state == OrientationTypeSetState
    ensures Step(r, answer) == r.(state := AttemptingToSetBoundingBoxProviderSpatialObjectState,
      queue := [if r.boundingBoxProviderToBeSet.None? then InValidBoundingBoxProviderSpatialObjectInput
                else ValidBoundingBoxProviderSpatialObjectInput])
  {
  }

  lemma BoundingBoxVerdictStep(r: Reslicer, answer: Option<Point3>)
    requires r.state == AttemptingToSetBoundingBoxProviderSpatialObjectState
    requires r.queue == [ValidBoundingBoxProviderSpatialObjectInput] || r.queue == [InValidBoundingBoxProviderSpatialObjectInput]
    ensures Step(r, answer) ==
      if r.queue[0] == ValidBoundingBoxProviderSpatialObjectInput then
        StoreBoundingBox(r.(state := BoundingBoxProviderSpatialObjectSetState, queue := []))
      else
        r.(state := OrientationTypeSetState, queue := [])
  {
  }

  /** Setting the cursor, once the image is set: a cursor inside the image
      along the cut axis becomes both the cursor and the tool position and
      is flagged for the next computation; any other is ignored. */
  lemma CursorOutcome(r: Reslicer, p: Point3, answer: Option<Point3>)
    requires r.queue == [] && r.state == BoundingBoxProviderSpatialObjectSetState
    ensures var r1 := r.(cursorPositionToBeSet := p);
      var r' := Request(r1, SetCursorPositionInput, answer);
      if CursorInBounds(r.orientationType, r.imageBounds, p) then
        r' == r1.(cursorPosition := p, toolPosition := p, cursorPositionSetFlag := true)
      else
        r' == r1
  {
    var r1 := r.(cursorPositionToBeSet := p);
    var r0 := r1.(queue := [SetCursorPositionInput]);
    assert r1.(queue := [] + [SetCursorPositionInput]) == r0;
    DrainFirstStep(r0, answer);
    CursorAttemptStep(r0, answer);
    var r2 := Step(r0, answer);
    DrainFirstStep(r2, answer);
    CursorVerdictStep(r2, answer);
  }

  lemma CursorAttemptStep(r: Reslicer, answer: Option<Point3>)
    requires r.queue == [SetCursorPositionInput] && r.state == BoundingBoxProviderSpatialObjectSetState
    ensures Step(r, answer) == r.(state := AttemptingToSetCursorPositionState,
      queue := [if CursorInBounds(r.orientationType, r.imageBounds, r.cursorPositionToBeSet)
                then ValidCursorPositionInput else InValidCursorPositionInput])
  {
  }

  lemma CursorVerdictStep(r: Reslicer, answer: Option<Point3>)
    requires r.state == AttemptingToSetCursorPositionState
    requires r.queue == [ValidCursorPositionInput] || r.queue == [InValidCursorPositionInput]
    ensures Step(r, answer) ==
      if r.queue[0] == ValidCursorPositionInput then
        r.(state := BoundingBoxProviderSpatialObjectSetState, queue := [], cursorPosition := r.cursorPositionToBeSet,
           toolPosition := r.cursorPositionToBeSet, cursorPositionSetFlag := true)
      else
        r.(state := BoundingBoxProviderSpatialObjectSetState, queue := [])
  {
  }

  /** The plane computation as one step: without a tool the plane is
      computed at once; with one, after the nested request for its
      transform. */
  lemma ComputeStep(r: Reslicer, answer: Option<Point3>)
    requires r.queue == [ComputeReslicePlaneInput] && r.state == BoundingBoxProviderSpatialObjectSetState
    ensures Step(r, answer) ==
      if r.tool.Some? then ComputePlane(Request(r.(queue := []), GetToolTransformInput, answer))
      else ComputePlane(r.(queue := []))
  {
    assert r.(queue := []).(queue := [] + [GetToolTransformInput]) == r.(queue := [GetToolTransformInput]);
  }

  /** Asking the tool for its transform, and taking its answer. */
  lemma GetToolTransformStep(r: Reslicer, answer: Option<Point3>)
    requires r.queue == [GetToolTransformInput] && r.state == BoundingBoxProviderSpatialObjectSetState && r.tool.Some?
    ensures Step(r, answer) ==
      if answer.Some? then
        r.(state := AttemptingToGetToolTransformState, queue := [ToolTransformInput], toolTranslationToBeSet := answer.value)
      else
        r.(state := AttemptingToGetToolTransformState, queue := [])
  {
  }

  lemma ReceiveToolTransformStep(r: Reslicer, answer: Option<Point3>)
    requires r.queue == [ToolTransformInput] && r.state == AttemptingToGetToolTransformState
    ensures Step(r, answer) ==
      r.(state := BoundingBoxProviderSpatialObjectSetState, queue := [], toolTranslation := r.toolTranslationToBeSet)
  {
  }

  /** The orthogonal plane without a tool: the normal is the cut axis, the
      centre is the middle of the image along the two other axes and,
      along the cut axis, the flagged cursor if there is one (which then
      also moves the tool position); the flag is cleared. */
  lemma OrthogonalPlaneWithoutTool(r: Reslicer)
    requires r.reslicingMode == Orthogonal && r.tool.None? && r.orientationType in {Axial, Sagittal, Coronal}
    ensures var r' := ComputePlane(r);
      var mid := Centre(r.imageBounds);
      var c := r.cursorPosition;
      var flag := r.cursorPositionSetFlag;
      r' == r.(planeNormal := r'.planeNormal, planeCenter := r'.planeCenter, toolPosition := r'.toolPosition,
               cursorPositionSetFlag := false) &&
      (r.orientationType == Axial ==>
        r'.planeNormal == Point3(0.0, 0.0, 1.0) &&
        r'.planeCenter == Point3(mid.x, mid.y, if flag then c.z else r.planeCenter.z) &&
        r'.toolPosition == if flag then r.toolPosition.(z := c.z) else r.toolPosition) &&
      (r.orientationType == Sagittal ==>
        r'.planeNormal == Point3(1.0, 0.0, 0.0) &&
        r'.planeCenter == Point3(if flag then c.x else r.planeCenter.x, mid.y, mid.z) &&
        r'.toolPosition == if flag then r.toolPosition.(x := c.x) else r.toolPosition) &&
      (r.orientationType == Coronal ==>
        r'.planeNormal == Point3(0.0, 1.0, 0.0) &&
        r'.planeCenter == Point3(mid.x, if flag then c.y else r.planeCenter.y, mid.z) &&
        r'.toolPosition == if flag then r.toolPosition.(y := c.y) else r.toolPosition)
  {
  }

  /** Without a tool the cursor is used once: computing again leaves the
      plane where it is. */
  lemma OrthogonalPlaneSettles(r: Reslicer)
    requires r.reslicingMode == Orthogonal && r.tool.None? && r.orientationType in {Axial, Sagittal, Coronal}
    ensures ComputePlane(ComputePlane(r)) == ComputePlane(r)
  {
    OrthogonalPlaneWithoutTool(r);
    OrthogonalPlaneWithoutTool(ComputePlane(r));
  }

  /** The orthogonal plane with a tool: it passes through the tool's last
      reported translation along the cut axis and through the middle of
      the image along the others; the tool position is that translation. */
  lemma OrthogonalPlaneWithTool(r: Reslicer)
    requires r.reslicingMode == Orthogonal && r.tool.Some? && r.orientationType in {Axial, Sagittal, Coronal}
    ensures var r' := ComputePlane(r);
      var mid := Centre(r.imageBounds);
      var t := r.toolTranslation;
      r' == r.(planeNormal := r'.planeNormal, planeCenter := r'.planeCenter, toolPosition := t) &&
      (r.orientationType == Axial ==> r'.planeNormal == Point3(0.0, 0.0, 1.0) && r'.planeCenter == Point3(mid.x, mid.y, t.z)) &&
      (r.orientationType == Sagittal ==> r'.planeNormal == Point3(1.0, 0.0, 0.0) && r'.planeCenter == Point3(t.x, mid.y, mid.z)) &&
      (r.orientationType == Coronal ==> r'.planeNormal == Point3(0.0, 1.0, 0.0) && r'.planeCenter == Point3(mid.x, t.y, mid.z))
  {
  }

  /** Oblique and off-orthogonal planes go through the tool's last
      reported translation, which also becomes the tool position; an
      off-orthogonal plane keeps the middle of the image along the axis
      it is named after. */
  lemma TiltedPlaneFollowsTool(r: Reslicer)
    requires r.reslicingMode != Orthogonal
    ensures var r' := ComputePlane(r);
      var mid := Centre(r.imageBounds);
      var t := r.toolTranslation;
      r' == r.(planeCenter := r'.planeCenter, toolPosition := t) &&
      r'.planeCenter ==
        if r.reslicingMode == Oblique then t
        else match r.orientationType
          case OffAxial => t.(x := mid.x)
          case OffSagittal => t.(z := mid.z)
          case OffCoronal => t.(y := mid.y)
          case _ => t
  {
  }

  /** A plane request without a tool computes the plane and nothing else;
      a second request changes nothing more. */
  lemma ComputeWithoutToolOutcome(r: Reslicer, answer: Option<Point3>)
    requires r.queue == [] && r.state == BoundingBoxProviderSpatialObjectSetState && r.tool.None?
    ensures Request(r, ComputeReslicePlaneInput, answer) == ComputePlane(r)
    ensures r.reslicingMode == Orthogonal && r.orientationType in {Axial, Sagittal, Coronal} ==>
      Request(Request(r, ComputeReslicePlaneInput, answer), ComputeReslicePlaneInput, answer)
        == Request(r, ComputeReslicePlaneInput, answer)
  {
    var r0 := r.(queue := [ComputeReslicePlaneInput]);
    assert r.(queue := [] + [ComputeReslicePlaneInput]) == r0;
    DrainFirstStep(r0, answer);
    ComputeStep(r0, answer);
    var r' := ComputePlane(r);
    var q0 := r'.(queue := [ComputeReslicePlaneInput]);
    assert r'.(queue := r'.queue + [ComputeReslicePlaneInput]) == q0;
    DrainFirstStep(q0, answer);
    ComputeStep(q0, answer);
    if r.reslicingMode == Orthogonal && r.orientationType in {Axial, Sagittal, Coronal} {
      OrthogonalPlaneSettles(r);
    }
  }

  /** A plane request with a tool first asks the tool for its transform:
      when the tool answers, the plane is computed from the fresh
      translation and the object is back where it was; when it does not,
      the plane is computed from the last translation and the object
      waits for an answer. */
  lemma ComputeWithToolOutcome(r: Reslicer, answer: Option<Point3>)
    requires r.queue == [] && r.state == BoundingBoxProviderSpatialObjectSetState && r.tool.Some?
    ensures Request(r, ComputeReslicePlaneInput, answer) ==
      if answer.Some? then ComputePlane(r.(toolTranslation := answer.value, toolTranslationToBeSet := answer.value))
      else ComputePlane(r.(state := AttemptingToGetToolTransformState))
  {
    var r0 := r.(queue := [ComputeReslicePlaneInput]);
    assert r.(queue := [] + [ComputeReslicePlaneInput]) == r0;
    DrainFirstStep(r0, answer);
    ComputeStep(r0, answer);
    UpdateToolTransformOutcome(r, answer);
  }

  /** An input without a row in the current state changes nothing at all:
      in particular, while a tool transform is awaited every request is
      ignored. */
  lemma DroppedRequest(r: Reslicer, i: Input, answer: Option<Point3>)
    requires r.queue == [] && Transition(r.state, i).None?
    ensures Request(r, i, answer) == r
  {
    var r0 := r.(queue := [i]);
    assert r.(queue := [] + [i]) == r0;
    DrainFirstStep(r0, answer);
    assert Step(r0, answer) == r;
  }

  /** Setting the tool, once the image is set: a missing tool is refused
      and changes nothing; otherwise it is kept and marked as set. */
  lemma ToolOutcome(r: Reslicer, t: Option<ToolSpatialObject>, answer: Option<Point3>)
    requires r.queue == [] && r.state == BoundingBoxProviderSpatialObjectSetState
    ensures var r1 := r.(toolToBeSet := t);
      Request(r1, ToolInput(t), answer) ==
        if t.Some? then r1.(tool := t, toolSpatialObjectSet := true) else r1
  {
    var r1 := r.(toolToBeSet := t);
    var r0 := r1.(queue := [ToolInput(t)]);
    assert r1.(queue := [] + [ToolInput(t)]) == r0;
    DrainFirstStep(r0, answer);
    if t.Some? {
      assert Step(r0, answer) == r1.(tool := t, toolSpatialObjectSet := true);
    } else {
      assert Step(r0, answer) == r1;
    }
  }

  /** Once the image is set, the tool position is reported as an event
      and nothing else changes. */
  lemma ToolPositionReport(r: Reslicer, answer: Option<Point3>)
    requires r.queue == [] && r.state == BoundingBoxProviderSpatialObjectSetState
    ensures Request(r, GetToolPositionInput, answer) == r.(events := r.events + [ToolTipPositionEvent(r.toolPosition)])
  {
    var r0 := r.(queue := [GetToolPositionInput]);
    assert r.(queue := [] + [GetToolPositionInput]) == r0;
    DrainFirstStep(r0, answer);
    var o := Act(r0.(queue := []), ReportToolPosition, answer);
    assert o == Change(r.(events := r.events + [ToolTipPositionEvent(r.toolPosition)]));
    assert Step(r0, answer) == Apply(r0.(queue := []), o);
  }

  /** Once the image is set, the plane's centre and normal are reported
      as events, in that order, and nothing else changes. */
  lemma PlaneParametersReport(r: Reslicer, answer: Option<Point3>)
    requires r.queue == [] && r.state == BoundingBoxProviderSpatialObjectSetState
    ensures Request(r, GetReslicingPlaneParametersInput, answer) ==
      r.(events := r.events + [ReslicerPlaneCenterEvent(r.planeCenter), ReslicerPlaneNormalEvent(r.planeNormal)])
  {
    var r0 := r.(queue := [GetReslicingPlaneParametersInput]);
    assert r.(queue := [] + [GetReslicingPlaneParametersInput]) == r0;
    DrainFirstStep(r0, answer);
    var o := Act(r0.(queue := []), ReportReslicingPlaneParameters, answer);
    assert o == Change(r.(events := r.events + [ReslicerPlaneCenterEvent(r.planeCenter), ReslicerPlaneNormalEvent(r.planeNormal)]));
    assert Step(r0, answer) == Apply(r0.(queue := []), o);
  }

  /** Asking for the tool transform on its own: with a tool that answers,
      the translation is stored and the object is back where it was;
      otherwise the object waits for an answer that does not come. */
  lemma UpdateToolTransformOutcome(r: Reslicer, answer: Option<Point3>)
    requires r.queue == [] && r.state == BoundingBoxProviderSpatialObjectSetState
    ensures Request(r, GetToolTransformInput, answer) ==
      if r.tool.Some? && answer.Some? then r.(toolTranslation := answer.value, toolTranslationToBeSet := answer.value)
      else r.(state := AttemptingToGetToolTransformState)
  {
    var r0 := r.(queue := [GetToolTransformInput]);
    assert r.(queue := [] + [GetToolTransformInput]) == r0;
    DrainFirstStep(r0, answer);
    if r.tool.Some? {
      GetToolTransformStep(r0, answer);
      if answer.Some? {
        var r2 := Step(r0, answer);
        DrainFirstStep(r2, answer);
        ReceiveToolTransformStep(r2, answer);
      }
    } else {
      assert Step(r0, answer) == r.(state := AttemptingToGetToolTransformState);
    }
  }

  // ------------------------------------------------------------ the class

  /** The spatial object itself: its fields, updated in place by the
      processing methods, with the image bounds in a six-entry array. */
  class ReslicerPlaneSpatialObject {
    var state: State
    var queue: seq<Input>
    var reslicingMode: ReslicingMode
    var reslicingModeToBeSet: ReslicingMode
    var orientationType: OrientationType
    var orientationTypeToBeSet: OrientationType
    var boundingBoxProvider: Option<BoundingBoxProvider>
    var boundingBoxProviderToBeSet: Option<BoundingBoxProvider>
    var tool: Option<ToolSpatialObject>
    var toolToBeSet: Option<ToolSpatialObject>
    var toolSpatialObjectSet: bool
    var toolTranslation: Point3
    var toolTranslationToBeSet: Point3
    var cursorPosition: Point3
    var cursorPositionToBeSet: Point3
    var cursorPositionSetFlag: bool
    var toolPosition: Point3
    var planeCenter: Point3
    var planeNormal: Point3
    const imageBounds: array<real>
    var events: seq<Event>

    ghost predicate Valid()
    {
      imageBounds.Length == 6
    }

    /** The object's fields as a value. */
    function Snapshot(): Reslicer
      reads this, imageBounds
      requires Valid()
    {
      Reslicer(state, queue, reslicingMode, reslicingModeToBeSet, orientationType, orientationTypeToBeSet,
               boundingBoxProvider, boundingBoxProviderToBeSet, tool, toolToBeSet, toolSpatialObjectSet,
               toolTranslation, toolTranslationToBeSet, cursorPosition, cursorPositionToBeSet,
               cursorPositionSetFlag, toolPosition, planeCenter, planeNormal, imageBounds[..], events)
    }

    /** Orthogonal axial reslicing, no image, no tool, cursor and tool
        position at the origin, in the initial state. */
    constructor ()
      ensures Valid() && fresh(imageBounds)
      ensures var r := Snapshot();
        r.state == InitialState && r.queue == [] && r.events == [] &&
        r.reslicingMode == Orthogonal && r.orientationType == Axial &&
        r.boundingBoxProvider.None? && r.tool.None? && !r.toolSpatialObjectSet &&
        r.cursorPosition == Point3(0.0, 0.0, 0.0) && r.toolPosition == Point3(0.0, 0.0, 0.0) &&
        !r.cursorPositionSetFlag
    {
      var origin := Point3(0.0, 0.0, 0.0);
      state := InitialState;
      queue := [];
      reslicingMode := Orthogonal;
      reslicingModeToBeSet := Orthogonal;
      orientationType := Axial;
      orientationTypeToBeSet := Axial;
      boundingBoxProvider := None;
      boundingBoxProviderToBeSet := None;
      tool := None;
      toolToBeSet := None;
      toolSpatialObjectSet := false;
      toolTranslation := origin;
      toolTranslationToBeSet := origin;
      cursorPosition := origin;
      cursorPositionToBeSet := origin;
      cursorPositionSetFlag := false;
      toolPosition := origin;
      planeCenter := origin;
      planeNormal := origin;
      imageBounds := new real[6](_ => 0.0);
      events := [];
    }

    method Push(i: Input)
      requires Valid()
      modifies this
      ensures Valid() && Snapshot() == old(Snapshot()).(queue := old(queue) + [i])
    {
      queue := queue + [i];
    }

    /** Copies a box into the bounds array and puts each pair of bounds
        in order, in place. */
    method LoadBounds(b: Bounds)
      requires Valid()
      modifies imageBounds
      ensures imageBounds[..] == Normalised(b)
    {
      imageBounds[0], imageBounds[1], imageBounds[2] := b[0], b[1], b[2];
      imageBounds[3], imageBounds[4], imageBounds[5] := b[3], b[4], b[5];
      var i := 0;
      while i <= 4
        invariant i == 0 || i == 2 || i == 4 || i == 6
        invariant forall k :: 0 <= k < 6 ==> imageBounds[k] == if k < i then Normalised(b)[k] else b[k]
      {
        if imageBounds[i] > imageBounds[i + 1] {
          var t := imageBounds[i + 1];
          imageBounds[i + 1] := imageBounds[i];
          imageBounds[i] := t;
        }
        i := i + 2;
      }
    }

    /** Stores the provider and, when it reports a box, loads the box and
        moves the tool position and the plane centre to the middle of the
        image. */
    method SetBoundingBoxProviderSpatialObjectProcessing()
      requires Valid()
      modifies this, imageBounds
      ensures Valid() && Snapshot() == StoreBoundingBox(old(Snapshot()))
    {
      ghost var r := Snapshot();
      boundingBoxProvider := boundingBoxProviderToBeSet;
      if boundingBoxProvider.None? || boundingBoxProvider.value.bounds.None? {
        assert Snapshot() == r.(boundingBoxProvider := boundingBoxProvider);
        return;
      }
      var b := boundingBoxProvider.value.bounds.value;
      LoadBounds(b);
      var centre := Centre(imageBounds[..]);
      toolPosition := centre;
      planeCenter := centre;
      assert Snapshot() == r.(boundingBoxProvider := boundingBoxProvider, imageBounds := Normalised(b),
                              toolPosition := centre, planeCenter := centre);
    }

    /** Decides on the stored provider. */
    method AttemptSetBoundingBoxProviderSpatialObjectProcessing()
      requires Valid()
      modifies this
      ensures Valid() && Snapshot() == Perform(old(Snapshot()), AttemptSetBoundingBoxProviderSpatialObject, None)
    {
      if boundingBoxProviderToBeSet.None? {
        Push(InValidBoundingBoxProviderSpatialObjectInput);
      } else {
        Push(ValidBoundingBoxProviderSpatialObjectInput);
      }
    }

    /** Decides on the stored cursor against the image bounds. */
    method AttemptSetCursorPositionProcessing()
      requires Valid()
      modifies this
      ensures Valid() && Snapshot() == Perform(old(Snapshot()), AttemptSetCursorPosition, None)
    {
      var valid := CursorInBounds(orientationType, imageBounds[..], cursorPositionToBeSet);
      ghost var r := Snapshot();
      var verdict := if valid then ValidCursorPositionInput else InValidCursorPositionInput;
      assert Perform(r, AttemptSetCursorPosition, None) == r.(queue := r.queue + [verdict]);
      Push(verdict);
    }

    /** With a tool, first asks it for a fresh transform (a nested
        request); then computes the plane for the mode in force. */
    method ComputeReslicePlaneProcessing(answer: Option<Point3>)
      requires Valid()
      modifies this, imageBounds
      ensures Valid() && Snapshot() == Run(old(Snapshot()), ComputeReslicePlane, answer)
      decreases QueueWeight(queue) + 3, 0
    {
      RunComputePlane(Snapshot(), answer);
      if tool.Some? {
        RequestUpdateToolTransformWRTImageCoordinateSystem(answer);
      }
      var p := PlaneFor(Snapshot());
      SetPlane(p);
    }

    /** Stores a computed plane, the tool position and the cursor flag. */
    method SetPlane(p: Plane)
      requires Valid()
      modifies this
      ensures Valid() && Snapshot() == WithPlane(old(Snapshot()), p)
    {
      planeCenter, planeNormal, toolPosition, cursorPositionSetFlag := p.center, p.normal, p.toolPosition, p.cursorPending;
    }

    /** Asks the tool for its transform; `answer` is what it reports. */
    method RequestGetToolTransformProcessing(answer: Option<Point3>)
      requires Valid()
      modifies this
      ensures Valid() && Snapshot() == Perform(old(Snapshot()), RequestGetToolTransform, answer)
    {
      if tool.Some? && answer.Some? {
        toolTranslationToBeSet := answer.value;
        Push(ToolTransformInput);
      }
    }

    method SetReslicingModeProcessing()
      requires Valid()
      modifies this
      ensures Valid() && Snapshot() == Perform(old(Snapshot()), SetReslicingMode, None)
    {
      reslicingMode := reslicingModeToBeSet;
    }

    method SetOrientationTypeProcessing()
      requires Valid()
      modifies this
      ensures Valid() && Snapshot() == Perform(old(Snapshot()), SetOrientationType, None)
    {
      orientationType := orientationTypeToBeSet;
    }

    method SetToolSpatialObjectProcessing()
      requires Valid()
      modifies this
      ensures Valid() && Snapshot() == Perform(old(Snapshot()), SetToolSpatialObject, None)
    {
      tool := toolToBeSet;
      toolSpatialObjectSet := true;
    }

    /** The accepted cursor becomes the cursor and the tool position, and
        is flagged for the next computation. */
    method SetCursorPositionProcessing()
      requires Valid()
      modifies this
      ensures Valid() && Snapshot() == Perform(old(Snapshot()), SetCursorPosition, None)
    {
      ghost var r := Snapshot();
      var p := cursorPositionToBeSet;
      cursorPosition, toolPosition, cursorPositionSetFlag := p, p, true;
      assert Snapshot() == r.(cursorPosition := p, toolPosition := p, cursorPositionSetFlag := true);
    }

    method ReceiveToolTransformProcessing()
      requires Valid()
      modifies this
      ensures Valid() && Snapshot() == Perform(old(Snapshot()), ReceiveToolTransform, None)
    {
      toolTranslation := toolTranslationToBeSet;
    }

    method ReportInvalidRequestProcessing()
      requires Valid()
      modifies this
      ensures Valid() && Snapshot() == Perform(old(Snapshot()), ReportInvalidRequest, None)
    {
      events := events + [InvalidRequestErrorEvent];
    }

    method ReportToolPositionProcessing()
      requires Valid()
      modifies this
      ensures Valid() && Snapshot() == Perform(old(Snapshot()), ReportToolPosition, None)
    {
      events := events + [ToolTipPositionEvent(toolPosition)];
    }

    method ReportReslicingPlaneParametersProcessing()
      requires Valid()
      modifies this
      ensures Valid() && Snapshot() == Perform(old(Snapshot()), ReportReslicingPlaneParameters, None)
    {
      events := events + [ReslicerPlaneCenterEvent(planeCenter), ReslicerPlaneNormalEvent(planeNormal)];
    }

    /** Runs the processing method of one action; the other reports have
        no effect. */
    method PerformAction(a: Action, answer: Option<Point3>)
      requires Valid()
      modifies this, imageBounds
      ensures Valid() && Snapshot() == Run(old(Snapshot()), a, answer)
      decreases QueueWeight(queue) + ActionWeight(a), 1
    {
      ghost var r := Snapshot();
      match a
      case SetReslicingMode => SetReslicingModeProcessing();
      case SetOrientationType => SetOrientationTypeProcessing();
      case AttemptSetBoundingBoxProviderSpatialObject => AttemptSetBoundingBoxProviderSpatialObjectProcessing();
      case SetBoundingBoxProviderSpatialObject =>
        SetBoundingBoxProviderSpatialObjectProcessing();
        assert Act(r, a, answer) == Change(StoreBoundingBox(r));
      case SetToolSpatialObject => SetToolSpatialObjectProcessing();
      case AttemptSetCursorPosition => AttemptSetCursorPositionProcessing();
      case SetCursorPosition => SetCursorPositionProcessing();
      case ComputeReslicePlane => ComputeReslicePlaneProcessing(answer);
      case RequestGetToolTransform => RequestGetToolTransformProcessing(answer);
      case ReceiveToolTransform => ReceiveToolTransformProcessing();
      case ReportInvalidRequest => ReportInvalidRequestProcessing();
      case ReportToolPosition => ReportToolPositionProcessing();
      case ReportReslicingPlaneParameters => ReportReslicingPlaneParametersProcessing();
      case ReportInvalidReslicingMode =>
      case ReportInvalidOrientationType =>
      case ReportInvalidBoundingBoxProviderSpatialObject =>
      case ReportInvalidToolSpatialObject =>
      case ReportInvalidCursorPosition =>
    }

    /** Drains the queue, dropping inputs without a row. */
    method ProcessInputs(answer: Option<Point3>)
      requires Valid()
      modifies this, imageBounds
      ensures Valid() && Snapshot() == Drain(old(Snapshot()), answer)
      decreases QueueWeight(queue), 3
    {
      while queue != []
        invariant Valid()
        invariant Drain(Snapshot(), answer) == Drain(old(Snapshot()), answer)
        invariant QueueWeight(queue) <= old(QueueWeight(queue))
        decreases QueueWeight(queue)
      {
        DrainFirstStep(Snapshot(), answer);
        ProcessNextInput(answer);
      }
    }

    /** One turn of the loop: the head input is taken, the state the table
        gives is committed and its action run; an input with no row is
        dropped. */
    method ProcessNextInput(answer: Option<Point3>)
      requires Valid() && queue != []
      modifies this, imageBounds
      ensures Valid() && Snapshot() == Step(old(Snapshot()), answer)
      decreases QueueWeight(queue), 2
    {
      ghost var before := Snapshot();
      var i := queue[0];
      assert QueueWeight(queue) == Weight(i) + QueueWeight(queue[1..]);
      match Transition(state, i)
      case None =>
        queue := queue[1..];
      case Some((next, action)) =>
        TransitionWeight(state, i);
        state := next;
        queue := queue[1..];
        assert Snapshot() == before.(state := next, queue := before.queue[1..]);
        PerformAction(action, answer);
    }

    method RequestSetReslicingMode(mode: ReslicingMode)
      requires Valid()
      modifies this, imageBounds
      ensures Valid() && Snapshot() == Request(old(Snapshot()).(reslicingModeToBeSet := mode), ReslicingModeInput(mode), None)
    {
      reslicingModeToBeSet := mode;
      Push(ValidReslicingModeInput);
      ProcessInputs(None);
    }

    method RequestSetOrientationType(o: OrientationType)
      requires Valid()
      modifies this, imageBounds
      ensures Valid()
      ensures var r1 := old(Snapshot()).(orientationTypeToBeSet := o);
        Snapshot() == Request(r1, OrientationInput(r1, o), None)
    {
      orientationTypeToBeSet := o;
      if OrientationAccepted(reslicingMode, o) {
        Push(ValidOrientationTypeInput);
      } else {
        Push(InValidOrientationTypeInput);
      }
      ProcessInputs(None);
    }

    method RequestSetBoundingBoxProviderSpatialObject(p: Option<BoundingBoxProvider>)
      requires Valid()
      modifies this, imageBounds
      ensures Valid()
      ensures Snapshot() == Request(old(Snapshot()).(boundingBoxProviderToBeSet := p), SetBoundingBoxProviderSpatialObjectInput, None)
    {
      boundingBoxProviderToBeSet := p;
      Push(SetBoundingBoxProviderSpatialObjectInput);
      ProcessInputs(None);
    }

    method RequestSetToolSpatialObject(t: Option<ToolSpatialObject>)
      requires Valid()
      modifies this, imageBounds
      ensures Valid() && Snapshot() == Request(old(Snapshot()).(toolToBeSet := t), ToolInput(t), None)
    {
      toolToBeSet := t;
      if t.None? {
        Push(InValidToolSpatialObjectInput);
      } else {
        Push(ValidToolSpatialObjectInput);
      }
      ProcessInputs(None);
    }

    method RequestSetCursorPosition(p: Point3)
      requires Valid()
      modifies this, imageBounds
      ensures Valid() && Snapshot() == Request(old(Snapshot()).(cursorPositionToBeSet := p), SetCursorPositionInput, None)
    {
      cursorPositionToBeSet := p;
      Push(SetCursorPositionInput);
      ProcessInputs(None);
    }

    /** `answer` is what the tool reports when asked for its transform. */
    method RequestComputeReslicingPlane(answer: Option<Point3>)
      requires Valid()
      modifies this, imageBounds
      ensures Valid() && Snapshot() == Request(old(Snapshot()), ComputeReslicePlaneInput, answer)
    {
      Push(ComputeReslicePlaneInput);
      ProcessInputs(answer);
    }

    method RequestUpdateToolTransformWRTImageCoordinateSystem(answer: Option<Point3>)
      requires Valid()
      modifies this, imageBounds
      ensures Valid() && Snapshot() == Request(old(Snapshot()), GetToolTransformInput, answer)
      decreases QueueWeight(queue) + 2, 4
    {
      QueueWeightAppend(queue, [GetToolTransformInput]);
      Push(GetToolTransformInput);
      ProcessInputs(answer);
    }

    method RequestGetToolPosition()
      requires Valid()
      modifies this, imageBounds
      ensures Valid() && Snapshot() == Request(old(Snapshot()), GetToolPositionInput, None)
    {
      Push(GetToolPositionInput);
      ProcessInputs(None);
    }

    method RequestGetReslicingPlaneParameters()
      requires Valid()
      modifies this, imageBounds
      ensures Valid() && Snapshot() == Request(old(Snapshot()), GetReslicingPlaneParametersInput, None)
    {
      Push(GetReslicingPlaneParametersInput);
      ProcessInputs(None);
    }
  }
}
