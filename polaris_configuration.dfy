/**
 * Configurations of the two Polaris trackers used by the tracker
 * configuration examples: the Vicra, which only takes wireless tools, and
 * the Hybrid, which takes wireless tools and tools wired to one of its
 * twelve physical ports.  A tool is added either as an ordinary tool,
 * appended to the tool list, or as the reference tool, replacing the
 * previous one; a tool that does not suit the tracker is refused with a
 * failure event and changes nothing.
 */
module PolarisConfiguration {
  import opened Wrappers

  datatype Family = Vicra | Hybrid

  /** The highest refresh rate of each tracker, in Hz; a new configuration
      starts at it. */
  function MaximalRefreshRate(f: Family): real
  {
    match f
    case Vicra => 20.0
    case Hybrid => 60.0
  }

  /** The Hybrid's physical ports are numbered below this. */
  const MaximalPortNumber: nat := 12

  /** A tool configuration as the tracker sees it: a Polaris wireless
      tool, a Polaris wired tool, or a tool of some other tracker. */
  datatype ToolConfiguration =
    | Wireless(sromFile: string)
    | Wired(portNumber: nat, sromFile: string)
    | OtherTool(typeName: string)

  datatype Failure = IncompatibleTool | MissingSromFile | InvalidPortNumber

  function FailureText(f: Failure): string
  {
    match f
    case IncompatibleTool => "Given tool configuration type not compatible with tracker type."
    case MissingSromFile => "SROM file not specified for wireless tool."
    case InvalidPortNumber => "Specified physical port number is invalid."
  }

  datatype Event = AddToolFailureEvent(failure: Failure) | AddToolSuccessEvent

  /** Why a tracker refuses a tool, checked in the order the trackers
      check it; None when it takes the tool. */
  function Refusal(f: Family, tool: ToolConfiguration): Option<Failure>
  {
    match tool
    case OtherTool(_) => Some(IncompatibleTool)
    case Wireless(srom) => if srom == "" then Some(MissingSromFile) else None
    case Wired(port, _) =>
      if f == Vicra then Some(IncompatibleTool)
      else if port >= MaximalPortNumber then Some(InvalidPortNumber)
      else None
  }

  /** The Vicra takes exactly the wireless tools that name an SROM file. */
  lemma VicraAcceptance(tool: ToolConfiguration)
    ensures Refusal(Vicra, tool).None? <==> tool.Wireless? && tool.sromFile != ""
    ensures !tool.Wireless? ==> Refusal(Vicra, tool) == Some(IncompatibleTool)
  {
  }

  /** The Hybrid takes the wireless tools that name an SROM file and the
      wired tools on a port below twelve, whatever their SROM file. */
  lemma HybridAcceptance(tool: ToolConfiguration)
    ensures Refusal(Hybrid, tool).None? <==>
      (tool.Wireless? && tool.sromFile != "") || (tool.Wired? && tool.portNumber < MaximalPortNumber)
    ensures tool.Wired? && tool.portNumber >= MaximalPortNumber ==> Refusal(Hybrid, tool) == Some(InvalidPortNumber)
  {
  }

  /** Whatever the Vicra takes, the Hybrid takes. */
  lemma HybridTakesWhatVicraTakes(tool: ToolConfiguration)
    ensures Refusal(Vicra, tool).None? ==> Refusal(Hybrid, tool).None?
  {
  }

  /** The configuration's fields as a value. */
  datatype Configuration = Configuration(
    frequency: real,
    tools: seq<ToolConfiguration>,
    referenceTool: Option<ToolConfiguration>,
    events: seq<Event>)

  /** Adding a tool: refused, it leaves the tools alone and reports the
      failure; taken, a copy is appended or becomes the reference tool,
      and only then is success reported. */
  function Add(c: Configuration, f: Family, tool: ToolConfiguration, isReference: bool): (r: Configuration)
    ensures r.frequency == c.frequency && |r.events| == |c.events| + 1
    ensures r.events[|c.events|] == AddToolSuccessEvent <==> Refusal(f, tool).None?
  {
    match Refusal(f, tool)
    case Some(failure) => c.(events := c.events + [AddToolFailureEvent(failure)])
    case None =>
      var c1 := if isReference then c.(referenceTool := Some(tool)) else c.(tools := c.tools + [tool]);
      c1.(events := c.events + [AddToolSuccessEvent])
  }

  /** One addition leaves exactly one event, a success exactly when the
      tool is taken; a refused tool leaves the list, the reference tool and
      the frequency as they were; a taken one is stored where it was meant
      to go and nowhere else. */
  lemma AddOutcome(c: Configuration, f: Family, tool: ToolConfiguration, isReference: bool)
    ensures var c' := Add(c, f, tool, isReference);
      c'.frequency == c.frequency &&
      |c'.events| == |c.events| + 1 && c'.events[..|c.events|] == c.events &&
      (c'.events[|c.events|] == AddToolSuccessEvent <==> Refusal(f, tool).None?) &&
      (Refusal(f, tool).Some? ==> c'.tools == c.tools && c'.referenceTool == c.referenceTool) &&
      (Refusal(f, tool).None? && isReference ==> c'.tools == c.tools && c'.referenceTool == Some(tool)) &&
      (Refusal(f, tool).None? && !isReference ==> c'.tools == c.tools + [tool] && c'.referenceTool == c.referenceTool)
  {
  }

  datatype AddRequest = AddRequest(tool: ToolConfiguration, isReference: bool)

  /** A series of additions, in order. */
  function AddAll(c: Configuration, f: Family, requests: seq<AddRequest>): Configuration
    decreases |requests|
  {
    if requests == [] then c
    else AddAll(Add(c, f, requests[0].tool, requests[0].isReference), f, requests[1..])
  }

  /** The ordinary tools a series of additions leaves in the list, in the
      order they were added. */
  function TakenTools(f: Family, requests: seq<AddRequest>): seq<ToolConfiguration>
    decreases |requests|
  {
    if requests == [] then []
    else
      var r := requests[0];
      (if !r.isReference && Refusal(f, r.tool).None? then [r.tool] else []) + TakenTools(f, requests[1..])
  }

  /** The last reference tool a series of additions takes, if any. */
  function LastReference(f: Family, requests: seq<AddRequest>): Option<ToolConfiguration>
    decreases |requests|
  {
    if requests == [] then None
    else
      var r := requests[|requests| - 1];
      if r.isReference && Refusal(f, r.tool).None? then Some(r.tool)
      else LastReference(f, requests[..|requests| - 1])
  }

  /** After a series of additions the list holds the earlier tools followed
      by every ordinary tool the tracker took, in order; the reference tool
      is the last one it took, or the earlier one if it took none; the
      frequency is untouched and every request left exactly one event. */
  lemma {:induction false} AddAllOutcome(c: Configuration, f: Family, requests: seq<AddRequest>)
    ensures var c' := AddAll(c, f, requests);
      c'.tools == c.tools + TakenTools(f, requests) &&
      c'.referenceTool == (if LastReference(f, requests).Some? then LastReference(f, requests) else c.referenceTool) &&
      c'.frequency == c.frequency &&
      |c'.events| == |c.events| + |requests|
    decreases |requests|
  {
    if requests != [] {
      var r := requests[0];
      var c1 := Add(c, f, r.tool, r.isReference);
      AddAllOutcome(c1, f, requests[1..]);
      assert c.tools + TakenTools(f, requests) ==
        c.tools + (if !r.isReference && Refusal(f, r.tool).None? then [r.tool] else []) + TakenTools(f, requests[1..]);
      LastReferenceOfTail(f, requests);
    }
  }

  /** The last reference of a non-empty series, read from its tail. */
  lemma {:induction false} LastReferenceOfTail(f: Family, requests: seq<AddRequest>)
    requires requests != []
    ensures LastReference(f, requests) ==
      if LastReference(f, requests[1..]).Some? then LastReference(f, requests[1..])
      else if requests[0].isReference && Refusal(f, requests[0].tool).None? then Some(requests[0].tool)
      else None
    decreases |requests|
  {
    var n := |requests|;
    if n == 1 {
      assert requests[1..] == [];
      assert requests[..n - 1] == [];
    } else {
      assert requests[1..][..n - 2] == requests[..n - 1][1..];
      assert requests[1..][n - 2] == requests[n - 1];
      LastReferenceOfTail(f, requests[..n - 1]);
    }
  }

  /** A Polaris tracker configuration: its frequency, tool list and
      reference tool, updated in place as tools are added. */
  class PolarisTrackerConfiguration {
    const family: Family
    var frequency: real
    var trackerToolList: seq<ToolConfiguration>
    var referenceTool: Option<ToolConfiguration>
    var events: seq<Event>

    function Snapshot(): Configuration
      reads this
    {
      Configuration(frequency, trackerToolList, referenceTool, events)
    }

    /** A new configuration runs at the tracker's highest refresh rate,
        with no tools and no reference tool. */
    constructor (f: Family)
      ensures family == f && Snapshot() == Configuration(MaximalRefreshRate(f), [], None, [])
    {
      family := f;
      frequency := MaximalRefreshRate(f);
      trackerToolList := [];
      referenceTool := None;
      events := [];
    }

    method GetMaximalRefreshRate() returns (rate: real)
      ensures rate == MaximalRefreshRate(family)
      ensures rate > 0.0 && (family == Vicra ==> rate == 20.0) && (family == Hybrid ==> rate == 60.0)
    {
      rate := if family == Vicra then 20.0 else 60.0;
    }

    /** Checks the tool against the tracker and stores a copy of it. */
    method InternalAddTool(tool: ToolConfiguration, isReference: bool)
      modifies this
      ensures Snapshot() == Add(old(Snapshot()), family, tool, isReference)
    {
      var failure: Option<Failure> := None;
      match tool {
        case OtherTool(_) =>
          failure := Some(IncompatibleTool);
        case Wireless(srom) =>
          if srom == "" {
            failure := Some(MissingSromFile);
          }
        case Wired(port, _) =>
          if family == Vicra {
            failure := Some(IncompatibleTool);
          } else if port >= MaximalPortNumber {
            failure := Some(InvalidPortNumber);
          }
      }
      if failure.Some? {
        events := events + [AddToolFailureEvent(failure.value)];
        return;
      }
      if !isReference {
        trackerToolList := trackerToolList + [tool];
      } else {
        referenceTool := Some(tool);
      }
      events := events + [AddToolSuccessEvent];
    }
  }
}
