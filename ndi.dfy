/**
 * The NDI command interpreter as the Polaris and Aurora trackers see it, and
 * the per-port logic the two trackers share.
 *
 * The interpreter itself is not part of this model.  It is represented by a
 * Script: the answers the device gives to each handle query, the tool
 * information, location and status it reports for each port handle, the
 * transforms it reports to TX, and the error code it answers to each
 * command.  A CommandInterpreter object replays the script and records every
 * command it is sent.
 */
module Ndi {
  import opened Wrappers
  import opened Transforms

  // Bits of the port status word, with the values of the NDI host API.
  const TOOL_IN_PORT: bv32 := 0x01
  const INITIALIZED: bv32 := 0x10
  const ENABLED: bv32 := 0x20
  const OUT_OF_VOLUME: bv32 := 0x40
  /** The flags a port must carry for its tool to be reported. */
  const TRACKABLE: bv32 := TOOL_IN_PORT | INITIALIZED | ENABLED

  // Tool type codes found at index 1 of the PHINF tool information.
  const TYPE_REFERENCE: char := 1 as char
  const TYPE_BUTTON: char := 3 as char

  datatype ResultType = Success | Failure

  /** The handle lists a PHSR command can ask for. */
  datatype HandleQuery = StaleHandles | UninitializedHandles | UnenabledHandles | AllHandles | EnabledHandles

  datatype EnableMode = StaticMode | DynamicMode | ButtonBoxMode

  /** The reply options of PHINF: basic information only, or basic
      information with port location and part number. */
  datatype InfoReply = BasicInfo | LocationInfo

  datatype Command =
    | PHSR(query: HandleQuery)
    | PHF(handle: int)
    | PINIT(handle: int)
    | PHINF(handle: int, reply: InfoReply)
    | PENA(handle: int, mode: EnableMode)
    | PDIS(handle: int)
    | PHRQ(port: string)
    | PVWR(handle: int, address: nat, hex: string)
    | TX

  /** The eight values TX reports for a port: a quaternion with its scalar
      part first, a position, and an error estimate. */
  datatype Record = Record(q0: real, q1: real, q2: real, q3: real, tx: real, ty: real, tz: real, error: real)

  /** The record every port is reset to before a TX query. */
  const ResetRecord: Record := Record(1.0, 0.0, 0.0, 0.0, 0.0, 0.0, 0.0, 0.0)

  /** What the device answers. */
  datatype Script = Script(
    stale: seq<int>,
    initRounds: seq<seq<int>>,   // successive answers to the query for uninitialised handles
    unenabled: seq<int>,
    all: seq<int>,
    enabled: seq<int>,
    toolInfo: int -> string,
    portLocation: int -> string,
    portStatus: int -> bv32,
    phrqHandle: int,
    txTransform: int -> Record,
    txValid: int -> bool,
    txPortStatus: int -> bv32,
    errorOf: Command -> int)

  /** The handles a PHSR query returns, `taken` being the number of answers
      to the uninitialised-handles query given so far; once the scripted
      answers are used up the device reports no uninitialised handle. */
  function Reply(s: Script, q: HandleQuery, taken: nat): seq<int>
  {
    match q
    case StaleHandles => s.stale
    case UninitializedHandles => if taken < |s.initRounds| then s.initRounds[taken] else []
    case UnenabledHandles => s.unenabled
    case AllHandles => s.all
    case EnabledHandles => s.enabled
  }

  class CommandInterpreter {
    const script: Script
    var roundsTaken: nat
    var error: int
    var sent: seq<Command>

    ghost predicate Valid()
      reads this
    {
      roundsTaken <= |script.initRounds|
    }

    constructor (s: Script)
      ensures Valid() && script == s && roundsTaken == 0 && error == 0 && sent == []
    {
      script := s;
      roundsTaken := 0;
      error := 0;
      sent := [];
    }

    /** Sends a command that returns no handle list. */
    method Send(c: Command)
      requires Valid()
      modifies this
      ensures Valid()
      ensures sent == old(sent) + [c] && error == script.errorOf(c) && roundsTaken == old(roundsTaken)
    {
      sent := sent + [c];
      error := script.errorOf(c);
    }

    method QueryHandles(q: HandleQuery) returns (handles: seq<int>)
      requires Valid()
      modifies this
      ensures Valid()
      ensures sent == old(sent) + [PHSR(q)] && error == script.errorOf(PHSR(q))
      ensures handles == Reply(script, q, old(roundsTaken))
      ensures roundsTaken == if q == UninitializedHandles && old(roundsTaken) < |script.initRounds|
                             then old(roundsTaken) + 1 else old(roundsTaken)
    {
      handles := Reply(script, q, roundsTaken);
      if q == UninitializedHandles && roundsTaken < |script.initRounds| {
        roundsTaken := roundsTaken + 1;
      }
      sent := sent + [PHSR(q)];
      error := script.errorOf(PHSR(q));
    }
  }

  // ------------------------------------------------------------ enabling

  /** A character of a reply string; past its end the reply reads as NUL. */
  function CharAt(s: string, i: nat): char
  {
    if i < |s| then s[i] else 0 as char
  }

  /** The enable mode chosen from a tool's type code. */
  function ModeFor(toolInfo: string): (m: EnableMode)
    ensures m == ButtonBoxMode <==> CharAt(toolInfo, 1) == TYPE_BUTTON
    ensures m == StaticMode <==> CharAt(toolInfo, 1) == TYPE_REFERENCE
  {
    var t := CharAt(toolInfo, 1);
    if t == TYPE_BUTTON then ButtonBoxMode
    else if t == TYPE_REFERENCE then StaticMode
    else DynamicMode
  }

  /** PHF for every stale handle, in order. */
  function FreeCommands(hs: seq<int>): (r: seq<Command>)
    ensures |r| == |hs| && forall i :: 0 <= i < |hs| ==> r[i] == PHF(hs[i])
  {
    seq(|hs|, i requires 0 <= i < |hs| => PHF(hs[i]))
  }

  /** The PINITs of one round: handles in order, up to and including the
      first one the device refuses. */
  function InitRoundCommands(s: Script, hs: seq<int>): seq<Command>
    decreases |hs|
  {
    if hs == [] then []
    else if s.errorOf(PINIT(hs[0])) != 0 then [PINIT(hs[0])]
    else [PINIT(hs[0])] + InitRoundCommands(s, hs[1..])
  }

  /** The initialisation loop, given the answers still to come: query, try
      the round, and repeat while the query returned any handle. */
  function InitLoopCommands(s: Script, rounds: seq<seq<int>>): seq<Command>
    decreases |rounds|
  {
    if rounds == [] then [PHSR(UninitializedHandles)]
    else [PHSR(UninitializedHandles)] + InitRoundCommands(s, rounds[0]) +
         (if rounds[0] == [] then [] else InitLoopCommands(s, rounds[1..]))
  }

  /** The number of answers the initialisation loop consumes; it stops
      early only at an empty answer (see `RoundsUsedStopsAtFirstEmpty`). */
  function RoundsUsed(rounds: seq<seq<int>>): (n: nat)
    ensures n <= |rounds|
    decreases |rounds|
  {
    if rounds == [] then 0
    else if rounds[0] == [] then 1
    else 1 + RoundsUsed(rounds[1..])
  }

  /** The loop consumes every answer up to and including the first empty
      one, or all of them when none is empty. */
  lemma {:induction false} RoundsUsedStopsAtFirstEmpty(rounds: seq<seq<int>>)
    ensures RoundsUsed(rounds) < |rounds| ==> 0 < RoundsUsed(rounds) && rounds[RoundsUsed(rounds) - 1] == []
    ensures forall k :: 0 <= k < RoundsUsed(rounds) - 1 ==> rounds[k] != []
    ensures (exists k :: 0 <= k < |rounds| && rounds[k] == []) <==>
      0 < RoundsUsed(rounds) && rounds[RoundsUsed(rounds) - 1] == []
    decreases |rounds|
  {
    if rounds != [] && rounds[0] != [] {
      RoundsUsedStopsAtFirstEmpty(rounds[1..]);
      assert forall k :: 1 <= k < |rounds| ==> rounds[k] == rounds[1..][k - 1];
    }
  }

  /** PHINF then PENA for every initialised handle, in order. */
  function EnableCommands(s: Script, hs: seq<int>): (r: seq<Command>)
    ensures |r| == 2 * |hs|
    decreases |hs|
  {
    if hs == [] then []
    else var h := hs[|hs| - 1];
      EnableCommands(s, hs[..|hs| - 1]) + [PHINF(h, BasicInfo), PENA(h, ModeFor(s.toolInfo(h)))]
  }

  /** PHINF with location for every handle, in order. */
  function LocationCommands(hs: seq<int>): (r: seq<Command>)
    ensures |r| == |hs| && forall i :: 0 <= i < |hs| ==> r[i] == PHINF(hs[i], LocationInfo)
  {
    seq(|hs|, i requires 0 <= i < |hs| => PHINF(hs[i], LocationInfo))
  }

  /** PDIS for every enabled handle, in order. */
  function DisableCommands(hs: seq<int>): (r: seq<Command>)
    ensures |r| == |hs| && forall i :: 0 <= i < |hs| ==> r[i] == PDIS(hs[i])
  {
    seq(|hs|, i requires 0 <= i < |hs| => PDIS(hs[i]))
  }

  function FreePhase(s: Script): seq<Command> { [PHSR(StaleHandles)] + FreeCommands(s.stale) }

  function EnablePhase(s: Script): seq<Command> { [PHSR(UnenabledHandles)] + EnableCommands(s, s.unenabled) }

  function LocationPhase(s: Script): seq<Command> { [PHSR(AllHandles)] + LocationCommands(s.all) }

  /** Everything EnableToolPorts sends, `taken` being the answers to the
      uninitialised-handles query already consumed. */
  function EnableToolPortsCommands(s: Script, taken: nat): seq<Command>
    requires taken <= |s.initRounds|
  {
    FreePhase(s) + InitLoopCommands(s, s.initRounds[taken..]) + EnablePhase(s) + LocationPhase(s)
  }

  /** The initialisation round of every answer before the first empty one
      starts: a refused PINIT ends its own round only. */
  lemma {:induction false} EveryRoundStarts(s: Script, rounds: seq<seq<int>>, j: nat)
    requires j < |rounds| && rounds[j] != []
    requires forall k :: 0 <= k < j ==> rounds[k] != []
    ensures PINIT(rounds[j][0]) in InitLoopCommands(s, rounds)
  {
    var rest := InitLoopCommands(s, rounds);
    if j == 0 {
      assert InitRoundCommands(s, rounds[0])[0] == PINIT(rounds[0][0]);
      assert rest[1] == PINIT(rounds[0][0]);
    } else {
      assert rounds[0] != [];
      EveryRoundStarts(s, rounds[1..], j - 1);
      var tail := InitLoopCommands(s, rounds[1..]);
      var head := [PHSR(UninitializedHandles)] + InitRoundCommands(s, rounds[0]);
      assert rest == head + tail;
      var i :| 0 <= i < |tail| && tail[i] == PINIT(rounds[j][0]);
      assert rest[|head| + i] == PINIT(rounds[j][0]);
    }
  }

  /** A round stops exactly at its first refused PINIT: every handle before
      the last one tried was accepted. */
  lemma {:induction false} RoundStopsAtFirstRefusal(s: Script, hs: seq<int>)
    ensures |InitRoundCommands(s, hs)| <= |hs|
    ensures forall i :: 0 <= i < |InitRoundCommands(s, hs)| ==> InitRoundCommands(s, hs)[i] == PINIT(hs[i])
    ensures forall i :: 0 <= i < |InitRoundCommands(s, hs)| - 1 ==> s.errorOf(PINIT(hs[i])) == 0
    ensures |InitRoundCommands(s, hs)| < |hs| ==> s.errorOf(PINIT(hs[|InitRoundCommands(s, hs)| - 1])) != 0
    decreases |hs|
  {
    if hs != [] && s.errorOf(PINIT(hs[0])) == 0 {
      RoundStopsAtFirstRefusal(s, hs[1..]);
    }
  }

  // ------------------------------------------------------- port locations

  /** How a tracker names its ports in a location string: Polaris uses a
      letter for passive (virtual SROM) ports and two digits otherwise;
      Aurora always uses two digits. */
  datatype PortNaming = LettersOrDigits | DigitsOnly

  const TwoTo32: int := 0x1_0000_0000

  /** An integer stored in an unsigned 32-bit variable. */
  function Unsigned(x: int): nat
  {
    x % TwoTo32
  }

  /** The port index decoded from characters 10 and 11 of a location. */
  function DecodePort(naming: PortNaming, location: string): (r: nat)
    ensures r < TwoTo32
    ensures naming == LettersOrDigits && CharAt(location, 11) >= 'A' ==> r >= 3
    ensures (naming == DigitsOnly || CharAt(location, 11) < 'A') &&
            '0' <= CharAt(location, 10) <= '9' && '0' <= CharAt(location, 11) <= '9' ==>
      (r == TwoTo32 - 1 <==> CharAt(location, 10) == '0' && CharAt(location, 11) == '0') &&
      (r != TwoTo32 - 1 ==> r < 99)
  {
    var c10, c11 := CharAt(location, 10) as int, CharAt(location, 11) as int;
    if naming == LettersOrDigits && c11 >= 'A' as int then Unsigned(c11 - 'A' as int + 3)
    else Unsigned((c10 - '0' as int) * 10 + (c11 - '0' as int) - 1)
  }

  /** The two-character identifier by which a virtual SROM is requested for
      a port: "0" followed by the port's letter. */
  function PortIdentifier(tool: nat): string
  {
    ['0', ((tool + ('A' as int) - 3) % 256) as char]
  }

  /** A passive port's letter decodes back to the port. */
  lemma PortLetterRoundTrip(tool: nat, location: string)
    requires 3 <= tool < 3 + 26
    requires |location| >= 12 && location[11] == PortIdentifier(tool)[1]
    ensures DecodePort(LettersOrDigits, location) == tool
  {
  }

  /** Two digits "01" to "99" decode to the ports 0 to 98, for either naming. */
  lemma DigitsDecode(naming: PortNaming, location: string, d10: nat, d11: nat)
    requires d10 < 10 && d11 < 10 && 1 <= 10 * d10 + d11
    requires |location| >= 12 && location[10] == (d10 + '0' as int) as char && location[11] == (d11 + '0' as int) as char
    ensures DecodePort(naming, location) == 10 * d10 + d11 - 1
  {
  }

  /** The port-to-handle and port-to-enabled tables. */
  datatype PortTable = PortTable(handles: seq<int>, enabled: seq<bool>)

  function EmptyTable(n: nat): (t: PortTable)
    ensures |t.handles| == |t.enabled| == n
    ensures forall p :: 0 <= p < n ==> t.handles[p] == 0 && !t.enabled[p]
  {
    PortTable(seq(n, _ => 0), seq(n, _ => false))
  }

  predicate Described(s: Script, h: int)
  {
    s.errorOf(PHINF(h, LocationInfo)) == 0
  }

  /** One pass of the location loop: a described handle is stored at the
      port its location names, when that port exists. */
  function RecordLocation(s: Script, naming: PortNaming, t: PortTable, h: int): PortTable
    requires |t.handles| == |t.enabled|
  {
    if !Described(s, h) then t
    else
      var p := DecodePort(naming, s.portLocation(h));
      if p < |t.handles| then PortTable(t.handles[p := h], t.enabled[p := s.portStatus(h) & ENABLED != 0])
      else t
  }

  /** The tables after the location loop has seen `hs`. */
  function TableAfter(s: Script, naming: PortNaming, n: nat, hs: seq<int>): (t: PortTable)
    ensures |t.handles| == |t.enabled| == n
    decreases |hs|
  {
    if hs == [] then EmptyTable(n)
    else RecordLocation(s, naming, TableAfter(s, naming, n, hs[..|hs| - 1]), hs[|hs| - 1])
  }

  /** The location loop one handle further on. */
  lemma TableAfterStep(s: Script, naming: PortNaming, n: nat, hs: seq<int>, i: nat)
    requires i < |hs|
    ensures TableAfter(s, naming, n, hs[..i + 1]) == RecordLocation(s, naming, TableAfter(s, naming, n, hs[..i]), hs[i])
  {
    assert hs[..i + 1][..i] == hs[..i];
  }

  lemma LocationCommandsStep(hs: seq<int>, i: nat)
    requires i < |hs|
    ensures LocationCommands(hs[..i + 1]) == LocationCommands(hs[..i]) + [PHINF(hs[i], LocationInfo)]
  {
  }

  /** The last handle of `hs` that the device described and whose location
      names port p. */
  function LastLocatedAt(s: Script, naming: PortNaming, hs: seq<int>, p: nat): (r: Option<int>)
    ensures r.Some? ==> r.value in hs && Described(s, r.value) && DecodePort(naming, s.portLocation(r.value)) == p
    decreases |hs|
  {
    if hs == [] then None
    else
      var h := hs[|hs| - 1];
      if Described(s, h) && DecodePort(naming, s.portLocation(h)) == p then Some(h)
      else LastLocatedAt(s, naming, hs[..|hs| - 1], p)
  }

  /** Each port holds the handle of the last described tool located there,
      and that tool's enabled bit; a port no tool names holds handle 0 and
      is not enabled. */
  lemma {:induction false} TableAfterAt(s: Script, naming: PortNaming, n: nat, hs: seq<int>, p: nat)
    requires p < n
    ensures var t := TableAfter(s, naming, n, hs);
      match LastLocatedAt(s, naming, hs, p)
      case Some(h) => t.handles[p] == h && t.enabled[p] == (s.portStatus(h) & ENABLED != 0)
      case None => t.handles[p] == 0 && !t.enabled[p]
    decreases |hs|
  {
    if hs != [] {
      TableAfterAt(s, naming, n, hs[..|hs| - 1], p);
    }
  }

  // ----------------------------------------------------- virtual SROMs

  newtype byte = b: int | 0 <= b < 256

  const SromSize: nat := 1024
  const ChunkSize: nat := 64

  /** The SROM image: the file's first 1024 bytes, zero-padded. */
  function Padded(content: seq<byte>): (data: seq<byte>)
    ensures |data| == SromSize
    ensures forall i :: 0 <= i < SromSize ==> data[i] == if i < |content| then content[i] else 0
  {
    if |content| >= SromSize then content[..SromSize]
    else content + seq(SromSize - |content|, _ => 0)
  }

  /** The upper-case hexadecimal digit of a nibble. */
  function HexDigit(n: int): char
    requires 0 <= n < 16
  {
    if n < 10 then ('0' as int + n) as char else ('A' as int + n - 10) as char
  }

  function HexEncode(data: seq<byte>): (r: string)
    ensures |r| == 2 * |data|
  {
    if data == [] then []
    else [HexDigit(data[0] as int / 16), HexDigit(data[0] as int % 16)] + HexEncode(data[1..])
  }

  function HexValue(c: char): (v: int)
    ensures 0 <= v < 16
  {
    if '0' <= c <= '9' then c as int - '0' as int
    else if 'A' <= c <= 'F' then c as int - 'A' as int + 10
    else 0
  }

  function HexDecode(s: string): seq<byte>
    requires |s| % 2 == 0
  {
    if s == [] then []
    else [(16 * HexValue(s[0]) + HexValue(s[1])) as byte] + HexDecode(s[2..])
  }

  lemma HexByteRoundTrip(b: byte)
    ensures 16 * HexValue(HexDigit(b as int / 16)) + HexValue(HexDigit(b as int % 16)) == b as int
  {
  }

  lemma {:induction false} HexRoundTrip(data: seq<byte>)
    ensures HexDecode(HexEncode(data)) == data
  {
    if data != [] {
      HexByteRoundTrip(data[0]);
      HexRoundTrip(data[1..]);
      var e := HexEncode(data);
      assert e[2..] == HexEncode(data[1..]);
    }
  }

  /** The sixteen PVWR writes of an SROM image, 64 bytes each. */
  function SromWrites(ph: int, data: seq<byte>): (r: seq<Command>)
    requires |data| == SromSize
    ensures |r| == SromSize / ChunkSize
    ensures forall k :: 0 <= k < |r| ==>
      r[k] == PVWR(ph, k * ChunkSize, HexEncode(data[k * ChunkSize..k * ChunkSize + ChunkSize]))
  {
    seq(SromSize / ChunkSize, k requires 0 <= k < SromSize / ChunkSize =>
      PVWR(ph, k * ChunkSize, HexEncode(data[k * ChunkSize..k * ChunkSize + ChunkSize])))
  }

  /** Every write carries the image slice at its address, recoverable from
      the hex text. */
  lemma WritesCarryTheImage(ph: int, content: seq<byte>, k: nat)
    requires k < SromSize / ChunkSize
    ensures var w := SromWrites(ph, Padded(content))[k];
      w.address == k * ChunkSize && |w.hex| == 2 * ChunkSize &&
      HexDecode(w.hex) == Padded(content)[k * ChunkSize..k * ChunkSize + ChunkSize]
  {
    HexRoundTrip(Padded(content)[k * ChunkSize..k * ChunkSize + ChunkSize]);
  }

  // ---------------------------------------------------- status reporting

  /** Whether a port's tool is reported: the port carries TOOL_IN_PORT,
      INITIALIZED and ENABLED, the tool is not absent and not out of volume. */
  predicate Reportable(status: bv32, absent: bool)
  {
    status & TRACKABLE == TRACKABLE && !absent && status & OUT_OF_VOLUME == 0
  }

  lemma ReportableNeedsEachFlag(status: bv32, absent: bool)
    ensures Reportable(status, absent) <==>
      status & TOOL_IN_PORT != 0 && status & INITIALIZED != 0 && status & ENABLED != 0 &&
      !absent && status & OUT_OF_VOLUME == 0
  {
  }

  const NearZero: real := 0.000001
  /** The validity period of a reported transform, in milliseconds. */
  const ValidityTime: real := 100.0

  function NormSquared(r: Record): real
  {
    r.q0 * r.q0 + r.q1 * r.q1 + r.q2 * r.q2 + r.q3 * r.q3
  }

  /** The rotation handed to Versor::Set as the code is written: the record's
      four values in their record order (scalar first) where Set expects
      x, y, z, w; and (1, 0, 0, 0) for a near-zero quaternion. */
  function BufferRotationAsWritten(r: Record): (q: Versor)
    ensures NormSquared(r) < NearZero ==> q == HalfTurnAboutX
    ensures NormSquared(r) >= NearZero ==> q.x == r.q0
    ensures SquaredNorm(q) == if NormSquared(r) < NearZero then 1.0 else NormSquared(r)
  {
    if NormSquared(r) < NearZero then Versor(1.0, 0.0, 0.0, 0.0)
    else Versor(r.q0, r.q1, r.q2, r.q3)
  }

  /** The versor (1, 0, 0, 0): half a turn about x. */
  const HalfTurnAboutX: Versor := Versor(1.0, 0.0, 0.0, 0.0)

  /** The rotation matrix of the half turn about x. */
  const HalfTurnMatrix: Matrix3 := Matrix3(Vec3(1.0, 0.0, 0.0), Vec3(0.0, -1.0, 0.0), Vec3(0.0, 0.0, -1.0))

  lemma HalfTurnAboutXMatrix()
    ensures RotationMatrix(HalfTurnAboutX) == HalfTurnMatrix
  {
  }

  lemma HalfTurnMatrixFlipsY()
    ensures Apply(HalfTurnMatrix, Vec3(0.0, 1.0, 0.0)) == Vec3(0.0, -1.0, 0.0)
  {
  }

  lemma HalfTurnAboutXFlipsY()
    ensures Rotate(HalfTurnAboutX, Vec3(0.0, 1.0, 0.0)) == Vec3(0.0, -1.0, 0.0)
  {
    HalfTurnAboutXMatrix();
    HalfTurnMatrixFlipsY();
  }

  /** As written, the record that the reset calls the identity gives a
      rotation by half a turn about x, and so does a null quaternion. */
  lemma ResetRecordNotIdentityAsWritten()
    ensures BufferRotationAsWritten(ResetRecord) != IdentityVersor
    ensures Rotate(BufferRotationAsWritten(ResetRecord), Vec3(0.0, 1.0, 0.0)) == Vec3(0.0, -1.0, 0.0)
    ensures Rotate(BufferRotationAsWritten(Record(0.0, 0.0, 0.0, 0.0, 0.0, 0.0, 0.0, 0.0)), Vec3(0.0, 1.0, 0.0)) == Vec3(0.0, -1.0, 0.0)
  {
    ResetRecordRotationAsWritten();
    HalfTurnAboutXFlipsY();
  }

  lemma ResetRecordRotationAsWritten()
    ensures BufferRotationAsWritten(ResetRecord) == HalfTurnAboutX
    ensures BufferRotationAsWritten(Record(0.0, 0.0, 0.0, 0.0, 0.0, 0.0, 0.0, 0.0)) == HalfTurnAboutX
  {
  }

  /** The rotation as intended: the record's scalar-first quaternion put in
      the order x, y, z, w; a near-zero quaternion becomes the identity. */
  function BufferRotation(r: Record): (q: Versor)
    ensures NormSquared(r) < NearZero ==> q == IdentityVersor
    ensures NormSquared(r) >= NearZero ==> q.w == r.q0 && Vec3(q.x, q.y, q.z) == Vec3(r.q1, r.q2, r.q3)
    ensures SquaredNorm(q) == if NormSquared(r) < NearZero then 1.0 else NormSquared(r)
  {
    if NormSquared(r) < NearZero then IdentityVersor
    else Versor(r.q1, r.q2, r.q3, r.q0)
  }

  /** As written, every record is misread, not only the null and reset
      ones: the reported rotation agrees with the intended one only when
      the four quaternion values are all equal. */
  lemma {:induction false} BufferRotationReordersAsWritten(r: Record)
    requires NormSquared(r) >= NearZero
    ensures BufferRotationAsWritten(r) == BufferRotation(r) <==> r.q0 == r.q1 == r.q2 == r.q3
  {
    assert BufferRotationAsWritten(r) == Versor(r.q0, r.q1, r.q2, r.q3);
    assert BufferRotation(r) == Versor(r.q1, r.q2, r.q3, r.q0);
  }

  lemma {:induction false} ResetRecordIsIdentity(v: Vec3)
    ensures BufferRotation(ResetRecord) == IdentityVersor
    ensures Rotate(BufferRotation(ResetRecord), v) == v
  {
    IdentityRotatesNothing(v);
  }

  /** The transform reported for a port record at time `now`. */
  function BufferTransform(r: Record, now: real): (t: TransformValue)
    ensures t.error == r.error && t.translation == Vec3(r.tx, r.ty, r.tz) && t.rotation == BufferRotation(r)
    ensures forall time :: IsValidAtTime(t, time) <==> now <= time < now + ValidityTime
  {
    TransformValue(r.error, Vec3(r.tx, r.ty, r.tz), BufferRotation(r), StampFrom(now, ValidityTime))
  }

  /** What the port table reports for a port with handle `h` after a
      successful TX: the port's record, absent flag and status. */
  function TxReading(s: Script, h: int): (Record, bool, bv32)
  {
    if h == 0 then (ResetRecord, false, 0) else (s.txTransform(h), !s.txValid(h), s.txPortStatus(h))
  }

  /** The number of enabled ports. */
  function CountTrue(s: seq<bool>): (n: nat)
    ensures n <= |s|
    decreases |s|
  {
    if s == [] then 0 else CountTrue(s[..|s| - 1]) + (if s[|s| - 1] then 1 else 0)
  }

  function EnabledPorts(s: seq<bool>): set<nat>
  {
    set p: nat | p < |s| && s[p]
  }

  lemma {:induction false} CountIsEnabledPorts(s: seq<bool>)
    ensures CountTrue(s) == |EnabledPorts(s)|
    decreases |s|
  {
    if s != [] {
      var init := s[..|s| - 1];
      CountIsEnabledPorts(init);
      var last: nat := |s| - 1;
      if s[last] {
        assert EnabledPorts(s) == EnabledPorts(init) + {last};
      } else {
        assert EnabledPorts(s) == EnabledPorts(init);
      }
    }
  }
}
