/**
 * The Polaris optical tracker: twelve ports (three active, nine passive
 * ports "A" to "I" that need a virtual SROM), per-port tables that
 * EnableToolPorts fills from the device, a transform buffer refilled after
 * each TX query, and the SROM files attached to passive ports.
 */
module PolarisTracking {
  import opened Wrappers
  import opened Transforms
  import opened Ndi
  import opened NdiTracking

  /** The number of ports of a Polaris: 3 active and 9 passive. */
  const NumberOfPorts: nat := 12

  /** The first passive port; ports below it are active and take no SROM. */
  const FirstPassivePort: nat := 3

  // ------------------------------------------- attaching an SROM file name

  /** The guard of AttachSROMFileNameToPort as written: it admits
      NumberOfPorts, one past the last entry of the file-name array. */
  predicate AttachGuardAsWritten(port: nat)
  {
    FirstPassivePort <= port <= NumberOfPorts
  }

  /** The guard as intended: passive ports only, and only existing ones. */
  predicate AttachGuard(port: nat)
  {
    FirstPassivePort <= port < NumberOfPorts
  }

  /** The two guards differ on exactly one port, the one past the end. */
  lemma AttachGuardAsWrittenAdmitsOnePastTheEnd(port: nat)
    ensures AttachGuardAsWritten(port) && !AttachGuard(port) <==> port == NumberOfPorts
    ensures AttachGuard(port) ==> AttachGuardAsWritten(port)
  {
  }

  // --------------------------------------------------- port-location write

  /** The index at which the location loop as written stores the enabled
      flag: the decoded port, with no bounds check. */
  function EnabledIndexAsWritten(location: string): nat
  {
    DecodePort(LettersOrDigits, location)
  }

  /** A location reading "00" wraps to 2^32 - 1 and a letter past "I"
      names a port that does not exist; the write as written lands outside
      the twelve-entry array for both, while the corrected table
      (`RecordLocation`) leaves every port as it was. */
  lemma EnabledWriteEscapesAsWritten(s: Script, t: PortTable, h: int)
    requires |t.handles| == |t.enabled| == NumberOfPorts
    requires Described(s, h)
    requires s.portLocation(h) == "0000000000" + "00" || s.portLocation(h) == "0000000000" + "0Z"
    ensures EnabledIndexAsWritten(s.portLocation(h)) >= NumberOfPorts
    ensures RecordLocation(s, LettersOrDigits, t, h) == t
  {
    var loc := s.portLocation(h);
    assert loc[10] == '0';
    if loc[11] == '0' {
      assert EnabledIndexAsWritten(loc) == TwoTo32 - 1;
    } else {
      assert loc[11] == 'Z';
      assert EnabledIndexAsWritten(loc) == 28;
    }
  }

  // ------------------------------------------------ command specifications

  /** The commands LoadVirtualSROM sends for port `tool` and the file
      contents `file` (None when the file cannot be opened): nothing for a
      missing file; otherwise PHRQ for the port's identifier, then, unless
      PHRQ failed, the sixteen writes of the padded image. */
  function LoadCommands(s: Script, tool: nat, file: Option<seq<byte>>): (r: seq<Command>)
    ensures file.None? ==> r == []
    ensures file.Some? ==> |r| >= 1 && r[0] == PHRQ(PortIdentifier(tool))
  {
    match file
    case None => []
    case Some(content) =>
      var q := PHRQ(PortIdentifier(tool));
      [q] + (if s.errorOf(q) != 0 then [] else SromWrites(s.phrqHandle, Padded(content)))
  }

  /** The SROM loads of activation for the ports `names` names, in port
      order; a port with an empty name loads nothing. */
  function ActivationLoads(s: Script, names: seq<string>, files: string -> Option<seq<byte>>): seq<Command>
    decreases |names|
  {
    if names == [] then []
    else
      var last := |names| - 1;
      ActivationLoads(s, names[..last], files) +
      (if names[last] == "" then [] else LoadCommands(s, last, files(names[last])))
  }

  /** Extending the names by one port adds that port's load at the end. */
  lemma ActivationLoadsStep(s: Script, names: seq<string>, i: nat, files: string -> Option<seq<byte>>)
    requires i < |names|
    ensures ActivationLoads(s, names[..i + 1], files) ==
      ActivationLoads(s, names[..i], files) + (if names[i] == "" then [] else LoadCommands(s, i, files(names[i])))
  {
    assert names[..i + 1][..i] == names[..i];
  }

  /** The PHF commands of deactivation: one per port with an SROM name,
      freeing the handle that port held. */
  function ClearCommands(handles: seq<int>, names: seq<string>): (r: seq<Command>)
    requires |handles| == |names|
    ensures |r| <= |names|
    decreases |names|
  {
    if names == [] then []
    else
      var last := |names| - 1;
      ClearCommands(handles[..last], names[..last]) +
      (if names[last] == "" then [] else [PHF(handles[last])])
  }

  /** Extending the ports by one adds that port's PHF, if any, at the end. */
  lemma ClearCommandsStep(handles: seq<int>, names: seq<string>, i: nat)
    requires |handles| == |names| && i < |names|
    ensures ClearCommands(handles[..i + 1], names[..i + 1]) ==
      ClearCommands(handles[..i], names[..i]) + (if names[i] == "" then [] else [PHF(handles[i])])
  {
    assert names[..i + 1][..i] == names[..i];
    assert handles[..i + 1][..i] == handles[..i];
  }

  /** A port without an SROM file name issues no PHF, so a tracker with no
      names attached frees nothing on deactivation. */
  lemma {:induction false} NoNamesNoClears(handles: seq<int>, names: seq<string>)
    requires |handles| == |names|
    requires forall p :: 0 <= p < |names| ==> names[p] == ""
    ensures ClearCommands(handles, names) == []
    decreases |names|
  {
    if names != [] {
      NoNamesNoClears(handles[..|names| - 1], names[..|names| - 1]);
    }
  }

  /** Every command of activation's SROM phase is a PHRQ or a PVWR. */
  lemma {:induction false} LoadsOnlyRequestAndWrite(s: Script, names: seq<string>, files: string -> Option<seq<byte>>)
    ensures forall c :: c in ActivationLoads(s, names, files) ==> c.PHRQ? || c.PVWR?
    decreases |names|
  {
    if names != [] {
      var last := |names| - 1;
      LoadsOnlyRequestAndWrite(s, names[..last], files);
      if names[last] != "" {
        var file := files(names[last]);
        if file.Some? {
          var w := SromWrites(s.phrqHandle, Padded(file.value));
          assert forall c :: c in w ==> c.PVWR?;
        }
      }
    }
  }

  /** Writes an SROM image to handle `ph`, 64 bytes at a time, each
      chunk hex-encoded and addressed by its offset. */
  method WriteVirtualSROM(ci: CommandInterpreter, ph: int, data: seq<byte>)
    requires ci.Valid() && |data| == SromSize
    modifies ci
    ensures ci.Valid() && ci.roundsTaken == old(ci.roundsTaken)
    ensures ci.sent == old(ci.sent) + SromWrites(ph, data)
  {
    ghost var writes := SromWrites(ph, data);
    ghost var k := 0;
    var i := 0;
    while i < 1024
      invariant 0 <= k <= 16 && i == 64 * k
      invariant ci.Valid() && ci.roundsTaken == old(ci.roundsTaken)
      invariant ci.sent == old(ci.sent) + writes[..k]
    {
      ci.Send(PVWR(ph, i, HexEncode(data[i..i + 64])));
      assert writes[k] == PVWR(ph, i, HexEncode(data[i..i + 64]));
      assert writes[..k + 1] == writes[..k] + [writes[k]];
      i, k := i + 64, k + 1;
    }
    assert writes[..k] == writes;
  }

  // ------------------------------------------------------------ the tracker

  class PolarisTracker {
    const interpreter: CommandInterpreter
    const portEnabled: array<bool>
    const portHandle: array<int>
    const transformBuffer: array<Record>
    const statusBuffer: array<bv32>
    const absentBuffer: array<bool>
    const sromFileNames: array<string>
    var numberOfTools: nat

    /** Every per-port array has NumberOfPorts entries, and they are
        separate arrays. */
    ghost predicate Valid()
      reads this, interpreter
    {
      interpreter.Valid() &&
      portEnabled.Length == NumberOfPorts && portHandle.Length == NumberOfPorts &&
      transformBuffer.Length == NumberOfPorts && statusBuffer.Length == NumberOfPorts &&
      absentBuffer.Length == NumberOfPorts && sromFileNames.Length == NumberOfPorts &&
      DistinctTables(portHandle, transformBuffer, statusBuffer, absentBuffer) &&
      portEnabled as object != portHandle && portEnabled as object != transformBuffer &&
      portEnabled as object != statusBuffer && portEnabled as object != absentBuffer &&
      sromFileNames as object != portEnabled && sromFileNames as object != portHandle &&
      sromFileNames as object != transformBuffer && sromFileNames as object != statusBuffer &&
      sromFileNames as object != absentBuffer
    }

    /** Every port starts disabled, with no handle and no SROM file. */
    constructor (s: Script)
      ensures Valid() && fresh(interpreter)
      ensures interpreter.script == s && interpreter.sent == [] && interpreter.roundsTaken == 0
      ensures numberOfTools == 0
      ensures forall p :: 0 <= p < NumberOfPorts ==>
        !portEnabled[p] && portHandle[p] == 0 && sromFileNames[p] == ""
    {
      interpreter := new CommandInterpreter(s);
      numberOfTools := 0;
      portEnabled := new bool[NumberOfPorts](_ => false);
      portHandle := new int[NumberOfPorts](_ => 0);
      transformBuffer := new Record[NumberOfPorts](_ => ResetRecord);
      statusBuffer := new bv32[NumberOfPorts](_ => 0);
      absentBuffer := new bool[NumberOfPorts](_ => false);
      sromFileNames := new string[NumberOfPorts](_ => "");
    }

    /** Records the SROM file for a passive port; any other port is ignored. */
    method AttachSROMFileNameToPort(port: nat, fileName: string)
      requires Valid()
      modifies sromFileNames
      ensures Valid()
      ensures AttachGuard(port) ==> sromFileNames[..] == old(sromFileNames[..])[port := fileName]
      ensures !AttachGuard(port) ==> sromFileNames[..] == old(sromFileNames[..])
    {
      if FirstPassivePort <= port < NumberOfPorts {
        sromFileNames[port] := fileName;
      }
    }

    /** Requests the handle of port `tool` and writes the SROM image to it
        in 64-byte chunks.  False when the file cannot be opened or the
        request fails. */
    method LoadVirtualSROM(tool: nat, file: Option<seq<byte>>) returns (loaded: bool)
      requires Valid()
      modifies interpreter
      ensures Valid() && interpreter.roundsTaken == old(interpreter.roundsTaken)
      ensures interpreter.sent == old(interpreter.sent) + LoadCommands(interpreter.script, tool, file)
      ensures loaded <==> file.Some? && interpreter.script.errorOf(PHRQ(PortIdentifier(tool))) == 0
    {
      if file.None? {
        return false;
      }
      var data := Padded(file.value);
      interpreter.Send(PHRQ(PortIdentifier(tool)));
      var ph := interpreter.script.phrqHandle;
      var r := CheckError(interpreter);
      if r == Failure {
        return false;
      }
      WriteVirtualSROM(interpreter, ph, data);
      return true;
    }

    /** Frees the handle of port `tool` and marks the port empty. */
    method ClearVirtualSROM(tool: nat)
      requires Valid() && tool < NumberOfPorts
      modifies interpreter, portEnabled, portHandle
      ensures Valid() && interpreter.roundsTaken == old(interpreter.roundsTaken)
      ensures interpreter.sent == old(interpreter.sent) + [PHF(old(portHandle[tool]))]
      ensures portEnabled[..] == old(portEnabled[..])[tool := false]
      ensures portHandle[..] == old(portHandle[..])[tool := 0]
    {
      var ph := portHandle[tool];
      interpreter.Send(PHF(ph));
      portEnabled[tool] := false;
      portHandle[tool] := 0;
    }

    /** Loads the SROM of every port that has a file name, in port order.
        `files` gives the contents of each file, None for one that cannot
        be opened. */
    method LoadAttachedSROMFiles(files: string -> Option<seq<byte>>)
      requires Valid()
      modifies interpreter
      ensures Valid() && interpreter.roundsTaken == old(interpreter.roundsTaken)
      ensures interpreter.sent == old(interpreter.sent) + ActivationLoads(interpreter.script, sromFileNames[..], files)
    {
      ghost var base := interpreter.sent;
      var names := sromFileNames[..];
      var i := 0;
      while i < |names|
        invariant 0 <= i <= |names|
        invariant Valid() && interpreter.roundsTaken == old(interpreter.roundsTaken)
        invariant interpreter.sent == base + ActivationLoads(interpreter.script, names[..i], files)
        invariant names == sromFileNames[..]
      {
        ActivationLoadsStep(interpreter.script, names, i, files);
        if names[i] != "" {
          var _ := LoadVirtualSROM(i, files(names[i]));
        }
        i := i + 1;
      }
      assert names[..i] == names;
    }

    /** Loads the SROM of every port that has a file name, enables the
        tool ports and counts the enabled ones. */
    method InternalActivateTools(files: string -> Option<seq<byte>>) returns (result: ResultType)
      requires Valid()
      modifies this, interpreter, portEnabled, portHandle
      ensures Valid() && result == Success
      ensures interpreter.sent == old(interpreter.sent) + ActivationLoads(interpreter.script, sromFileNames[..], files)
                                  + EnableToolPortsCommands(interpreter.script, old(interpreter.roundsTaken))
      ensures portHandle[..] == TableAfter(interpreter.script, LettersOrDigits, NumberOfPorts, interpreter.script.all).handles
      ensures portEnabled[..] == TableAfter(interpreter.script, LettersOrDigits, NumberOfPorts, interpreter.script.all).enabled
      ensures numberOfTools == CountTrue(portEnabled[..]) == |EnabledPorts(portEnabled[..])|
    {
      ghost var base := interpreter.sent;
      LoadAttachedSROMFiles(files);
      ghost var loads := ActivationLoads(interpreter.script, sromFileNames[..], files);
      EnableToolPorts(interpreter, LettersOrDigits, portHandle, portEnabled);
      numberOfTools := CountEnabled(portEnabled);
      AppendAssociates(base, loads, EnableToolPortsCommands(interpreter.script, old(interpreter.roundsTaken)));
      result := Success;
    }

    /** Clears the SROM of every port that has a file name, in port order. */
    method ClearAttachedSROMFiles()
      requires Valid()
      modifies interpreter, portEnabled, portHandle
      ensures Valid() && interpreter.roundsTaken == old(interpreter.roundsTaken)
      ensures interpreter.sent == old(interpreter.sent) + ClearCommands(old(portHandle[..]), sromFileNames[..])
      ensures forall p :: 0 <= p < NumberOfPorts ==>
        portHandle[p] == if sromFileNames[p] != "" then 0 else old(portHandle[p])
    {
      ghost var base := interpreter.sent;
      ghost var handles0 := portHandle[..];
      var names := sromFileNames[..];
      var i := 0;
      while i < |names|
        invariant 0 <= i <= |names| && names == sromFileNames[..]
        invariant Valid() && interpreter.roundsTaken == old(interpreter.roundsTaken)
        invariant interpreter.sent == base + ClearCommands(handles0[..i], names[..i])
        invariant forall p :: 0 <= p < NumberOfPorts ==>
          portHandle[p] == if p < i && names[p] != "" then 0 else handles0[p]
      {
        ClearCommandsStep(handles0, names, i);
        if names[i] != "" {
          ClearVirtualSROM(i);
        }
        i := i + 1;
      }
      assert names[..i] == names;
      assert handles0[..i] == handles0;
    }

    /** Clears the SROM of every port that has a file name, then disables
        all tool ports. */
    method InternalDeactivateTools() returns (result: ResultType)
      requires Valid()
      modifies interpreter, portEnabled, portHandle
      ensures Valid() && result == Success
      ensures interpreter.roundsTaken == old(interpreter.roundsTaken)
      ensures interpreter.sent == old(interpreter.sent) + ClearCommands(old(portHandle[..]), sromFileNames[..])
                                  + [PHSR(EnabledHandles)] + DisableCommands(interpreter.script.enabled)
      ensures forall p :: 0 <= p < NumberOfPorts ==> !portEnabled[p]
      ensures forall p :: 0 <= p < NumberOfPorts ==>
        portHandle[p] == if sromFileNames[p] != "" then 0 else old(portHandle[p])
    {
      ghost var base := interpreter.sent;
      ghost var clears := ClearCommands(portHandle[..], sromFileNames[..]);
      ClearAttachedSROMFiles();
      DisableToolPorts(interpreter, portEnabled);
      AppendAssociates(base, clears, [PHSR(EnabledHandles)] + DisableCommands(interpreter.script.enabled));
      result := Success;
    }

    /** Resets the transform buffer, queries TX and refills the buffer
        from the reply when the query succeeds. */
    method InternalThreadedUpdateStatus() returns (result: ResultType)
      requires Valid()
      modifies interpreter, transformBuffer, statusBuffer, absentBuffer
      ensures Valid() && interpreter.roundsTaken == old(interpreter.roundsTaken)
      ensures interpreter.sent == old(interpreter.sent) + [TX]
      ensures result == Failure <==> interpreter.script.errorOf(TX) != 0
      ensures result == Failure ==> forall p :: 0 <= p < NumberOfPorts ==>
        transformBuffer[p] == ResetRecord && statusBuffer[p] == old(statusBuffer[p]) &&
        absentBuffer[p] == old(absentBuffer[p])
      ensures result == Success ==> forall p :: 0 <= p < NumberOfPorts ==>
        (transformBuffer[p], absentBuffer[p], statusBuffer[p]) == TxReading(interpreter.script, portHandle[p])
    {
      result := ThreadedUpdateStatus(interpreter, portHandle, transformBuffer, statusBuffer, absentBuffer);
    }

    /** The transform of every reportable port, None for the others. */
    method InternalUpdateStatus(now: real) returns (reports: seq<Option<TransformValue>>)
      requires Valid()
      ensures |reports| == NumberOfPorts
      ensures forall p :: 0 <= p < NumberOfPorts ==>
        (reports[p].Some? <==> Reportable(statusBuffer[p], absentBuffer[p]))
      ensures forall p :: 0 <= p < NumberOfPorts && reports[p].Some? ==>
        reports[p].value == BufferTransform(transformBuffer[p], now)
    {
      reports := UpdateStatus(transformBuffer, statusBuffer, absentBuffer, now);
    }
  }
}
