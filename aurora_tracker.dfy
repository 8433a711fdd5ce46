/**
 * The Aurora electromagnetic tracker: the same port tables and transform
 * buffer as the Polaris, with every port named by two decimal digits and
 * no virtual SROMs.  The number of ports is fixed per tracker and given
 * to the constructor.
 */
module AuroraTracking {
  import opened Wrappers
  import opened Transforms
  import opened Ndi
  import opened NdiTracking

  /** The index at which the Aurora location loop as written stores the
      enabled flag: the two-digit decode, with no bounds check. */
  function EnabledIndexAsWritten(location: string): nat
  {
    DecodePort(DigitsOnly, location)
  }

  /** A location reading "00" wraps to 2^32 - 1, outside any port array an
      unsigned index can address; the corrected table leaves every port as
      it was. */
  lemma EnabledWriteEscapesAsWritten(s: Script, t: PortTable, h: int)
    requires |t.handles| == |t.enabled| < TwoTo32 - 1
    requires Described(s, h)
    requires |s.portLocation(h)| >= 12 && s.portLocation(h)[10] == '0' && s.portLocation(h)[11] == '0'
    ensures EnabledIndexAsWritten(s.portLocation(h)) == TwoTo32 - 1
    ensures EnabledIndexAsWritten(s.portLocation(h)) >= |t.enabled|
    ensures RecordLocation(s, DigitsOnly, t, h) == t
  {
  }

  class AuroraTracker {
    const interpreter: CommandInterpreter
    const numberOfPorts: nat
    const portEnabled: array<bool>
    const portHandle: array<int>
    const transformBuffer: array<Record>
    const statusBuffer: array<bv32>
    const absentBuffer: array<bool>
    var numberOfTools: nat

    /** Every per-port array has numberOfPorts entries, and they are
        separate arrays. */
    ghost predicate Valid()
      reads this, interpreter
    {
      interpreter.Valid() &&
      portEnabled.Length == numberOfPorts && portHandle.Length == numberOfPorts &&
      transformBuffer.Length == numberOfPorts && statusBuffer.Length == numberOfPorts &&
      absentBuffer.Length == numberOfPorts &&
      DistinctTables(portHandle, transformBuffer, statusBuffer, absentBuffer) &&
      portEnabled as object != portHandle && portEnabled as object != transformBuffer &&
      portEnabled as object != statusBuffer && portEnabled as object != absentBuffer
    }

    /** Every port starts disabled and without a handle. */
    constructor (s: Script, ports: nat)
      ensures Valid() && fresh(interpreter)
      ensures interpreter.script == s && interpreter.sent == [] && interpreter.roundsTaken == 0
      ensures numberOfPorts == ports && numberOfTools == 0
      ensures forall p :: 0 <= p < ports ==> !portEnabled[p] && portHandle[p] == 0
    {
      interpreter := new CommandInterpreter(s);
      numberOfPorts := ports;
      numberOfTools := 0;
      portEnabled := new bool[ports](_ => false);
      portHandle := new int[ports](_ => 0);
      transformBuffer := new Record[ports](_ => ResetRecord);
      statusBuffer := new bv32[ports](_ => 0);
      absentBuffer := new bool[ports](_ => false);
    }

    /** Enables the tool ports and counts the enabled ones. */
    method InternalActivateTools() returns (result: ResultType)
      requires Valid()
      modifies this, interpreter, portEnabled, portHandle
      ensures Valid() && result == Success
      ensures interpreter.sent == old(interpreter.sent) + EnableToolPortsCommands(interpreter.script, old(interpreter.roundsTaken))
      ensures portHandle[..] == TableAfter(interpreter.script, DigitsOnly, numberOfPorts, interpreter.script.all).handles
      ensures portEnabled[..] == TableAfter(interpreter.script, DigitsOnly, numberOfPorts, interpreter.script.all).enabled
      ensures numberOfTools == CountTrue(portEnabled[..]) == |EnabledPorts(portEnabled[..])|
    {
      EnableToolPorts(interpreter, DigitsOnly, portHandle, portEnabled);
      numberOfTools := CountEnabled(portEnabled);
      result := Success;
    }

    /** Disables all tool ports; the handles stay as they were. */
    method InternalDeactivateTools() returns (result: ResultType)
      requires Valid()
      modifies interpreter, portEnabled
      ensures Valid() && result == Success
      ensures interpreter.roundsTaken == old(interpreter.roundsTaken)
      ensures interpreter.sent == old(interpreter.sent) + [PHSR(EnabledHandles)] + DisableCommands(interpreter.script.enabled)
      ensures forall p :: 0 <= p < numberOfPorts ==> !portEnabled[p]
      ensures portHandle[..] == old(portHandle[..])
    {
      DisableToolPorts(interpreter, portEnabled);
      result := Success;
    }

    /** Resets the transform buffer, queries TX and refills the buffer
        from the reply when the query succeeds. */
    method InternalThreadedUpdateStatus() returns (result: ResultType)
      requires Valid()
      modifies interpreter, transformBuffer, statusBuffer, absentBuffer
      ensures Valid() && interpreter.roundsTaken == old(interpreter.roundsTaken)
      ensures interpreter.sent == old(interpreter.sent) + [TX]
      ensures result == Failure <==> interpreter.script.errorOf(TX) != 0
      ensures result == Failure ==> forall p :: 0 <= p < numberOfPorts ==>
        transformBuffer[p] == ResetRecord && statusBuffer[p] == old(statusBuffer[p]) &&
        absentBuffer[p] == old(absentBuffer[p])
      ensures result == Success ==> forall p :: 0 <= p < numberOfPorts ==>
        (transformBuffer[p], absentBuffer[p], statusBuffer[p]) == TxReading(interpreter.script, portHandle[p])
    {
      result := ThreadedUpdateStatus(interpreter, portHandle, transformBuffer, statusBuffer, absentBuffer);
    }

    /** The transform of every reportable port, None for the others. */
    method InternalUpdateStatus(now: real) returns (reports: seq<Option<TransformValue>>)
      requires Valid()
      ensures |reports| == numberOfPorts
      ensures forall p :: 0 <= p < numberOfPorts ==>
        (reports[p].Some? <==> Reportable(statusBuffer[p], absentBuffer[p]))
      ensures forall p :: 0 <= p < numberOfPorts && reports[p].Some? ==>
        reports[p].value == BufferTransform(transformBuffer[p], now)
    {
      reports := UpdateStatus(transformBuffer, statusBuffer, absentBuffer, now);
    }
  }
}
