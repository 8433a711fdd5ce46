/**
 * The port bookkeeping that the Polaris and Aurora trackers perform in the
 * same way, written once over the tracker's port arrays: handle
 * initialisation and enabling, the port-location table, disabling, the
 * refill of the per-port transform buffer after TX, and the filtering of
 * that buffer into reported transforms.
 */
module NdiTracking {
  import opened Wrappers
  import opened Transforms
  import opened Ndi

  /** FAILURE exactly when the interpreter holds a nonzero error code. */
  method CheckError(ci: CommandInterpreter) returns (r: ResultType)
    ensures r == Failure <==> ci.error != 0
  {
    if ci.error != 0 {
      r := Failure;
    } else {
      r := Success;
    }
  }

  /** Frees every stale handle; a refused PHF is reported and the loop goes on. */
  method FreeStaleHandles(ci: CommandInterpreter)
    requires ci.Valid()
    modifies ci
    ensures ci.Valid() && ci.roundsTaken == old(ci.roundsTaken)
    ensures ci.sent == old(ci.sent) + [PHSR(StaleHandles)] + FreeCommands(ci.script.stale)
  {
    var hs := ci.QueryHandles(StaleHandles);
    ghost var base := ci.sent;
    var tool := 0;
    while tool < |hs|
      invariant ci.Valid() && ci.roundsTaken == old(ci.roundsTaken)
      invariant 0 <= tool <= |hs|
      invariant ci.sent == base + FreeCommands(hs[..tool])
    {
      ci.Send(PHF(hs[tool]));
      var _ := CheckError(ci);
      assert FreeCommands(hs[..tool + 1]) == FreeCommands(hs[..tool]) + [PHF(hs[tool])];
      tool := tool + 1;
    }
    assert hs[..tool] == hs;
  }

  /** PINIT for each handle of one answer, stopping at the first refusal. */
  method InitializeRound(ci: CommandInterpreter, hs: seq<int>)
    requires ci.Valid()
    modifies ci
    ensures ci.Valid() && ci.roundsTaken == old(ci.roundsTaken)
    ensures ci.sent == old(ci.sent) + InitRoundCommands(ci.script, hs)
  {
    var tool := 0;
    while tool < |hs|
      invariant ci.Valid() && ci.roundsTaken == old(ci.roundsTaken)
      invariant 0 <= tool <= |hs|
      invariant old(ci.sent) + InitRoundCommands(ci.script, hs) == ci.sent + InitRoundCommands(ci.script, hs[tool..])
    {
      ghost var before := ci.sent;
      ci.Send(PINIT(hs[tool]));
      var r := CheckError(ci);
      if r == Failure {
        assert InitRoundCommands(ci.script, hs[tool..]) == [PINIT(hs[tool])];
        return;
      }
      assert InitRoundCommands(ci.script, hs[tool..]) == [PINIT(hs[tool])] + InitRoundCommands(ci.script, hs[tool + 1..]);
      assert before + ([PINIT(hs[tool])] + InitRoundCommands(ci.script, hs[tool + 1..]))
          == ci.sent + InitRoundCommands(ci.script, hs[tool + 1..]);
      tool := tool + 1;
    }
  }

  /** One pass of the initialisation loop: query the uninitialised handles
      and try them; `more` tells whether the query returned any. */
  method InitializeOnce(ci: CommandInterpreter) returns (more: bool)
    requires ci.Valid()
    modifies ci
    ensures ci.Valid()
    ensures var rest := ci.script.initRounds[old(ci.roundsTaken)..];
      && (rest == [] ==> !more && ci.sent == old(ci.sent) + InitLoopCommands(ci.script, rest) && ci.roundsTaken == old(ci.roundsTaken))
      && (rest != [] ==> ci.roundsTaken == old(ci.roundsTaken) + 1 && more == (rest[0] != []) &&
                         ci.sent == old(ci.sent) + ([PHSR(UninitializedHandles)] + InitRoundCommands(ci.script, rest[0])))
  {
    var hs := ci.QueryHandles(UninitializedHandles);
    InitializeRound(ci, hs);
    more := |hs| > 0;
  }

  /** Initialises handles round after round while the device still reports
      uninitialised ones. */
  method InitializeHandles(ci: CommandInterpreter)
    requires ci.Valid()
    modifies ci
    ensures ci.Valid()
    ensures ci.sent == old(ci.sent) + InitLoopCommands(ci.script, ci.script.initRounds[old(ci.roundsTaken)..])
    ensures ci.roundsTaken == old(ci.roundsTaken) + RoundsUsed(ci.script.initRounds[old(ci.roundsTaken)..])
  {
    ghost var s := ci.script;
    ghost var all := s.initRounds[ci.roundsTaken..];
    ghost var done: seq<Command> := [];
    ghost var used: nat := 0;
    var more := true;
    while more
      invariant ci.Valid() && ci.script == s && ci.sent == old(ci.sent) + done && ci.roundsTaken == old(ci.roundsTaken) + used
      invariant more ==> done + InitLoopCommands(s, s.initRounds[ci.roundsTaken..]) == InitLoopCommands(s, all)
      invariant more ==> used + RoundsUsed(s.initRounds[ci.roundsTaken..]) == RoundsUsed(all)
      invariant !more ==> done == InitLoopCommands(s, all) && used == RoundsUsed(all)
      decreases |s.initRounds| - ci.roundsTaken, more
    {
      ghost var rest := s.initRounds[ci.roundsTaken..];
      ghost var before := ci.sent;
      more := InitializeOnce(ci);
      ghost var step := ci.sent[|before|..];
      assert ci.sent == before + step;
      AppendAssociates(old(ci.sent), done, step);
      if rest != [] {
        assert rest[1..] == s.initRounds[ci.roundsTaken..];
        if more {
          AppendAssociates(done, step, InitLoopCommands(s, rest[1..]));
        }
        used := used + 1;
      }
      done := done + step;
    }
  }

  lemma AppendAssociates<T>(a: seq<T>, b: seq<T>, c: seq<T>)
    ensures (a + b) + c == a + (b + c)
  {
  }

  /** Enables every initialised handle, in the mode its tool type calls for. */
  method EnableInitializedHandles(ci: CommandInterpreter)
    requires ci.Valid()
    modifies ci
    ensures ci.Valid() && ci.roundsTaken == old(ci.roundsTaken)
    ensures ci.sent == old(ci.sent) + [PHSR(UnenabledHandles)] + EnableCommands(ci.script, ci.script.unenabled)
  {
    var hs := ci.QueryHandles(UnenabledHandles);
    ghost var base := ci.sent;
    var tool := 0;
    while tool < |hs|
      invariant ci.Valid() && ci.roundsTaken == old(ci.roundsTaken)
      invariant 0 <= tool <= |hs|
      invariant ci.sent == base + EnableCommands(ci.script, hs[..tool])
    {
      var ph := hs[tool];
      ci.Send(PHINF(ph, BasicInfo));
      var identity := ci.script.toolInfo(ph);
      var mode := DynamicMode;
      if CharAt(identity, 1) == TYPE_BUTTON {
        mode := ButtonBoxMode;
      } else if CharAt(identity, 1) == TYPE_REFERENCE {
        mode := StaticMode;
      }
      ci.Send(PENA(ph, mode));
      var _ := CheckError(ci);
      assert hs[..tool + 1][..tool] == hs[..tool];
      tool := tool + 1;
    }
    assert hs[..tool] == hs;
  }

  /** Asks where handle `ph` sits and stores it at that port, when the
      device describes it and the port exists. */
  method ReadPortLocation(ci: CommandInterpreter, naming: PortNaming, handles: array<int>, enabled: array<bool>, ph: int)
    requires ci.Valid() && handles.Length == enabled.Length && handles as object != enabled
    modifies ci, handles, enabled
    ensures ci.Valid() && ci.roundsTaken == old(ci.roundsTaken)
    ensures ci.sent == old(ci.sent) + [PHINF(ph, LocationInfo)]
    ensures handles[..] == RecordLocation(ci.script, naming, PortTable(old(handles[..]), old(enabled[..])), ph).handles
    ensures enabled[..] == RecordLocation(ci.script, naming, PortTable(old(handles[..]), old(enabled[..])), ph).enabled
  {
    ci.Send(PHINF(ph, LocationInfo));
    var r := CheckError(ci);
    if r == Success {
      var location := ci.script.portLocation(ph);
      var port := DecodePort(naming, location);
      if port < handles.Length {
        handles[port] := ph;
        var status := ci.script.portStatus(ph);
        enabled[port] := status & ENABLED != 0;
      }
    }
  }

  /** Reads the location of every handle into the port tables.  A handle
      the device does not describe is skipped; a location naming no port of
      the tracker stores nothing. */
  method ReadPortLocations(ci: CommandInterpreter, naming: PortNaming, handles: array<int>, enabled: array<bool>)
    requires ci.Valid() && handles.Length == enabled.Length && handles as object != enabled
    requires handles[..] == EmptyTable(handles.Length).handles && enabled[..] == EmptyTable(handles.Length).enabled
    modifies ci, handles, enabled
    ensures ci.Valid() && ci.roundsTaken == old(ci.roundsTaken)
    ensures ci.sent == old(ci.sent) + [PHSR(AllHandles)] + LocationCommands(ci.script.all)
    ensures handles[..] == TableAfter(ci.script, naming, handles.Length, ci.script.all).handles
    ensures enabled[..] == TableAfter(ci.script, naming, handles.Length, ci.script.all).enabled
  {
    var hs := ci.QueryHandles(AllHandles);
    ghost var base, s, n := ci.sent, ci.script, handles.Length;
    assert hs == s.all && hs[..0] == [];
    var tool := 0;
    while tool < |hs|
      invariant ci.Valid() && ci.roundsTaken == old(ci.roundsTaken) && ci.script == s
      invariant 0 <= tool <= |hs|
      invariant ci.sent == base + LocationCommands(hs[..tool])
      invariant handles[..] == TableAfter(s, naming, n, hs[..tool]).handles
      invariant enabled[..] == TableAfter(s, naming, n, hs[..tool]).enabled
    {
      TableAfterStep(s, naming, n, hs, tool);
      LocationCommandsStep(hs, tool);
      ReadPortLocation(ci, naming, handles, enabled, hs[tool]);
      tool := tool + 1;
    }
    assert hs[..tool] == hs;
  }

  /** Marks every port as having no handle and not enabled. */
  method ResetPortTables(handles: array<int>, enabled: array<bool>)
    requires handles.Length == enabled.Length && handles as object != enabled
    modifies handles, enabled
    ensures handles[..] == EmptyTable(handles.Length).handles
    ensures enabled[..] == EmptyTable(handles.Length).enabled
  {
    var port := 0;
    while port < handles.Length
      invariant 0 <= port <= handles.Length
      invariant forall p :: 0 <= p < port ==> handles[p] == 0 && !enabled[p]
    {
      handles[port] := 0;
      enabled[port] := false;
      port := port + 1;
    }
    assert handles[..] == EmptyTable(handles.Length).handles;
    assert enabled[..] == EmptyTable(handles.Length).enabled;
  }

  /** Frees stale handles, initialises the uninitialised ones and enables
      them: everything EnableToolPorts sends before reading locations. */
  method PrepareHandles(ci: CommandInterpreter)
    requires ci.Valid()
    modifies ci
    ensures ci.Valid()
    ensures ci.sent == old(ci.sent) + (FreePhase(ci.script)
                       + InitLoopCommands(ci.script, ci.script.initRounds[old(ci.roundsTaken)..])
                       + EnablePhase(ci.script))
  {
    ghost var s, taken, sent0 := ci.script, ci.roundsTaken, ci.sent;
    ghost var free := FreePhase(s);
    ghost var init := InitLoopCommands(s, s.initRounds[taken..]);
    ghost var enable := EnablePhase(s);
    FreeStaleHandles(ci);
    AppendAssociates(sent0, [PHSR(StaleHandles)], FreeCommands(s.stale));
    assert ci.sent == sent0 + free;
    InitializeHandles(ci);
    assert ci.sent == sent0 + free + init;
    EnableInitializedHandles(ci);
    AppendAssociates(sent0 + free + init, [PHSR(UnenabledHandles)], EnableCommands(s, s.unenabled));
    assert ci.sent == sent0 + free + init + enable;
    AppendAssociates(sent0, free, init);
    AppendAssociates(sent0, free + init, enable);
  }

  /** Resets the port tables, then frees stale handles, initialises,
      enables, and reads back where every tool is. */
  method EnableToolPorts(ci: CommandInterpreter, naming: PortNaming, handles: array<int>, enabled: array<bool>)
    requires ci.Valid() && handles.Length == enabled.Length && handles as object != enabled
    modifies ci, handles, enabled
    ensures ci.Valid()
    ensures ci.sent == old(ci.sent) + EnableToolPortsCommands(ci.script, old(ci.roundsTaken))
    ensures handles[..] == TableAfter(ci.script, naming, handles.Length, ci.script.all).handles
    ensures enabled[..] == TableAfter(ci.script, naming, handles.Length, ci.script.all).enabled
  {
    ResetPortTables(handles, enabled);
    ghost var s, taken, sent0 := ci.script, ci.roundsTaken, ci.sent;
    PrepareHandles(ci);
    ghost var prepared := FreePhase(s) + InitLoopCommands(s, s.initRounds[taken..]) + EnablePhase(s);
    ReadPortLocations(ci, naming, handles, enabled);
    AppendAssociates(sent0, prepared, LocationPhase(s));
  }

  /** Disables every enabled handle, then marks every port disabled. */
  method DisableToolPorts(ci: CommandInterpreter, enabled: array<bool>)
    requires ci.Valid()
    modifies ci, enabled
    ensures ci.Valid() && ci.roundsTaken == old(ci.roundsTaken)
    ensures ci.sent == old(ci.sent) + [PHSR(EnabledHandles)] + DisableCommands(ci.script.enabled)
    ensures forall p :: 0 <= p < enabled.Length ==> !enabled[p]
  {
    var hs := ci.QueryHandles(EnabledHandles);
    ghost var base := ci.sent;
    var tool := 0;
    while tool < |hs|
      invariant ci.Valid() && ci.roundsTaken == old(ci.roundsTaken)
      invariant 0 <= tool <= |hs|
      invariant ci.sent == base + DisableCommands(hs[..tool])
    {
      ci.Send(PDIS(hs[tool]));
      var _ := CheckError(ci);
      assert DisableCommands(hs[..tool + 1]) == DisableCommands(hs[..tool]) + [PDIS(hs[tool])];
      tool := tool + 1;
    }
    assert hs[..tool] == hs;
    var port := 0;
    while port < enabled.Length
      modifies enabled
      invariant 0 <= port <= enabled.Length
      invariant forall p :: 0 <= p < port ==> !enabled[p]
    {
      enabled[port] := false;
      port := port + 1;
    }
  }

  /** The per-port arrays are separate objects. */
  predicate DistinctTables(handles: array<int>, buffer: array<Record>, status: array<bv32>, absent: array<bool>)
  {
    handles as object != buffer && handles as object != status && handles as object != absent &&
    buffer as object != status && buffer as object != absent && status as object != absent
  }

  /** Resets every port's record, queries TX and, when the device answers
      without error, refills the records, absent flags and statuses of the
      ports that have a handle. */
  method ThreadedUpdateStatus(ci: CommandInterpreter, handles: array<int>,
                              buffer: array<Record>, status: array<bv32>, absent: array<bool>)
    returns (result: ResultType)
    requires ci.Valid()
    requires handles.Length == buffer.Length == status.Length == absent.Length
    requires DistinctTables(handles, buffer, status, absent)
    modifies ci, buffer, status, absent
    ensures ci.Valid() && ci.roundsTaken == old(ci.roundsTaken)
    ensures ci.sent == old(ci.sent) + [TX]
    ensures result == Failure <==> ci.script.errorOf(TX) != 0
    ensures result == Failure ==> forall p :: 0 <= p < buffer.Length ==>
      buffer[p] == ResetRecord && status[p] == old(status[p]) && absent[p] == old(absent[p])
    ensures result == Success ==> forall p :: 0 <= p < buffer.Length ==>
      (buffer[p], absent[p], status[p]) == TxReading(ci.script, handles[p])
  {
    var port := 0;
    while port < buffer.Length
      modifies buffer
      invariant 0 <= port <= buffer.Length
      invariant forall p :: 0 <= p < port ==> buffer[p] == ResetRecord
      invariant status[..] == old(status[..]) && absent[..] == old(absent[..])
    {
      buffer[port] := ResetRecord;
      port := port + 1;
    }
    ci.Send(TX);
    result := CheckError(ci);
    if result == Success {
      port := 0;
      while port < buffer.Length
        modifies buffer, status, absent
        invariant 0 <= port <= buffer.Length
        invariant forall p :: 0 <= p < port ==> (buffer[p], absent[p], status[p]) == TxReading(ci.script, handles[p])
        invariant forall p :: port <= p < buffer.Length ==> buffer[p] == ResetRecord
      {
        var ph := handles[port];
        absent[port] := false;
        status[port] := 0;
        if ph != 0 {
          buffer[port] := ci.script.txTransform(ph);
          absent[port] := !ci.script.txValid(ph);
          status[port] := ci.script.txPortStatus(ph);
        }
        port := port + 1;
      }
    }
  }

  /** The transform reported for each port, or None for a port whose tool
      is not reportable. */
  method UpdateStatus(buffer: array<Record>, status: array<bv32>, absent: array<bool>, now: real)
    returns (reports: seq<Option<TransformValue>>)
    requires buffer.Length == status.Length == absent.Length
    ensures |reports| == buffer.Length
    ensures forall p :: 0 <= p < |reports| ==> (reports[p].Some? <==> Reportable(status[p], absent[p]))
    ensures forall p :: 0 <= p < |reports| && reports[p].Some? ==>
      var t, r := reports[p].value, buffer[p];
      t.translation == Vec3(r.tx, r.ty, r.tz) && t.error == r.error &&
      t.rotation == BufferRotation(r) && t.stamp == StampFrom(now, ValidityTime)
  {
    reports := [];
    var port := 0;
    while port < buffer.Length
      invariant 0 <= port <= buffer.Length && |reports| == port
      invariant forall p :: 0 <= p < port ==> (reports[p].Some? <==> Reportable(status[p], absent[p]))
      invariant forall p :: 0 <= p < port && reports[p].Some? ==> reports[p].value == BufferTransform(buffer[p], now)
    {
      var portStatus := status[port];
      if portStatus & TRACKABLE != TRACKABLE || absent[port] || portStatus & OUT_OF_VOLUME != 0 {
        reports := reports + [None];
      } else {
        var r := buffer[port];
        var transform := new Transform();
        transform.SetToIdentity(ValidityTime, now);
        transform.SetTranslationAndRotation(Vec3(r.tx, r.ty, r.tz), BufferRotation(r), r.error, ValidityTime, now);
        reports := reports + [Some(transform.Value())];
      }
      port := port + 1;
    }
  }

  /** The number of enabled ports. */
  method CountEnabled(enabled: array<bool>) returns (n: nat)
    ensures n == CountTrue(enabled[..])
    ensures n == |EnabledPorts(enabled[..])|
  {
    n := 0;
    var i := 0;
    while i < enabled.Length
      invariant 0 <= i <= enabled.Length
      invariant n == CountTrue(enabled[..i])
    {
      assert enabled[..i + 1][..i] == enabled[..i];
      if enabled[i] {
        n := n + 1;
      }
      i := i + 1;
    }
    assert enabled[..i] == enabled[..];
    CountIsEnabledPorts(enabled[..]);
  }
}
