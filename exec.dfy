/**
  Running a command in a created and started container: generate the
  command, create an exec instance for it, attach to the instance, and stream
  the attached output as typed payloads, optionally inspecting the instance
  once the output ends.
 */
module Execs {
  import opened Types
  import opened Docker
  import opened Hijack
  import opened Remote
  import opened Daap

  // ---------------------------------------------------------------------------
  // Requests, as functions of the daemon's answers

  /** The requests `genExecCommand` issues: none unless it falls through to
      the script, then the open, and the upload only when the open succeeded. */
  function GenTrace(s: Script, inline: string, script: string): (t: seq<Event>)
  {
    if inline != "" || script == "" then []
    else [OpenFile(script)] + if s.open.Some? then [] else [Upload(script, "/")]
  }

  /** The requests `ExecInspect` issues for exec instance `execID`, after
      `conns` client creations on the world. */
  function InspectTrace(s: Script, conns: nat, execID: string): (t: seq<Event>)
  {
    [Connect] + if s.connect(conns).Some? then [] else [ExecInspectCall(execID)]
  }

  /** The error `ExecInspect` returns after `conns` client creations. */
  function InspectError(s: Script, conns: nat): (err: Option<Error>)
  {
    if s.connect(conns).Some? then s.connect(conns)
    else if s.execInspect.Failure? then Some(s.execInspect.error)
    else None
  }

  /** The requests `stream` issues for the hijacked connection `h`: one send
      per decoded line, the close of the connection, the inspection when
      asked for, and the close of the output channel, last. The inspection
      builds the world's client number `conns`. */
  function StreamTrace(s: Script, conns: nat, h: Hijacked, decode: (HijackedIOType, seq<byte>) -> HijackedPayload,
                       inspect: bool, execID: string): (t: seq<Event>)
  {
    Sends(Decoded(decode, MIXED, h.lines)) +
    ([CloseHijacked(h.origin)] + ((if inspect then InspectTrace(s, conns, execID) else []) + [CloseStream]))
  }

  /** The requests `Exec` issues once it has a command: the exec create, the
      attach only when the create succeeded, and the stream only when the
      attach succeeded. */
  function CreateTrace(s: Script, conns: nat, id: string, cmd: seq<string>, env: seq<string>,
                       decode: (HijackedIOType, seq<byte>) -> HijackedPayload, inspect: bool): (t: seq<Event>)
  {
    [ExecCreate(id, ExecConfig(cmd, true, true, env))] +
    if s.execCreate.Failure? then [] else
      [ExecAttach(s.execCreate.value)] +
      if s.execAttach.Failure? then [] else
        StreamTrace(s, conns, Hijacked(ExecAttach(s.execCreate.value), s.execAttach.value), decode, inspect, s.execCreate.value)
  }

  /** The requests `Exec` issues after `conns` client creations: its own
      client is number `conns`, and the inspection, asked for only after a
      successful attach, builds client `conns + 1`. The upload of a script
      is one abstract step whose own client is not counted. */
  function ExecTrace(s: Script, conns: nat, id: string, inline: string, script: string, env: seq<string>,
                     decode: (HijackedIOType, seq<byte>) -> HijackedPayload, inspect: bool): (t: seq<Event>)
  {
    [Connect] +
    if s.connect(conns).Some? then [] else
      var cmd := ExecCommand(inline, script, s.open, s.upload);
      GenTrace(s, inline, script) + if cmd.Failure? then [] else CreateTrace(s, conns + 1, id, cmd.value, env, decode, inspect)
  }

  /** The error `Exec` returns: a client or command error as is, a create or
      attach error wrapped; once attached, none. */
  function ExecError(s: Script, conns: nat, inline: string, script: string): (err: Option<Error>)
  {
    var cmd := ExecCommand(inline, script, s.open, s.upload);
    if s.connect(conns).Some? then s.connect(conns)
    else if cmd.Failure? then Some(cmd.error)
    else if s.execCreate.Failure? then Some(Wrapped("Exec Create Error", s.execCreate.error))
    else if s.execAttach.Failure? then Some(Wrapped("Exec Attach Error", s.execAttach.error))
    else None
  }

  /** The inspection `Exec` leaves in the execution, given the one before. */
  function ExecInspection(s: Script, conns: nat, inline: string, script: string, inspect: bool, before: ExecInspect): (after: ExecInspect)
  {
    var cmd := ExecCommand(inline, script, s.open, s.upload);
    if s.connect(conns).Some? || cmd.Failure? || s.execCreate.Failure? then before
    else if s.execAttach.Success? && inspect && InspectError(s, conns + 1).None? then s.execInspect.value
    else before.(ExecID := s.execCreate.value)
  }

  // ---------------------------------------------------------------------------
  // Properties of the request sequences

  /** Without a script to fall back on, no file is opened or uploaded; a file
      is uploaded only after it was opened. */
  lemma GenTouchesFilesOnlyForScript(s: Script, inline: string, script: string)
    ensures inline != "" || script == "" ==> GenTrace(s, inline, script) == []
    ensures inline == "" && script != "" ==>
              GenTrace(s, inline, script)[0] == OpenFile(script)
              && (Upload(script, "/") in GenTrace(s, inline, script) <==> s.open.None?)
  {
  }

  /** A command-generation failure stops `Exec` before any exec instance is
      created, and returns that failure. */
  lemma CommandErrorBeforeCreate(s: Script, conns: nat, id: string, inline: string, script: string, env: seq<string>,
                                 decode: (HijackedIOType, seq<byte>) -> HijackedPayload, inspect: bool)
    requires s.connect(conns).None? && ExecCommand(inline, script, s.open, s.upload).Failure?
    ensures forall e :: e in ExecTrace(s, conns, id, inline, script, env, decode, inspect) ==> !e.ExecCreate? && !e.ExecAttach?
    ensures ExecError(s, conns, inline, script) == Some(ExecCommand(inline, script, s.open, s.upload).error)
  {
    GenTouchesFilesOnlyForScript(s, inline, script);
    assert ExecTrace(s, conns, id, inline, script, env, decode, inspect) == [Connect] + GenTrace(s, inline, script);
  }

  /** The stream emits one payload per line in read order, then closes the
      connection, and closes the output channel last. */
  lemma StreamOrder(s: Script, conns: nat, h: Hijacked, decode: (HijackedIOType, seq<byte>) -> HijackedPayload, inspect: bool, execID: string)
    ensures var t := StreamTrace(s, conns, h, decode, inspect, execID);
      && |Decoded(decode, MIXED, h.lines)| == |h.lines| && |t| > |h.lines|
      && (forall i :: 0 <= i < |h.lines| ==> t[i] == Send(Decoded(decode, MIXED, h.lines)[i]))
      && t[|h.lines|] == CloseHijacked(h.origin)
      && t[|t| - 1] == CloseStream
  {
    var ps := Decoded(decode, MIXED, h.lines);
    DecodedLength(decode, MIXED, h.lines);
    var rest := [CloseHijacked(h.origin)] + ((if inspect then InspectTrace(s, conns, execID) else []) + [CloseStream]);
    SendsThen(ps, rest);
    assert rest[|rest| - 1] == CloseStream;
  }

  /** The stream inspects the run only when asked to and its own client
      could be created. */
  lemma StreamInspectsOnlyWhenAsked(s: Script, conns: nat, h: Hijacked, decode: (HijackedIOType, seq<byte>) -> HijackedPayload, inspect: bool, execID: string)
    ensures ExecInspectCall(execID) in StreamTrace(s, conns, h, decode, inspect, execID) <==> inspect && s.connect(conns).None?
  {
    var sends := Sends(Decoded(decode, MIXED, h.lines));
    SendsPointwise(Decoded(decode, MIXED, h.lines));
    var tail := (if inspect then InspectTrace(s, conns, execID) else []) + [CloseStream];
    assert StreamTrace(s, conns, h, decode, inspect, execID) == sends + ([CloseHijacked(h.origin)] + tail);
    assert ExecInspectCall(execID) !in sends;
  }

  /** Exec succeeds exactly when a command was generated and the instance was
      created and attached; only then is output streamed. */
  lemma ExecSucceedsOnlyWhenAttached(s: Script, conns: nat, inline: string, script: string)
    ensures ExecError(s, conns, inline, script).None? <==>
              s.connect(conns).None? && ExecCommand(inline, script, s.open, s.upload).Success?
              && s.execCreate.Success? && s.execAttach.Success?
  {
  }

  /** A failed `Exec` never reaches the stream: no output channel is closed. */
  lemma FailedExecStreamsNothing(s: Script, conns: nat, id: string, inline: string, script: string, env: seq<string>,
                                 decode: (HijackedIOType, seq<byte>) -> HijackedPayload, inspect: bool)
    requires ExecError(s, conns, inline, script).Some?
    ensures CloseStream !in ExecTrace(s, conns, id, inline, script, env, decode, inspect)
  {
    var cmd := ExecCommand(inline, script, s.open, s.upload);
    var t := ExecTrace(s, conns, id, inline, script, env, decode, inspect);
    var g := GenTrace(s, inline, script);
    assert g == [] || g == [OpenFile(script)] || g == [OpenFile(script), Upload(script, "/")];
    if s.connect(conns).Some? {
      assert t == [Connect];
    } else if cmd.Failure? {
      assert t == [Connect] + (g + []);
    } else {
      var c := CreateTrace(s, conns + 1, id, cmd.value, env, decode, inspect);
      var create := ExecCreate(id, ExecConfig(cmd.value, true, true, env));
      if s.execCreate.Failure? {
        assert c == [create];
      } else {
        assert c == [create, ExecAttach(s.execCreate.value)];
      }
      assert t == [Connect] + (g + c);
    }
  }

  /** The execution records the exec instance's ID only once the instance
      was created; when the attach then fails, the error is returned with the
      ID already recorded. Without an inspection nothing else of it changes. */
  lemma ExecIDRecordedAfterCreate(s: Script, conns: nat, inline: string, script: string, inspect: bool, before: ExecInspect)
    ensures var cmd := ExecCommand(inline, script, s.open, s.upload);
      (s.connect(conns).Some? || cmd.Failure? || s.execCreate.Failure?) ==> ExecInspection(s, conns, inline, script, inspect, before) == before
    ensures var cmd := ExecCommand(inline, script, s.open, s.upload);
      s.connect(conns).None? && cmd.Success? && s.execCreate.Success? && s.execAttach.Failure? ==>
        && ExecInspection(s, conns, inline, script, inspect, before) == before.(ExecID := s.execCreate.value)
        && ExecError(s, conns, inline, script) == Some(Wrapped("Exec Attach Error", s.execAttach.error))
    ensures var cmd := ExecCommand(inline, script, s.open, s.upload);
      s.connect(conns).None? && cmd.Success? && s.execCreate.Success? && !inspect ==>
        ExecInspection(s, conns, inline, script, inspect, before) == before.(ExecID := s.execCreate.value)
    ensures var cmd := ExecCommand(inline, script, s.open, s.upload);
      s.connect(conns).None? && cmd.Success? && s.execCreate.Success? && s.execAttach.Success? && inspect
      && s.connect(conns + 1).Some? ==>
        ExecInspection(s, conns, inline, script, inspect, before) == before.(ExecID := s.execCreate.value)
  {
  }

  // ---------------------------------------------------------------------------
  // The operations

  /** `genExecCommand`: decides the command, opening and uploading the script
      only when it has to. */
  method GenExecCommand(w: World, execution: Execution) returns (r: Result<seq<string>>)
    modifies w`trace
    ensures r == ExecCommand(execution.Inline, execution.Script, w.script.open, w.script.upload)
    ensures w.trace == old(w.trace) + GenTrace(w.script, execution.Inline, execution.Script)
  {
    if execution.Inline == "" && execution.Script == "" {
      return Failure(NoCommand);
    }
    if execution.Inline != "" {
      return Success(["bash", "-c", execution.Inline]);
    }
    var openErr := w.OpenFile(execution.Script);
    if openErr.Some? {
      return Failure(Wrapped("failed to open your script file", openErr.value));
    }
    var uploadErr := w.Upload(execution.Script, "/");
    if uploadErr.Some? {
      return Failure(Wrapped("failed to upload", uploadErr.value));
    }
    r := Success(["sh", "/" + Basename(execution.Script)]);
  }

  /** `Exec`. The container must have a machine (a nil one is a crash). */
  method Exec(c: Container, w: World, execution: Execution, decode: (HijackedIOType, seq<byte>) -> HijackedPayload)
    returns (err: Option<Error>)
    requires c.Args.Machine.Some?
    modifies w`trace, w`connects, execution`Inspection
    ensures err == ExecError(w.script, old(w.connects), execution.Inline, execution.Script)
    ensures w.trace == old(w.trace) + ExecTrace(w.script, old(w.connects), c.Body.ID, execution.Inline, execution.Script,
                                                execution.Env, decode, execution.Inspect)
    ensures execution.Inspection == ExecInspection(w.script, old(w.connects), execution.Inline, execution.Script, execution.Inspect,
                                                   old(execution.Inspection))
    ensures w.connects == old(w.connects) + if err.None? && execution.Inspect then 2 else 1
  {
    var e := w.CreateClient();
    if e.Some? {
      return e;
    }
    ghost var connected := w.trace;
    var cmd := GenExecCommand(w, execution);
    if cmd.Failure? {
      AppendAssociative(old(w.trace), [Connect], w.trace[|connected|..]);
      return Some(cmd.error);
    }
    ghost var generated := w.trace;
    err := CreateAndStream(c, w, execution, cmd.value, decode);
    AppendAssociative(connected, w.trace[|connected|..|generated|], w.trace[|generated|..]);
    AppendAssociative(old(w.trace), [Connect], w.trace[|connected|..]);
  }

  /** The part of `Exec` after the command: create the exec instance, record
      its ID, attach to it and stream its output. */
  method CreateAndStream(c: Container, w: World, execution: Execution, cmd: seq<string>,
                         decode: (HijackedIOType, seq<byte>) -> HijackedPayload)
    returns (err: Option<Error>)
    requires c.Args.Machine.Some?
    modifies w`trace, w`connects, execution`Inspection
    ensures err == (if w.script.execCreate.Failure? then Some(Wrapped("Exec Create Error", w.script.execCreate.error))
                    else if w.script.execAttach.Failure? then Some(Wrapped("Exec Attach Error", w.script.execAttach.error))
                    else None)
    ensures w.trace == old(w.trace) + CreateTrace(w.script, old(w.connects), c.Body.ID, cmd, execution.Env, decode, execution.Inspect)
    ensures execution.Inspection ==
              if w.script.execCreate.Failure? then old(execution.Inspection)
              else if w.script.execAttach.Success? && execution.Inspect && InspectError(w.script, old(w.connects)).None?
              then w.script.execInspect.value
              else old(execution.Inspection).(ExecID := w.script.execCreate.value)
    ensures w.connects == old(w.connects) + if err.None? && execution.Inspect then 1 else 0
  {
    var created := w.ExecCreate(c.Body.ID, ExecConfig(cmd, true, true, execution.Env));
    if created.Failure? {
      return Some(Wrapped("Exec Create Error", created.error));
    }
    execution.Inspection := execution.Inspection.(ExecID := created.value);
    var hijacked := w.ExecAttach(created.value);
    if hijacked.Failure? {
      return Some(Wrapped("Exec Attach Error", hijacked.error));
    }
    ghost var attached := w.trace;
    Stream(c, w, hijacked.value, execution, decode);
    AppendAssociative(old(w.trace), [ExecCreate(c.Body.ID, ExecConfig(cmd, true, true, execution.Env))], w.trace[|old(w.trace)| + 1..]);
    AppendAssociative(old(w.trace) + [ExecCreate(c.Body.ID, ExecConfig(cmd, true, true, execution.Env))],
                      [ExecAttach(created.value)], w.trace[|attached|..]);
    err := None;
  }

  /** `stream`: every line read is decoded with the type of the payload
      before it, starting from `MIXED`, and sent in read order; then the
      connection is closed, the instance inspected if asked, and the output
      channel closed. */
  method Stream(c: Container, w: World, h: Hijacked, execution: Execution,
                decode: (HijackedIOType, seq<byte>) -> HijackedPayload)
    requires c.Args.Machine.Some?
    modifies w`trace, w`connects, execution`Inspection
    ensures w.trace == old(w.trace) + StreamTrace(w.script, old(w.connects), h, decode, execution.Inspect, old(execution.Inspection.ExecID))
    ensures execution.Inspection ==
              if execution.Inspect && InspectError(w.script, old(w.connects)).None? then w.script.execInspect.value
              else old(execution.Inspection)
    ensures w.connects == old(w.connects) + if execution.Inspect then 1 else 0
  {
    ghost var execID := execution.Inspection.ExecID;
    ghost var conns := w.connects;
    SendDecoded(w, h.lines, decode);
    w.Close(h);
    if execution.Inspect {
      var _ := ExecInspect(c, w, execution);
    }
    w.CloseStream();
    AppendAssociative4(old(w.trace), Sends(Decoded(decode, MIXED, h.lines)), [CloseHijacked(h.origin)],
                       if execution.Inspect then InspectTrace(w.script, conns, execID) else [], [Event.CloseStream]);
  }

  /** The loop of `stream`: `payload` starts as an empty `MIXED` payload and
      is replaced by the decode of each line, given its own type, before it
      is sent. */
  method SendDecoded(w: World, lines: seq<seq<byte>>, decode: (HijackedIOType, seq<byte>) -> HijackedPayload)
    modifies w`trace
    ensures w.trace == old(w.trace) + Sends(Decoded(decode, MIXED, lines))
  {
    var payload := HijackedPayload(MIXED, []);
    ghost var sent: seq<HijackedPayload> := [];
    for i := 0 to |lines|
      invariant sent == Decoded(decode, MIXED, lines[..i])
      invariant payload.Type == LastType(MIXED, sent)
      invariant w.trace == old(w.trace) + Sends(sent)
    {
      assert lines[..i + 1] == lines[..i] + [lines[i]];
      DecodedSnoc(decode, MIXED, lines[..i], lines[i]);
      payload := decode(payload.Type, lines[i]);
      w.SendPayload(payload);
      SendsSnoc(sent, payload);
      sent := sent + [payload];
    }
    assert lines[..|lines|] == lines;
  }

  /** `ExecInspect`: asks the daemon about the execution's instance and stores
      the answer, replacing the whole embedded inspection, only on success. */
  method ExecInspect(c: Container, w: World, execution: Execution) returns (err: Option<Error>)
    requires c.Args.Machine.Some?
    modifies w`trace, w`connects, execution`Inspection
    ensures err == InspectError(w.script, old(w.connects)) && w.connects == old(w.connects) + 1
    ensures w.trace == old(w.trace) + InspectTrace(w.script, old(w.connects), old(execution.Inspection.ExecID))
    ensures execution.Inspection == if err.None? then w.script.execInspect.value else old(execution.Inspection)
  {
    err := w.CreateClient();
    if err.Some? {
      return;
    }
    var inspection := w.ExecInspect(execution.Inspection.ExecID);
    if inspection.Failure? {
      return Some(inspection.error);
    }
    execution.Inspection := inspection.value;
  }
}
