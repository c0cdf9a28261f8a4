/**
  The older container operations: create with a fixed configuration, a
  staged upload of a local file, command generation over that upload, and an
  exec that starts the instance itself and closes the connection when the
  start fails. They exist beside the newer versions and are kept apart from
  them.
 */
module Legacy {
  import opened Types
  import opened Docker
  import opened Hijack
  import opened Remote
  import opened Daap
  import Execs

  // ---------------------------------------------------------------------------
  // Create

  /** The configuration the older `Create` always sends: the container's
      image, an empty environment, a TTY to keep it alive and both outputs
      attached. */
  const FixedAttach := EmptyContainerConfig.(Tty := true, AttachStdout := true, AttachStderr := true)

  function FixedContainerConfig(image: string): (cfg: ContainerConfig)
  {
    FixedAttach.(Image := image)
  }

  /** The host configuration the older `Create` always sends: an empty list
      of mounts and nothing else set. */
  const FixedHost := EmptyHostConfig.(Mounts := [])

  /** Whatever the arguments, the older `Create` sends the image, no
      environment and no command, with TTY and both outputs on; its host
      configuration sets no option and sends no mount. */
  lemma FixedConfigShape(image: string)
    ensures var cfg := FixedContainerConfig(image);
      && cfg.Image == image && cfg.Env == [] && cfg.Cmd == []
      && cfg.Tty && cfg.AttachStdout && cfg.AttachStderr && !cfg.AttachStdin && !cfg.OpenStdin
    ensures FixedHost.Mounts == [] && FixedHost.Binds == [] && FixedHost.NetworkMode == ""
            && !FixedHost.Privileged && !FixedHost.AutoRemove
  {
  }

  /** The older `Create`: a client, then the create request with the fixed
      configuration and the arguments' name. The result is stored even when
      the daemon reports an error. */
  method Create(c: Container, w: World) returns (err: Option<Error>)
    requires c.Args.Machine.Some?
    modifies w`trace, w`connects, c`Body
    ensures w.connects == old(w.connects) + 1
    ensures w.script.connect(old(w.connects)).Some? ==>
              err == w.script.connect(old(w.connects)) && w.trace == old(w.trace) + [Connect] && c.Body == old(c.Body)
    ensures w.script.connect(old(w.connects)).None? ==>
              && err == w.script.createErr && c.Body == w.script.create
              && w.trace == old(w.trace) + [Connect, ContainerCreate(FixedContainerConfig(c.Image), FixedHost, EmptyNetworkingConfig, c.Args.Name)]
  {
    err := w.CreateClient();
    if err.Some? {
      return;
    }
    c.Body, err := w.ContainerCreate(FixedContainerConfig(c.Image), FixedHost, EmptyNetworkingConfig, c.Args.Name);
  }

  // ---------------------------------------------------------------------------
  // Upload

  /** The requests `Upload` issues for local file `src` after `conns` client
      creations: every stage only when the stage before it succeeded. */
  function UploadTrace(s: Script, conns: nat, src: string, id: string, destdir: string): (t: seq<Event>)
  {
    [Connect] +
    if s.connect(conns).Some? then [] else
      [Stat(src)] +
      if s.stat.Failure? then [] else
        [TarHeader(s.stat.value)] +
        if s.tarHeader.Some? then [] else
          [TarContent(src)] +
          if s.tarContent.Some? then [] else [CopyToContainer(id, destdir)]
  }

  /** The error `Upload` returns: a client error as is, and each later stage's
      error wrapped with that stage's own context. */
  function UploadError(s: Script, conns: nat): (err: Option<Error>)
  {
    if s.connect(conns).Some? then s.connect(conns)
    else if s.stat.Failure? then Some(Wrapped("failed to get file stat of source file", s.stat.error))
    else if s.tarHeader.Some? then Some(Wrapped("failed to write header of tar", s.tarHeader.value))
    else if s.tarContent.Some? then Some(Wrapped("failed to write content of source file as tar", s.tarContent.value))
    else if s.copy.Some? then Some(Wrapped("failed to copy file to the container", s.copy.value))
    else None
  }

  /** The four stages report four different contexts, so the stage that failed
      can be told from the error; the copy is reached only when stat, header
      and content all succeeded. */
  lemma UploadStagesDistinguished(s: Script, conns: nat, src: string, id: string, destdir: string)
    ensures s.connect(conns).None? && UploadError(s, conns).Some? ==>
              UploadError(s, conns).value.Wrapped? && UploadError(s, conns).value.context in {"failed to get file stat of source file", "failed to write header of tar",
                                                "failed to write content of source file as tar", "failed to copy file to the container"}
    ensures CopyToContainer(id, destdir) in UploadTrace(s, conns, src, id, destdir) <==>
              s.connect(conns).None? && s.stat.Success? && s.tarHeader.None? && s.tarContent.None?
    ensures UploadError(s, conns).None? <==>
              s.connect(conns).None? && s.stat.Success? && s.tarHeader.None? && s.tarContent.None? && s.copy.None?
    ensures s.connect(conns).Some? ==> UploadError(s, conns) == s.connect(conns)
    ensures s.connect(conns).None? && s.stat.Failure? ==>
              UploadError(s, conns) == Some(Wrapped("failed to get file stat of source file", s.stat.error))
    ensures s.connect(conns).None? && s.stat.Success? && s.tarHeader.Some? ==>
              UploadError(s, conns) == Some(Wrapped("failed to write header of tar", s.tarHeader.value))
    ensures s.connect(conns).None? && s.stat.Success? && s.tarHeader.None? && s.tarContent.Some? ==>
              UploadError(s, conns) == Some(Wrapped("failed to write content of source file as tar", s.tarContent.value))
    ensures s.connect(conns).None? && s.stat.Success? && s.tarHeader.None? && s.tarContent.None? && s.copy.Some? ==>
              UploadError(s, conns) == Some(Wrapped("failed to copy file to the container", s.copy.value))
  {
    var t := UploadTrace(s, conns, src, id, destdir);
    if !(s.connect(conns).None? && s.stat.Success? && s.tarHeader.None? && s.tarContent.None?) {
      assert forall e :: e in t ==> !e.CopyToContainer?;
    }
  }

  /** `Upload`: stat the file, write the archive header from what stat
      reported, write the content, and copy the archive into `destdir` of
      the container. */
  method Upload(c: Container, w: World, src: string, destdir: string) returns (err: Option<Error>)
    requires c.Args.Machine.Some?
    modifies w`trace, w`connects
    ensures err == UploadError(w.script, old(w.connects)) && w.connects == old(w.connects) + 1
    ensures w.trace == old(w.trace) + UploadTrace(w.script, old(w.connects), src, c.Body.ID, destdir)
  {
    err := w.CreateClient();
    if err.Some? {
      return;
    }
    var stat := w.Stat(src);
    if stat.Failure? {
      return Some(Wrapped("failed to get file stat of source file", stat.error));
    }
    var e := w.TarHeader(stat.value);
    if e.Some? {
      return Some(Wrapped("failed to write header of tar", e.value));
    }
    e := w.TarContent(src);
    if e.Some? {
      return Some(Wrapped("failed to write content of source file as tar", e.value));
    }
    e := w.CopyToContainer(c.Body.ID, destdir);
    if e.Some? {
      return Some(Wrapped("failed to copy file to the container", e.value));
    }
  }

  // ---------------------------------------------------------------------------
  // Command generation and exec

  /** The requests the older `genExecCommand` issues: the open and then the
      whole staged upload into the root directory, only for a script; the
      upload builds the world's client number `conns`. */
  function GenTrace(s: Script, conns: nat, inline: string, script: string, id: string): (t: seq<Event>)
  {
    if inline != "" || script == "" then []
    else [OpenFile(script)] + if s.open.Some? then [] else UploadTrace(s, conns, script, id, "/")
  }

  /** The older `genExecCommand`: the same rule as the newer one, over the
      staged upload. */
  method GenExecCommand(c: Container, w: World, execution: Execution) returns (r: Result<seq<string>>)
    requires c.Args.Machine.Some?
    modifies w`trace, w`connects
    ensures r == ExecCommand(execution.Inline, execution.Script, w.script.open, UploadError(w.script, old(w.connects)))
    ensures w.trace == old(w.trace) + GenTrace(w.script, old(w.connects), execution.Inline, execution.Script, c.Body.ID)
    ensures w.connects == old(w.connects) + if Uploads(w.script, execution.Inline, execution.Script) then 1 else 0
  {
    if execution.Inline == "" && execution.Script == "" {
      return Failure(NoCommand);
    }
    if execution.Inline != "" {
      return Success(["bash", "-c", execution.Inline]);
    }
    var openErr := w.OpenFile(execution.Script);
    if openErr.Some? {
      return Failure(Wrapped("failed to open your script file", openErr.value));
    }
    var uploadErr := Upload(c, w, execution.Script, "/");
    AppendAssociative(old(w.trace), [OpenFile(execution.Script)], UploadTrace(w.script, old(w.connects), execution.Script, c.Body.ID, "/"));
    if uploadErr.Some? {
      return Failure(Wrapped("failed to upload", uploadErr.value));
    }
    r := Success(["sh", "/" + Basename(execution.Script)]);
  }

  /** The older `genExecCommand` uploads exactly when the script is the
      command and it could be opened. */
  predicate Uploads(s: Script, inline: string, script: string)
  {
    inline == "" && script != "" && s.open.None?
  }

  /** The two versions of `genExecCommand` agree: with the same answer to
      the open and uploads that either both succeed or both fail, they
      succeed together and with the same command; without an upload they
      decide the same result and issue nothing; with a script they both
      open it first, and only after a successful open the newer one sends a
      single upload request where the older one runs the whole staged upload,
      starting with its own client. */
  lemma GenVersionsAgree(s: Script, conns: nat, inline: string, script: string, id: string)
    ensures var legacy, newer := ExecCommand(inline, script, s.open, UploadError(s, conns)), ExecCommand(inline, script, s.open, s.upload);
      (UploadError(s, conns).None? <==> s.upload.None?) ==>
        (legacy.Success? <==> newer.Success?) && (legacy.Success? ==> legacy.value == newer.value)
    ensures !Uploads(s, inline, script) ==>
              ExecCommand(inline, script, s.open, UploadError(s, conns)) == ExecCommand(inline, script, s.open, s.upload)
    ensures inline != "" || script == "" ==> GenTrace(s, conns, inline, script, id) == [] == Execs.GenTrace(s, inline, script)
    ensures inline == "" && script != "" && s.open.Some? ==>
              GenTrace(s, conns, inline, script, id) == [OpenFile(script)] == Execs.GenTrace(s, inline, script)
    ensures Uploads(s, inline, script) ==>
              && Execs.GenTrace(s, inline, script) == [OpenFile(script), Event.Upload(script, "/")]
              && GenTrace(s, conns, inline, script, id) == [OpenFile(script)] + UploadTrace(s, conns, script, id, "/")
              && GenTrace(s, conns, inline, script, id)[1] == Connect
  {
  }

  /** The requests the older `Exec` issues from the start of exec instance
      `eid`, whose attached connection yields `lines`. */
  function StartTrace(s: Script, eid: string, lines: seq<seq<byte>>, decode: (HijackedIOType, seq<byte>) -> HijackedPayload): (t: seq<Event>)
  {
    [ExecStart(eid)] +
    if s.execStart.Some? then [CloseHijacked(ExecAttach(eid))]
    else Sends(Decoded(decode, MIXED, lines)) + ([CloseHijacked(ExecAttach(eid))] + [CloseStream])
  }

  /** The requests the older `Exec` issues once it has its command. */
  function CreateTrace(s: Script, id: string, cmd: seq<string>, decode: (HijackedIOType, seq<byte>) -> HijackedPayload): (t: seq<Event>)
  {
    [ExecCreate(id, ExecConfig(cmd, true, true, []))] +
    if s.execCreate.Failure? then [] else
      [ExecAttach(s.execCreate.value)] +
      if s.execAttach.Failure? then [] else StartTrace(s, s.execCreate.value, s.execAttach.value, decode)
  }

  /** The requests the older `Exec` issues after `conns` client creations:
      its own client is number `conns`, the upload's number `conns + 1`. */
  function ExecTrace(s: Script, conns: nat, id: string, inline: string, script: string,
                     decode: (HijackedIOType, seq<byte>) -> HijackedPayload): (t: seq<Event>)
  {
    [Connect] +
    if s.connect(conns).Some? then [] else
      var cmd := ExecCommand(inline, script, s.open, UploadError(s, conns + 1));
      GenTrace(s, conns + 1, inline, script, id) + if cmd.Failure? then [] else CreateTrace(s, id, cmd.value, decode)
  }

  /** The error the older `Exec` returns. */
  function ExecError(s: Script, conns: nat, inline: string, script: string): (err: Option<Error>)
  {
    var cmd := ExecCommand(inline, script, s.open, UploadError(s, conns + 1));
    if s.connect(conns).Some? then s.connect(conns)
    else if cmd.Failure? then Some(cmd.error)
    else if s.execCreate.Failure? then Some(Wrapped("Exec Create Error", s.execCreate.error))
    else if s.execAttach.Failure? then Some(Wrapped("Exec Attach Error", s.execAttach.error))
    else if s.execStart.Some? then Some(Wrapped("Exec Start Error", s.execStart.value))
    else None
  }

  /** A failed start closes the attached connection before the error is
      returned, and sends nothing. */
  lemma StartFailureClosesConnection(s: Script, eid: string, lines: seq<seq<byte>>, decode: (HijackedIOType, seq<byte>) -> HijackedPayload)
    requires s.execStart.Some?
    ensures StartTrace(s, eid, lines, decode) == [ExecStart(eid), CloseHijacked(ExecAttach(eid))]
  {
  }

  /** A successful start sends every payload, one per line in read order,
      before closing the connection and then the output channel. */
  lemma StartSuccessStreams(s: Script, eid: string, lines: seq<seq<byte>>, decode: (HijackedIOType, seq<byte>) -> HijackedPayload)
    requires s.execStart.None?
    ensures var t := StartTrace(s, eid, lines, decode);
      && |t| == |lines| + 3 && |Decoded(decode, MIXED, lines)| == |lines| && t[0] == ExecStart(eid)
      && (forall i :: 0 <= i < |lines| ==> t[1 + i] == Send(Decoded(decode, MIXED, lines)[i]))
      && t[|t| - 2] == CloseHijacked(ExecAttach(eid)) && t[|t| - 1] == CloseStream
  {
    var ps := Decoded(decode, MIXED, lines);
    DecodedLength(decode, MIXED, lines);
    var rest := [CloseHijacked(ExecAttach(eid))] + [CloseStream];
    SendsBetween(ExecStart(eid), ps, rest);
    var t := StartTrace(s, eid, lines, decode);
    assert t[1 + |ps| + 0] == rest[0] && t[1 + |ps| + 1] == rest[1];
  }

  /** Command generation issues only file and upload requests. */
  lemma GenIssuesNoExecRequest(s: Script, conns: nat, inline: string, script: string, id: string)
    ensures forall e :: e in GenTrace(s, conns, inline, script, id) ==> !e.ExecCreate? && !e.ExecAttach? && !e.ExecStart?
  {
  }

  /** A command-generation failure stops the older `Exec` before any exec
      request, and is returned as is. */
  lemma CommandErrorBeforeCreate(s: Script, conns: nat, id: string, inline: string, script: string,
                                 decode: (HijackedIOType, seq<byte>) -> HijackedPayload)
    requires s.connect(conns).None? && ExecCommand(inline, script, s.open, UploadError(s, conns + 1)).Failure?
    ensures forall e :: e in ExecTrace(s, conns, id, inline, script, decode) ==> !e.ExecCreate? && !e.ExecAttach? && !e.ExecStart?
    ensures ExecError(s, conns, inline, script) == Some(ExecCommand(inline, script, s.open, UploadError(s, conns + 1)).error)
  {
    GenIssuesNoExecRequest(s, conns + 1, inline, script, id);
    assert ExecTrace(s, conns, id, inline, script, decode) == [Connect] + GenTrace(s, conns + 1, inline, script, id);
  }

  /** Once there is a command, each exec request is issued only when the one
      before it succeeded: create, then attach, then start. */
  lemma ExecStepsInOrder(s: Script, id: string, cmd: seq<string>, decode: (HijackedIOType, seq<byte>) -> HijackedPayload)
    ensures var t := CreateTrace(s, id, cmd, decode);
      && t[0] == ExecCreate(id, ExecConfig(cmd, true, true, []))
      && (s.execCreate.Failure? ==> t == [ExecCreate(id, ExecConfig(cmd, true, true, []))])
      && (s.execCreate.Success? ==> |t| >= 2 && t[1] == ExecAttach(s.execCreate.value))
      && (s.execCreate.Success? && s.execAttach.Failure? ==> |t| == 2)
      && (s.execCreate.Success? && s.execAttach.Success? ==> |t| >= 4 && t[2] == ExecStart(s.execCreate.value))
  {
  }

  /** The older `Exec` succeeds exactly when every step succeeded, the start
      included. */
  lemma ExecSucceedsOnlyWhenStarted(s: Script, conns: nat, inline: string, script: string)
    ensures ExecError(s, conns, inline, script).None? <==>
              s.connect(conns).None? && ExecCommand(inline, script, s.open, UploadError(s, conns + 1)).Success?
              && s.execCreate.Success? && s.execAttach.Success? && s.execStart.None?
  {
  }

  /** The older `Exec`: client, command, exec create, exec attach, exec start,
      then the output loop. */
  method Exec(c: Container, w: World, execution: Execution, decode: (HijackedIOType, seq<byte>) -> HijackedPayload)
    returns (err: Option<Error>)
    requires c.Args.Machine.Some?
    modifies w`trace, w`connects
    ensures err == ExecError(w.script, old(w.connects), execution.Inline, execution.Script)
    ensures w.trace == old(w.trace) + ExecTrace(w.script, old(w.connects), c.Body.ID, execution.Inline, execution.Script, decode)
    ensures w.connects == old(w.connects) + 1 +
              if w.script.connect(old(w.connects)).None? && Uploads(w.script, execution.Inline, execution.Script) then 1 else 0
  {
    var e := w.CreateClient();
    if e.Some? {
      return e;
    }
    ghost var connected := w.trace;
    var cmd := GenExecCommand(c, w, execution);
    if cmd.Failure? {
      AppendAssociative(old(w.trace), [Connect], w.trace[|connected|..]);
      return Some(cmd.error);
    }
    ghost var generated := w.trace;
    err := CreateAndStart(c, w, cmd.value, decode);
    AppendAssociative(connected, w.trace[|connected|..|generated|], w.trace[|generated|..]);
    AppendAssociative(old(w.trace), [Connect], w.trace[|connected|..]);
  }

  method CreateAndStart(c: Container, w: World, cmd: seq<string>, decode: (HijackedIOType, seq<byte>) -> HijackedPayload)
    returns (err: Option<Error>)
    modifies w`trace
    ensures err == (if w.script.execCreate.Failure? then Some(Wrapped("Exec Create Error", w.script.execCreate.error))
                    else if w.script.execAttach.Failure? then Some(Wrapped("Exec Attach Error", w.script.execAttach.error))
                    else if w.script.execStart.Some? then Some(Wrapped("Exec Start Error", w.script.execStart.value))
                    else None)
    ensures w.trace == old(w.trace) + CreateTrace(w.script, c.Body.ID, cmd, decode)
  {
    var execute := w.ExecCreate(c.Body.ID, ExecConfig(cmd, true, true, []));
    if execute.Failure? {
      return Some(Wrapped("Exec Create Error", execute.error));
    }
    var hijacked := w.ExecAttach(execute.value);
    if hijacked.Failure? {
      return Some(Wrapped("Exec Attach Error", hijacked.error));
    }
    ghost var attached := w.trace;
    err := StartAndStream(w, hijacked.value, execute.value, decode);
    AppendAssociative(old(w.trace), [ExecCreate(c.Body.ID, ExecConfig(cmd, true, true, []))], w.trace[|old(w.trace)| + 1..]);
    AppendAssociative(old(w.trace) + [ExecCreate(c.Body.ID, ExecConfig(cmd, true, true, []))],
                      [ExecAttach(execute.value)], w.trace[|attached|..]);
  }

  /** Start the exec instance; on failure close the connection and report,
      otherwise run the output loop, close the connection and then the
      output channel. */
  method StartAndStream(w: World, h: Hijacked, eid: string, decode: (HijackedIOType, seq<byte>) -> HijackedPayload)
    returns (err: Option<Error>)
    requires h.origin == ExecAttach(eid)
    modifies w`trace
    ensures err == (if w.script.execStart.Some? then Some(Wrapped("Exec Start Error", w.script.execStart.value)) else None)
    ensures w.trace == old(w.trace) + StartTrace(w.script, eid, h.lines, decode)
  {
    var e := w.ExecStart(eid);
    if e.Some? {
      w.Close(h);
      return Some(Wrapped("Exec Start Error", e.value));
    }
    Execs.SendDecoded(w, h.lines, decode);
    w.Close(h);
    w.CloseStream();
    AppendAssociative4(old(w.trace), [ExecStart(eid)], Sends(Decoded(decode, MIXED, h.lines)),
                       [CloseHijacked(h.origin)], [Event.CloseStream]);
    err := None;
  }
}
