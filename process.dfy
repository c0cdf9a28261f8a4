/**
  A container run as if it were a local process: `Start` pulls the image,
  creates the container, attaches to its two outputs and starts it; `Wait`
  copies both outputs into the process's buffers, stripping the attach
  stream's 8-byte frame headers, and then removes the container and its image.
 */
module Processes {
  import opened Types
  import opened Docker
  import opened Remote

  // ---------------------------------------------------------------------------
  // Container name

  /** `strings.Replace(s, "/", "_", -1)`. */
  function ReplaceSlashes(s: string): (r: string)
    ensures |r| == |s|
    ensures forall i :: 0 <= i < |s| ==> r[i] == if s[i] == '/' then '_' else s[i]
  {
    if s == [] then [] else [if s[0] == '/' then '_' else s[0]] + ReplaceSlashes(s[1..])
  }

  /** The digit character for `d`. */
  function DigitChar(d: nat): (c: char)
    requires d < 10
    ensures '0' <= c <= '9' && c as int - '0' as int == d
  {
    ('0' as int + d) as char
  }

  /** The decimal digits of `n`, most significant first. */
  function Digits(n: nat): (s: string)
    ensures |s| > 0 && forall i :: 0 <= i < |s| ==> '0' <= s[i] <= '9'
  {
    if n < 10 then [DigitChar(n)] else Digits(n / 10) + [DigitChar(n % 10)]
  }

  /** `%d` of an integer. */
  function Decimal(n: int): (s: string)
    ensures |s| > 0 && forall i :: 0 <= i < |s| ==> s[i] == '-' || '0' <= s[i] <= '9'
  {
    if n < 0 then "-" + Digits(-n) else Digits(n)
  }

  /** The number a string of decimal digits denotes, read most significant
      digit first. */
  function Value(s: string): (v: int)
  {
    if s == [] then 0 else Value(s[..|s| - 1]) * 10 + (s[|s| - 1] as int - '0' as int)
  }

  /** `Digits(n)` denotes `n`, and has no leading zero unless it is "0". */
  lemma {:induction false} DigitsValue(n: nat)
    ensures Value(Digits(n)) == n
    ensures Digits(n)[0] == '0' <==> n == 0
    ensures n == 0 ==> Digits(n) == "0"
  {
    if n >= 10 {
      DigitsValue(n / 10);
      var ds := Digits(n);
      assert ds[..|ds| - 1] == Digits(n / 10);
    }
  }

  /** `Decimal(n)` is `n` written out: a minus sign exactly for a negative
      number, then the digits of its magnitude, with no leading zero. */
  lemma DecimalShape(n: int)
    ensures Decimal(n)[0] == '-' <==> n < 0
    ensures var ds := if n < 0 then Decimal(n)[1..] else Decimal(n);
      && |ds| > 0 && (forall i :: 0 <= i < |ds| ==> '0' <= ds[i] <= '9')
      && Value(ds) == (if n < 0 then -n else n)
      && (ds[0] == '0' ==> ds == "0")
  {
    var m := if n < 0 then -n else n;
    DigitsValue(m);
    var ds := if n < 0 then Decimal(n)[1..] else Decimal(n);
    assert ds == Digits(m);
  }

  /** Different times give different decimal strings. */
  lemma DecimalInjective(m: int, n: int)
    requires Decimal(m) == Decimal(n)
    ensures m == n
  {
    DecimalShape(m);
    DecimalShape(n);
  }

  /** The container name `Start` uses: the given name, or, when it is empty,
      the image with `/` replaced, `_`, and the Unix time `now`. */
  function ContainerName(image: string, name: string, now: int): (r: string)
  {
    if name == "" then ReplaceSlashes(image) + "_" + Decimal(now) else name
  }

  /** A given name is kept; a generated one is the image with every `/`
      replaced by `_`, then `_`, then `now` in decimal, and has no `/`. */
  lemma ContainerNameShape(image: string, name: string, now: int)
    ensures name != "" ==> ContainerName(image, name, now) == name
    ensures name == "" ==>
      var r := ContainerName(image, name, now);
      && |r| > |image| + 1
      && (forall i :: 0 <= i < |image| ==> r[i] == if image[i] == '/' then '_' else image[i])
      && r[|image|] == '_'
      && r[|image| + 1..] == Decimal(now)
      && '/' !in r
  {
  }

  // ---------------------------------------------------------------------------
  // Configuration sent with ContainerCreate

  /** `containerConfig`: the image and the environment, nothing else (in
      particular no TTY, so the attach streams carry frame headers). */
  function ContainerConfigFor(image: string, env: seq<string>): (cfg: ContainerConfig)
    ensures cfg.Image == image && cfg.Env == env
    ensures !cfg.Tty && !cfg.AttachStdout && !cfg.AttachStderr && cfg.Cmd == []
  {
    EmptyContainerConfig.(Image := image, Env := env)
  }

  /** `hostConfig`: every mount converted to the daemon's mount type, in order. */
  function HostConfigFor(mounts: seq<MountArg>, toAPI: MountArg -> Mount): (h: HostConfig)
    ensures |h.Mounts| == |mounts| && forall i :: 0 <= i < |mounts| ==> h.Mounts[i] == toAPI(mounts[i])
    ensures h.NetworkMode == "" && !h.Privileged && h.Binds == [] && !h.AutoRemove
  {
    EmptyHostConfig.(Mounts := seq(|mounts|, i requires 0 <= i < |mounts| => toAPI(mounts[i])))
  }

  // ---------------------------------------------------------------------------
  // Frame headers of the attach stream

  /** The first four bytes are a stream-type tag 0, 1 or 2 and three zeros. */
  predicate IsStreamHeader(b: seq<byte>)
    requires |b| >= 4
  {
    b[..4] in {[0, 0, 0, 0], [1, 0, 0, 0], [2, 0, 0, 0]}
  }

  /** What `drain` writes for one scanned line `line`: `b` is the line plus
      `"\n"`; it is written whole when it is at most 8 bytes long or does not
      start with a stream header, and without its first 8 bytes otherwise. */
  function DrainPiece(line: seq<byte>): (piece: seq<byte>)
  {
    var b := line + [NEWLINE];
    if |b| <= 8 then b
    else if IsStreamHeader(b) then b[8..]
    else b
  }

  /** The header rule in terms of the scanned line: its first 8 bytes are
      dropped exactly when it has at least 8 bytes and starts with a stream
      header, and the newline is always kept. */
  lemma DrainPieceRule(line: seq<byte>)
    ensures |line| >= 8 && IsStreamHeader(line) ==> DrainPiece(line) == line[8..] + [NEWLINE]
    ensures !(|line| >= 8 && IsStreamHeader(line)) ==> DrainPiece(line) == line + [NEWLINE]
  {
    var b := line + [NEWLINE];
    assert |b| > 8 ==> b[..4] == line[..4] && b[8..] == line[8..] + [NEWLINE];
  }

  /** Everything `drain` writes for `lines`: the pieces, in order. */
  function Drained(lines: seq<seq<byte>>): (out: seq<byte>)
  {
    if lines == [] then [] else Drained(lines[..|lines| - 1]) + DrainPiece(lines[|lines| - 1])
  }

  /** One more line adds its own piece at the end of what was written. */
  lemma DrainedSnoc(lines: seq<seq<byte>>, line: seq<byte>)
    ensures Drained(lines + [line]) == Drained(lines) + DrainPiece(line)
  {
    assert (lines + [line])[..|lines|] == lines;
  }

  /** Proof helper: associativity of byte concatenation, stated on the three
      concrete operands so that the step below stays cheap to check. */
  lemma ConcatAssociative(x: seq<byte>, y: seq<byte>, z: seq<byte>)
    ensures (x + y) + z == x + (y + z)
  {
  }

  /** The induction step of `DrainedAppend`: one more line in the second run. */
  lemma DrainedAppendStep(a: seq<seq<byte>>, init: seq<seq<byte>>, last: seq<byte>)
    requires Drained(a + init) == Drained(a) + Drained(init)
    ensures Drained(a + (init + [last])) == Drained(a) + Drained(init + [last])
  {
    assert a + (init + [last]) == (a + init) + [last];
    DrainedSnoc(a + init, last);
    DrainedSnoc(init, last);
    ConcatAssociative(Drained(a), Drained(init), DrainPiece(last));
  }

  /** Draining two runs of lines one after the other writes what draining each
      writes, in the same order. */
  lemma {:induction false} DrainedAppend(a: seq<seq<byte>>, b: seq<seq<byte>>)
    ensures Drained(a + b) == Drained(a) + Drained(b)
    decreases |b|
  {
    if b == [] {
      assert a + b == a;
    } else {
      var init, last := b[..|b| - 1], b[|b| - 1];
      assert b == init + [last];
      DrainedAppend(a, init);
      DrainedAppendStep(a, init, last);
    }
  }

  /** Draining at least one line writes something that ends in a newline, so
      every piece is newline-terminated. */
  lemma DrainedEndsInNewline(lines: seq<seq<byte>>)
    requires lines != []
    ensures |Drained(lines)| > 0 && Drained(lines)[|Drained(lines)| - 1] == NEWLINE
  {
    var piece := DrainPiece(lines[|lines| - 1]);
    assert Drained(lines) == Drained(lines[..|lines| - 1]) + piece;
  }

  /** What `Start` writes to the pull log: each progress line plus `"\n"`. */
  function PullLog(lines: seq<seq<byte>>): (log: seq<byte>)
  {
    if lines == [] then [] else PullLog(lines[..|lines| - 1]) + lines[|lines| - 1] + [NEWLINE]
  }

  /** The loop over the pull's progress reader: each line is written to the
      log followed by `"\n"`. */
  method WriteLines(log: Buffer, lines: seq<seq<byte>>)
    modifies log
    ensures log.data == old(log.data) + PullLog(lines)
  {
    for i := 0 to |lines|
      invariant log.data == old(log.data) + PullLog(lines[..i])
    {
      assert lines[..i + 1][..i] == lines[..i];
      log.Write(lines[i] + [NEWLINE]);
    }
    assert lines[..|lines|] == lines;
  }

  // ---------------------------------------------------------------------------
  // The sequence of requests

  const NoMachine := Fail("Machine is not defined")
  const StillRunning := Fail("This container is still running, not to be cleanup")

  /** The requests `Start` issues after the pull when every one of them
      succeeds, in order: create, attach to each output, start. */
  function LaunchPlan(config: ContainerConfig, host: HostConfig, name: string, id: string): (plan: seq<Event>)
    ensures |plan| == 4
  {
    [ContainerCreate(config, host, EmptyNetworkingConfig, name),
     ContainerAttach(id, true, false), ContainerAttach(id, false, true), ContainerStart(id)]
  }

  /** The requests `Start` issues when every one of them succeeds, in order. */
  function StartPlan(image: string, config: ContainerConfig, host: HostConfig, name: string, id: string): (plan: seq<Event>)
    ensures |plan| == 6
  {
    [Connect, ImagePull(image)] + LaunchPlan(config, host, name, id)
  }

  /** How many requests of `LaunchPlan` are issued: it stops at the first one
      that fails. */
  function LaunchIssued(s: Script): (m: nat)
    ensures 1 <= m <= 4
  {
    if s.createErr.Some? then 1
    else if s.attachStdout.Failure? then 2
    else if s.attachStderr.Failure? then 3
    else 4
  }

  /** How many requests of `StartPlan` are issued, given a machine. */
  function StartIssued(s: Script, conns: nat, pulls: nat): (n: nat)
    ensures 1 <= n <= 6
  {
    if s.connect(conns).Some? then 1
    else if s.pull(pulls).Some? then 2
    else 2 + LaunchIssued(s)
  }

  /** The error of the launch stage: the first failure, wrapped with the step
      that failed, except that the start failure is returned as is. */
  function LaunchError(s: Script): (err: Option<Error>)
  {
    if s.createErr.Some? then Some(Wrapped("failed to create container", s.createErr.value))
    else if s.attachStdout.Failure? then Some(Wrapped("failed to attach container STDOUT", s.attachStdout.error))
    else if s.attachStderr.Failure? then Some(Wrapped("failed to attach container STDERR", s.attachStderr.error))
    else s.start
  }

  /** The error `Start` returns, given a machine. */
  function StartError(s: Script, conns: nat, pulls: nat): (err: Option<Error>)
  {
    if s.connect(conns).Some? then Some(Wrapped("failed to create client", s.connect(conns).value))
    else if s.pull(pulls).Some? then Some(Wrapped("failed to pull image on the host", s.pull(pulls).value))
    else LaunchError(s)
  }

  /** Start succeeds exactly when it issues the whole plan and the daemon
      starts the container; a failure before the last step is always
      reported, wrapped with the step's context. */
  lemma StartFailsAtFirstFailure(s: Script, conns: nat, pulls: nat)
    ensures StartError(s, conns, pulls).None? <==> StartIssued(s, conns, pulls) == 6 && s.start.None?
    ensures StartIssued(s, conns, pulls) < 6 ==> StartError(s, conns, pulls).Some? && StartError(s, conns, pulls).value.Wrapped?
    ensures StartIssued(s, conns, pulls) == 6 ==> StartError(s, conns, pulls) == s.start
    ensures s.connect(conns).Some? ==>
              StartError(s, conns, pulls) == Some(Wrapped("failed to create client", s.connect(conns).value))
    ensures s.connect(conns).None? && s.pull(pulls).Some? ==>
              StartError(s, conns, pulls) == Some(Wrapped("failed to pull image on the host", s.pull(pulls).value))
    ensures StartIssued(s, conns, pulls) > 2 && s.createErr.Some? ==>
              StartError(s, conns, pulls) == Some(Wrapped("failed to create container", s.createErr.value))
    ensures StartIssued(s, conns, pulls) > 3 && s.attachStdout.Failure? ==>
              StartError(s, conns, pulls) == Some(Wrapped("failed to attach container STDOUT", s.attachStdout.error))
    ensures StartIssued(s, conns, pulls) > 4 && s.attachStderr.Failure? ==>
              StartError(s, conns, pulls) == Some(Wrapped("failed to attach container STDERR", s.attachStderr.error))
  {
  }

  /** A prefix of the whole plan past the pull is the pull followed by a
      prefix of the launch plan. */
  lemma StartPlanPrefix(image: string, config: ContainerConfig, host: HostConfig, name: string, id: string, m: nat)
    requires m <= 4
    ensures StartPlan(image, config, host, name, id)[..2 + m] == [Connect, ImagePull(image)] + LaunchPlan(config, host, name, id)[..m]
  {
  }

  /** The requests the attach stage issues for container `id`: each request
      only when the one before it succeeded. */
  function AttachTrace(s: Script, id: string): (t: seq<Event>)
  {
    [ContainerAttach(id, true, false)] +
    if s.attachStdout.Failure? then [] else
      [ContainerAttach(id, false, true)] +
      if s.attachStderr.Failure? then [] else [ContainerStart(id)]
  }

  /** The requests the launch stage issues: the create, then the attach stage
      only when the create succeeded. */
  function LaunchTrace(s: Script, config: ContainerConfig, host: HostConfig, name: string): (t: seq<Event>)
  {
    [ContainerCreate(config, host, EmptyNetworkingConfig, name)] +
    if s.createErr.Some? then [] else AttachTrace(s, s.create.ID)
  }

  /** The requests `Start` issues from the pull on. */
  function PullTrace(s: Script, pulls: nat, image: string, config: ContainerConfig, host: HostConfig, name: string): (t: seq<Event>)
  {
    [ImagePull(image)] + if s.pull(pulls).Some? then [] else LaunchTrace(s, config, host, name)
  }

  /** The requests `Start` issues, given a machine. */
  function StartTrace(s: Script, conns: nat, pulls: nat, image: string, config: ContainerConfig, host: HostConfig, name: string): (t: seq<Event>)
  {
    [Connect] + if s.connect(conns).Some? then [] else PullTrace(s, pulls, image, config, host, name)
  }

  /** The requests issued are exactly the plan cut after the first failure. */
  lemma LaunchTraceIsPlanPrefix(s: Script, config: ContainerConfig, host: HostConfig, name: string)
    ensures LaunchTrace(s, config, host, name) == LaunchPlan(config, host, name, s.create.ID)[..LaunchIssued(s)]
  {
  }

  /** `Start` issues exactly the plan cut after the first failure: the steps
      run in order, and nothing after a failed step is requested. */
  lemma StartTraceIsPlanPrefix(s: Script, conns: nat, pulls: nat, image: string, config: ContainerConfig, host: HostConfig, name: string)
    ensures StartTrace(s, conns, pulls, image, config, host, name) == StartPlan(image, config, host, name, s.create.ID)[..StartIssued(s, conns, pulls)]
  {
    LaunchTraceIsPlanPrefix(s, config, host, name);
    if s.connect(conns).None? && s.pull(pulls).None? {
      StartPlanPrefix(image, config, host, name, s.create.ID, LaunchIssued(s));
    }
  }

  /** The requests `cleanup` issues: inspect; remove the container only when it
      is not running; remove the image, forced and with its children, only
      when removing the container succeeded. */
  function CleanupPlan(s: Script, id: string, image: string): (t: seq<Event>)
  {
    [ContainerInspect(id)] +
    if s.inspectRunning.Failure? || s.inspectRunning.value then []
    else [ContainerRemove(id)] + if s.removeContainer.Some? then [] else [ImageRemove(image, true, true)]
  }

  function CleanupError(s: Script): (err: Option<Error>)
  {
    if s.inspectRunning.Failure? then Some(s.inspectRunning.error)
    else if s.inspectRunning.value then Some(StillRunning)
    else if s.removeContainer.Some? then s.removeContainer
    else s.removeImage
  }

  /** A running container is never removed, nor is its image. */
  lemma CleanupGuardsRunning(s: Script, id: string, image: string)
    requires s.inspectRunning == Success(true)
    ensures CleanupPlan(s, id, image) == [ContainerInspect(id)]
    ensures CleanupError(s) == Some(StillRunning)
  {
  }

  /** The image is removed only after the container was, and always forced and
      with its children pruned. */
  lemma CleanupRemovesContainerFirst(s: Script, id: string, image: string)
    ensures forall i :: 0 <= i < |CleanupPlan(s, id, image)| && CleanupPlan(s, id, image)[i].ImageRemove? ==>
      && CleanupPlan(s, id, image)[i] == ImageRemove(image, true, true)
      && i == 2 && CleanupPlan(s, id, image)[1] == ContainerRemove(id)
    ensures CleanupError(s).None? <==> CleanupPlan(s, id, image) == [ContainerInspect(id), ContainerRemove(id), ImageRemove(image, true, true)] && s.removeImage.None?
  {
  }

  // ---------------------------------------------------------------------------
  // The process

  class Process {
    var Image: string
    var Args: Args
    var Log: Buffer?
    var Stdout: Buffer?
    var Stderr: Buffer?
    var hijackedOut: Option<Hijacked>
    var hijackedErr: Option<Hijacked>
    var client: World?
    var ID: string
    var Remove: bool

    /** `NewProcess`: only the image, the arguments and `Remove` are set. */
    constructor (img: string, args: Args)
      ensures Image == img && Args == args && Remove
      ensures ID == "" && client == null && Log == null && Stdout == null && Stderr == null
      ensures hijackedOut == None && hijackedErr == None
    {
      Image, Args, Remove := img, args, true;
      ID := "";
      client, Log, Stdout, Stderr := null, null, null, null;
      hijackedOut, hijackedErr := None, None;
    }

    /** What a successful `Start` leaves behind, and what `Wait` needs. */
    predicate Started()
      reads this
    {
      && client != null && Log != null && Stdout != null && Stderr != null
      && Stdout != Stderr && Log != Stdout && Log != Stderr
      && hijackedOut.Some? && hijackedErr.Some?
    }

    /** `hostConfig`. */
    method HostConfig(toAPI: MountArg -> Mount) returns (h: HostConfig)
      ensures h == HostConfigFor(Args.Mounts, toAPI)
    {
      var mounts: seq<Mount> := [];
      for i := 0 to |Args.Mounts|
        invariant |mounts| == i
        invariant forall k :: 0 <= k < i ==> mounts[k] == toAPI(Args.Mounts[k])
      {
        mounts := mounts + [toAPI(Args.Mounts[i])];
      }
      h := EmptyHostConfig.(Mounts := mounts);
    }

    /** `Start`. The daemon is `w`, the current Unix time `now`, and the
        conversion of the package's mounts to the daemon's `toAPI`. */
    method Start(w: World, now: int, toAPI: MountArg -> Mount) returns (err: Option<Error>)
      modifies `Args, `ID, `client, `Log, `Stdout, `Stderr, `hijackedOut, `hijackedErr, w`trace, w`connects, w`pulls
      ensures old(Args.Machine).None? ==> err == Some(NoMachine) && unchanged(this) && unchanged(w)
      ensures old(Args.Machine).Some? ==>
        var s, k, p := w.script, old(w.connects), old(w.pulls);
        && err == StartError(s, k, p) && w.connects == k + 1
        && w.trace == old(w.trace) + StartTrace(s, k, p, Image, ContainerConfigFor(Image, old(Args.Env)),
                                                HostConfigFor(old(Args.Mounts), toAPI), ContainerName(Image, old(Args.Name), now))
      ensures old(Args.Machine).Some? && w.script.connect(old(w.connects)).Some? ==> unchanged(this) && w.pulls == old(w.pulls)
      ensures old(Args.Machine).Some? && w.script.connect(old(w.connects)).None? ==>
        var s, p := w.script, old(w.pulls);
        && w.pulls == p + 1 && client == w
        && fresh(Log) && fresh(Stdout) && fresh(Stderr)
        && Stdout != Stderr && Log != Stdout && Log != Stderr
        && Stdout.data == [] && Stderr.data == []
        && Log.data == (if s.pull(p).None? then PullLog(s.progress) else [])
        && (s.pull(p).Some? ==> Args == old(Args) && ID == old(ID) && hijackedOut == old(hijackedOut) && hijackedErr == old(hijackedErr))
        && (s.pull(p).None? ==> LaunchState(s, old(Args), old(ID), old(hijackedOut), old(hijackedErr), now))
      ensures err.None? ==> Started()
    {
      if Args.Machine.None? {
        return Some(NoMachine);
      }
      var e := w.CreateClient();
      if e.Some? {
        return Some(Wrapped("failed to create client", e.value));
      }
      Prepare(w);
      ghost var connected := w.trace;
      err := PullAndLaunch(w, now, toAPI);
      AppendAssociative(old(w.trace), [Connect], w.trace[|connected|..]);
    }

    /** Keeps the client and gives the process fresh, empty output and log
        buffers. */
    method Prepare(w: World)
      modifies `client, `Log, `Stdout, `Stderr
      ensures client == w && fresh(Log) && fresh(Stdout) && fresh(Stderr)
      ensures Stdout != Stderr && Log != Stdout && Log != Stderr
      ensures Stdout.data == [] && Stderr.data == [] && Log.data == []
    {
      client := w;
      Stdout := new Buffer();
      Stderr := new Buffer();
      Log := new Buffer();
    }

    /** The part of `Start` from the pull on: pull the image and copy its
        progress lines to the log, then launch. */
    method PullAndLaunch(w: World, now: int, toAPI: MountArg -> Mount) returns (err: Option<Error>)
      requires Log != null
      modifies Log, `Args, `ID, `hijackedOut, `hijackedErr, w`trace, w`pulls
      ensures
        var s, p := w.script, old(w.pulls);
        var launched := s.pull(p).None?;
        && err == (if launched then LaunchError(s) else Some(Wrapped("failed to pull image on the host", s.pull(p).value)))
        && w.trace == old(w.trace) + PullTrace(s, p, Image, ContainerConfigFor(Image, old(Args.Env)), HostConfigFor(old(Args.Mounts), toAPI),
                                               ContainerName(Image, old(Args.Name), now))
        && w.pulls == p + 1
        && Log.data == old(Log.data) + (if launched then PullLog(s.progress) else [])
        && (!launched ==> Args == old(Args) && ID == old(ID) && hijackedOut == old(hijackedOut) && hijackedErr == old(hijackedErr))
      ensures w.script.pull(old(w.pulls)).None? ==> LaunchState(w.script, old(Args), old(ID), old(hijackedOut), old(hijackedErr), now)
    {
      ghost var before := w.trace;
      var pulled := w.ImagePull(Image);
      if pulled.Failure? {
        return Some(Wrapped("failed to pull image on the host", pulled.error));
      }
      WriteLines(Log, pulled.value);
      ghost var pulledTrace := w.trace;
      err := Launch(w, now, toAPI);
      AppendAssociative(before, [ImagePull(Image)], w.trace[|pulledTrace|..]);
    }

    /** The fields the launch stage leaves behind, given the fields before it. */
    predicate LaunchState(s: Script, args0: Args, id0: string, out0: Option<Hijacked>, err0: Option<Hijacked>, now: int)
      reads this
    {
      var m := LaunchIssued(s);
      && Args == args0.(Name := ContainerName(Image, args0.Name, now))
      && ID == (if m >= 2 then s.create.ID else id0)
      && hijackedOut == (if m >= 3 then Some(Hijacked(ContainerAttach(s.create.ID, true, false), s.attachStdout.value)) else out0)
      && hijackedErr == (if m >= 4 then Some(Hijacked(ContainerAttach(s.create.ID, false, true), s.attachStderr.value)) else err0)
    }

    /** The part of `Start` after the pull: name the container if it has no
        name and create it, then attach and start. */
    method Launch(w: World, now: int, toAPI: MountArg -> Mount) returns (err: Option<Error>)
      modifies `Args, `ID, `hijackedOut, `hijackedErr, w`trace
      ensures err == LaunchError(w.script)
      ensures w.trace == old(w.trace) + LaunchTrace(w.script, ContainerConfigFor(Image, old(Args.Env)),
                                                    HostConfigFor(old(Args.Mounts), toAPI), ContainerName(Image, old(Args.Name), now))
      ensures LaunchState(w.script, old(Args), old(ID), old(hijackedOut), old(hijackedErr), now)
    {
      if Args.Name == "" {
        Args := Args.(Name := ContainerName(Image, Args.Name, now));
      }
      var host := HostConfig(toAPI);
      var body, createErr := w.ContainerCreate(ContainerConfigFor(Image, Args.Env), host, EmptyNetworkingConfig, Args.Name);
      if createErr.Some? {
        return Some(Wrapped("failed to create container", createErr.value));
      }
      ID := body.ID;
      ghost var created := w.trace;
      err := AttachAndStart(w, body.ID);
      AppendAssociative(old(w.trace), [ContainerCreate(ContainerConfigFor(Image, old(Args.Env)), host, EmptyNetworkingConfig, Args.Name)],
                        w.trace[|created|..]);
    }

    /** Attach to standard output and then to standard error of container
        `id`, and start it, stopping at the first failure. */
    method AttachAndStart(w: World, id: string) returns (err: Option<Error>)
      modifies `hijackedOut, `hijackedErr, w`trace
      ensures err == (if w.script.attachStdout.Failure? then Some(Wrapped("failed to attach container STDOUT", w.script.attachStdout.error))
                      else if w.script.attachStderr.Failure? then Some(Wrapped("failed to attach container STDERR", w.script.attachStderr.error))
                      else w.script.start)
      ensures w.trace == old(w.trace) + AttachTrace(w.script, id)
      ensures hijackedOut == (if w.script.attachStdout.Failure? then old(hijackedOut)
                              else Some(Hijacked(ContainerAttach(id, true, false), w.script.attachStdout.value)))
      ensures hijackedErr == (if w.script.attachStdout.Failure? || w.script.attachStderr.Failure? then old(hijackedErr)
                              else Some(Hijacked(ContainerAttach(id, false, true), w.script.attachStderr.value)))
    {
      var out := w.ContainerAttach(id, true);
      if out.Failure? {
        return Some(Wrapped("failed to attach container STDOUT", out.error));
      }
      hijackedOut := Some(out.value);

      var errStream := w.ContainerAttach(id, false);
      if errStream.Failure? {
        return Some(Wrapped("failed to attach container STDERR", errStream.error));
      }
      hijackedErr := Some(errStream.value);

      err := w.ContainerStart(id);
    }

    /** `drain`: every line of `h` is written to `dest` by the header rule, in
        order; then the hijacked connection is closed. */
    method Drain(h: Hijacked, dest: Buffer)
      requires client != null
      modifies dest, client`trace
      ensures dest.data == old(dest.data) + Drained(h.lines)
      ensures client.trace == old(client.trace) + [CloseHijacked(h.origin)]
    {
      for i := 0 to |h.lines|
        invariant dest.data == old(dest.data) + Drained(h.lines[..i])
        invariant client.trace == old(client.trace)
      {
        assert h.lines[..i + 1][..i] == h.lines[..i];
        dest.Write(DrainPiece(h.lines[i]));
      }
      assert h.lines[..|h.lines|] == h.lines;
      client.Close(h);
    }

    /** `cleanup`: removes the container, then its image, unless the container
        is still running; the first failure is returned. */
    method Cleanup() returns (err: Option<Error>)
      requires client != null
      modifies client`trace
      ensures client.trace == old(client.trace) + CleanupPlan(client.script, ID, Image)
      ensures err == CleanupError(client.script)
    {
      var res := client.ContainerInspect(ID);
      if res.Failure? {
        return Some(res.error);
      }
      if res.value {
        return Some(StillRunning);
      }
      err := client.ContainerRemove(ID);
      if err.Some? {
        return;
      }
      err := client.ImageRemove(Image, true, true);
    }

    /** `Wait`: standard output is read to its end and closed before standard
        error is read; then the container is cleaned up. */
    method Wait() returns (err: Option<Error>)
      requires Started()
      modifies Stdout, Stderr, client`trace
      ensures Stdout.data == old(Stdout.data) + Drained(hijackedOut.value.lines)
      ensures Stderr.data == old(Stderr.data) + Drained(hijackedErr.value.lines)
      ensures client.trace == old(client.trace)
                + [CloseHijacked(hijackedOut.value.origin), CloseHijacked(hijackedErr.value.origin)]
                + CleanupPlan(client.script, ID, Image)
      ensures err == CleanupError(client.script)
    {
      Drain(hijackedOut.value, Stdout);
      Drain(hijackedErr.value, Stderr);
      err := Cleanup();
    }

    /** `Run`: `Start`, and `Wait` only when `Start` succeeded. */
    method Run(w: World, now: int, toAPI: MountArg -> Mount) returns (err: Option<Error>)
      modifies `Args, `ID, `client, `Log, `Stdout, `Stderr, `hijackedOut, `hijackedErr, w`trace, w`connects, w`pulls
      ensures old(Args.Machine).None? ==> err == Some(NoMachine) && unchanged(this) && unchanged(w)
      ensures old(Args.Machine).Some? ==>
        var s, k, p := w.script, old(w.connects), old(w.pulls);
        var started := old(w.trace) + StartTrace(s, k, p, Image, ContainerConfigFor(Image, old(Args.Env)),
                                                 HostConfigFor(old(Args.Mounts), toAPI), ContainerName(Image, old(Args.Name), now));
        if StartError(s, k, p).Some? then
          && err == StartError(s, k, p) && w.trace == started
          && (s.connect(k).Some? ==> unchanged(this) && w.pulls == p)
          && (s.connect(k).None? ==> client == w && Log != null && w.pulls == p + 1)
          && (s.connect(k).None? && s.pull(p).Some? ==>
                Log.data == [] && Args == old(Args) && ID == old(ID) && hijackedOut == old(hijackedOut) && hijackedErr == old(hijackedErr))
          && (s.connect(k).None? && s.pull(p).None? ==>
                Log.data == PullLog(s.progress) && LaunchState(s, old(Args), old(ID), old(hijackedOut), old(hijackedErr), now))
        else
          && err == CleanupError(s)
          && w.trace == started + [CloseHijacked(ContainerAttach(s.create.ID, true, false)), CloseHijacked(ContainerAttach(s.create.ID, false, true))]
                                + CleanupPlan(s, s.create.ID, Image)
          && Stdout != null && Stderr != null
          && Stdout.data == Drained(s.attachStdout.value)
          && Stderr.data == Drained(s.attachStderr.value)
          && client == w && Log != null && Log.data == PullLog(s.progress) && w.pulls == p + 1
          && LaunchState(s, old(Args), old(ID), old(hijackedOut), old(hijackedErr), now)
    {
      err := Start(w, now, toAPI);
      if err.Some? {
        return;
      }
      err := Wait();
    }
  }
}
