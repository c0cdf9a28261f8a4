/**
  Everything outside the package that it talks to: the Docker daemon behind a
  client connection, the local file system, the archive writer, and the
  consumer of an output channel. A `World` answers each request from a fixed
  `Script` of outcomes and appends an `Event` for every request to `trace`, so
  that the order in which the package issues its requests, and which requests
  it never issues, can be stated.
 */
module Remote {
  import opened Types
  import opened Docker
  import opened Hijack

  datatype Event =
    | Connect                                  // a client is created (CreateClient / getClient)
    | ImagePull(image: string)
    | ContainerCreate(config: ContainerConfig, host: HostConfig, network: NetworkingConfig, name: string)
    | ContainerAttach(id: string, stdout: bool, stderr: bool)
    | ContainerStart(id: string)
    | ContainerInspect(id: string)
    | ContainerRemove(id: string)
    | ImageRemove(image: string, force: bool, pruneChildren: bool)
    | ExecCreate(id: string, exec: ExecConfig)
    | ExecAttach(execID: string)
    | ExecStart(execID: string)
    | ExecInspectCall(execID: string)
    | CloseHijacked(origin: Event)             // the hijacked connection opened by `origin` is closed
    | OpenFile(path: string)
    | Upload(path: string, destDir: string)    // the whole upload of a local file, as one step
    | Stat(path: string)
    | TarHeader(info: FileInfo)
    | TarContent(path: string)
    | CopyToContainer(id: string, destDir: string)
    | Send(payload: HijackedPayload)           // a payload is handed to the output channel
    | CloseStream                              // the output channel is closed

  /** A hijacked connection: the request that opened it and the lines that
      can be read from it, in order. */
  datatype Hijacked = Hijacked(origin: Event, lines: seq<seq<byte>>)

  /** The outcome of every request. `connect(k)` is the outcome of the k-th
      client creation on this world and `pull(k)` that of the k-th image pull
      (both counting from 0): every client creation builds a new client and can
      fail on its own, and a retried pull can fail a few times and then
      succeed. */
  datatype Script = Script(
    connect: nat -> Option<Error>,
    pull: nat -> Option<Error>,
    progress: seq<seq<byte>>,
    create: CreatedBody,
    createErr: Option<Error>,
    attachStdout: Result<seq<seq<byte>>>,
    attachStderr: Result<seq<seq<byte>>>,
    start: Option<Error>,
    inspectRunning: Result<bool>,
    removeContainer: Option<Error>,
    removeImage: Option<Error>,
    execCreate: Result<string>,
    execAttach: Result<seq<seq<byte>>>,
    execStart: Option<Error>,
    execInspect: Result<ExecInspect>,
    open: Option<Error>,
    upload: Option<Error>,
    stat: Result<FileInfo>,
    tarHeader: Option<Error>,
    tarContent: Option<Error>,
    copy: Option<Error>)

  /** The events `e` repeated `n` times. */
  function Repeat(e: Event, n: nat): (r: seq<Event>)
    ensures |r| == n && forall i :: 0 <= i < n ==> r[i] == e
  {
    if n == 0 then [] else Repeat(e, n - 1) + [e]
  }

  /** The send events of a sequence of payloads, in order. */
  function Sends(ps: seq<HijackedPayload>): (t: seq<Event>)
  {
    if ps == [] then [] else Sends(ps[..|ps| - 1]) + [Send(ps[|ps| - 1])]
  }

  /** One send per payload, in the payloads' order. */
  lemma {:induction false} SendsPointwise(ps: seq<HijackedPayload>)
    ensures |Sends(ps)| == |ps| && forall i :: 0 <= i < |ps| ==> Sends(ps)[i] == Send(ps[i])
    decreases |ps|
  {
    if ps != [] {
      SendsPointwise(ps[..|ps| - 1]);
    }
  }

  /** A trace that starts with the sends of `ps`: one send per payload, in
      order, and then `rest`. */
  lemma SendsThen(ps: seq<HijackedPayload>, rest: seq<Event>)
    ensures var t := Sends(ps) + rest;
      && |t| == |ps| + |rest|
      && (forall i :: 0 <= i < |ps| ==> t[i] == Send(ps[i]))
      && (forall j :: 0 <= j < |rest| ==> t[|ps| + j] == rest[j])
  {
    SendsPointwise(ps);
  }

  /** A trace of one event, then the sends of `ps`, then `rest`. */
  lemma SendsBetween(first: Event, ps: seq<HijackedPayload>, rest: seq<Event>)
    ensures var t := [first] + (Sends(ps) + rest);
      && |t| == 1 + |ps| + |rest| && t[0] == first
      && (forall i :: 0 <= i < |ps| ==> t[1 + i] == Send(ps[i]))
      && (forall j :: 0 <= j < |rest| ==> t[1 + |ps| + j] == rest[j])
  {
    SendsThen(ps, rest);
    var u := Sends(ps) + rest;
    var t := [first] + u;
    forall i | 0 <= i < |ps| ensures t[1 + i] == Send(ps[i]) {
      assert t[1 + i] == u[i];
    }
    forall j | 0 <= j < |rest| ensures t[1 + |ps| + j] == rest[j] {
      assert t[1 + |ps| + j] == u[|ps| + j];
    }
  }

  /** Proof helper: concatenation of traces is associative. The operations'
      proofs call it on concrete operands, which keeps them cheap to check. */
  lemma AppendAssociative(a: seq<Event>, b: seq<Event>, c: seq<Event>)
    ensures (a + b) + c == a + (b + c)
  {
  }

  /** Proof helper: the five-part regrouping the streaming proofs need. */
  lemma AppendAssociative4(a: seq<Event>, b: seq<Event>, c: seq<Event>, d: seq<Event>, e: seq<Event>)
    ensures (((a + b) + c) + d) + e == a + (b + (c + (d + e)))
  {
    AppendAssociative(a, b, c);
    AppendAssociative(a + b + c, d, e);
    AppendAssociative(a, b + c, d + e);
    AppendAssociative(b, c, d + e);
  }

  /** Sending one more payload appends its send event. */
  lemma SendsSnoc(ps: seq<HijackedPayload>, p: HijackedPayload)
    ensures Sends(ps + [p]) == Sends(ps) + [Send(p)]
  {
    assert (ps + [p])[..|ps|] == ps;
  }

  class World {
    const script: Script
    var trace: seq<Event>
    var connects: nat
    var pulls: nat

    constructor (script: Script)
      ensures this.script == script && trace == [] && connects == 0 && pulls == 0
    {
      this.script := script;
      trace := [];
      connects := 0;
      pulls := 0;
    }

    method CreateClient() returns (err: Option<Error>)
      modifies `trace, `connects
      ensures trace == old(trace) + [Event.Connect] && connects == old(connects) + 1
      ensures err == script.connect(old(connects))
    {
      trace := trace + [Event.Connect];
      err := script.connect(connects);
      connects := connects + 1;
    }

    method ImagePull(image: string) returns (r: Result<seq<seq<byte>>>)
      modifies `trace, `pulls
      ensures trace == old(trace) + [Event.ImagePull(image)] && pulls == old(pulls) + 1
      ensures r == if script.pull(old(pulls)).Some? then Failure(script.pull(old(pulls)).value) else Success(script.progress)
    {
      r := if script.pull(pulls).Some? then Failure(script.pull(pulls).value) else Success(script.progress);
      trace := trace + [Event.ImagePull(image)];
      pulls := pulls + 1;
    }

    method ContainerCreate(config: ContainerConfig, host: HostConfig, network: NetworkingConfig, name: string)
      returns (body: CreatedBody, err: Option<Error>)
      modifies `trace
      ensures trace == old(trace) + [Event.ContainerCreate(config, host, network, name)]
      ensures body == script.create && err == script.createErr
    {
      trace := trace + [Event.ContainerCreate(config, host, network, name)];
      body, err := script.create, script.createErr;
    }

    /** Attaches to one output of a container; `stdout` picks which. */
    method ContainerAttach(id: string, stdout: bool) returns (r: Result<Hijacked>)
      modifies `trace
      ensures trace == old(trace) + [Event.ContainerAttach(id, stdout, !stdout)]
      ensures var lines := if stdout then script.attachStdout else script.attachStderr;
              r == if lines.Failure? then Failure(lines.error) else Success(Hijacked(Event.ContainerAttach(id, stdout, !stdout), lines.value))
    {
      var e := Event.ContainerAttach(id, stdout, !stdout);
      trace := trace + [e];
      var lines := if stdout then script.attachStdout else script.attachStderr;
      r := if lines.Failure? then Failure(lines.error) else Success(Hijacked(e, lines.value));
    }

    method ContainerStart(id: string) returns (err: Option<Error>)
      modifies `trace
      ensures trace == old(trace) + [Event.ContainerStart(id)] && err == script.start
    {
      trace := trace + [Event.ContainerStart(id)];
      err := script.start;
    }

    /** Inspects a container; the result is whether it is still running. */
    method ContainerInspect(id: string) returns (r: Result<bool>)
      modifies `trace
      ensures trace == old(trace) + [Event.ContainerInspect(id)] && r == script.inspectRunning
    {
      trace := trace + [Event.ContainerInspect(id)];
      r := script.inspectRunning;
    }

    method ContainerRemove(id: string) returns (err: Option<Error>)
      modifies `trace
      ensures trace == old(trace) + [Event.ContainerRemove(id)] && err == script.removeContainer
    {
      trace := trace + [Event.ContainerRemove(id)];
      err := script.removeContainer;
    }

    method ImageRemove(image: string, force: bool, pruneChildren: bool) returns (err: Option<Error>)
      modifies `trace
      ensures trace == old(trace) + [Event.ImageRemove(image, force, pruneChildren)] && err == script.removeImage
    {
      trace := trace + [Event.ImageRemove(image, force, pruneChildren)];
      err := script.removeImage;
    }

    /** Creates an exec instance; the result is its ID. */
    method ExecCreate(id: string, config: ExecConfig) returns (r: Result<string>)
      modifies `trace
      ensures trace == old(trace) + [Event.ExecCreate(id, config)] && r == script.execCreate
    {
      trace := trace + [Event.ExecCreate(id, config)];
      r := script.execCreate;
    }

    method ExecAttach(execID: string) returns (r: Result<Hijacked>)
      modifies `trace
      ensures trace == old(trace) + [Event.ExecAttach(execID)]
      ensures r == if script.execAttach.Failure? then Failure(script.execAttach.error)
                   else Success(Hijacked(Event.ExecAttach(execID), script.execAttach.value))
    {
      trace := trace + [Event.ExecAttach(execID)];
      r := if script.execAttach.Failure? then Failure(script.execAttach.error)
           else Success(Hijacked(Event.ExecAttach(execID), script.execAttach.value));
    }

    method ExecStart(execID: string) returns (err: Option<Error>)
      modifies `trace
      ensures trace == old(trace) + [Event.ExecStart(execID)] && err == script.execStart
    {
      trace := trace + [Event.ExecStart(execID)];
      err := script.execStart;
    }

    method ExecInspect(execID: string) returns (r: Result<ExecInspect>)
      modifies `trace
      ensures trace == old(trace) + [ExecInspectCall(execID)] && r == script.execInspect
    {
      trace := trace + [ExecInspectCall(execID)];
      r := script.execInspect;
    }

    method Close(h: Hijacked)
      modifies `trace
      ensures trace == old(trace) + [CloseHijacked(h.origin)]
    {
      trace := trace + [CloseHijacked(h.origin)];
    }

    method OpenFile(path: string) returns (err: Option<Error>)
      modifies `trace
      ensures trace == old(trace) + [Event.OpenFile(path)] && err == script.open
    {
      trace := trace + [Event.OpenFile(path)];
      err := script.open;
    }

    /** A whole upload of a local file into a container directory, as one step. */
    method Upload(path: string, destDir: string) returns (err: Option<Error>)
      modifies `trace
      ensures trace == old(trace) + [Event.Upload(path, destDir)] && err == script.upload
    {
      trace := trace + [Event.Upload(path, destDir)];
      err := script.upload;
    }

    method Stat(path: string) returns (r: Result<FileInfo>)
      modifies `trace
      ensures trace == old(trace) + [Event.Stat(path)] && r == script.stat
    {
      trace := trace + [Event.Stat(path)];
      r := script.stat;
    }

    method TarHeader(info: FileInfo) returns (err: Option<Error>)
      modifies `trace
      ensures trace == old(trace) + [Event.TarHeader(info)] && err == script.tarHeader
    {
      trace := trace + [Event.TarHeader(info)];
      err := script.tarHeader;
    }

    method TarContent(path: string) returns (err: Option<Error>)
      modifies `trace
      ensures trace == old(trace) + [Event.TarContent(path)] && err == script.tarContent
    {
      trace := trace + [Event.TarContent(path)];
      err := script.tarContent;
    }

    method CopyToContainer(id: string, destDir: string) returns (err: Option<Error>)
      modifies `trace
      ensures trace == old(trace) + [Event.CopyToContainer(id, destDir)] && err == script.copy
    {
      trace := trace + [Event.CopyToContainer(id, destDir)];
      err := script.copy;
    }

    method SendPayload(p: HijackedPayload)
      modifies `trace
      ensures trace == old(trace) + [Send(p)]
    {
      trace := trace + [Send(p)];
    }

    method CloseStream()
      modifies `trace
      ensures trace == old(trace) + [Event.CloseStream]
    {
      trace := trace + [Event.CloseStream];
    }
  }
}
