/**
  The container and execution entities every container-level operation works
  on, and the two pure rules the older and newer versions of `Exec` share:
  which command an execution runs, and how the output loop passes the stream
  type from one decoded payload to the next.
 */
module Daap {
  import opened Types
  import opened Docker
  import opened Hijack

  /** A container on a machine. `Body` is the embedded creation result, whose
      `ID` every later request addresses. `RetryCount` is the retry budget;
      it is 0 unless set on purpose. */
  class Container {
    var Image: string
    var Args: Args
    var RetryCount: int
    var Body: CreatedBody

    /** `NewContainer`: only the image and the arguments are set. */
    constructor (img: string, args: Args)
      ensures Image == img && Args == args
      ensures RetryCount == 0 && Body == CreatedBody("", [])
    {
      Image, Args := img, args;
      RetryCount := 0;
      Body := CreatedBody("", []);
    }
  }

  /** What to run in a container: an inline shell command or a local script
      file, the environment, and whether to inspect the run when its output
      ends. `Inspection` is the embedded exec inspection, which also holds
      the exec instance's ID. */
  class Execution {
    var Inline: string
    var Script: string
    var Env: seq<string>
    var Inspect: bool
    var Inspection: ExecInspect

    constructor (inline: string, script: string, env: seq<string>, inspect: bool)
      ensures Inline == inline && Script == script && Env == env && Inspect == inspect
      ensures Inspection == EmptyExecInspect
    {
      Inline, Script, Env, Inspect := inline, script, env, inspect;
      Inspection := EmptyExecInspect;
    }
  }

  // ---------------------------------------------------------------------------
  // The last element of a slash-separated path

  /** `path` without its trailing slashes. */
  function TrimTrailingSlashes(path: string): (trimmed: string)
  {
    if path == [] || path[|path| - 1] != '/' then path
    else TrimTrailingSlashes(path[..|path| - 1])
  }

  /** What follows the last slash of `path`, or all of it when it has none. */
  function AfterLastSlash(path: string): (last: string)
  {
    if path == [] || path[|path| - 1] == '/' then []
    else AfterLastSlash(path[..|path| - 1]) + [path[|path| - 1]]
  }

  /** Trimming keeps a prefix that does not end in a slash, and removes only
      slashes. */
  lemma {:induction false} TrimTrailingSlashesShape(path: string)
    ensures var r := TrimTrailingSlashes(path);
      && |r| <= |path| && r == path[..|r|]
      && (r == [] || r[|r| - 1] != '/')
      && forall i :: |r| <= i < |path| ==> path[i] == '/'
    decreases |path|
  {
    if path != [] && path[|path| - 1] == '/' {
      TrimTrailingSlashesShape(path[..|path| - 1]);
    }
  }

  /** The last element is a slash-free suffix, preceded by a slash unless it
      is the whole path. */
  lemma {:induction false} AfterLastSlashShape(path: string)
    ensures var r := AfterLastSlash(path);
      && |r| <= |path| && r == path[|path| - |r|..]
      && '/' !in r
      && (|r| < |path| ==> path[|path| - |r| - 1] == '/')
    decreases |path|
  {
    if path != [] && path[|path| - 1] != '/' {
      var init := path[..|path| - 1];
      AfterLastSlashShape(init);
      var r0 := AfterLastSlash(init);
      assert path[|path| - |r0| - 1..] == init[|init| - |r0|..] + [path[|path| - 1]];
    }
  }

  /** `filepath.Base` on a slash-separated path: `"."` for the empty path,
      `"/"` for a path of slashes only, and otherwise the last element with
      trailing slashes removed. */
  function Basename(path: string): (base: string)
  {
    if path == "" then "."
    else
      var last := AfterLastSlash(TrimTrailingSlashes(path));
      if last == "" then "/" else last
  }

  /** The base name is never empty and is either `"/"` or free of slashes; a
      plain file name is its own base name. */
  lemma BasenameShape(path: string)
    ensures Basename(path) != ""
    ensures Basename(path) == "/" || '/' !in Basename(path)
    ensures path != "" && '/' !in path ==> Basename(path) == path
  {
    if path != "" {
      AfterLastSlashShape(TrimTrailingSlashes(path));
    }
    if path != "" && '/' !in path {
      assert path[|path| - 1] in path;
      assert TrimTrailingSlashes(path) == path;
      AfterLastSlashOfPlain(path);
    }
  }

  /** A path without slashes is all last element. */
  lemma {:induction false} AfterLastSlashOfPlain(path: string)
    requires '/' !in path
    ensures AfterLastSlash(path) == path
    decreases |path|
  {
    if path != [] {
      var init := path[..|path| - 1];
      assert path[|path| - 1] in path;
      assert '/' !in init by {
        forall i | 0 <= i < |init| ensures init[i] != '/' {
          assert init[i] == path[i] && path[i] in path;
        }
      }
      AfterLastSlashOfPlain(init);
      assert init + [path[|path| - 1]] == path;
    }
  }

  /** The base name of a path is the base name of any directory followed by
      it: only what follows the last slash counts. */
  lemma BasenameIgnoresDirectory(dir: string, name: string)
    requires name != "" && '/' !in name
    ensures Basename(dir + "/" + name) == name
  {
    var p := dir + "/" + name;
    assert p[|p| - 1] == name[|name| - 1];
    assert TrimTrailingSlashes(p) == p;
    AfterLastSlashOfSuffix(dir + "/", name);
  }

  lemma {:induction false} AfterLastSlashOfSuffix(prefix: string, name: string)
    requires prefix != [] && prefix[|prefix| - 1] == '/' && '/' !in name
    ensures AfterLastSlash(prefix + name) == name
    decreases |name|
  {
    if name == [] {
      assert prefix + name == prefix;
    } else {
      var p := prefix + name;
      assert p[..|p| - 1] == prefix + name[..|name| - 1];
      assert name[|name| - 1] in name;
      AfterLastSlashOfSuffix(prefix, name[..|name| - 1]);
      assert name[..|name| - 1] + [name[|name| - 1]] == name;
    }
  }

  // ---------------------------------------------------------------------------
  // The command an execution runs

  const NoCommand := Fail("either of `inline` or `script` must be specified as an execution")

  /** `genExecCommand`, given what opening the script file and uploading it
      report: the inline command takes precedence over a script; a script is
      run with `sh` from the root directory it was uploaded to. */
  function ExecCommand(inline: string, script: string, openErr: Option<Error>, uploadErr: Option<Error>): (cmd: Result<seq<string>>)
  {
    if inline == "" && script == "" then Failure(NoCommand)
    else if inline != "" then Success(["bash", "-c", inline])
    else if openErr.Some? then Failure(Wrapped("failed to open your script file", openErr.value))
    else if uploadErr.Some? then Failure(Wrapped("failed to upload", uploadErr.value))
    else Success(["sh", "/" + Basename(script)])
  }

  /** A command is produced exactly when there is an inline command, or a
      script that opens and uploads; an inline command is run by `bash -c`
      whatever the script; a script by `sh` from the root, under its base
      name; and every failure names its cause. */
  lemma ExecCommandCases(inline: string, script: string, openErr: Option<Error>, uploadErr: Option<Error>)
    ensures ExecCommand(inline, script, openErr, uploadErr).Success? <==>
              inline != "" || (script != "" && openErr.None? && uploadErr.None?)
    ensures inline != "" ==> ExecCommand(inline, script, openErr, uploadErr) == Success(["bash", "-c", inline])
    ensures inline == "" && script != "" && openErr.None? && uploadErr.None? ==>
              var cmd := ExecCommand(inline, script, openErr, uploadErr).value;
              |cmd| == 2 && cmd[0] == "sh" && cmd[1][0] == '/' && cmd[1][1..] == Basename(script)
    ensures inline == "" && script == "" ==> ExecCommand(inline, script, openErr, uploadErr) == Failure(NoCommand)
    ensures inline == "" && script != "" && openErr.Some? ==>
              ExecCommand(inline, script, openErr, uploadErr) == Failure(Wrapped("failed to open your script file", openErr.value))
    ensures inline == "" && script != "" && openErr.None? && uploadErr.Some? ==>
              ExecCommand(inline, script, openErr, uploadErr) == Failure(Wrapped("failed to upload", uploadErr.value))
  {
    BasenameShape(script);
  }

  /** A script that is a plain file name is run as `sh /<name>`; one in a
      directory is run under its last element only. */
  lemma ScriptRunFromRoot(dir: string, name: string)
    requires name != "" && '/' !in name
    ensures ExecCommand("", name, None, None) == Success(["sh", "/" + name])
    ensures ExecCommand("", dir + "/" + name, None, None) == Success(["sh", "/" + name])
  {
    BasenameShape(name);
    BasenameIgnoresDirectory(dir, name);
  }

  // ---------------------------------------------------------------------------
  // Threading the stream type through the output loop

  /** The payloads the output loop emits for `lines`: each line is decoded
      with the type of the payload before it, the first with `start`. The
      decoder `decode(t, b)` stands for `CreatePayloadFromRawBytes`. */
  function Decoded(decode: (HijackedIOType, seq<byte>) -> HijackedPayload, start: HijackedIOType, lines: seq<seq<byte>>): (payloads: seq<HijackedPayload>)
  {
    if lines == [] then []
    else
      var before := Decoded(decode, start, lines[..|lines| - 1]);
      before + [decode(LastType(start, before), lines[|lines| - 1])]
  }

  /** The type the next decode is given: that of the last payload, or
      `start` before the first. */
  function LastType(start: HijackedIOType, payloads: seq<HijackedPayload>): (t: HijackedIOType)
  {
    if payloads == [] then start else payloads[|payloads| - 1].Type
  }

  /** One payload per line. */
  lemma {:induction false} DecodedLength(decode: (HijackedIOType, seq<byte>) -> HijackedPayload, start: HijackedIOType, lines: seq<seq<byte>>)
    ensures |Decoded(decode, start, lines)| == |lines|
    decreases |lines|
  {
    if lines != [] {
      DecodedLength(decode, start, lines[..|lines| - 1]);
    }
  }

  /** Decoding one more line appends its payload, decoded with the type of
      the last payload so far. */
  lemma DecodedSnoc(decode: (HijackedIOType, seq<byte>) -> HijackedPayload, start: HijackedIOType, lines: seq<seq<byte>>, line: seq<byte>)
    ensures Decoded(decode, start, lines + [line]) ==
            Decoded(decode, start, lines) + [decode(LastType(start, Decoded(decode, start, lines)), line)]
  {
    assert (lines + [line])[..|lines|] == lines;
  }

  /** The loop's threading, stated element by element: one payload per line in
      read order; the first decoded with `start`, every later one with the
      type of the payload just before it. */
  ghost predicate Threaded(decode: (HijackedIOType, seq<byte>) -> HijackedPayload, start: HijackedIOType,
                           lines: seq<seq<byte>>, ps: seq<HijackedPayload>)
  {
    && |ps| == |lines|
    && (|lines| > 0 ==> ps[0] == decode(start, lines[0]))
    && forall i :: 0 < i < |lines| ==> ps[i] == decode(ps[i - 1].Type, lines[i])
  }

  lemma {:induction false} DecodedIsThreaded(decode: (HijackedIOType, seq<byte>) -> HijackedPayload, start: HijackedIOType, lines: seq<seq<byte>>)
    ensures Threaded(decode, start, lines, Decoded(decode, start, lines))
    decreases |lines|
  {
    if lines != [] {
      var init := lines[..|lines| - 1];
      DecodedIsThreaded(decode, start, init);
      var before := Decoded(decode, start, init);
      var ps := Decoded(decode, start, lines);
      assert ps == before + [decode(LastType(start, before), lines[|lines| - 1])];
      forall i | 0 < i < |lines|
        ensures ps[i] == decode(ps[i - 1].Type, lines[i])
      {
        if i < |lines| - 1 {
          assert ps[i] == before[i] && ps[i - 1] == before[i - 1] && lines[i] == init[i];
        }
      }
    }
  }

  /** The threading determines the payloads: any sequence threaded like the
      loop is exactly what the loop emits. */
  lemma {:induction false} ThreadedUnique(decode: (HijackedIOType, seq<byte>) -> HijackedPayload, start: HijackedIOType,
                                          lines: seq<seq<byte>>, ps: seq<HijackedPayload>)
    requires Threaded(decode, start, lines, ps)
    ensures ps == Decoded(decode, start, lines)
    decreases |lines|
  {
    if lines != [] {
      var init, pinit := lines[..|lines| - 1], ps[..|ps| - 1];
      assert Threaded(decode, start, init, pinit) by {
        forall i | 0 < i < |init|
          ensures pinit[i] == decode(pinit[i - 1].Type, init[i])
        {
          assert ps[i] == decode(ps[i - 1].Type, lines[i]);
        }
      }
      ThreadedUnique(decode, start, init, pinit);
      assert ps == pinit + [ps[|ps| - 1]];
    }
  }

  /** The loop carries nothing from one run of lines to the next but the
      last payload's type: decoding `a + b` is decoding `a`, then decoding
      `b` from the type `a` ended with. */
  lemma {:induction false} DecodedAppend(decode: (HijackedIOType, seq<byte>) -> HijackedPayload, start: HijackedIOType,
                                         a: seq<seq<byte>>, b: seq<seq<byte>>)
    ensures Decoded(decode, start, a + b) ==
            Decoded(decode, start, a) + Decoded(decode, LastType(start, Decoded(decode, start, a)), b)
    decreases |b|
  {
    var da := Decoded(decode, start, a);
    var t := LastType(start, da);
    if b == [] {
      assert a + b == a;
    } else {
      var init, last := b[..|b| - 1], b[|b| - 1];
      assert b == init + [last];
      assert a + b == (a + init) + [last];
      DecodedAppend(decode, start, a, init);
      var dinit := Decoded(decode, t, init);
      DecodedSnoc(decode, start, a + init, last);
      DecodedSnoc(decode, t, init, last);
      assert LastType(start, da + dinit) == LastType(t, dinit);
      var p := decode(LastType(t, dinit), last);
      assert (da + dinit) + [p] == da + (dinit + [p]);
    }
  }

  /** A run of lines without a header of their own, read after any lines,
      keeps the type of the last payload before it. */
  lemma HeaderlessRunKeepsType(decode: (HijackedIOType, seq<byte>) -> HijackedPayload, start: HijackedIOType,
                               a: seq<seq<byte>>, b: seq<seq<byte>>)
    requires forall t: HijackedIOType, i :: 0 <= i < |b| ==> decode(t, b[i]).Type == t
    ensures |Decoded(decode, start, a + b)| == |a| + |b|
    ensures forall i :: |a| <= i < |a| + |b| ==>
              Decoded(decode, start, a + b)[i].Type == LastType(start, Decoded(decode, start, a))
  {
    var da := Decoded(decode, start, a);
    var t := LastType(start, da);
    DecodedAppend(decode, start, a, b);
    DecodedLength(decode, start, a);
    DecodedLength(decode, t, b);
    HeaderlessKeepsStart(decode, t, b);
    var db := Decoded(decode, t, b);
    forall i | |a| <= i < |a| + |b|
      ensures Decoded(decode, start, a + b)[i].Type == t
    {
      assert Decoded(decode, start, a + b)[i] == db[i - |a|];
      assert db[i - |a|] in db;
    }
  }

  /** When no line carries a stream header of its own, so that the decoder
      keeps whatever type it is given, every payload is reported as `start`. */
  lemma {:induction false} HeaderlessKeepsStart(decode: (HijackedIOType, seq<byte>) -> HijackedPayload, start: HijackedIOType, lines: seq<seq<byte>>)
    requires forall t: HijackedIOType, i :: 0 <= i < |lines| ==> decode(t, lines[i]).Type == t
    ensures forall p :: p in Decoded(decode, start, lines) ==> p.Type == start
    decreases |lines|
  {
    if lines != [] {
      var init := lines[..|lines| - 1];
      assert forall t: HijackedIOType, i :: 0 <= i < |init| ==> decode(t, init[i]).Type == decode(t, lines[i]).Type;
      HeaderlessKeepsStart(decode, start, init);
      var before := Decoded(decode, start, init);
      assert LastType(start, before) == start;
      assert decode(start, lines[|lines| - 1]).Type == start;
    }
  }
}
