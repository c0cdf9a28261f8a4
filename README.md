# daap, modelled in Dafny

daap runs a Docker container as if it were a local process. A `Process`
pulls an image, creates a container, attaches to its standard output and
standard error, starts it, and then copies both outputs into in-memory
buffers. While copying it strips the 8-byte frame header of the Docker
Engine attach stream. Last, it removes the container and its image.

A `Container` is the lower-level handle. It is created from caller-supplied
or fixed configurations. Commands run in it as exec instances. The command
is either an inline shell command or a local script uploaded into the
container. The exec output is streamed as typed payloads, and the type of
each payload is fed into the decoding of the next. The newer `PullImage`
wraps its pull in a bounded retry. The pull inside `Process.Start` and the
pull of the older `PullImage` run once.

The Docker daemon, the local file system and the archive writer are
replaced by a `World` (module `Remote`). A `World` answers each request from
a fixed `Script` of outcomes and appends one `Event` per request to its
`trace`. Properties such as "the first failure stops everything after it"
or "the connection is closed before the channel" are stated on that trace.
Every client creation builds a new client, so the `Script` answers the k-th
creation on a world with its own outcome `connect(k)`. A nested client, such
as the one `ExecInspect` builds inside `Exec` or the one `Upload` builds
inside the older `genExecCommand`, can therefore fail while the outer one
succeeded.

Modules:

| module | file | what it holds |
|---|---|---|
| `Types` | types.dfy | options, results, errors, bytes, the output buffer, `Args` |
| `Docker` | docker.dfy | the daemon's configuration and result types |
| `Hijack` | hijack.dfy | stream types and payloads |
| `Mounts` | mount.dfy | mount shorthands |
| `Retries` | retry.dfy | the bounded retry |
| `Remote` | remote.dfy | the scripted daemon and file system |
| `Processes` | process.dfy | `Process`: name derivation, header stripping, start, wait, cleanup |
| `Daap` | daap.dfy | `Container`, `Execution`, the command rule, payload-type threading |
| `Execs` | exec.dfy | the newer `genExecCommand`, `Exec`, `stream`, `ExecInspect` |
| `Legacy` | container.dfy | the older `Create`, `Upload`, `genExecCommand` and `Exec` |
| `Creation` | create.dfy | the newer `Create` and its configuration overrides |
| `Images` | image.dfy | the newer `PullImage`, up to its progress stream |

Several operations exist in two versions: an older one in container.go and
a newer one in a file of its own. They are modelled separately, and lemmas
relate them where they agree.

## Model

| member | source | states |
|---|---|---|
| Retries.Retry | retry.go:7-21 | defines the retry's outcome and invocation count; `RetryCharacterization`, `Exhaustion` and `EventualSuccess` prove what it returns and how often it invokes the operation |
| Retries.ExceededBudgetNeverInvokes | retry.go:7-10 | once the count is past the budget (a negative budget at count 0, for one), the operation is not invoked and the exceeded error carries the budget and the error handed in |
| Retries.ZeroBudgetReturnsRawError | retry.go:12-19 | with budget 0, a failing operation is invoked once and its own error comes back unchanged |
| Retries.SuccessStopsRetry | retry.go:12-15 | a success returns nil and ends the retry with no further invocation |
| Retries.EventualSuccess | retry.go:8-20 | with budget N > 0, an operation that fails K <= N times and then succeeds is invoked exactly K+1 times and nil is returned |
| Retries.EventualSuccessFrom | retry.go:8-20 | the same from any intermediate attempt j <= K |
| Retries.Exhaustion | retry.go:8-20 | with budget N > 0, an always-failing operation is invoked exactly N+1 times, and the exceeded error carries N and the last invocation's error |
| Retries.ExhaustionFrom | retry.go:8-20 | the same from any intermediate attempt j <= N |
| Retries.RetryCharacterization | retry.go:7-21 | for every operation: invocations never exceed the budget left plus one; every invocation but the last failed; the result is nil exactly when the last invocation succeeded |
| Hijack.StreamTypesDistinct | hijack.go:6-13 | `MIXED`, the bitwise or of `STDOUT` (1) and `STDERR` (2), is 3; the three differ; none is the stdin tag 0 |
| Mounts.ReadOnlyFlag | mount.go:8 | an omitted variadic `readonly` gives false; otherwise its first value is used |
| Mounts.Bind | mount.go:6-14 | a bind mount with the given source and target, read-only exactly when the first `readonly` value is true |
| Mounts.VolumesFrom | mount.go:18-23 | a volume mount whose source is the container ID, with an empty target, not read-only |
| Mounts.VolumeByName | mount.go:26-34 | a volume mount with the given name as source and the given target, read-only exactly when the first `readonly` value is true |
| Mounts.ExtraReadOnlyValuesIgnored | mount.go:8-13 | `readonly` values after the first change nothing, for `Bind` and for `VolumeByName` |
| Processes.Process.constructor | process.go:47-53 | `NewProcess` sets the image, the arguments and `Remove = true`; the ID is empty and no client, buffer or stream is set |
| Processes.ReplaceSlashes | process.go:105 | the image with every `/` replaced by `_`, position by position, the length kept |
| Processes.DigitsValue | process.go:105 | the digits of a natural number denote that number, with no leading zero unless it is 0 |
| Processes.DecimalShape | process.go:105 | `%d` of an integer: a leading `-` exactly for a negative one, then a non-empty run of digits without leading zero that denotes its magnitude |
| Processes.DecimalInjective | process.go:105 | different timestamps give different decimal strings |
| Processes.ContainerName | process.go:104-106 | defines the container name; `ContainerNameShape` proves it kept or generated as image, `_`, timestamp |
| Processes.ContainerNameShape | process.go:104-106 | a non-empty name is kept; an empty one becomes the image with `/` replaced by `_`, then `_`, then the timestamp in decimal, with no `/` left |
| Processes.ContainerConfigFor | process.go:166-171 | the container configuration holds the image and the environment, and no TTY, attach flag or command |
| Processes.HostConfigFor | process.go:173-181 | the host configuration holds one converted mount per argument mount, in order, and nothing else |
| Processes.Process.HostConfig | process.go:173-181 | the append loop builds exactly `HostConfigFor` of the argument mounts |
| Processes.DrainPiece | process.go:190-204 | defines one line's output; `DrainPieceRule` proves the header rule |
| Processes.Drained | process.go:189-205 | defines the whole output; `DrainedSnoc`, `DrainedAppend` and `DrainedEndsInNewline` prove it piece by piece, in order |
| Processes.DrainPieceRule | process.go:190-204 | each scanned line gets `\n` appended; when that is longer than 8 bytes and starts with a tag 0, 1 or 2 and three zeros, the first 8 bytes are dropped; otherwise it is written as is |
| Processes.DrainedSnoc | process.go:189-205 | draining one more line appends exactly that line's piece |
| Processes.DrainedAppend | process.go:189-205 | draining two runs of lines writes exactly what draining each writes, in order |
| Processes.DrainedEndsInNewline | process.go:190-204 | the output of at least one line ends with `\n` |
| Processes.Process.Drain | process.go:187-206 | the scanner loop writes each line's piece to the sink in read order, then closes the hijacked connection |
| Processes.WriteLines | process.go:99-101 | the pull loop appends each progress line plus `\n` to the log |
| Processes.LaunchPlan | process.go:107-131 | the requests after the pull are four: create, attach stdout, attach stderr, start |
| Processes.StartPlan | process.go:84-131 | the full plan is six requests: client, pull, and then the four launch requests |
| Processes.LaunchIssued | process.go:107-131 | between one and four launch requests are issued |
| Processes.StartIssued | process.go:84-131 | between one and six requests are issued, given a machine |
| Processes.StartFailsAtFirstFailure | process.go:84-135 | `Start` succeeds exactly when all six requests are issued and the start succeeds; a failed client, pull, create, stdout attach or stderr attach is returned wrapped with that step's own context ("failed to create client", "failed to pull image on the host", "failed to create container", "failed to attach container STDOUT", "failed to attach container STDERR"), and the start's error as is |
| Processes.StartError | process.go:84-135 | defines the error of `Start` step by step; `StartFailsAtFirstFailure` proves which step's context each failure carries |
| Processes.StartPlanPrefix | process.go:84-131 | each cut of the full plan past the pull is the client and the pull followed by the same cut of the launch plan |
| Processes.LaunchTraceIsPlanPrefix | process.go:107-133 | the launch requests issued are the launch plan cut after its first failure |
| Processes.StartTraceIsPlanPrefix | process.go:84-133 | the requests `Start` issues are exactly the six-step plan cut after its first failure, so no later step runs |
| Processes.Process.Start | process.go:76-136 | with no machine: an error before any request, nothing changed. Otherwise: the requests, the error, the generated name, and a fresh log holding the pull's progress. A client failure changes no field. A pull failure leaves name, ID and streams unchanged. The ID is set only after the create succeeds. Success leaves a started process |
| Processes.Process.Prepare | process.go:88-91 | the client is kept and the log and both outputs are fresh, distinct and empty |
| Processes.Process.PullAndLaunch | process.go:94-133 | a pull failure is returned wrapped and changes no field; otherwise the log gets the progress and the launch stage follows |
| Processes.Process.Launch | process.go:104-133 | the launch requests and error as functions of the daemon's answers; the name is generated only when empty; the ID is set from the create result only on success |
| Processes.Process.AttachAndStart | process.go:119-133 | stdout is attached before stderr, then the container is started; each field is set only when its attach succeeded; the first failure is returned wrapped |
| Processes.CleanupPlan | process.go:210-232 | defines the requests of `cleanup`; `CleanupGuardsRunning` and `CleanupRemovesContainerFirst` prove the guard and the order |
| Processes.CleanupError | process.go:210-232 | defines the error of `cleanup`; `CleanupRemovesContainerFirst` proves it is none exactly when every step succeeded |
| Processes.CleanupGuardsRunning | process.go:215-217 | a running container gets the "still running" error and no removal request |
| Processes.CleanupRemovesContainerFirst | process.go:210-232 | an image removal always comes after the container removal, and is always forced and pruning; cleanup succeeds exactly when inspect, container removal and image removal all succeed |
| Processes.Process.Cleanup | process.go:210-232 | the requests and error of `cleanup` are those of the cleanup plan |
| Processes.Process.Wait | process.go:159-163 | stdout is drained completely and closed before stderr; both buffers get exactly the drained output; then cleanup runs and its error is returned |
| Processes.Process.Run | process.go:63-71 | with no machine: the error and nothing changed; a `Start` error is returned without any `Wait` request, with the state `Start` left behind: nothing changed after a client failure, the name, ID and streams unchanged after a pull failure, and otherwise the client, the log of the pull's progress, the generated name, and the ID and streams of the steps that succeeded; on success the same state, both outputs drained, the container cleaned up, and the cleanup error returned |
| Daap.Container.constructor | container.go:28-33 | `NewContainer` sets only the image and the arguments: budget 0 and an empty creation result |
| Daap.Execution.constructor | exec.go:16-25 | an execution starts with an empty inspection |
| Daap.TrimTrailingSlashesShape | exec.go:82 | trimming keeps a prefix of the path that does not end in a slash and removes only slashes |
| Daap.AfterLastSlashShape | exec.go:82 | the last element is a slash-free suffix of the path, preceded by a slash unless it is the whole path |
| Daap.AfterLastSlashOfPlain | exec.go:82 | a path without slashes is its own last element |
| Daap.Basename | exec.go:82 | defines `filepath.Base`; `BasenameShape` and `BasenameIgnoresDirectory` prove its shape |
| Daap.BasenameShape | exec.go:82 | `filepath.Base` is never empty, is `/` or slash-free, and keeps a plain file name |
| Daap.BasenameIgnoresDirectory | exec.go:82 | the base name of `dir/name` is `name` |
| Daap.ExecCommand | exec.go:61-84 | defines the command rule; `ExecCommandCases` proves each case and each error |
| Daap.ExecCommandCases | exec.go:61-84 | a command exists exactly for an inline command, or for a script that opens and uploads; inline wins and runs under `bash -c`; a script runs as `sh /<base name>`; empty input, open failure and upload failure each give their own error |
| Daap.ScriptRunFromRoot | exec.go:82 | a script `name` or `dir/name` runs as `sh /name` |
| Daap.DecodedLength | exec.go:92-104 | the output loop emits one payload per line |
| Daap.DecodedSnoc | exec.go:92-104 | one more line appends one payload, decoded with the type of the last payload so far |
| Daap.DecodedIsThreaded | exec.go:91-97 | the first line is decoded with the start type and each later line with the previous payload's type |
| Daap.ThreadedUnique | exec.go:91-97 | any payload sequence threaded that way is exactly the loop's output |
| Daap.HeaderlessKeepsStart | exec.go:94-96 | if no line carries a header of its own, every payload keeps the start type |
| Daap.DecodedAppend | exec.go:91-104 | the loop carries only the last payload's type: decoding two runs of lines is decoding the first, then the second from the type the first ended with |
| Daap.HeaderlessRunKeepsType | exec.go:94-96 | a run of headerless lines after any lines keeps the type of the last payload before it |
| Daap.Decoded | exec.go:91-104 | defines the loop's output; `DecodedLength`, `DecodedIsThreaded`, `ThreadedUnique` and `DecodedAppend` prove one payload per line, each decoded with the type of the one before |
| Execs.GenTouchesFilesOnlyForScript | exec.go:61-79 | with an inline command, or with neither command nor script, no file is opened; the script is uploaded exactly when its open succeeded |
| Execs.GenExecCommand | exec.go:61-84 | the command is `ExecCommand` of the open and upload outcomes, and the file requests are those of `GenTrace` |
| Execs.CommandErrorBeforeCreate | exec.go:37-40 | a command error is returned as is, before any exec create or attach request |
| Execs.StreamOrder | exec.go:88-111 | one send per line, in read order, then the close of the connection, and the output channel closed last |
| Execs.StreamInspectsOnlyWhenAsked | exec.go:105-108 | the stream issues an inspection exactly when asked to and the inspection's own client could be created |
| Execs.ExecSucceedsOnlyWhenAttached | exec.go:29-58 | `Exec` succeeds exactly when a command was generated and the instance created and attached |
| Execs.FailedExecStreamsNothing | exec.go:29-57 | a failed `Exec` never reaches the stream: no output channel is closed |
| Execs.ExecIDRecordedAfterCreate | exec.go:42-56 | the exec ID is recorded only after the create succeeded; an attach failure returns its error with the ID already recorded; a failed client for the inspection leaves only the ID recorded |
| Execs.Exec | exec.go:29-58 | the error, the requests and the execution's inspection as functions of the daemon's answers; in the model its own client is number `conns` and an inspection, asked for only after a successful attach, builds client `conns + 1`, while the newer upload's own client is inside the abstract upload step and not counted |
| Execs.CreateAndStream | exec.go:42-57 | create with the command and the execution's environment, attach, then stream; each step only after the one before succeeded |
| Execs.Stream | exec.go:87-113 | the stream's requests, and an inspection stored only when one was asked for and it succeeded |
| Execs.SendDecoded | exec.go:90-104 | the read loop sends exactly the threaded payloads, starting from `MIXED` |
| Execs.ExecInspect | exec.go:116-129 | the inspection is stored only on success; on error the execution is unchanged |
| Legacy.FixedConfigShape | container.go:69-83 | the older `Create` always sends the image, an empty environment, no command, TTY and both outputs on; the host configuration it sends has no mounts, binds, network mode or privileges |
| Legacy.Create | container.go:63-85 | a client failure returns first; otherwise one create request with the fixed configuration and `Args.Name`, and the result is stored even on error |
| Legacy.UploadStagesDistinguished | container.go:98-131 | a client error is returned as is; a failed stat, header, content or copy is returned wrapped with that stage's own context ("failed to get file stat of source file", "failed to write header of tar", "failed to write content of source file as tar", "failed to copy file to the container"); the copy is reached exactly when stat, header and content succeeded; the upload succeeds exactly when every stage does |
| Legacy.UploadError | container.go:98-131 | defines the error of `Upload` stage by stage; `UploadStagesDistinguished` proves each stage's context |
| Legacy.Upload | container.go:98-131 | the stages run in order, each only after the one before succeeded; the error is the first failure, wrapped with that stage's context |
| Legacy.GenExecCommand | container.go:134-157 | the same command rule as the newer version, over the staged upload into `/` |
| Legacy.GenVersionsAgree | container.go:134-157 | when both uploads succeed or both fail, the two versions succeed together and with the same command; without an upload they decide the same result and issue nothing, or only the open; after an open, the newer one sends one abstract upload step, whose client is not counted in the model, where the older one runs the staged upload starting with a counted client of its own |
| Legacy.StartFailureClosesConnection | container.go:189-193 | a failed exec start closes the attached connection and sends nothing |
| Legacy.StartSuccessStreams | container.go:195-207 | after a successful start, one send per line in read order, then the close of the connection, and the output channel closed last |
| Legacy.GenIssuesNoExecRequest | container.go:134-157 | command generation issues no exec request |
| Legacy.CommandErrorBeforeCreate | container.go:169-172 | a command error is returned as is, before any exec request |
| Legacy.ExecStepsInOrder | container.go:174-193 | exec create, then attach, then start; each only after the one before succeeded |
| Legacy.ExecSucceedsOnlyWhenStarted | container.go:161-209 | the older `Exec` succeeds exactly when every step up to the start succeeded |
| Legacy.Exec | container.go:161-209 | its error and requests as functions of the daemon's answers; a second client is built only for the script's upload |
| Legacy.CreateAndStart | container.go:174-193 | create with the command and no environment, attach, start; every failure wrapped with its step's context |
| Legacy.StartAndStream | container.go:189-207 | start; on failure close and report; otherwise the `MIXED`-threaded sends, the close of the connection, then the close of the channel |
| Creation.ForcedContainer | create.go:49-65 | defines the container configuration sent; `ForcedFields`, `OtherFieldsPassThrough` and `OverwritesIdempotent` prove what is forced and what passes through |
| Creation.ForcedHost | create.go:53-69 | defines the host configuration sent; the same lemmas prove the host network and privileges forced and the rest passed through |
| Creation.ForcedFields | create.go:59-69 | the image, TTY, both attach flags, the host network mode and privileges always hold their fixed values |
| Creation.OtherFieldsPassThrough | create.go:49-88 | every other field of a caller-supplied container, host or network configuration is sent unchanged |
| Creation.AbsentConfigsDefaulted | create.go:49-57 | a missing configuration is replaced by the empty one before the overwrites |
| Creation.OverwritesIdempotent | create.go:59-69 | the overwrites are idempotent, and a configuration already holding the fixed values is sent as given |
| Creation.VersionsAgreeOnDefaultContainer | create.go:49-65 | with no container configuration, the newer `Create` sends the older one's container configuration; the host configurations differ |
| Creation.Create | create.go:19-92 | a client failure returns before anything else; otherwise one create request with the defaulted, overwritten configurations and `config.Name`, and the result is stored even on error |
| Images.PullOp | image.go:22-29 | the retried closure: its k-th invocation is the world's next pull; `RefusedPullsExhaustBudget` and `PullSucceedsAfterRefusals` use it |
| Images.PullError | image.go:30-32 | the retry's error behind the pull context, or none; `DefaultBudgetPullsOnce` and `RefusedPullsExhaustBudget` prove its value |
| Images.PullImage | image.go:14-32 | client first; then one pull request per invocation of the retried closure, as many as the retry makes, and the retry's error wrapped with the pull context or none |
| Images.DefaultBudgetPullsOnce | image.go:22-32 | with the default budget 0, a refused pull is requested once and its own error is returned wrapped |
| Images.RefusedPullsExhaustBudget | image.go:22-32 | with budget N > 0 and every pull refused, N+1 pulls and an exceeded error carrying N and the last refusal |
| Images.PullSucceedsAfterRefusals | image.go:22-32 | with budget N > 0, K <= N refusals then a success give K+1 pulls and no error |

## Left out

- The Docker daemon, the Docker client, the file system and the archive writer are the scripted `World`. What is modelled is which requests the package issues, in which order, and what it does with the answers.
- Mounts.ReadOnlyFlag: the flags are a value sequence, so the aliasing of `append(readonly, false)` in mount.go:8 and mount.go:28, which can write the extra `false` into the spare capacity of a slice the caller passed with `...`, is not modelled; only the flag read back from it is.
- Client construction (machine.go) and the TLS and environment handling behind it are not part of this model. `getClient` and `Machine.CreateClient` are both the one `Connect` request.
- A nil `Args.Machine` makes the container methods that call `Machine.CreateClient` panic. Those methods require a machine instead. `Process.Start` checks for it, and that check is modelled.
- upload.go is not part of this model. In exec.go the upload is one abstract step with a scripted outcome. The client that upload.go:16 builds for it is inside that step and is not counted in `connects`, so when a script is uploaded the inspection's client is one creation later in the source than in the model. The staged upload of container.go is modelled stage by stage, with the tar bytes left out.
- Goroutines and channels: the output of `stream` and of the older `Exec` is the sequence of sends, with the goroutine run to its end. Whether the consumer reads it concurrently is not modelled.
- Line splitting by `bufio.Scanner` and `ReadBytes`: the lines of a hijacked connection are given. In exec.go:93-103 `ReadBytes('\n')` keeps each line's `\n` and drops a final chunk without one at the end of input, while container.go:197-203 uses a `Scanner`, which strips the `\n` and keeps a final unterminated line; the model takes the lines as already split either way. A read error other than end of input, which stops the loop, is indistinguishable from the end of input here. The logging of such an error is not modelled.
- `time.Now().Unix()` is the parameter `now` of `Process.Start` and `Process.Run`.
- The payload type `HijackedPayload` is the datatype `Hijack.HijackedPayload`, with the type tag and the bytes.
- `CreatePayloadFromRawBytes` is the parameter `decode`, and `Mount.ToDockerAPITypeMount` is the parameter `toAPI`. Their bodies are not part of this model. The `RetryCount` field is a plain integer field with its default 0.
- JSON decoding of the pull progress is a foreign call, and so is the progress stream that both `PullImage` versions return. The older `PullImage` in container.go has no retry and is left out. The newer `PullImage` is modelled up to its error.
- `Output` is a stub that returns nothing, and `StdoutPipe` and `StderrPipe` only expose the readers. Both are left out.
- `Start` exists in start.go and in container.go. Both are one request after the client and are left out.
- Deferred closes of the client, of the pull reader and of the opened script file (`defer script.Close()` in exec.go and container.go) release resources and touch no modelled state. They are not modelled. Closes of hijacked connections and of output channels are modelled.
- Configurations are values. The caller's `*container.Config` aliasing, through which the newer `Create` would also change the caller's own configuration, is not modelled.
- Go errors are values with a context and a cause. The exact message text produced by `%v` and `%s` formatting is not modelled.
- `Remove` is set by `NewProcess`, but `cleanup` never reads it: the check is commented out in process.go. The image is therefore always removed, as in the code.
- With budget N > 0, an always-failing operation runs N+1 times, because retry.go:8-20 tries every count from 0 up to N.
- exec.go:42 calls `ContainerExecCreate` once, without a retry.
- Go's `int` is 64 bits wide: with `RetryCount` at the largest `int`, `count+1` in retry.go:20 would wrap around. `Retries.Retry` counts with unbounded integers and does not model that wrap-around.
