# Dockert, modelled in Dafny

Dockert is a small .NET library for tests that need throw-away Docker
containers. It has two parts:

- `DockerClientExtensions` adds extension methods to a Docker.DotNet client:
  - create a container from `ContainerOptions`, pulling the image first when
    it is missing;
  - start a container, and stop and remove one;
  - list containers, and prune the containers the library created;
  - copy files into a container as a tar archive;
  - read a container's logs;
  - run a command in a container and wait for its exit code.
- `AsyncDisposableContainer` is a handle on one container. It is created and
  started from options or an image name. It can read the container's output,
  copy files in and run commands (optionally capturing their output), and it
  stops and removes the container when it is disposed asynchronously.

This project models both parts and proves their properties.

The container engine is outside the library. The model represents it as:

- an abstract state (`Engine.World`): the containers the engine lists, with id,
  labels and status, and the images it holds;
- the `trace` of requests a client has sent;
- a fixed set of requests the engine refuses (`rejected`). A refused request
  is a call that throws.

An operation that sends several requests is specified by a *plan*, the list
of requests it would send. `Engine.Issued(plan, rejected)` is what it actually
sends: the plan in order, up to and including the first refused request. The
world after the operation is `Engine.Perform` of that plan.

Some engine answers are data the model cannot compute. These are parameters
of the operations:

- the id assigned to a new container (`assignedId`), recorded in the
  `CreateContainer` request;
- the id assigned to an exec session (`execId`), recorded in the
  `ExecCreateContainer` request;
- the successive replies to exec inspections (`inspections`), each recorded
  in its `InspectContainerExec` request;
- the text an output stream carries (`logs`, `output`). This one is a bare
  parameter: the `GetContainerLogs` and `StartAndAttachContainerExec`
  requests do not record it.

Modules, one per file:

- `Wrappers`: `Option`, `Result` and `Outcome`.
- `Exceptions`: the errors that escape the library, one constructor per cause.
- `Strings`: the .NET string operations the library uses (`Split`, ordinal
  `StartsWith`), and the helpers the specifications are stated with (`Join`,
  `Count`, `RemoveAll`), which the library does not call.
- `CommandTokenizer`: `ParseCommand`.
- `Engine`: the engine model and `Client`.
- `Options`: `ContainerOptions`.
- `DockerClientExtensions`: the extension methods.
- `ContainerHandle`: `AsyncDisposableContainer`.

The tokenizer is a loop (`ParseCommand`) proved equal to a recursive
character-by-character specification, `Scan`. Everything proved about
tokenizing is proved about `Scan`.

Where the tokenizer's behaviour and its informal description differ, the
model follows the code:

- A backslash is kept in the token.
- Outside quotes a double quote always opens quoting, even right after a
  backslash. So `a\"b` throws for an unmatched quote; it does not give the
  single token `a"b`.
- Inside quotes a double quote right after a backslash leaves quoting open.
  So `"a\"b"` gives the single token `a\b`.

## Model

| member | source | states |
|---|---|---|
| CommandTokenizer.ParseCommand | Dockert/DockerClientExtensions.cs:184-229 | The loop over the characters computes exactly the recursive specification: the tokens, or the unmatched-quotes ArgumentException. |
| CommandTokenizer.ParseSpec | Dockert/DockerClientExtensions.cs:186-228 | The parse fails exactly when the input ends inside quotes, and then with the unmatched-quotes message. On success: the tokens joined by single spaces give the input with every double quote removed; there is one token per unquoted space plus one; no token holds a double quote. |
| CommandTokenizer.ScanJoin | Dockert/DockerClientExtensions.cs:188-221 | At every prefix, the finished tokens plus the token under construction, joined by spaces, are the prefix without its double quotes. |
| CommandTokenizer.ScanNoQuotes | Dockert/DockerClientExtensions.cs:217-220 | No token, finished or under construction, ever holds a double quote. |
| CommandTokenizer.ScanCount | Dockert/DockerClientExtensions.cs:205-210 | The number of finished tokens equals the number of spaces read outside quotes. |
| CommandTokenizer.EscapedInQuotes | Dockert/DockerClientExtensions.cs:190-215 | While quoted, the `escaped` flag is set exactly when the previous character was a backslash. |
| CommandTokenizer.QuoteToggles | Dockert/DockerClientExtensions.cs:194-204 | A double quote read outside quotes always opens quoting. Read inside quotes, it leaves quoting open exactly when the character before it was a backslash. |
| CommandTokenizer.BackslashesKept | Dockert/DockerClientExtensions.cs:190-193 | A successful parse keeps every backslash: the joined tokens hold as many as the command. |
| CommandTokenizer.ScanPlainRun | Dockert/DockerClientExtensions.cs:205-220 | A run without quotes or backslashes, and with spaces only while quoted, is appended verbatim to the token under construction. So spaces inside quotes are literal. |
| CommandTokenizer.EntryPointExample | IntegrationTests/AsyncDisposableContainerTests.cs:18 | `sh -c "echo -n hi"` gives the tokens `sh`, `-c` and `echo -n hi`. |
| CommandTokenizer.EmptyCommandExample | Dockert/DockerClientExtensions.cs:228 | The empty command gives one empty token. |
| CommandTokenizer.EmptyTokensExample | Dockert/DockerClientExtensions.cs:205-210 | Consecutive and trailing spaces give empty tokens: `a  b ` gives `a`, ``, `b`, ``. |
| CommandTokenizer.UnterminatedExample | Dockert/DockerClientExtensions.cs:223-226 | An unterminated quote throws the unmatched-quotes ArgumentException. |
| CommandTokenizer.QuotedBackslashExample | Dockert/DockerClientExtensions.cs:196-199 | Inside quotes `\"` does not close quoting: `"a\"b"` gives the single token `a\b`. |
| CommandTokenizer.UnquotedBackslashExample | Dockert/DockerClientExtensions.cs:200-203 | Outside quotes a backslash does not stop a quote from opening quoting, so `a\"b` is unterminated. |
| Strings.Split | Dockert/DockerClientExtensions.cs:40 | `Split` gives one more field than there are separators. |
| Strings.SplitJoin | Dockert/DockerClientExtensions.cs:40 | Joining the fields with the separator gives the string back, and no field holds the separator. |
| Strings.SplitFirst | Dockert/DockerClientExtensions.cs:41 | The first field is the text before the first separator. When there are more fields, that separator follows it. |
| Strings.RemoveAll | Dockert/DockerClientExtensions.cs:217-220 | Removing a character leaves none of it, and keeps the count of every other character. |
| DockerClientExtensions.DictionarySpec | Dockert/DockerClientExtensions.cs:38-49 | Building a `Dictionary` from lazily produced pairs succeeds exactly when every pair is produced and no key repeats. It then maps each key to its pair's value and holds no other key. If every pair is produced, the only possible failure is a repeated key. If no key repeats, the failure is the exception of a pair. |
| DockerClientExtensions.PortBindingPairSpec | Dockert/DockerClientExtensions.cs:47-48 | A declaration gives a binding pair exactly when it contains `:`, and otherwise an index error. The pair is (container port, [host port]). |
| DockerClientExtensions.ExposedPortsSpec | Dockert/DockerClientExtensions.cs:38-42 | The exposed-port map fails exactly when two declarations name the same container port, with a duplicate-key error. Otherwise its keys are exactly the declared container ports (field 0). |
| DockerClientExtensions.PortBindingsSpec | Dockert/DockerClientExtensions.cs:45-49 | With distinct container ports, the binding map fails exactly when a declaration has no `:`, with an index error. Otherwise its keys are the declared container ports, and each is bound to the single host port (field 1) its declaration names. |
| DockerClientExtensions.BuildParametersFailures | Dockert/DockerClientExtensions.cs:34-53 | Building the create request's parameters fails in object-initializer order: a repeated container port first, then a missing host port, then an unterminated entry-point quote. It succeeds exactly when none of these occurs. |
| DockerClientExtensions.BuildParametersSpec | Dockert/DockerClientExtensions.cs:34-53 | A successful build passes the image name and environment through unchanged. The labels are exactly `dockert=container`. The entry point is absent exactly when none was given, and otherwise is its tokenization. Both port maps have the same keys: the declared container ports, each bound to its host port. |
| DockerClientExtensions.CreatePlanSpec | Dockert/DockerClientExtensions.cs:18-55 | The image list comes first. The image is pulled exactly when it is not present. A parameter error is reported after the image requests, with no create request sent. Otherwise the create request comes last and carries only the ownership label. |
| DockerClientExtensions.EnsureImage | Dockert/DockerClientExtensions.cs:18-32 | Sends the image list, then a pull only when no image matches. The trace, world and outcome are those of the image plan. |
| DockerClientExtensions.CreateContainer | Dockert/DockerClientExtensions.cs:16-58 | Sends the create plan up to the first refusal. Returns the assigned id when every request is accepted and the parameters build. Otherwise returns the engine error or the build error. |
| DockerClientExtensions.StartContainer | Dockert/DockerClientExtensions.cs:60-63 | Sends one start request. It succeeds exactly when the engine accepts it. |
| DockerClientExtensions.StopAndRemoveSpec | Dockert/DockerClientExtensions.cs:65-77 | The remove request is sent only when the stop request is accepted. When both are accepted, the container is no longer listed. |
| DockerClientExtensions.StopAndRemoveContainer | Dockert/DockerClientExtensions.cs:65-77 | Stops with ten seconds before the kill, then force-removes with volumes. Gives up after a refused stop. The trace, world and outcome are those of the two-request plan. |
| DockerClientExtensions.ListAllContainers | Dockert/DockerClientExtensions.cs:79-87 | Lists with `All = true` and returns the ids of every listed container, in order. |
| DockerClientExtensions.PruneSelectionSpec | Dockert/DockerClientExtensions.cs:102 | A container is selected exactly when it is listed, carries `dockert=container`, and either `includeRunning` holds or its status is neither `Running` nor starts with `Up `. The selection keeps listing order. |
| DockerClientExtensions.PruneSelectionMonotone | Dockert/DockerClientExtensions.cs:102 | The selection without `includeRunning` is a subsequence, so a subset, of the selection with it. |
| DockerClientExtensions.RemovalPlanShape | Dockert/DockerClientExtensions.cs:102-105 | The removal requests stop the k-th selected container at position 2k and remove it right after. |
| DockerClientExtensions.RemovalPlanNames | Dockert/DockerClientExtensions.cs:102-105 | Request j of the removal plan stops or removes selected container j/2. |
| DockerClientExtensions.PrunePlanSpec | Dockert/DockerClientExtensions.cs:89-106 | Pruning first lists all containers. An empty listing sends nothing more. Every later request stops or removes a listed, owned container that is running only if `includeRunning`. |
| DockerClientExtensions.RemoveContainers | Dockert/DockerClientExtensions.cs:102-105 | The foreach loop stops and removes the selected ids in order and stops at the first failure. The trace and world are those of the removal plan. |
| DockerClientExtensions.RemoveSelected | Dockert/DockerClientExtensions.cs:97-105 | Nothing is sent for an empty listing. Otherwise the selected containers are removed in listing order. |
| DockerClientExtensions.PruneContainers | Dockert/DockerClientExtensions.cs:89-106 | The trace, world and outcome are those of the prune plan, sent up to the first refusal. |
| DockerClientExtensions.RemovalPlanStep | Dockert/DockerClientExtensions.cs:102-105 | Each iteration extends the removal plan by one stop-and-remove pair, and leaves the rest of the plan untouched. |
| DockerClientExtensions.RemovalPlanSplit | Dockert/DockerClientExtensions.cs:102-105 | The removal plan of a list is the plan of a prefix followed by the plan of the rest. |
| DockerClientExtensions.StopAndRemoveEffect | Dockert/DockerClientExtensions.cs:65-77 | An accepted stop-and-remove unlists the container, adds no id, and keeps every other container listed. |
| DockerClientExtensions.RemovalEffect | Dockert/DockerClientExtensions.cs:102-105 | An accepted run of removals unlists every id in it, adds no id, and keeps every other container listed. |
| DockerClientExtensions.PruneEffect | IntegrationTests/DockerClientExtensionsTests.cs:37-54 | After a wholly accepted prune, no container the rule selects is listed. Every container whose id no selected container shares is still listed. Pruning removes by id, so this alone does not keep a running container that shares its id with a selected one. |
| DockerClientExtensions.PruneKeepsRunning | IntegrationTests/DockerClientExtensionsTests.cs:37-54 | When the engine lists every id at most once, a wholly accepted prune without `includeRunning` keeps every running container listed. |
| DockerClientExtensions.TarHeadersSpec | Dockert/DockerClientExtensions.cs:238-254 | The archive is built exactly when every source file exists. It has one header per file, in order, carrying the target name (or the source name), the permissions and the file's size. Otherwise the error names the first missing file. |
| DockerClientExtensions.TarHeadersStep | Dockert/DockerClientExtensions.cs:238-254 | One loop iteration moves one file's header from the remaining archive to the headers already written. |
| DockerClientExtensions.CreateTarArchive | Dockert/DockerClientExtensions.cs:231-255 | The foreach loop computes exactly the header list, or the missing-file error. |
| DockerClientExtensions.CopyFiles | Dockert/DockerClientExtensions.cs:108-118 | Sends one extraction at `/` carrying the archive, only once the archive is built. A file error is returned without any request. |
| DockerClientExtensions.DeliverChunks | Dockert/DockerClientExtensions.cs:137 | Writing a stream to a sink chunk by chunk leaves the sink as one write of the whole text would: a buffer holds its earlier text followed by every chunk in order, a fresh buffer holds exactly the stream's text, and `Stream.Null` stays null. |
| DockerClientExtensions.LogsPlanSpec | Dockert/DockerClientExtensions.cs:122-135 | No request when both sinks are `Stream.Null`. Otherwise one log request showing exactly the channels whose sinks are buffers, without timestamps, with since, tail and follow passed through. |
| DockerClientExtensions.GetContainerOutput | Dockert/DockerClientExtensions.cs:120-138 | Sends the log plan. Returns the sinks with the logs written to them, or the engine error. |
| DockerClientExtensions.FirstFinished | Dockert/DockerClientExtensions.cs:172-177 | The index of the first inspection that reports the command finished: every earlier one reports it running. |
| DockerClientExtensions.PollsSpec | Dockert/DockerClientExtensions.cs:175 | One inspection request per reply, in order. |
| DockerClientExtensions.ExecPlanSpec | Dockert/DockerClientExtensions.cs:157-177 | The exec session attaches exactly the channels whose sinks are buffers and runs the command as given. It is started and attached, then inspected until, and only until, the first inspection that reports it finished. |
| DockerClientExtensions.PollUntilFinished | Dockert/DockerClientExtensions.cs:172-177 | The do-while loop sends inspections up to the first finished one and returns that inspection, or the engine error. |
| DockerClientExtensions.StartExec | Dockert/DockerClientExtensions.cs:157-164 | Creates the exec session, then starts and attaches to it only if the create was accepted. |
| DockerClientExtensions.RunCommand | Dockert/DockerClientExtensions.cs:155-182 | Sends the exec plan up to the first refusal. Returns the exit code of the first finished inspection, with the output copied to the sinks, or the engine error. |
| DockerClientExtensions.RunCommandDiscarding | Dockert/DockerClientExtensions.cs:145-148 | The array overload without sinks: discarding sinks; returns the exit code. |
| DockerClientExtensions.RunCommandLine | Dockert/DockerClientExtensions.cs:150-153 | The string overload with sinks: the line is tokenized before any request. An unmatched quote throws with an empty trace. |
| DockerClientExtensions.RunCommandLineDiscarding | Dockert/DockerClientExtensions.cs:140-143 | The string overload without sinks: tokenize, then run with discarding sinks. |
| DockerClientExtensions.ExecLinePlanSpec | Dockert/DockerClientExtensions.cs:140-143 | A line ending inside quotes reaches no engine. Otherwise the session runs the tokens and attaches neither channel. |
| Engine.IssuedSpec | Dockert/DockerClientExtensions.cs:65-77 | Awaiting requests in sequence sends a prefix of the plan, in which every request except the last is accepted. All of the plan is sent exactly when every request before the last is accepted. Otherwise the last request sent is the refused one. |
| Engine.IssuedAll | Dockert/DockerClientExtensions.cs:65-77 | A wholly accepted plan is sent in full. |
| Engine.Client.ListImages | Dockert/DockerClientExtensions.cs:18-21 | Records one image-list request. Returns the matching local images, or the engine error. |
| Engine.Client.ListContainers | Dockert/DockerClientExtensions.cs:81-84 | Records one listing request. Returns the listed containers, or the engine error. |
| Engine.Client.Dispose | Dockert/AsyncDisposableContainer.cs:96 | Releasing the client records the release and sends nothing to the engine. |
| ContainerHandle.AsyncDisposableContainer.constructor | Dockert/AsyncDisposableContainer.cs:14-18 | Binds the client and the container id. No output has been captured yet. |
| ContainerHandle.AsyncDisposableContainer.Create | Dockert/AsyncDisposableContainer.cs:45-52 | Creates the container, then starts the container with the returned id. On success, returns a fresh handle on that id with no captured output. The error is the engine's or the parameter builder's. |
| ContainerHandle.AsyncDisposableContainer.FromImage | Dockert/AsyncDisposableContainer.cs:26-29 | The same as `Create` with the given options: the same requests and world, success exactly when every request is accepted and the parameters build, and the error is the parameter builder's when every request was accepted and the engine's otherwise. |
| ContainerHandle.AsyncDisposableContainer.FromImageName | Dockert/AsyncDisposableContainer.cs:22-25 | The same as `Create` with options holding only the image name. These always build, so it succeeds exactly when every request is accepted, and every failure is the engine's. |
| ContainerHandle.NameOnlyBuilds | Dockert/AsyncDisposableContainer.cs:24 | Options holding only an image name always build: no ports, no entry point, no environment, and the ownership label. |
| ContainerHandle.AsyncDisposableContainer.GetStandardOutput | Dockert/AsyncDisposableContainer.cs:31-36 | Asks for standard output only, with no since, no follow and the tail passed through. Returns exactly the text streamed back. |
| ContainerHandle.AsyncDisposableContainer.GetStandardError | Dockert/AsyncDisposableContainer.cs:38-43 | Asks for standard error only, with the same flags. Returns exactly the text streamed back. |
| ContainerHandle.AsyncDisposableContainer.CopyFiles | Dockert/AsyncDisposableContainer.cs:54-57 | Copies into this handle's container, as `CopyFiles` does. |
| ContainerHandle.AsyncDisposableContainer.RunCommand | Dockert/AsyncDisposableContainer.cs:59-84 | Returns exactly the exit code of the underlying run. When capturing and successful, both last outputs are replaced by what this run wrote to fresh buffers, never accumulated. Otherwise both are left unchanged. |
| ContainerHandle.AsyncDisposableContainer.Dispose | Dockert/AsyncDisposableContainer.cs:86-98 | Only releases the client; no engine request and no change to the engine. |
| ContainerHandle.AsyncDisposableContainer.DisposeAsync | Dockert/AsyncDisposableContainer.cs:100-110 | Stops and removes the container, then releases the client. The client is not released when stopping or removing throws. On success the container's id is no longer listed. |

## Left out

- The container engine itself (Docker.DotNet and the daemon) is not part of this model. Its effect on state is reduced to `Engine.Apply`: a pull adds an image, a create lists a container, start and stop change its status, and a remove unlists it. The status texts are representative constants.
- Concurrency: in `RunCommand` the output drain runs alongside the poll loop. The model gives the sequential outcome: the output copied and the exit code of the first finished inspection.
- `CopyOutputToAsync` demultiplexing: the attached or log stream is given as the text of each channel (`StreamOutput`), and `DockerClientExtensions.Deliver`/`CopyOutput` write each channel's text to its sink in one write (`DeliverChunks` shows this equals writing it chunk by chunk).
- Tar bytes and file reads: an archive is its list of headers, and the contents of the files are not modelled. `FileInfo.Length` is a map from existing paths to sizes, and a missing path throws `FileNotFoundException`.
- UTF-8 decoding in `ReadContentsAsString` (Dockert/MemoryStreamExtensions.cs) is not part of this model: a buffer holds text, not bytes.
- The decimal formatting of `since` (`ToUnixTimeSeconds`) and `tail` is left out: the request carries the numbers.
- Cancellation tokens are left out, as are `GC.SuppressFinalize` and the construction of the client from `DockerClientConfiguration` (the client is a parameter of `Create`).
- `Stream` objects filled in place are not modelled. Sinks are values: an operation returns the sinks after writing, and aliasing between two sinks is not represented.
- `ContainerHandle.AsyncDisposableContainer.Id` has no contract of its own. It is the constant `containerId`, which the constructor sets and nothing reassigns.
- `DockerClientExtensions.PollUntilFinished`, `DockerClientExtensions.RunCommand` and the methods that call them require that some inspection reports the command finished. With no such inspection the source polls forever.
- `DockerClientExtensions.ListAllContainers` models the listing as exactly the engine's containers. The engine's own filtering and paging are not modelled.
- `Strings.StartsWith` assumes the `Up ` prefix test is ordinal. The source uses the culture-sensitive overload in the current culture; it agrees with the ordinal test for the ASCII status texts the engine reports.
- Exit codes are unbounded integers; the source's `long` is not bounded in the model.
- The lazy `IEnumerable` of `ParseCommand` is modelled as the list it yields. Its consumers (`ToList`, `ToArray`) consume it in full, so a failure surfaces before any token is used.
- `DockerClientExtensions.PruneEffect` does not promise that running containers survive a prune without `includeRunning` when the engine lists two containers under one id. Removal is by id, in the model as in the source. `PruneKeepsRunning` gives that promise when every listed id is unique.
