# Custom transfer adapter and lock-search filters, modelled in Dafny

This project models two parts of git-lfs.

The first is the custom transfer adapter (`transfer/custom.go`). It hands each object's bytes to an external program chosen in configuration. The model covers:

- how many workers `Begin` asks the pool for;
- one process per worker, with an init handshake;
- line-framed JSON requests, and replies read one line at a time and matched against candidate decoders in order;
- the per-transfer reply loop: progress callbacks, the one-time authentication signal, oid checks, embedded errors, and verification after uploads;
- graceful shutdown with abort as the fallback;
- discovery of `lfs.customtransfer.<name>.path` keys and registration for the upload and/or download direction.

The second is `locksFlags.Filters` (`commands/command_locks.go`). It builds the filter list for a lock search.

Files, one module each:

- `Wrappers.dfy`: `Option`.
- `Protocol.dfy`: requests, errors, the one-message-per-line framing, the buffered line reader, and first-match candidate selection.
- `Worker.dfy`: the worker context as a class. It holds the process's pipes and state. What the process prints, whether writes fail and whether it exits cleanly are fixed at launch.
- `TransferLoop.dfy`: the reply loop. `RunLoop` specifies it and `AwaitCompletion` is the loop itself. The file also holds the trace lemmas and the type-assertion finding.
- `CustomTransfer.dfy`: the adapter class and its methods.
- `AdapterConfig.dfy`: key parsing, direction normalisation and the registry.
- `Locks.dfy`: `LocksFlags.Filters`.

Three behaviours of the code that the model keeps, which a reader might not expect:

- The init reply's `error` field is never inspected. A process whose init reply reports an error still becomes a worker. Only a failure to encode, write, read or decode the exchange aborts it (`CustomTransfer.HandshakeError`).
- Mid-transfer protocol errors (oid mismatch, an unreadable or undecodable reply) only return an error. The worker is not aborted (`CustomTransfer.CustomAdapter.DoTransfer` keeps the worker's pipes and process state).
- Registration records every call in order. The model adds no conflict detection between registrations of the same name and direction.

## Model

| member | source | states |
|---|---|---|
| Protocol.Frame | transfer/custom.go:140-141 | a framed message is the encoding followed by exactly one trailing newline |
| Protocol.SplitLine | transfer/custom.go:153 | the line read runs up to and including the first newline and contains no earlier newline; line and remainder together are the input; with no newline everything is consumed |
| Protocol.FramedLineReadsBack | transfer/custom.go:134-147 | a framed message whose encoding has no newline reads back as exactly one line, leaving what follows unread |
| Protocol.FirstMatch | transfer/custom.go:157-162 | the result is the smallest index whose decoder accepts the line; it is none exactly when no decoder accepts it |
| Protocol.SelectCandidate | transfer/custom.go:157-161 | the candidate loop returns the first-match index |
| Protocol.ShadowedCandidateNeverChosen | transfer/custom.go:246 | a candidate listed after one that accepts everything it accepts is never chosen (the completion decoder comes after the progress decoder, which accepts every well-formed completion line) |
| Worker.WorkerContext.constructor | transfer/custom.go:108-113 | a started process with open pipes, nothing sent, all of its output unread |
| Worker.WorkerContext.Write | transfer/custom.go:142-145 | a write appends all its bytes exactly when stdin is open and not broken; otherwise it fails and appends nothing |
| Worker.WorkerContext.ReadString | transfer/custom.go:153-156 | reads one line as SplitLine; fails when no newline remains or stdout is closed |
| Worker.WorkerContext.CloseStdin | transfer/custom.go:190 | stdin is closed afterwards |
| Worker.WorkerContext.CloseStdout | transfer/custom.go:191 | stdout is closed afterwards |
| Worker.WorkerContext.Kill | transfer/custom.go:199 | the process is killed afterwards |
| Worker.WorkerContext.Wait | transfer/custom.go:192 | waiting succeeds exactly when the process exits cleanly and was neither killed nor already waited for |
| CustomTransfer.UseConcurrency | transfer/custom.go:77-80 | the worker count is 1 when concurrency is disallowed, otherwise the requested count; never above a positive request |
| CustomTransfer.ConcurrencyDowngrade | transfer/custom.go:75-87 | for every requested count: disallowed gives 1, allowed gives the request |
| CustomTransfer.OperationName | transfer/custom.go:116-119 | the operation is "download" iff the direction is Download, "upload" iff it is Upload |
| CustomTransfer.HandshakeError | transfer/custom.go:120-126 | the init exchange succeeds iff the request encodes, the write succeeds, a full line comes back and the init decoder accepts it; the reply's error field plays no part |
| CustomTransfer.TransferRequest | transfer/custom.go:216-239 | no context, a wrongly typed context or a missing action for the direction fail before any request; otherwise an upload or download request carrying the oid, the size and that action, plus the local path for uploads |
| CustomTransfer.CustomAdapter.constructor | transfer/custom.go:291-296 | the adapter keeps its name, direction, path, args and concurrency flag; the remembered concurrency starts at 3 |
| CustomTransfer.CustomAdapter.Begin | transfer/custom.go:75-87 | the remembered concurrency becomes the requested count; the pool gets the downgraded count |
| CustomTransfer.CustomAdapter.SendMessage | transfer/custom.go:135-147 | an encoding failure sends nothing; otherwise the framed encoding is appended exactly when the write succeeds |
| CustomTransfer.CustomAdapter.ReadResponse | transfer/custom.go:152-164 | one line is consumed; the result is the first accepting candidate; the read fails on a missing line or when no candidate matches |
| CustomTransfer.CustomAdapter.ExchangeMessage | transfer/custom.go:168-180 | the request is sent first; exactly one line is read, against the single decoder, only when a response is expected and the send succeeded; no line is read otherwise |
| CustomTransfer.CustomAdapter.WorkerStarting | transfer/custom.go:94-132 | launch failures return no context; otherwise the init request carries the operation, the concurrency flag and the remembered count; a context comes back iff the handshake succeeds; on failure the launched process is aborted |
| CustomTransfer.CustomAdapter.ShutdownWorkerProcess | transfer/custom.go:184-193 | sends terminate(complete); a failed send closes nothing; otherwise both pipes are closed and the result is the exit status |
| CustomTransfer.CustomAdapter.AbortWorkerProcess | transfer/custom.go:196-200 | both pipes are closed and the process is killed |
| CustomTransfer.CustomAdapter.WorkerEnding | transfer/custom.go:201-213 | a wrongly typed context changes nothing; otherwise the terminate request is framed onto stdin when it encodes and stdin is writable, the process is waited for exactly then, and the worker ends shut down when shutdown succeeds and aborted exactly when it fails |
| CustomTransfer.CustomAdapter.DoTransfer | transfer/custom.go:215-289 | pre-send failures send nothing; a failed send returns its error; otherwise the request is framed onto stdin and the result and callbacks are those of AfterSend; the worker is never closed or killed |
| TransferLoop.RunLoop | transfer/custom.go:248-282 | the loop reads at most the replies given and never emits a verification; an unreadable reply ends it with the read error, an undecodable one with the no-match error |
| TransferLoop.AwaitCompletion | transfer/custom.go:245-282 | the source's loop (flags complete and authCalled, early returns on errors) yields exactly RunLoop's outcome, callbacks and number of replies read |
| TransferLoop.AfterSend | transfer/custom.go:284-288 | verification is emitted iff the direction is Upload and the loop succeeded, at most once and for the transfer's oid; a loop error is the result; otherwise the result is the verification's outcome for uploads and success for downloads |
| TransferLoop.ProgressCallbacksInOrder | transfer/custom.go:261-263 | the progress callbacks answer, one for one and in order, the leading progress replies for the object, with the transfer's name and size and each reply's bytesSoFar and bytesSinceLast; the loop stops at most one reply later |
| TransferLoop.NoProgressCallbackWhenAbsent | transfer/custom.go:261 | without a progress callback none is made |
| TransferLoop.SuccessfulLoopReportsEveryProgress | transfer/custom.go:253-282 | on success every reply before the completion produced exactly one progress callback |
| TransferLoop.AuthAtMostOnce | transfer/custom.go:277-281 | authentication is signalled at most once, never when the callback is absent or already fired, and exactly once on a successful completion |
| TransferLoop.AuthByFirstPositiveProgress | transfer/custom.go:264 | authentication has fired once the first progress reply with bytesSoFar > 0 is handled, before any later reply is read |
| TransferLoop.NoAuthBeforePositiveProgress | transfer/custom.go:277-281 | while only progress replies with no bytes have been read, authentication has not fired |
| TransferLoop.SuccessShape | transfer/custom.go:265-276 | a successful loop read progress replies for the object and then exactly one error-free completion for it, and nothing after |
| TransferLoop.CompletionAfterProgressSucceeds | transfer/custom.go:265-276 | conversely, such a reply sequence makes the loop succeed right at the completion |
| TransferLoop.OidMismatchFails | transfer/custom.go:258-260 | the first reply naming another object fails the transfer with an oid mismatch, and no verification follows |
| TransferLoop.UndecodedReplyFails | transfer/custom.go:249-252 | a reply after the accepted progress replies that cannot be read fails the transfer with the read error, one that no candidate decodes with the no-match error naming the line; no verification follows |
| TransferLoop.EmbeddedErrorFails | transfer/custom.go:271-273 | a completion carrying an error fails the transfer with that error, and no verification follows |
| TransferLoop.UploadScenario | transfer/custom.go:253-288 | a 10 MB upload reporting 3 MB and then 10 MB before completing gives two progress callbacks, authentication at the first, and one verification |
| TransferLoop.EveryBranchPanicsAsWritten | transfer/custom.go:257 | as written, the type assertion in either branch fails, since slot 0 holds a pointer and a value type is asserted |
| TransferLoop.RunLoopAsWritten | transfer/custom.go:248-267 | the loop as written: unread or undecoded replies return their errors; a decoded reply goes through the branch's type assertion and the loop goes on only if it holds |
| TransferLoop.AsWrittenNeverSucceeds | transfer/custom.go:253-276 | as written, the loop panics exactly when the first reply is decoded, so it never completes a transfer |
| TransferLoop.CorrectedBranchReadsDecodedReply | transfer/custom.go:246 | corrected, each branch asserts the decoded slot at the pointer type stored there, and the assertion holds |
| AdapterConfig.AdapterName | transfer/custom.go:300-303 | a recognised key is exactly lfs.customtransfer.<name>.path for a non-empty name with no dot |
| AdapterConfig.AdapterNameOfKey | transfer/custom.go:300-303 | every such name is recovered from its own path key |
| AdapterConfig.SettingKey | transfer/custom.go:309-311 | a setting key is the prefix, the adapter name, a dot and the setting name |
| AdapterConfig.OnlyPathSettingNamesAdapter | transfer/custom.go:300-311 | of an adapter's setting keys, only the path key is recognised as naming an adapter, and it names that adapter |
| AdapterConfig.GitConfig | transfer/custom.go:309 | a setting's value, or empty when it is absent |
| AdapterConfig.GitConfigBool | transfer/custom.go:310 | an absent or empty setting gives the default (true for concurrent); otherwise the parsed value |
| AdapterConfig.LowerChar | transfer/custom.go:315 | an ASCII upper-case letter becomes its lower-case letter; every other character is kept |
| AdapterConfig.ToLower | transfer/custom.go:315 | the string keeps its length and each character is lower-cased as LowerChar |
| AdapterConfig.NormalizeDirection | transfer/custom.go:312-316 | an empty direction means "both"; otherwise it is lower-cased |
| AdapterConfig.DirectionsFor | transfer/custom.go:323-328 | Download is registered iff the direction is "download" or "both", Upload iff "upload" or "both"; any other string registers nothing |
| AdapterConfig.EmptyDirectionMeansBoth | transfer/custom.go:312-313 | an unset direction registers both directions |
| AdapterConfig.DirectionCaseInsensitive | transfer/custom.go:315 | only the lower-cased direction matters |
| AdapterConfig.OperationNameRegistersItsDirection | transfer/custom.go:323-328 | configuring the operation name of a direction registers exactly that direction |
| AdapterConfig.KeyRegistrations | transfer/custom.go:302-328 | each registration of a key carries the key's adapter name, the key's value as path, and a configured direction |
| AdapterConfig.NewAdapter | transfer/custom.go:319-321 | the factory builds a fresh adapter from the captured path, args and concurrency, for the registered name and direction |
| AdapterConfig.Registry.Register | transfer/custom.go:324 | a registration is appended to the registry |
| AdapterConfig.Registry.ConfigureKey | transfer/custom.go:302-330 | one entry adds exactly its key's registrations and keeps the earlier ones |
| AdapterConfig.Registry.ConfigureCustomAdapters | transfer/custom.go:299-333 | in any visiting order, the registrations added are exactly those of the configuration's path keys, and earlier ones are kept |
| Locks.FiltersForIsUnique | commands/command_locks.go:64-75 | only one filter list fits a given path and id, so cursor and limit cannot affect it |
| Locks.LocksFlags.Filters | commands/command_locks.go:64-75 | both empty gives []; a non-empty path gives exactly one ("path", path) filter, first; a non-empty id gives exactly one ("id", id) filter, last; the length is the number of non-empty fields, at most 2; the flags are read, not changed |

## Findings

| source | as written | input that shows it | evidently intended | confidence | as-written member | corrected member |
|---|---|---|---|---|---|---|
| transfer/custom.go:257-267 | Both branches type-assert slot 0 of the candidate list to a struct value type, but the slots hold pointers; the completion branch also reads the progress slot. A type assertion without the comma-ok form panics on a mismatch. | any reply line a candidate decodes, e.g. `{"oid":"abc","bytesSoFar":1,"bytesSinceLast":1}`: the progress candidate decodes it, and the branch then panics | each branch reads the slot that was decoded, at the pointer type stored there | high; not executed | TransferLoop.AsWrittenNeverSucceeds | TransferLoop.CorrectedBranchReadsDecodedReply |

The rest of the model uses the corrected behaviour. `RunLoop` and `AwaitCompletion` act on the reply that was decoded.

## Left out

- Process and pipe plumbing (starting the command, pipes, close, kill, wait): each step is a state change on `Worker.WorkerContext`. The OS behaviour is fixed by the `Launch` value. Pipes left open when a later launch step fails are not modelled.
- json.Marshal: the adapter's `encode` field stands for it. Only the framing is modelled: the encoding followed by one newline.
- json.Unmarshal: each decoder is a predicate that accepts or rejects a line.
- DoTransfer's replies are passed in as already-classified replies (`Reply`). They are not decoded from the worker's output. The progress decoder ignores unknown fields, so it accepts every object whose oid (when present) is a string and whose byte counts (when present) are in-range integers. A well-formed completion line is such an object, so it is read as progress (`Protocol.ShadowedCandidateNeverChosen`). The model therefore does not claim a completion is reachable from well-formed wire lines. Running out of replies counts as a failed read.
- CustomTransfer.CustomAdapter.DoTransfer: because the replies are passed in, the transfer does not consume the worker's output; its contract keeps `unread` unchanged, where the source reads one output line per reply.
- CustomTransfer.CustomAdapter.Begin: it returns the worker count handed to the pool instead of the pool's own result. The worker pool (adapterBase.Begin and the scheduler) is not part of this model.
- Collaborators not shown (api.VerifyUpload, the local object path, the object's link relations) become parameters: `verifyResult`, `objectPath`, and the `rels` map of a transfer.
- RegisterNewTransferAdapterFunc's registry internals are not part of this model. Registrations are recorded in order, and overwriting or conflicts are not modelled.
- Configuration: the git configuration is an input map. Only keys of the exact shape `lfs.customtransfer.<name>.path` are recognised, with a name that is non-empty and has no dot. This is a subset of what the source's unanchored pattern with unescaped dots matches.
- AdapterConfig.GitConfigBool: config.GitConfigBool is not part of this model. Parsing a present, non-empty value is a parameter.
- AdapterConfig.ToLower: only ASCII letters are lower-cased. Go's Unicode lower-casing differs only for characters that cannot make a string equal to "upload", "download" or "both".
- Integer widths: sizes (int64) and counts (int) are unbounded integers. No arithmetic is done on them.
- Tracing, ClearTempStorage (a no-op), and the package init that calls ConfigureCustomAdapters.
- locksCommand and the flag wiring in commands/command_locks.go:16-41: an HTTP call and printing.
