# Pyroxide: a verified model of the task engine

Pyroxide runs Python callables, WASM functions and native plugins on a bounded in-process engine written
in Rust, with Python handles in front of it. This project models the parts of it whose correctness depends
on ordering (who wins which exchange, which byte is read by whom, which generation is recorded when) and
proves what the code and its comments promise, for every run, every interleaving and every byte string.

| part | modules |
|---|---|
| task life cycle, admission, batches, shutdown | `Engine`, `EngineInv`, `EngineProof`, `EngineSubmit`, `EngineRun`, `EngineTheorems`, `EngineShutdown`, `EngineCalls`, `EngineProgress`, `AdmissionObject` |
| binary codec, frames, polling reader | `Wire`, `Utf8`, `Protocol`, `Frame`, `Polling` |
| parent/child protocol and registry cache | `Ipc`, `IpcProof`, `IpcTheorems`, `IpcRuns`, `IpcLaws` |
| process pool and reaper | `Pool` |
| FFI signatures and call cache | `Ffi`, `FfiCache` |
| asynchronous completion | `Waker` |
| shared vocabulary | `Basics`, `Sums` |

`dafny verify dfyconfig.toml` checks everything.

## How the model is built

**Engine.** `Engine` is a step machine over any number of tasks, API callers and workers. One step is one
atomic operation, one lock section or one channel operation, and each thread has a program counter.
Interleavings are sequentially consistent. The code uses SeqCst for the claim and the cancel-pending flag;
the autofree handshake is only Acquire/Release there, so for that pair the model is an abstraction. A task id
is the position of its record, so ids are fresh. Fields commented as history (`owner`, `winner`, `body`,
`late`, `tally`, `owed` and so on) are written by steps and read by none, except that a call may only
begin on an id that was sent. The condition variable of the admission is a notification count: a waiter
sleeps while no notification came after it looked. A single submission is a batch of one. Task bodies
return any result. Cancel and close may be called, any number of times and concurrently, on any id that has
been sent, and a slot is freed by `close` only when the task is terminal, as `TaskHandle` does. The
machine is relational because its subject is the interleaving; `AdmissionObject` keeps `QueueAdmission` as the
object it is and shows that a whole reservation, waits included, is a sequence of the machine's admission steps.

**Codec and frames.** Encoders and decoders are functions, and the buffers and cursors that the code
advances are classes and loops proved equal to them. Integers are big-endian with explicit truncation, UTF-8
validity follows section 4 of RFC 3629 and is proved to accept exactly the encodings of Unicode scalar values, and `usize` has 64 bits. The configured payload limit is a
parameter.

**Parent and child.** `Ipc` joins the parent thread that owns a worker with its child by two byte streams
that either side fills and drains in pieces of any size and that hold any configured number of unread bytes, at
least one; a writer in front of a full stream blocks. Readers take exactly the bytes that
`read_request` and `read_response` ask for. Registry changes by other threads, crashes, cancellations, failed writes
and unusable segments can happen at any point. The WASM and dylib maps share one key space because they share
one generation counter; generations do not wrap. A segment is a named byte string that its opener removes
from the name space; request and response names never coincide, as their prefixes differ.

**Pool, FFI, wake-up.** The pool, the plugin cache and the reaper pass are classes with loops. Around the pool
there is a machine of coordinators. A native call is the call that reaches native code (function pointer, typed
argument bytes, return type), so transparency of the cache needs no assumption about what native code does.
In `Waker` callbacks are not atomic: they interleave at every lock section and future update with engine
threads, coroutines and the waker thread, on any number of event loops. A future belongs to the loop of its
coroutine, and a callback runs on the loop of the future it was posted for.

## Findings

Five promises hold only with a qualification. For each, the exact condition and a failing input are proved.

- The encoder has no limit on FFI arguments and the decoder allows eight. Within the 1 MiB limit the
  round trip holds if and only if there are at most eight arguments (`Protocol.RoundTrip`, `Protocol.NineArguments`);
  with more, the child refuses the request and exits (`IpcTheorems.ServesSentRequest`).
- A worker is returned to the pool right after its acknowledgement is written (src/worker.rs:984-1017), so a pooled
  worker need not have two empty streams. If its last answer was inline, both streams are empty and its child
  waits for a request (`IpcTheorems.PooledWorkerIsQuiet`); after any answer through a segment it can be pooled with the
  byte still on the way (`IpcTheorems.AckCanOutliveTask`). In terms of the configuration, every pooled live
  worker is quiet if the segment threshold is over the payload limit, and otherwise a run that breaks it is constructed
  (`IpcRuns.PooledWithAckInFlight`).
- A recorded generation can differ from what the child holds, exactly between the child's installing a
  replacement with another value and the parent's recording it (`IpcTheorems.RecordsAreFresh`); for any two
  different modules under one name a run gets there (`IpcRuns.RecordBehindChild`).
- `from_str_sigs` and `ParsedFfiSignature::parse` agree on success and on errors, unless the return type is
  unsupported and the first unsupported argument has another name: they then report different names
  (`Ffi.FromStrsAgrees`, `Ffi.ErrorsDiffer`).
- A callback looks its future up by task id alone (python/pyroxide/_async_waker.py:22-33), so one posted for an await
  on one loop can resolve the future of a later await on another loop, from the wrong thread. This cannot
  happen to a task that is awaited on one loop only (`Waker.ResolvedAtHome`), and for any two loops a run is
  constructed in which it happens exactly when they differ (`Waker.ForeignResolution`).

## Model

| member | source | states |
|---|---|---|
| `EngineTheorems.ShutdownDrains` | src/broker.rs:298-369 | in every run, once shutdown is complete and no API call is in flight: no id in either queue, every accepted task terminal and signalled, running count 0, all permits back, submitted = completed + failed + cancelled |
| `EngineShutdown.ShutdownNeverStuck` | src/broker.rs:334-355 | from the spawning of the shutdown thread to completion, a worker or that thread can always take a step that changes the state |
| `EngineShutdown.ShutdownIsBounded` | src/broker.rs:334-355 | whatever callers do meanwhile, at most `DrainRank` such steps can follow, so shutdown completes |
| `EngineTheorems.PermitConservation` | src/broker.rs:97-159 | available + permits held by submissions + ids in both queues + ids popped and not yet released = capacity, at every point of every run |
| `EngineTheorems.WorkerReleaseNeverClips` | src/worker.rs:244-248 | the `min` in `release` never clips for the worker that popped an id |
| `EngineTheorems.CallerReleaseNeverClips` | src/broker.rs:155-159 | nor for a submission that gives back its permits |
| `EngineTheorems.SendNeverRefused` | src/broker.rs:602-631 | `try_send` never reports a full or disconnected channel |
| `EngineTheorems.BatchAllOrNothing` | src/broker.rs:528-638 | a batch that has begun to send is never rolled back: it goes on sending or ends with all its ids queued and counted |
| `EngineTheorems.NoMissedWakeup` | src/broker.rs:97-168 | no reservation sleeps while the admission is closed or has enough permits for it |
| `EngineTheorems.NoGrantAfterClose` | src/broker.rs:161-168 | no reservation is granted at any point after `close` |
| `EngineTheorems.PoolsDoNotMix` | src/worker.rs:264-269 | in-process workers only hold in-process tasks and coordinators only isolated ones, so the isolated branch of `worker_loop` is dead |
| `EngineTheorems.TerminalAbsorbing` | src/worker.rs:464-482 | a terminal status never changes, over whole runs |
| `EngineTheorems.NoEarlyCompletion` | src/worker.rs:485-493 | once `completed` is true the status is terminal and no worker executes the task, then or ever after |
| `EngineTheorems.NoLostCompletion` | src/broker.rs:773-826 | once the popping worker and any canceller that won have finished, `completed` is true, also when the coordinator alone must signal |
| `EngineTheorems.OutcomeCountedOnce` | src/worker.rs:31-67 | each outcome counter equals the number of tasks counted in it, and a task at rest is counted in exactly the counter of its final status |
| `EngineTheorems.ResultBeforeStatus` | src/worker.rs:453-482 | whoever sees Completed or Failed finds a result, Ok exactly for Completed |
| `EngineTheorems.ResultIsTheWorkers` | src/worker.rs:597-634 | the result of a Completed or Failed task is what a worker returned from that task's body at an earlier step of the run |
| `EngineTheorems.BodyWasReturned` | src/worker.rs:443-446 | every recorded body outcome stems from such a return |
| `EngineTheorems.CancelledResultStays` | src/broker.rs:789-806 | once the winner of the exchange to Cancelled has written the cancelled result no later step changes it, and a task at rest in Cancelled has it |
| `EngineCalls.ShutdownClaimGap` | src/worker.rs:156-228 | a task claimed after a shutdown call with `cancel_pending` has stored its flag never becomes Completed or Failed and comes to rest Cancelled; an in-process one is never executed |
| `EngineCalls.ShutdownSetsFlag` | src/broker.rs:312-319 | a shutdown call with `cancel_pending` sets the flag, for the rest of the run |
| `EngineCalls.FlagFromCall` | src/broker.rs:312-319 | if the flag is set, some caller stored it in a shutdown call with `cancel_pending` |
| `EngineCalls.FlagCallBegan` | src/broker.rs:298-319 | that caller entered shutdown with the same arguments |
| `EngineCalls.ShutdownCancelsOnRequest` | src/worker.rs:51-67 | a task cancelled by shutdown goes back to a shutdown call with `cancel_pending`, so without one no task is |
| `EngineCalls.UncancelledTaskRan` | src/worker.rs:448-482 | a task at rest that nobody cancelled has run: its status and result are those of its own body |
| `EngineCalls.BodyRunsOnce` | src/worker.rs:156-190 | no task body returns twice in a run |
| `EngineCalls.CancelDecides` | src/broker.rs:773-826 | a cancel call either wins, and the task is then Cancelled with the cancelled result and this caller as winner, or never wins, and then at some point of the call the task was gone, had ended or was running in-process |
| `EngineCalls.PendingIsCancelled` | src/broker.rs:780-821 | a cancel call that finds the task Pending at every look until it wins does cancel it |
| `EngineCalls.SubmissionDecides` | src/broker.rs:528-638 | a submission that returns was accepted whole, all its tasks sent to the pool it named and counted, or it was turned away because of shutdown, too few permits, a failed task factory or a full slab during the call, and counted as rejected exactly for permits or slab |
| `EngineCalls.ShutdownReturns` | src/broker.rs:298-369 | when a shutdown call returns, submissions are closed, the flag is set if asked for, and a waiting call returns only after completion |
| `EngineCalls.ShutdownSpawns` | src/broker.rs:322-358 | once shutdown has started, its thread runs or the first caller is about to start it |
| `EngineProgress.NoDeadlock` | src/broker.rs:424-491 | while any call is under way, some thread can take a step that changes the state |
| `EngineProgress.AcceptedTaskMoves` | src/worker.rs:237-262 | while an accepted task is queued or held, some worker can take a step |
| `EngineProgress.BodyReturnsAnything` | src/worker.rs:443-446 | a body in execution can return any result, success or error |
| `EngineProgress.SubmissionCanSucceed` | src/broker.rs:528-638 | in every reachable state that is open, has enough permits and no gate writer, an idle caller can submit a batch of that size by its own steps alone and has it accepted |
| `EngineProgress.AnyCallBegins` | src/broker.rs:773-778 | an idle caller can begin any submission or shutdown, and a cancel or close of any task that was sent |
| `EngineTheorems.NoLeakedSlot` | src/broker.rs:899-925 | once a close of the handle and the worker that popped the id are done, the slab does not hold the task |
| `EngineTheorems.TaskCountNeverUnderflows` | src/broker.rs:899-906 | task and running counts are never negative |
| `EngineTheorems.TaskCountExact` | src/broker.rs:577-600 | the task count is the number of slab entries whenever no insertion or removal is under way |
| `EngineRun.RunInv` | src/worker.rs:237-262 | the inductive invariant behind these holds at every point of every run |
| `AdmissionObject.WaitsOnce` | src/broker.rs:97-153 | through any sequence of waits: a grant takes exactly the count from an open admission that has it, a refusal changes nothing, a sleeper found too little in an open admission |
| `AdmissionObject.GrantedWhenEnough` | src/broker.rs:117-152 | a reservation that finds the admission open with enough permits, after finding it open and short each time before and its time not being up, is granted there and takes exactly its count |
| `AdmissionObject.AsleepWhileShort` | src/broker.rs:117-148 | one that finds it open and short every time, its time not being up, goes on waiting |
| `AdmissionObject.RefusedForCause` | src/broker.rs:97-152 | a refusal means that the count is over the capacity, a call that does not wait found too little, the admission was found closed, or the time was up |
| `AdmissionObject.ReserveIsSteps` | src/broker.rs:97-153 | a whole `reserve`, from the first look through any number of waits to its outcome, is a sequence of steps of the engine's caller, one per stay under the lock, ending in the state that matches the outcome |
| `AdmissionObject.QueueAdmission.Reserve` | src/broker.rs:97-153 | the wait loop with its early exits computes that outcome and leaves that admission |
| `AdmissionObject.QueueAdmission.Release` | src/broker.rs:155-159 | adds the permits, clipped at the capacity, and notifies |
| `AdmissionObject.QueueAdmission.Close` | src/broker.rs:161-168 | closes and notifies |
| `Wire.StrRoundTrip` | src/ipc/protocol.rs:359-373 | a written string is read back with the cursor just behind it |
| `Wire.StrCanonical` | src/ipc/protocol.rs:365-373 | a string that is read was written by the encoder |
| `Wire.StrsRoundTrip` | src/ipc/protocol.rs:303-306 | so is a row of argument names |
| `Utf8.TextExactly` | src/ipc/protocol.rs:365-373 | a byte string is accepted as text if and only if it is the UTF-8 encoding of some sequence of Unicode scalar values |
| `Wire.Cursor.ReadU32` | src/ipc/protocol.rs:375-383 | advances the cursor by four bytes or refuses |
| `Wire.Cursor.ReadU64` | src/ipc/protocol.rs:385-393 | advances the cursor by eight bytes or refuses |
| `Wire.Cursor.ReadStr` | src/ipc/protocol.rs:365-373 | length, bytes and UTF-8 check in that order |
| `Wire.Cursor.ReadStrs` | src/ipc/protocol.rs:303-306 | the argument loop stops at the first bad string with its error |
| `Protocol.EncodeMetadata` | src/ipc/protocol.rs:205-261 | the pushes produce the specified bytes for every variant |
| `Protocol.DecodeMetadata` | src/ipc/protocol.rs:263-356 | the cursor reads decide every byte string as specified, errors included |
| `Protocol.RoundTrip` | src/ipc/protocol.rs:193-357 | everything the 1 MiB check admits decodes to itself if and only if it has at most 8 arguments, else to the argument error |
| `Protocol.NineArguments` | src/ipc/protocol.rs:296-302 | a request that is accepted for writing and refused by the decoder |
| `Protocol.EightArguments` | src/ipc/protocol.rs:296-302 | a request with eight arguments that is written and read back |
| `Protocol.WireLayout` | src/ipc/protocol.rs:1-6 | the kind bytes, the fields behind each and the byte order |
| `Protocol.Canonical` | src/ipc/protocol.rs:263-356 | whatever decodes was encoded: one byte string per value |
| `Protocol.RequestHeaderRoundTrip` | src/ipc/protocol.rs:49-101 | an accepted request header is read back |
| `Protocol.RequestHeaderCanonical` | src/ipc/protocol.rs:75-91 | a header that is read is accepted and was written |
| `Protocol.ResponseHeaderRoundTrip` | src/ipc/protocol.rs:110-151 | an accepted response header is read back |
| `Protocol.ResponseHeaderCanonical` | src/ipc/protocol.rs:128-143 | a response header that is read was written |
| `Frame.ReadWritten` | src/ipc/frame.rs:7-70 | a written frame followed by anything reads as that request and leaves the rest, or is refused for its argument count |
| `Frame.WireBytes` | src/ipc/frame.rs:111-165 | the frames of a small request and response, byte by byte, as the repository's own cases fix them |
| `Frame.ReadCanonical` | src/ipc/frame.rs:7-41 | the bytes of a request that is read are exactly its frame, and it is one that can be written |
| `Frame.ReadExtends` | src/ipc/frame.rs:7-41 | later bytes do not change a complete request |
| `Frame.PrefixRefused` | src/ipc/frame.rs:7-41 | a proper non-empty prefix of any written frame is an error, never a clean end, never a request |
| `Frame.StreamRoundTrip` | src/ipc/frame.rs:7-70 | repeated reads of any concatenation of accepted frames give exactly those requests and then a clean end |
| `Frame.StreamCanonical` | src/ipc/frame.rs:7-41 | a stream that ends cleanly is the concatenation of the accepted requests read from it |
| `Frame.ReadResponseWritten` | src/ipc/frame.rs:72-104 | a written response is read back and leaves the rest |
| `Frame.ReadResponseCanonical` | src/ipc/frame.rs:72-84 | the bytes of a response that is read are exactly its frame |
| `Frame.RequestNeedWithin` | src/ipc/frame.rs:7-41 | within a frame the request reader never asks for bytes beyond it and stops exactly at its end, or earlier on the argument error |
| `Frame.ResponseNeedWithin` | src/ipc/frame.rs:72-84 | the response reader never asks for bytes beyond the frame and stops exactly at its end |
| `Frame.Socket.TakeRequest` | src/ipc/frame.rs:7-41 | the stepwise reader decides every stream as specified and consumes exactly the request |
| `Frame.Socket.PutRequest` | src/ipc/frame.rs:43-70 | writes the whole frame or nothing |
| `Frame.Socket.TakeResponse` | src/ipc/frame.rs:72-84 | the stepwise response reader, likewise |
| `Frame.Socket.PutResponse` | src/ipc/frame.rs:86-104 | writes the whole response or nothing |
| `Frame.Drain` | src/worker_process.rs:157-164 | the child's read loop yields the specified sequence of requests and the specified end |
| `Polling.FillTakes` | src/worker.rs:874-904 | a polling loop takes a prefix of the stream: all it wants when full, less otherwise |
| `Polling.FillFinishes` | src/worker.rs:874-904 | every delivery makes progress, so as many deliveries as bytes suffice |
| `Polling.FillObeys` | src/worker.rs:878-904 | a polling loop ends early exactly on the first cancellation, hang-up or error, and passes over reads and idle polls only |
| `Polling.PollRefines` | src/worker.rs:874-948 | for every chunking and every interruption, an answer or refusal is the one of `read_response`, and an answer consumes exactly 10 + payload length bytes |
| `Polling.PollCompletes` | src/worker.rs:874-948 | without cancellation, hang-up or error it gives the result of `read_response` |
| `Polling.Channel.FillBuffer` | src/worker.rs:874-904 | the loop fills the buffer in place with the bytes the specification takes |
| `Polling.Channel.PollResponse` | src/worker.rs:873-948 | header loop, header check and payload loop together |
| `IpcProof.RunInv` | src/worker.rs:764-1019 | the invariant joining both automata, both streams and both registries holds at every point of every run |
| `IpcTheorems.AnswersLastRequest` | src/worker.rs:874-948 | when the parent's reader stops it has exactly the child's answer to the request it last wrote, and both streams are empty |
| `IpcTheorems.ServesSentRequest` | src/worker_process.rs:157-164 | when the child's reader stops the parent is talking to it and it has exactly the parent's request; only the argument count is ever refused |
| `IpcTheorems.AckExactlyWhenAwaited` | src/worker_process.rs:244-251 | the parent is about to acknowledge only when a live child waits, and a child waits only if the parent is about to or is still receiving that answer |
| `IpcTheorems.AckIsOneByte` | src/worker.rs:984-1006 | the acknowledging step leaves one byte before a waiting child, or the child is gone |
| `IpcTheorems.PooledWorkerIsQuiet` | src/worker.rs:1016-1017 | a pooled live worker whose last answer was inline has both streams empty and its child waiting for a request, and so has every one when the segment threshold is over the limit; otherwise at most its acknowledgement is on the way |
| `IpcTheorems.PooledAckDrains` | src/worker_process.rs:244-251 | the byte in flight is taken by the child's next step, and the worker is then fully quiet |
| `IpcTheorems.AckCanOutliveTask` | src/worker.rs:984-1017 | every run that reaches the acknowledgement extends to one where the worker is pooled with the byte still in flight |
| `IpcRuns.PooledWithAckInFlight` | src/worker.rs:984-1017 | in every configuration whose threshold is within the limit, a run from the start to a pooled worker with an acknowledgement in flight, for streams of any capacity |
| `IpcTheorems.ResultIsTheChilds` | src/worker.rs:984-1019 | a returned result is what the child's body returned for this task's metadata and payload, inline or through segments, against the registration the task saw |
| `IpcRuns.TaskCanReturn` | src/worker.rs:1007-1014 | for any bytes within the limit, a run from the start in which a task returns exactly those bytes |
| `IpcLaws.AnswerDecides` | src/worker.rs:984-1014 | an answer whose body succeeded within the limit returns the body's bytes when inline and is opened under its name when through a segment; any other is refused with the child's text |
| `IpcLaws.SegmentDecides` | src/worker.rs:984-1006 | a response segment that can be opened yields the body's bytes, and never costs the worker |
| `IpcLaws.AnswersTruly` | src/worker_process.rs:207-244 | the child reports success exactly for a body that ran and succeeded within the limit, inline answers carry its bytes, and inline requests always reach the body |
| `IpcLaws.ServesThePayload` | src/worker_process.rs:166-209 | a child that can open the request's segment runs the task on the task's own payload |
| `IpcLaws.ChildLeavesForCause` | src/worker_process.rs:157-244 | a child leaves its loop only by crashing, over refused arguments, or over an answer it cannot write |
| `IpcLaws.RegistrationDecides` | src/process_pool.rs:363-383 | a registration carried out and reported inline is recorded and followed up; any other loses the worker |
| `IpcLaws.RegistryChanges` | src/py_api.rs:50-71 | registering a name stores the value under a generation never used before, unregistering removes it, and no other name is touched |
| `IpcLaws.SyncDecides` | src/worker.rs:770-841 | a task is turned away exactly when its name is not registered, goes on at once when the worker is up to date, and otherwise has the worker brought up to date |
| `IpcLaws.DispatchDecides` | src/worker.rs:843-871 | a payload within the limit with writable metadata is sent, inline or through a segment holding it, the latter only from the threshold on |
| `IpcLaws.OwnerNeverHangs` | src/worker.rs:764-871 | outside an exchange the owning thread can always take its next step |
| `IpcLaws.WorkerLostForCause` | src/worker.rs:764-1019 | a worker is given up only for an aborted exchange, retirement, a release that does not keep it, a request that cannot be written, or a registration the child did not carry out |
| `IpcLaws.BootIsComplete` | src/process_pool.rs:333-361 | a new worker is handed over only with every registration of its two snapshots recorded |
| `IpcTheorems.NeverWedged` | src/worker.rs:843-948 | in an exchange with a live child one of the two sides can always take a protocol step, for streams of any capacity of at least one byte |
| `IpcTheorems.ExchangeIsBounded` | src/worker.rs:843-948 | while an exchange with a live child lasts it takes at most `Remaining` steps of the two sides, however the bytes are cut up, so with `NeverWedged` it ends |
| `IpcTheorems.RecordsAreFresh` | src/worker.rs:770-841 | a recorded generation names a stored value of that key, and a live child holds exactly that value if and only if no replacement is between installation and recording |
| `IpcRuns.RecordBehindChild` | src/worker.rs:786-799 | for any two different modules published under one name, a run from the start to a state where the record names the first and the child holds the second |
| `IpcTheorems.DecisionWasCurrent` | src/registry.rs:18-28 | the entry a task works with was the parent's entry for its key at the task's own sync step |
| `IpcTheorems.RunsAgainstCurrent` | src/worker.rs:770-841 | a WASM or dylib body ran against a registration that was current at the task's sync step, through any replacements and removals |
| `Pool.PopFinds` | src/process_pool.rs:180-189 | acquiring yields the youngest live worker and drops the dead behind it; none exactly when all are dead, and then the pool is empty |
| `Pool.ProcessPool.Acquire` | src/process_pool.rs:180-189 | the pop loop does that |
| `Pool.AcquiresIdle` | src/process_pool.rs:180-193 | a coordinator takes the youngest live idle worker and starts one only when there is none |
| `Pool.ReleasedForCause` | src/process_pool.rs:195-211 | a coordinator parts with a worker it gives back only for shutdown, the recycle limit or death; any other goes to the pool |
| `Pool.CoordinatorGoesOn` | src/process_pool.rs:174-211 | no coordinator hangs between acquiring, starting, running, returning and releasing |
| `Pool.ProcessPool.Release` | src/process_pool.rs:195-211 | keeps the worker, stamped, exactly when not shut down, below the recycle limit and alive |
| `Pool.ProcessPool.Reap` | src/process_pool.rs:437-452 | the in-place `swap_remove` loop ends with victims and survivors making up the old pool, every victim idle longer than the timeout, no such survivor above the minimum, and max(non-expired, min(old size, minimum)) survivors |
| `Pool.ProcessPool.Shutdown` | src/process_pool.rs:319-331 | sets the flag and empties the pool |
| `Pool.ProcessBound` | src/process_pool.rs:174-211 | idle + held + starting workers never exceed the number of coordinators |
| `Pool.RecycleLimit` | src/worker.rs:1016-1017 | with a positive limit, idle workers have run fewer tasks than the limit and no worker runs more |
| `Pool.DrainedForGood` | src/broker.rs:344-350 | after shutdown has drained the pool no worker is left; the shutdown step is taken once every coordinator is gone, which is what `EngineInv.StopThreads` says of the engine's workers when the shutdown thread is at `ClosePool` |
| `Ffi.SignatureCodeInjective` | src/backends/dylib/ffi.rs:62-76 | signatures of up to 8 arguments with equal codes are equal |
| `Ffi.ArgumentBits` | src/backends/dylib/ffi.rs:69-74 | each argument is found in its own three bits |
| `Ffi.NewCode` | src/backends/dylib/ffi.rs:62-76 | the packing loop, or the count error |
| `Ffi.FromStrSigs` | src/backends/dylib/ffi.rs:78-95 | the one-pass loop computes the specified code or first error |
| `Ffi.ParseText` | src/backends/dylib/ffi.rs:106-128 | the parsing loop computes types, code and expected length |
| `Ffi.FromStrsAgrees` | src/backends/dylib/ffi.rs:78-128 | both succeed on the same texts with the same code; with at most 8 arguments their errors differ exactly when the return type is unsupported and the first unsupported argument has another name |
| `Ffi.ErrorsDiffer` | src/backends/dylib/ffi.rs:78-128 | one argument `x` and return type `y`: one function blames `y`, the other `x` |
| `Ffi.TextFromCode` | src/backends/dylib/ffi.rs:78-95 | a code determines the text of the signature |
| `Ffi.ParseInjective` | src/backends/dylib/ffi.rs:15-30 | no two names parse to one type |
| `Ffi.ParseInvertsName` | src/backends/dylib/ffi.rs:15-43 | exactly the names of the types parse, each to its own type |
| `Ffi.WidthByName` | src/backends/dylib/ffi.rs:45-51 | the width of a type is the number of bits in its name, or that of a word |
| `Ffi.ResolveExact` | src/backends/dylib/dispatch.rs:581-640 | exactly the supported signatures have a thunk, and it reads exactly their types |
| `Ffi.InvokeExact` | src/backends/dylib/dispatch.rs:15-75 | a thunk runs if and only if the payload has the expected length, and then passes on every byte, split at the type boundaries |
| `Ffi.InvokeThunk` | src/backends/dylib/dispatch.rs:55-75 | the offset-advancing reads do that |
| `FfiCache.UncachedExact` | src/backends/dylib/mod.rs:261-317 | a call goes through if and only if its signature is well-typed, its payload has the total width, it is declared, its symbol is found and its types are supported; it then reaches that symbol's function with the declared types and the whole payload |
| `FfiCache.UncachedErrors` | src/backends/dylib/mod.rs:222-296 | any other call is told the first of its faults |
| `FfiCache.DeclaredExactly` | src/backends/dylib/mod.rs:270-279 | with metadata that lists functions, exactly the listed (symbol, arguments, return type) pass the check |
| `FfiCache.OnlyDeclaredRuns` | src/backends/dylib/mod.rs:261-317 | for a declaring library, an otherwise callable call goes through if and only if it is listed |
| `FfiCache.SplitJoin` | src/backends/dylib/mod.rs:272-273 | splitting undoes joining for parts without the separator |
| `FfiCache.RenderedInjective` | src/backends/dylib/mod.rs:271 | two functions with clean names have different renderings |
| `FfiCache.InsertOk` | src/backends/dylib/mod.rs:298-313 | an insertion keeps every cache entry equal to what the slow path would prepare |
| `FfiCache.HitAgrees` | src/backends/dylib/mod.rs:236-259 | a hit gives what the slow path gives, the length error included |
| `FfiCache.Plugin.Execute` | src/backends/dylib/mod.rs:215-318 | the cached call returns what always parsing, checking and resolving would return, goes through exactly when it is callable, and keeps the cache valid |
| `FfiCache.ExecuteAll` | src/backends/dylib/mod.rs:215-318 | the same for every sequence of calls on one plugin |
| `FfiCache.ExecuteByName` | src/backends/dylib/mod.rs:215-234 | a bad signature is reported before an unknown plugin, and the rest as above |
| `Waker.NoLostCompletion` | python/pyroxide/_async_waker.py:22-61 | whenever a waiting coroutine's task is finished and announced, the pipe is non-empty, or the waker thread is about to snapshot or post the id, or a callback for it is queued or running |
| `Waker.NoEarlyWake` | python/pyroxide/_async_waker.py:22-37 | a coroutine is woken only by the end of its own task |
| `Waker.NoEarlyReturn` | python/pyroxide/types.py:120-135 | a coroutine leaves `result_async` only when its task has ended or it gave up |
| `Waker.NoLeakedFuture` | python/pyroxide/types.py:133-138 | a pending future always belongs to the coroutine now awaiting its task |
| `Waker.CoroutineMoves` | python/pyroxide/types.py:99-138 | a coroutine is held up only by an unresolved future, and its last step frees the task for another waiter |
| `Waker.DroppedWriteIsHarmless` | src/async_waker.rs:50-73 | a byte dropped on a full pipe leaves no coroutine without a wake-up |
| `Waker.QuietMeansDelivered` | python/pyroxide/types.py:99-138 | when waker thread and callbacks are idle no announced completion is undelivered |
| `Waker.NotQuietMoves` | python/pyroxide/_async_waker.py:40-61 | otherwise the waker thread or a callback can take a step |
| `Waker.WakeupsArrive` | python/pyroxide/_async_waker.py:40-61 | left alone, they come to rest within a bound computed from the state, and then every announced completion has reached its future |
| `Waker.ResolvedAtHome` | python/pyroxide/_async_waker.py:22-54 | a task awaited on one event loop only is resolved only by callbacks of that loop |
| `Waker.ForeignResolution` | python/pyroxide/_async_waker.py:22-54 | for any task and two loops, a run in which the callback of an await given up on the first resolves the future awaited on the second, foreign exactly when the loops differ |

## Left out

- Weak memory: interleavings are sequentially consistent; the autofree handshake, Acquire/Release in the code, is not examined under reordering.
- Raw `free_task` on a task that is not terminal, and fairness between large and small batches: nothing is promised for either.
- Task ids: the slab and the channels are atomic and ids are never reused; their internals are not modelled.
- Panics outside the two `catch_unwind` sites, lock poisoning, fork checks and wall-clock time; timeouts happen at any moment.
- `wait_task`, `get_task_result` and the statistics snapshot: they only read cells whose values are covered above.
- IpcTheorems.ResultIsTheChilds: the parent's unpickling or text decoding of the returned bytes is a foreign call.
- Pool.ProcessBound: counts workers owned by the pool or a coordinator; victims of the reaper that are still being killed are not counted.
- FfiCache.Plugin.Execute: one call at a time; concurrent callers are covered only in that each lock section keeps the cache valid for all of them.
- Waker.WakeupsArrive: removal of the waker at interpreter exit, a restarted waker thread and closed event loops are not modelled; nor is what asyncio does with a future resolved from another loop's thread.
- The Windows read and wait paths, sockets, process start, parent-death monitors and shared-memory clean-up.
- Python calls, pickling, WASM execution, library loading and raw pointers: bodies return any result.
- The non-FFI native call and its output buffers, WASM limits, configuration parsing, `TaskGroup`, compilers and the command line: they would add only simple members or are I/O.
