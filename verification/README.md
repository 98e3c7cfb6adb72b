# La Manchaland: verified models of the control plane

La Manchaland runs a language model over several machines. A controller supervises a `llama-server`
process, keeps a registry of workers, and serves a web page with a streaming chat. This project
models the parts of it whose correctness depends on interleavings, on parsing and on exact
arithmetic, and proves what they do for every run and every input.

| module | models |
|---|---|
| `LlmState` | the supervisor's state: processes by generation, `isRunning`, `cancel`; its critical sections as functions |
| `Goroutines`, `Discipline` | any number of goroutines over three locks with the semantics of `sync.RWMutex`; what well-behaved code obeys, and that each step keeps it |
| `Handlers` | every entry point of the API server, the supervisor and the registry as a program over those locks |
| `Supervision`, `Schedules` | theorems over all runs; programs run alone, and concrete runs that show the bounds are tight |
| `Effects`, `Broadcasts` | what each request does when it runs alone; what the clients are told, in every run |
| `Nesting` | the requests that take a lock they may already hold |
| `FlagSafety`, `FlagSerial`, `FlagLimits` | `modelLoaded` against the supervisor's processes: in every run, in runs without overlaps, and runs that show each reason for a wrong flag |
| `LlamaServer` | the supervisor as a class, its argument vector, the model id |
| `StreamReader`, `ChunkCuts`, `EventStream` | the chunked reader of the chat answer, when a stream may be cut, and the WHATWG standard it approximates |
| `Chat`, `Reconnect` | the page's send/answer state machine and its websocket reconnection |
| `Monitor` | the nvidia-smi table and `formatBytes` |
| `Registry`, `WorkerSlice` | the worker registry and its lossy channel; the worker list shared by two slices |
| `Text`, `Wrappers` | the string functions of Go and of the browser that the parsers use; optional values |

The goroutine machine is explicit about locks: a writer first announces itself and enters when nobody
holds the lock; a reader enters when no writer holds or awaits it. The environment answers the binary
lookup and each health request; a process exit and the end of a websocket connection are waits that
may never end. A run is any list of request arrivals and goroutine steps.

## Findings

The models follow the code where it and its evident intent differ. Each point below is a lemma.

- `isRunning` is not exact. It is set if and only if the latest process is live and no older process
  has recorded its exit since that one was spawned (`Supervision.RunningFlagExact`). Such a late exit
  clears the flag over the live process (`LlmState.ExitOrphansIff`,
  `Schedules.FlagCanBeClearOverLiveProcess`), and the next start drops that one's cancel function. The number of processes lost so is at most the number of stale exits
  (`Supervision.LostProcessBound`), and every number is reached (`Schedules.LossBoundAttained`);
  exactly, it is the number of starts over an orphaned process less the later exits of lost ones
  (`Supervision.LostProcessesExact`).
- `AddRPCWorker` never returns, and once it has appended it takes every later user of the API lock
  down with it (`Nesting.AddRPCWorkerNeverReturns`, `Nesting.AddRPCWorkerTakesApiDown`). The README of
  the repository offers manual connection of workers; the request that does it never finishes
  (`Nesting.AddRequestsNeverFinish`).
- So the worker list is not empty only while the API lock is down (`Nesting.NonEmptyListMeansApiDown`),
  and everyone else who gets that lock finds the list empty (`Nesting.ApiUserSeesEmptyList`): a load
  always hands over an empty list (`Nesting.HandOverIsEmpty`), in place of the one that
  cmd/controller/main.go:95-97 may have set, and a `RemoveRPCWorker` that gets the
  lock removes nothing and returns (`Nesting.RemoveRPCWorkerReturns`). Its removing branch is never
  taken; started on a list that holds its index, it would not return either
  (`Nesting.RemoveInRangeNeverReturns`).
- `DELETE /api/workers` blocks for ever exactly when a writer has announced itself between its two
  reads (`Nesting.WorkersDeleteFate`), which some run does (`Nesting.WorkersDeleteCanDeadlock`).
- In every run, overlapping or not, `modelLoaded` is set at rest over a cancelled latest process if and
  only if, since that was spawned, a start that had stopped it found no binary, or the flag was set when
  the process had already been cancelled, or the supervisor was stopped without clearing the flag
  (`FlagSafety.LoadedCancelledIff`). Each happens in a run that avoids the other two:
  `FlagLimits.ChangedLookupBreaksFlag` has no overlap, `FlagLimits.OverlapBreaksFlag` always finds the
  binary, and in `FlagLimits.BareStopBreaksFlag` neither goes wrong. Nobody in the repository does the
  last, and without overlaps only the first is left (`FlagSerial.SerialCancelledIff`).
- While Start waits for a good health answer, up to 30 requests, it keeps the supervisor's mutex
  (`Supervision.PollingKeepsMutex`): a stop, and the exit goroutine of a process that is gone already, wait too.
- A POST stores an empty mmproj path in the supervisor although the API server keeps its old one, and
  ignores a context size, thread count or n-predict that is not positive (`Effects.PostedPlainly`).
- What the clients were told about `modelLoaded` is right whenever nobody is on the way to tell them
  (`Broadcasts.ClientsKnowFlag`).
- Only AddRPCWorker, the manual-add request and the worker DELETE can cause a deadlock
  (`Supervision.NeverDeadlocked`), and only on the API lock: a writer that asks to read it, or a reader
  that asks again behind a waiting writer (`Supervision.StepOrDeadlock`, `Supervision.StuckIdleIff`).
- By themselves, without the locks that keep it from happening, the slice operations would let a removal
  after a hand-over change the supervisor's list too: the last worker would stand there twice
  (`WorkerSlice.Api.RemoveRPCWorker`).
- A stream line that is cut by a chunk border is misread, and `[DONE]` ends only the chunk it stands
  in (`StreamReader.CutInsidePayload`, `StreamReader.DoneEndsOnlyItsChunk`). `ChunkCuts.AlwaysSameIff`
  says exactly which streams are read as if they came in one chunk.
- A message with an image and no text is resent with an empty text part
  (`Chat.ResentAsSent`).

## Model

| member | source | states |
|---|---|---|
| LlmState.StopKeeps | internal/llmserver/server.go:187-194 | stopLocked keeps the supervisor's invariant and cancels the latest process whatever `isRunning` said; no process is lost |
| LlmState.SpawnKeeps | internal/llmserver/server.go:113-114 | overwriting `cancel` while the flag is clear keeps the invariant; it turns an orphaned process, if there is one, into exactly one lost process |
| LlmState.RecordExitKeeps | internal/llmserver/server.go:154-158 | clearing the flag without asking which process exited keeps the invariant |
| LlmState.ExitOrphansIff | internal/llmserver/server.go:154-158 | an exit leaves a live latest process with a clear flag if and only if it is another process's and the latest is live |
| LlmState.LiveBound | internal/llmserver/server.go:151-158 | at most one more process is live than stale exits were recorded; with none, only the latest can be live and then the flag is set |
| LlmState.LosingRound | internal/llmserver/server.go:104-114 | a restart, the late exit of the old process and another start lose exactly one process for one stale exit |
| LlamaServer.Server.constructor | internal/llmserver/server.go:33-42 | the defaults, no process, the invariant |
| LlamaServer.Server.SetModelPath | internal/llmserver/server.go:44-48 | only the path changes; the invariant is kept |
| LlamaServer.Server.SetRPCWorkers | internal/llmserver/server.go:80-84 | only the worker list changes; the invariant is kept |
| LlamaServer.Server.StopLockedBody | internal/llmserver/server.go:187-194 | the class's state becomes the specification's; the invariant is kept |
| LlamaServer.Server.Stop | internal/llmserver/server.go:181-185 | the latest process is cancelled whatever the flag was |
| LlamaServer.Server.Prepare | internal/llmserver/server.go:97-164 | the two failures and their order, the stop of a running process, the state and argument vector after a spawn |
| LlamaServer.Server.Start | internal/llmserver/server.go:96-179 | which of the four results comes when; new state, vector of the new process; success after the first good one of at most 30 health answers |
| LlamaServer.Server.StartNonBlocking | internal/llmserver/server.go:340-403 | spawns exactly when there is a path, nothing runs and the binary is found; the vector is the one Start would build from the same state |
| LlamaServer.Server.Restart | internal/llmserver/server.go:196-204 | fails without a path, else has the result, state, vector and number of polls that Start promises |
| LlamaServer.Server.Launch | internal/llmserver/server.go:113-152 | one new generation that is live, holds the cancel function and has the vector of the current settings |
| LlamaServer.Server.ProcessExited | internal/llmserver/server.go:154-158 | the exit goroutine's section: flag cleared, exit recorded, counted as stale unless it was the latest |
| LlamaServer.Server.BuildArgs | internal/llmserver/server.go:116-143 | the appended vector is the one that the effective settings determine |
| LlamaServer.VectorTellsSettings | internal/llmserver/server.go:116-143 | read back from the vector: behind each option stands its setting, the strings as they are and the numbers as they read; mmproj is there exactly when it is not empty, GPU layers from 0, threads and n-predict from 1 on; the workers stand behind `--rpc` in order, and the two switches are there |
| LlamaServer.AppendWorkers | internal/llmserver/server.go:141-143 | one `--rpc` pair for each worker, in order |
| LlamaServer.AwaitHealth | internal/llmserver/server.go:166-178 | success exactly when one of the answers is good, at the first one; else all requests are made |
| LlamaServer.ArgVectorDetermines | internal/llmserver/server.go:357-384 | two settings give the same vector if and only if they agree up to values that mean "absent" |
| LlamaServer.RpcArgsInjective | internal/llmserver/server.go:382-384 | the worker list can be read back from its arguments |
| LlamaServer.GetModelId | internal/llmserver/server.go:311-325 | the three cuts give the model id |
| LlamaServer.ModelIdSeparatorFree | internal/llmserver/server.go:315-320 | no id holds a separator, whatever the path |
| LlamaServer.LastComponent | internal/llmserver/server.go:315-320 | directories are cut off, whichever separators they use |
| LlamaServer.ModelIdOfFile | internal/llmserver/server.go:313-325 | dir + separator + name + "." + extension has the id name |
| LlamaServer.ModelIdWithoutExtension | internal/llmserver/server.go:321-323 | a name without a dot is its own id |
| Goroutines.ExclusiveKept | internal/api/api.go:31 | mutual exclusion is kept by every step of any goroutines, also of the code that nests |
| Goroutines.NewHold | internal/api/api.go:31 | a step gains at most the lock it asks for, and only when no other hold excludes it |
| Discipline.PerformKeeps | internal/llmserver/server.go:96-194 | one action under its lock keeps the supervisor's invariant and the rule that a process is spawned only over a clear flag |
| Discipline.StepKeeps | internal/llmserver/server.go:96-204 | one step of any goroutine keeps the invariant of the whole system |
| Discipline.Progress | internal/api/api.go:51-89 | unless the API lock is in a deadlock, following who blocks whom up the order API, supervisor, registry finds a goroutine that can step |
| Discipline.StepUsesWork | internal/api/api.go:179-274 | each step uses up the work left, children and lock announcements included |
| Handlers.StartFine | internal/llmserver/server.go:96-179 | Start obeys the discipline and gives its lock back on each of its paths, after any number of polls |
| Handlers.PostFine | internal/api/api.go:193-260 | all variants of the model POST and its load goroutine obey the discipline; what they do is stated by Effects.PostAlone and Effects.LoaderRuns |
| Handlers.LoaderFine | internal/api/api.go:234-246 | the load goroutine obeys the lock order, with the supervisor's mutex taken inside the API lock |
| Handlers.CodeDisciplined | internal/api/api.go:51-326 | every request's code obeys the discipline, in which only the API lock may be asked for twice; those that do not nest keep to the strict lock order |
| Supervision.NextKeeps | internal/api/api.go:107-120 | an arriving request or a step keeps the system invariant |
| Supervision.RunningFlagOneWay | internal/llmserver/server.go:90-94 | over all runs: the flag, when set, is true of the latest process; `cancel` is held exactly while the latest process is uncancelled, and is its own |
| Supervision.RunningFlagExact | internal/llmserver/server.go:151-158 | over all runs the flag is set if and only if the latest process is live and no older one has recorded its exit since that was spawned |
| Supervision.LostProcessBound | internal/llmserver/server.go:104-114 | over all runs: lost processes are at most the stale exits, live ones at most one more |
| Supervision.LostProcessesExact | internal/llmserver/server.go:104-114 | over all runs: lost processes are the spawns over an orphaned process less the later exits of lost ones |
| Supervision.NoStaleExitNoLoss | internal/llmserver/server.go:151-158 | without a stale exit the flag is exact and no old process is live |
| Supervision.StopCancelsLatest | internal/llmserver/server.go:181-194 | in every reachable state the stopping step leaves the latest process cancelled and loses none |
| Supervision.PollingKeepsMutex | internal/llmserver/server.go:96-179 | in every reachable state a goroutine that polls for health holds the supervisor's mutex, and nobody else gets it |
| Supervision.StepOrDeadlock | internal/api/api.go:91-141 | in every reachable state of all the code, unfinished work means that some unfinished goroutine can step, or that the API lock is in a deadlock of a writer with itself or of a reader with a writer |
| Supervision.StuckIdleIff | internal/api/api.go:91-141 | a schedule that can move nobody has brought all to an end or to an outside wait if and only if there is no such deadlock |
| Supervision.EveryRunCanEnd | internal/api/api.go:91-326 | every run can be carried on to such an end or to such a deadlock |
| Supervision.NeverDeadlocked | internal/api/api.go:98-105 | without AddRPCWorker, manual adds and worker DELETEs there is never a deadlock, RemoveRPCWorker included |
| Supervision.DeadlockFree | internal/api/api.go:179-274 | without those three, in every reachable state, unfinished work means that some unfinished goroutine can step |
| Supervision.StuckMeansIdle | internal/api/api.go:281-326 | without those three, a schedule that can move nobody has brought each goroutine to its end or to an outside wait, holding no lock |
| Supervision.MovesBounded | internal/llmserver/server.go:166-176 | between two arrivals every schedule of all the code makes boundedly many moves |
| Supervision.EveryRunCanFinish | internal/api/api.go:179-274 | every run without those three can be carried on until everyone has finished or waits for an outside event |
| Schedules.StartRuns | internal/llmserver/server.go:96-179 | the machine's program of Start, run alone, for every answer of the lookup and the health requests: it goes on behind a success exactly when the class's Start is ready, with the same new state |
| Schedules.RestartRuns | internal/llmserver/server.go:196-204 | the machine's program of Restart likewise |
| Schedules.StartNonBlockingRuns | internal/llmserver/server.go:340-403 | the machine's program of StartNonBlocking likewise |
| Effects.PostAlone | internal/api/api.go:193-260 | every model POST, run alone from any quiet state: the data it leaves, and one load goroutine exactly for "start" and "load" |
| Effects.PostedPlainly | internal/api/api.go:208-258 | that data in plain fields: the path on both sides, each option where it is given; "stop" and "unload" leave the supervisor stopped, the latest process cancelled, the flag clear and the clients told, other actions leave process and flag alone |
| Effects.LoaderRuns | internal/api/api.go:234-246 | the load goroutine, for every answer of lookup and health requests: it hands over the list and starts, and sets the flag and tells the clients exactly when Start succeeds |
| Effects.DeleteAlone | internal/api/api.go:262-272 | the model DELETE stops the supervisor, forgets path, mmproj and flag, and tells the clients |
| Effects.SetModelPathAlone | internal/api/api.go:51-58 | the path is stored on both sides, and nothing else changes |
| Effects.SetOptionAlone | internal/api/api.go:60-83 | each setter stores its own option and no other; the mmproj path also on the API server's side |
| Effects.OneSectionPlainly | internal/api/api.go:85-89 | the flag setter, the supervisor's own setters and stop, and registry writes change their field alone; readers change nothing |
| Effects.ModelGetAlone | internal/api/api.go:181-191 | the model GET changes nothing |
| Effects.BroadcastAlone | internal/api/api.go:304-326 | a broadcast tells path, flag and list as they are |
| Effects.ConnectAlone | internal/api/api.go:281-301 | a connection registers one client and leaves a goroutine that waits for its end |
| Effects.DisconnectAlone | internal/api/api.go:294-301 | which then takes the client away |
| Effects.StartAnswered | internal/llmserver/server.go:96-179 | Start as a request, whatever is answered: the supervisor's state alone changes, and a new process has its exit goroutine |
| Effects.RestartAnswered | internal/llmserver/server.go:196-204 | so does Restart |
| Effects.StartNonBlockingAnswered | internal/llmserver/server.go:340-403 | so does StartNonBlocking, which leaves a running process alone |
| Effects.StartedPlainly | internal/llmserver/server.go:100-152 | what a start leaves, in plain fields |
| Broadcasts.ClientsKnowFlag | internal/api/api.go:238-271 | in every run, overlapping or not, in every state: the clients know the flag as it is, or a goroutine is on its way to tell them |
| Broadcasts.ClientsKnowFlagAtRest | internal/api/api.go:304-326 | so they know it whenever everyone has finished or waits for an outside event |
| Schedules.FlagCanBeClearOverLiveProcess | internal/llmserver/server.go:154-158 | a run whose latest process is live while the flag is clear |
| Schedules.LossBoundAttained | internal/llmserver/server.go:104-114 | for every n a run with n stale exits and n lost processes |
| Nesting.SelfBlockedForever | internal/api/api.go:304-306 | a goroutine that holds a lock for writing and asks to read it stays there in every continuation, and nobody else ever holds that lock |
| Nesting.AddRPCWorkerNeverReturns | internal/api/api.go:91-96 | a goroutine bound for AddRPCWorker never gets past it, in any continuation of any run |
| Nesting.AddRequestsNeverFinish | internal/api/api.go:146-177 | once arrived, the manual-add request and AddRPCWorker never finish |
| Nesting.AddRPCWorkerTakesApiDown | internal/api/api.go:91-96 | once it has appended, the API lock is never granted to anyone again |
| Nesting.NonEmptyListMeansApiDown | internal/api/api.go:91-96 | in every reachable state a worker list that is not empty means that some goroutine has blocked itself on the API lock and is its only holder |
| Nesting.AddTakesApiDown | internal/api/api.go:91-96 | a run that gets there, with one AddRPCWorker |
| Nesting.AddWorkerTakesApiDown | internal/api/api.go:172-174 | a manual add on its own writes the registry and appends to the list, in a run, before it blocks |
| Nesting.WorkersDeleteReturns | internal/api/api.go:128-142 | a worker DELETE on its own writes the registry once, tells the clients and returns |
| Nesting.ApiUserSeesEmptyList | internal/api/api.go:26-38 | in every reachable state anyone else who holds the API lock finds the list empty |
| Nesting.HandOverIsEmpty | internal/api/api.go:235-237 | in every run the list that a load hands to the supervisor is empty |
| Nesting.RemoveRPCWorkerReturns | internal/api/api.go:98-105 | in every run a RemoveRPCWorker that has got the API lock finds the list empty, is never blocked again, and has returned exactly when it has been given two steps |
| Nesting.RemoveInRangeNeverReturns | internal/api/api.go:101-104 | of the code alone, in states that no run reaches: started on a list that holds its index it would never return |
| Nesting.MutuallyBlockedForever | internal/api/api.go:128-142 | a reader that reads again past a waiting writer, and that writer, wait for ever; nobody gains the lock |
| Nesting.WorkersDeleteFate | internal/api/api.go:129-141 | at its second read the worker DELETE can step if and only if no writer waits; with one it never steps again |
| Nesting.WorkersDeleteCanDeadlock | internal/api/api.go:128-142 | a run in which the worker DELETE and a setter block each other |
| FlagSafety.NextHistory | internal/api/api.go:234-271 | one step of any goroutine keeps it explained why the flag is set over a cancelled process, or somebody under way to mend it |
| FlagSafety.CancelledExplained | internal/api/api.go:208-271 | in every reachable state: each of the three reasons means a cancelled process; the flag over a cancelled process has one, or a goroutine is going to clear it or to replace the process |
| FlagSafety.LoadedCancelledIff | internal/api/api.go:208-271 | in every run, at rest with `modelLoaded` set: the latest process is cancelled if and only if since its spawn a start that had stopped it missed the binary, or the flag was set when it was already cancelled, or a stop did not clear the flag |
| FlagSerial.NeverDropped | internal/api/api.go:250-271 | every stop that a handler makes goes on to clear the flag |
| FlagSerial.MissedOrOvertakenIff | internal/api/api.go:208-271 | in every run without a bare stop, overlapping or not, the first two reasons are all |
| FlagSerial.NeverOvertaken | internal/api/api.go:234-246 | without overlaps a load sets the flag only over a process that stands |
| FlagSerial.SerialCancelledIff | internal/api/api.go:208-271 | without overlaps, whatever the lookup answers: with the flag set there is a process, and it is cancelled if and only if a start that had stopped it missed the binary |
| FlagSerial.LoadedImpliesUncancelled | internal/api/api.go:208-271 | without overlaps and with one lookup answer, in every state, through failed, timed-out and empty-path loads: `modelLoaded` implies that the latest process is uncancelled, unless a goroutine is at work that will clear the flag or replace the process |
| FlagSerial.StartGood | internal/llmserver/server.go:96-179 | whatever Start stops, what follows its success runs over a new standing process |
| FlagSerial.PostGood | internal/api/api.go:193-260 | every variant of the model POST sets the flag only over a standing process, and clears it behind each stop that it makes |
| FlagSerial.DeleteGood | internal/api/api.go:262-272 | so does the model DELETE |
| FlagSerial.CodeGood | internal/api/api.go:107-120 | and every request that the repository makes |
| FlagLimits.LoadAlone | internal/api/api.go:232-248 | a run without overlap and with one lookup answer that ends with the flag set: one load |
| FlagLimits.OverlapBreaksFlag | internal/api/api.go:238-244 | a run whose lookup always finds the binary, in which a DELETE between Start's success and `modelLoaded = true` leaves the flag set over a cancelled process |
| FlagLimits.ChangedLookupBreaksFlag | internal/llmserver/server.go:104-111 | a run without any overlap, in which a second load finds no binary and leaves the flag set over the process it cancelled |
| FlagLimits.BareStopBreaksFlag | internal/llmserver/server.go:181-185 | a run without overlap and with one lookup answer, in which a bare Stop leaves the flag set over the process it cancelled |
| FlagLimits.FailedStartCancels | internal/llmserver/server.go:100-111 | Start leaves a standing process standing if and only if it does not stop a running process and then miss the binary |
| StreamReader.ReadLines | webfs/web/ui/js/app.js:595-626 | the inner loop adds the text of the payloads before the first `[DONE]` |
| StreamReader.ReadStream | webfs/web/ui/js/app.js:588-627 | the outer loop's text, chunk by chunk |
| StreamReader.CutInLineExact | webfs/web/ui/js/app.js:595-600 | a line cut in two gives the same data if and only if a piece is blank or nothing in it is data |
| StreamReader.CutExact | webfs/web/ui/js/app.js:592-600 | the same for a stream cut anywhere |
| StreamReader.ChunkingAdds | webfs/web/ui/js/app.js:588-627 | with harmless cuts in front of the first `[DONE]`, and any behind it, chunking adds to the text exactly what the chunks behind the first `[DONE]` chunk hold |
| StreamReader.ChunkingIndependentIff | webfs/web/ui/js/app.js:588-627 | so the text is that of one chunk if and only if those hold none |
| StreamReader.ChunkingIndependent | webfs/web/ui/js/app.js:586-627 | chunking independence, for cuts next to newlines and no content behind the first `[DONE]` |
| StreamReader.CrlfText | webfs/web/ui/js/app.js:593-596 | CRLF for LF changes nothing, however the stream is chunked |
| StreamReader.CutInsidePayload | webfs/web/ui/js/app.js:592-593 | two chunks that cut a payload give the text of its first piece, one chunk that of the whole |
| StreamReader.DoneEndsOnlyItsChunk | webfs/web/ui/js/app.js:599 | a line behind `[DONE]` is read when it comes in a later chunk, and is not in the same chunk |
| ChunkCuts.SameTextsIff | webfs/web/ui/js/app.js:603-616 | two lists of chunks give the same text whatever payloads carry if and only if they hand over the same payloads |
| ChunkCuts.CutAgreesIff | webfs/web/ui/js/app.js:588-603 | for every cut of every stream: both pieces hand over what the whole does if and only if the cut is harmless and not right behind `[DONE]`, or nothing is handed over around it or behind an earlier `[DONE]` |
| ChunkCuts.AlwaysSameIff | webfs/web/ui/js/app.js:586-627 | for every list of chunks: at every moment the text is that of the stream so far as one chunk, whatever payloads carry, if and only if every cut is so |
| ChunkCuts.LossesCanCancel | webfs/web/ui/js/app.js:588-603 | only at its end a stream can also agree by accident: a cut that loses a payload and one that reads past `[DONE]` cancel out |
| EventStream.BothRead | webfs/web/ui/js/app.js:593-600 | on streams of events with any number of data lines each, with LF and CRLF line ends: what WHATWG HTML section 9.2.6 dispatches and what the reader reads |
| EventStream.OneAgrees | webfs/web/ui/js/app.js:596-600 | one data line is read as dispatched if and only if its value, less one leading space, is non-empty and trimmed |
| EventStream.ManyLinesDiffer | webfs/web/ui/js/app.js:593-600 | a stream with an event of several data lines, which the standard joins, is never read as dispatched |
| EventStream.AgreesWithStandardIff | webfs/web/ui/js/app.js:593-603 | with either line end the reader finds exactly the dispatched event data, in order, if and only if every event has one data line and its value is so |
| EventStream.HandedMatchesStandard | webfs/web/ui/js/app.js:586-627 | the text of any stream cut at newlines is that of the dispatched data before the first `[DONE]` |
| EventStream.IndentedField | webfs/web/ui/js/app.js:596-597 | an indented field is data to the reader and not to the standard |
| Chat.App.BuildMessages | webfs/web/ui/js/app.js:510-538 | the loop rebuilds each history entry and appends the new message |
| Chat.App.BeginSend | webfs/web/ui/js/app.js:494-568 | sends exactly when there is a text or an image and no send is in flight; the new state |
| Chat.App.EndSend | webfs/web/ui/js/app.js:576-638 | the new state after an error status, an exception or a stream read to its end |
| Chat.RunKeeps | webfs/web/ui/js/app.js:498-508 | over all runs at most one send is in flight, the flag says whether one is, and each request was built from the history before it |
| Chat.HistoryAlternates | webfs/web/ui/js/app.js:629-631 | over all runs the history is the answered (user, assistant) pairs in order |
| Chat.HistoryChangesBy | webfs/web/ui/js/app.js:576-582 | only a stream read to its end changes the history, and by its own pair |
| Chat.ResentAsSent | webfs/web/ui/js/app.js:512-538 | a message is sent again as it was first sent if and only if it has a text |
| Chat.RequestExtendsAnswered | webfs/web/ui/js/app.js:510-568 | a request's messages extend those of an answered one if and only if the reasoning toggle was the same and the answered message had a text |
| Chat.RequestExtendsInEssence | webfs/web/ui/js/app.js:510-568 | with the same toggle they always do, up to empty text parts |
| Chat.RequestFrame | webfs/web/ui/js/app.js:525-568 | over all runs: a request has the reasoning prompt if the toggle was on, two entries for each exchange, and last the new message with its text and image |
| Chat.RequestCarriesExchange | webfs/web/ui/js/app.js:511-523 | over all runs: each answered exchange stands in it at its place, the user's text and image under the role user and the answer under the role assistant |
| Chat.ControlsChangeBy | webfs/web/ui/js/app.js:495-508 | over all runs: the toggle flips with each click, an image stays until it is removed, replaced or sent, and a send takes the trimmed text, the image and the toggle as they are |
| Reconnect.App.ScheduleReconnect | webfs/web/ui/js/app.js:195-200 | an attempt is counted with its timer, while there are attempts left |
| Reconnect.App.ConnectWebSocket | webfs/web/ui/js/app.js:164-193 | a connect call makes a socket, or schedules when the constructor throws |
| Reconnect.App.Handle | webfs/web/ui/js/app.js:171-189 | what each socket event and each timer does |
| Reconnect.RunConserves | webfs/web/ui/js/app.js:164-200 | every event keeps the account of connect calls, timers and counted attempts |
| Reconnect.ConnectsBounded | webfs/web/ui/js/app.js:164-200 | in every run connect calls plus timers are 1 plus the attempts counted; at most 11 calls, and 10 more for each open |
| Reconnect.EndsWithoutOpen | webfs/web/ui/js/app.js:195-200 | a run without an open has at most 42 events and 11 connect calls |
| Reconnect.ElevenConnects | webfs/web/ui/js/app.js:195-200 | some run without an open makes 11 |
| Reconnect.TenMoreAfterOpen | webfs/web/ui/js/app.js:171-174 | from any state, behind an open ten more connect calls can follow without another open |
| Reconnect.BoundAttained | webfs/web/ui/js/app.js:164-200 | for every n some run with n opens makes 11 + 10 n connect calls |
| Reconnect.AttemptsCountFailures | webfs/web/ui/js/app.js:171-200 | in every run the counter is the number of closes, errors and throwing constructors since the last open, up to ten |
| Reconnect.OpensBounded | webfs/web/ui/js/app.js:168-174 | in every run each connect call opens at most once |
| Monitor.ReadRow | internal/monitor/monitor.go:131-153 | one line's row, or none for an empty or short line |
| Monitor.ReadRows | internal/monitor/monitor.go:171-196 | the rows of all lines, in order |
| Monitor.ParseTable | internal/monitor/monitor.go:129-156 | the table of an output |
| Monitor.RowIff | internal/monitor/monitor.go:131-138 | a line gives a row if and only if it has at least six fields |
| Monitor.RowOfFields | internal/monitor/monitor.go:140-153 | the row depends on the first six fields alone |
| Monitor.NoNumberIsZero | internal/monitor/monitor.go:140-144 | a field that does not begin like a number, such as "[N/A]", is read as zero |
| Monitor.TableIgnoresBlanks | internal/monitor/monitor.go:129 | blanks around the output do not matter |
| Monitor.TableRoundTrip | internal/monitor/monitor.go:171-198 | printing any list of GPUs and parsing it gives them back, memory scaled with uint64's saturation and wrap-around |
| Monitor.TableExactIff | internal/monitor/monitor.go:148-150 | the scaling is exactly 2^20 if and only if every memory value is below 2^44 |
| Monitor.TableCrlf | internal/monitor/monitor.go:129-130 | for every output CRLF and LF line ends give the same table |
| Monitor.FormatScale | internal/monitor/monitor.go:201-212 | for every uint64 the loop ends with div = 1024^(exp+1), div <= b < 1024*div, no overflow, and a unit that exists |
| Monitor.ScaleUnique | internal/monitor/monitor.go:206-211 | no other exponent brackets the count |
| Text.IndexFirst | internal/monitor/monitor.go:135 | Index is the first occurrence, if there is one |
| Text.SplitJoins | internal/monitor/monitor.go:129 | Split cuts out separators and nothing else |
| Text.SplitPartsFree | internal/monitor/monitor.go:135 | no part of a split holds the separator |
| Text.SplitConcat | webfs/web/ui/js/app.js:593 | splitting a concatenation joins the last part of the left and the first of the right |
| Text.TrimSplits | webfs/web/ui/js/app.js:596 | trimming takes blanks off both ends and leaves none there |
| Text.ParseUintNumeral | internal/monitor/monitor.go:140-142 | ParseUint reads a printed number back, saturating above 64 bits |
| Text.ParseUintOfDigits | internal/monitor/monitor.go:140-142 | ParseUint of digits is their decimal number, saturating above 64 bits |
| Text.ParseUintOfOthers | internal/monitor/monitor.go:140-142 | with anything else in it, it is zero, unless the digits before are too many already |
| Text.AtoiOfDigits | internal/monitor/monitor.go:143-144 | Atoi of digits with or without a sign is their number, within the limits of an int |
| Text.AtoiItoa | internal/monitor/monitor.go:143-144 | Atoi reads every printed 64-bit int back |
| Text.ItoaInjective | internal/llmserver/server.go:119-120 | different numbers print differently |
| Registry.KeyInjective | internal/discovery/discovery.go:130 | printed addresses determine host and port, also when the host holds colons |
| Registry.KeyReadsBack | internal/discovery/discovery.go:98-130 | the host stands before the last colon of a key, and behind it the port, as it reads |
| Registry.Discovery.constructor | internal/discovery/discovery.go:49-54 | an empty registry and an empty channel |
| Registry.Discovery.Scan | internal/discovery/discovery.go:95-103 | a new object, with the first address as host and IP and the status available, under its printed address, offered to the channel unless that is full |
| Registry.Discovery.Insert | internal/discovery/discovery.go:97-99 | writing an object under its own printed address keeps every entry under its own |
| Registry.Discovery.Offer | internal/discovery/discovery.go:100-103 | the channel model's step for an offer: the item is buffered unless the buffer is full |
| Registry.Discovery.LosesOnlyWhenFull | internal/discovery/discovery.go:100-103 | of the object, after any traffic: received and buffered workers are, in order, those offered while the buffer was not full, and a subsequence of all offered |
| Registry.Discovery.Receive | internal/discovery/discovery.go:169-171 | a receive takes the oldest buffered worker, as the channel model's step does |
| Registry.Discovery.AddManualWorker | internal/discovery/discovery.go:129-151 | an existing object has its time and status changed in place and the map is not; else a new one is entered, field by field |
| Registry.Discovery.UpdateWorkerMetrics | internal/discovery/discovery.go:153-161 | changes that one worker only; the entries stay keyed if and only if the callback keeps the address |
| Registry.Discovery.RemoveWorker | internal/discovery/discovery.go:163-167 | that entry goes, the others stay |
| Registry.Discovery.GetWorkers | internal/discovery/discovery.go:118-127 | each object of the map, and each (host, port), exactly once |
| Registry.ApplyKeyedIff | internal/discovery/discovery.go:129-167 | one operation keeps the entries under their printed addresses if and only if its callback keeps the address |
| Registry.RunKeyedIff | internal/discovery/discovery.go:97-167 | in every run the entries are keyed throughout if and only if each operation keeps the address in the state that it meets |
| Registry.RunKeyed | internal/discovery/discovery.go:97-167 | so it is in all runs whose callbacks leave host and port alone |
| Registry.PrintedKeysRefine | internal/discovery/discovery.go:129-167 | under printed keys every operation does what it would do on a map from addresses |
| Registry.RemovesThatAddress | internal/api/api.go:139-140 | removing host, colon and numeral takes away the entry of exactly that address |
| Registry.ChannelKeepsAccepted | internal/discovery/discovery.go:100-103 | received plus buffered items are, in order, those offered to a buffer that was not full; the rest were dropped; the buffer never exceeds 100 |
| Registry.AcceptedPicks | internal/discovery/discovery.go:100-103 | the accepted items stand at rising positions of the discovery order |
| Registry.ReceivedIsSubsequence | internal/discovery/discovery.go:52 | in every run received plus buffered items form a subsequence of the discoveries |
| WorkerSlice.Append | internal/api/api.go:94 | append writes into spare capacity or into a new array, and nowhere else |
| WorkerSlice.RemoveAt | internal/api/api.go:102 | the removal shifts the shared array in place |
| WorkerSlice.ShiftedFull | internal/api/api.go:102 | a full view of it reads old[..i] + old[i+1..] + [old[n-1]] |
| WorkerSlice.ShiftedViewSameIff | internal/api/api.go:102 | a view of any length of the shared array stays as it was if and only if the moved workers in it equal their left neighbours |
| WorkerSlice.Api.Share | internal/api/api.go:236 | the hand-over shares the array, with the supervisor's view no longer than the server's |
| WorkerSlice.Api.AddRPCWorker | internal/api/api.go:94 | the server's list grows by one; the supervisor's stays |
| WorkerSlice.Api.RemoveRPCWorker | internal/api/api.go:101-102 | the server's list loses index i; a supervisor with a view of any length of the same array sees the shifted array up to that length, with the same slice old[..i] + old[i+1..] + [old[n-1]] |
| WorkerSlice.Api.AddAll | internal/api/api.go:94 | any number of additions leave the supervisor's list as it was handed over |

## Left out

- HTTP proxying, header copying, websocket writes, static files and JSON bodies: plumbing over libraries. A request that fails to decode takes no lock, but for the worker DELETE, which takes and gives back one read lock.
- Operating-system processes, nvidia-smi, mDNS and the health endpoint: choices of the environment. A good health answer says only that something answered on the port.
- The background health poller of StartNonBlocking, HealthCheck and `/v1` routing: they change no state; the mutex they take for one read is the step of `LlmIsRunning`.
- A nil `llmServer`: the controller always passes one.
- Setters of the mmproj path, context size, GPU layers, threads and n-predict in the class: like SetModelPath. In the machine they are actions on the options, under their locks.
- The bodies of responses: requests are modelled by what they change and by what is broadcast.
- Data races: reads of `clients` without the lock and deletes under a read lock are outside an interleaving model, as are the scanner's and GetWorkers' callers that read worker objects without a lock.
- The scanner's log line, which reads the first IPv4 address of an entry that may have none, and the `%[^:]` pattern in cmd/controller/main.go, which Go's fmt does not have.
- JSON parsing of payloads and deltas: an uninterpreted function from a payload to the text it adds. Text decoding across chunks and a leading byte order mark are below the level of character sequences.
- Reasoning text and all other page content: the text accumulator is extended before the page is touched.
- Floating-point formatting in formatBytes and the page's own formatBytes, retry delays, flag and configuration merging, the topology canvas.
- The goroutine machine keeps the number of RPC workers; their names and the aliasing of the list are in `WorkerSlice`. It runs each critical section's field updates as separate actions, and calls such as stopLocked as one, under the lock.
- A waiting writer blocks new readers from its announcement on, also while another writer holds the lock. Fairness of schedulers is not assumed: `EveryRunCanFinish` says that a finish is always reachable, `MovesBounded` that nobody can run for ever between arrivals.
- FlagSerial.LoadedImpliesUncancelled: for runs without SetModelLoaded(true) and without a bare Stop of the supervisor, which nothing in the repository calls from outside a handler; `FlagSafety.LoadedCancelledIff` admits both.
- WorkerSlice.Api.AddRPCWorker: only the append of the slice, without the broadcast that never returns.
- WorkerSlice.Api.RemoveRPCWorker: only the removal from the slice, which no run of the server gets to.
