# Verification model of the agent worker

This project models the hard core of the worker service and its SDK in Dafny 4.11 and proves properties of
the model. `dafny verify dfyconfig.toml` checks everything.

Interleavings are step relations: one step is the stretch of code that a coroutine runs between two
suspensions, and the main results speak about every run. Objects that the source updates in place are classes
whose methods are proved against the step functions, so a result about runs is a result about those methods.

| file | subject |
|---|---|
| `EventLog.dfy`, `LockDiscard.dfy`, `EventStore.dfy` | event table and per-task locks |
| `SseSession.dfy`, `SdkStream.dfy`, `StreamProtocol.dfy`, `StreamProgress.dfy`, `StreamObjects.dfy` | server stream, reconnecting client, and the whole protocol |
| `Wakeup.dfy`, `WakeupGuard.dfy`, `EventBuses.dfy` | wakeups and the buses that carry them |
| `Decisions.dfy`, `Hitl.dfy`, `HitlProgress.dfy` | decision rows and permission handlers |
| `Recorder.dfy`, `Scrub.dfy` | conversation recorder and secret scrubbing |
| `Scheduler.dfy`, `Metrics.dfy`, `ArtifactGc.dfy` | slots and counters, artifact collection |
| `Runner.dfy`, `RunnerOverlap.dfy`, `McpFields.dfy`, `Retry.dfy` | interceptor runner, field aggregation, HTTP retries |
| `Common.dfy` | shared helpers |

## Where the code does less than its documentation says

The model follows the code. Where a promise fails, a lemma gives a run or an input that breaks it and another
one says exactly when it holds.

- Dropping a task's lock while it is in use can make a later INSERT fail on the UNIQUE constraint, exactly when
  some call on that lock has still to insert (`LockDiscard.NoRaiseIff`); keeping calls out of each other's way
  takes more, an idle lock (`LockDiscard.MutualExclusionIff`). The ids stay contiguous in any case.
- Dropping a bus can strand a parked stream until its heartbeat timeout, exactly when one of its subscribers is
  not immune: when it could still park without having fetched a terminal row (`WakeupGuard.DispensableIff`).
- A resolve raises, instead of being ignored, exactly when it repeats the key of another row
  (`Decisions.RepeatedKeyRaises`).
- The driver ignores the result of `expire_decision`: an answer accepted between the last poll and the expiry
  is not acted on, which rejects an approved tool under `abort` and runs a rejected one otherwise
  (`Hitl.LateAnswerIgnored`); this happens exactly when the expiry reports no change (`Hitl.RowAgreesWithHandler`).
- The truncation sentinel always reports two dropped messages, and the message limit holds exactly from three on
  (`Recorder.SentinelCount`, `Recorder.LimitHoldsFromThree`).
- Jitter is applied after the cap, so a policy keeps its `max_backoff_sec` exactly when its last wait with full
  jitter does (`Retry.CapKeptIff`); the default policy does, with six attempts it would not
  (`Retry.DefaultKeepsCap`). Server advice has no cap (`Retry.AdviceLengthens`).
- Rows that cannot be collected starve the others exactly when, for one of them, they fill a batch at or before
  its expiry (`ArtifactGc.CollectsAllIff`).
- When dispatches overlap, an interceptor's errors exceed its budget by the calls that were under way
  (`RunnerOverlap.ErrorBound`).
- A terminal row does not end the log: rows may follow it. Delivery is therefore proved up to the first one
  (`StreamProtocol.NeverPastFirstTerminal`).

## Model

| member | source | states |
|---|---|---|
| EventLog.IdsAreContiguous | src/worker/storage/repo.py:175-217 | In every interleaving of inserts and lock discards, the ids of a task are exactly 1..n in insertion order |
| EventLog.InsertOutcome | src/worker/storage/repo.py:205-217 | A MAX + 1 that has gone stale fails on UNIQUE and leaves the table alone; a current one appends row n + 1 |
| EventLog.StepAppends | src/worker/storage/repo.py:205-217 | Tables only grow, by one row of the inserting call's own task |
| EventLog.NoInsertFails | src/worker/storage/repo.py:158-172 | In every run whose discards meet an idle lock, no insert raises and at most one call of a task is between MAX and commit |
| EventLog.OtherTasksNeverDelay | src/worker/storage/repo.py:161-167 | A call that has to wait waits for a call of its own task |
| EventLog.DiscardInUseCanFail | src/worker/storage/repo.py:170-172 | A run in which a lock in use is discarded and an insert then raises |
| LockDiscard.NoInsertRaises | src/worker/storage/repo.py:205-217 | In every run that drops no lock on which a call has still to insert, no INSERT ever fails |
| LockDiscard.NoRaiseIff | src/worker/storage/repo.py:170-172 | Dropping a lock now is followed by a failing INSERT in no careful continuation, if and only if no call on it has still to insert |
| LockDiscard.MutualExclusionIff | src/worker/storage/repo.py:170-172 | Dropping a lock now keeps calls for the same log apart in every continuation with idle discards, if and only if nobody holds it and nobody waits for it |
| EventStore.Repo.GetEventLock | src/worker/storage/repo.py:161-167 | Returns the registered lock or registers a fresh one, as the step function says |
| EventStore.Repo.InsertRow | src/worker/storage/repo.py:206-215 | The INSERT succeeds exactly when the id is free; otherwise the lock is released and the table unchanged |
| EventStore.Repo.InsertEvent | src/worker/storage/repo.py:189-224 | Without interference the row gets id n + 1, all other tasks keep their rows, and the lock is free again |
| EventStore.Repo.GetEventsAfter | src/worker/storage/repo.py:227-257 | Returns the rows with an id above the cursor, which are the suffix from the cursor on |
| EventBuses.BusRegistry.Subscribe | src/worker/orchestrator/event_bus.py:33-69 | Finds or makes the bus and adds a fresh, unset event to it; no other session's bus, flag or subscription changes |
| EventBuses.BusRegistry.Notify | src/worker/orchestrator/event_bus.py:72-79 | Sets the flag of exactly the sessions that still listen to the registered bus, and makes no bus |
| EventBuses.BusRegistry.Discard | src/worker/orchestrator/event_bus.py:82-87 | Takes one bus out of the registry; every session stays on its bus with its flag |
| EventBuses.BusRegistry.Unsubscribe | src/worker/orchestrator/event_bus.py:39-44 | Ends one session's subscription and no other |
| EventBuses.SubscribeShows | src/worker/api/routes.py:234-235 | Objects that show a protocol state show the state after the opening step once they have subscribed |
| EventBuses.NotifyShows | src/worker/orchestrator/event_bus.py:72-79 | After a notify the objects show the session flags that the protocol's notify step sets |
| EventBuses.DiscardShows | src/worker/orchestrator/event_bus.py:82-87 | After a discard the objects show the protocol state in which the bus is dropped and its subscribers live on |
| SseSession.EventsAfterSlice | src/worker/storage/repo.py:238-246 | On contiguous ids the cursor query is the suffix of the table after the cursor |
| SseSession.SendOk | src/worker/api/routes.py:241-266 | Sending keeps the stream equal to the rows after the start cursor, and the row sent is the next one |
| SseSession.SessionProgress | src/worker/api/routes.py:238-288 | With a terminal row in the table every own step of a stream brings its end closer and none outruns that row |
| SseSession.StepWrites | src/worker/api/routes.py:241-277 | A stream writes one row for each row sent, one heartbeat for each that is due, and nothing else |
| SseSession.EndsIff | src/worker/api/routes.py:238-288 | A stream ends exactly when it has sent a terminal row, has sent its history of a task that was over at the start, or lost its reader; only waking up clears its flag, and a wakeup or timeout leads to the next fetch |
| StreamObjects.EventGenerator.Generate | src/worker/api/routes.py:212-290 | The generator sends exactly the rows after the start cursor, stops after a terminal row, and leaves none behind unless the client is found gone during the replay |
| StreamObjects.EventGenerator.SendBatch | src/worker/api/routes.py:258-263 | A batch is sent whole, or up to its first terminal row, which closes the stream |
| SdkStream.ReceiveRow | src/worker_sdk/sse.py:111-145 | A row is yielded once under its own id, moves the cursor to it, and finishes the iteration exactly when it is terminal |
| SdkStream.ReceiveHeartbeat | src/worker_sdk/sse.py:186-189 | A heartbeat, with no id or with the previous one, leaves the cursor of an orderly client where it is, and is handed on only with an id and to a caller who asked for heartbeats |
| SdkStream.LastIdIsTheRows | src/worker_sdk/sse.py:180-189 | The last id of a connection is that of its last row, and heartbeats in between leave it alone |
| SdkStream.AttemptsSteps | src/worker_sdk/sse.py:174-218 | No step lowers the attempt or connection count, and the connections made stay within max_reconnect_attempts + 1 |
| StreamObjects.SdkIterator.StreamEvents | src/worker_sdk/sse.py:148-218 | Over connections that each end, the rows of all of them up to the first terminal one are yielded; with auto-reconnect the iteration returns only at a terminal row and gives up only at an error status or after all max_reconnect_attempts + 1 connections, without it makes one |
| StreamObjects.SdkIterator.OnRefused | src/worker_sdk/sse.py:98-108 | An error status ends the iteration at no cost in attempts; an unreachable server costs one attempt, and the client connects again while attempts are left |
| StreamProtocol.StepKeeps | src/worker_sdk/sse.py:174-218 | Every step of writers, streams and client keeps the invariant that ties the client's rows to the table |
| StreamProtocol.ExactDelivery | src/worker_sdk/sse.py:174-218 | Over all runs with drops and reconnects, the events yielded are exactly the rows from the start cursor to the current one, without gap or duplicate, and a normal return is at a terminal row |
| StreamProtocol.DeliveredSpan | src/worker_sdk/sse.py:174-189 | In numbers: in every run the caller has seen the rows from the first one, or from the one after its start cursor, up to the id in its current cursor |
| StreamProtocol.NeverPastFirstTerminal | src/worker_sdk/sse.py:190-197 | A client that starts below the first terminal row never gets past it, and returns exactly there |
| StreamProgress.IterationEnds | src/worker_sdk/sse.py:174-218 | Once a terminal row is ahead, the steps of the client and of its session are bounded by a measure (connections left, steps left of the session, messages on the wire), whatever everybody else does |
| StreamProgress.IterationBound | src/worker_sdk/sse.py:174-218 | From a fresh client the bound is max_reconnect_attempts + 1 connections of a cost that depends only on the terminal row's position |
| StreamProgress.StoppedIff | src/worker_sdk/sse.py:192-218 | The client has no step left if and only if its iteration has returned or raised |
| StreamProgress.StreamGoesOn | src/worker/api/routes.py:248-288 | An open session can always step without hanging up, and once it has written a terminal row the client has a message to take |
| StreamProgress.ReconnectsIff | src/worker_sdk/sse.py:192-218 | After a lost or ended connection the client connects again from where it was if and only if auto-reconnect is on and attempts are left; otherwise how it ends is determined |
| StreamProgress.RejectionRaises | src/worker_sdk/sse.py:96-103 | A rejected handshake is raised at once, whatever attempts are left, and costs none |
| StreamProgress.GivesUpWhenSpent | src/worker_sdk/sse.py:202-210 | In every run without a rejected handshake the client raises the stream error only when all its connections have been made |
| Wakeup.NoLostWakeup | src/worker/api/routes.py:234-290 | In every run that drops only dispensable buses, a parked stream with rows beyond its cursor has its flag set, or a writer between insert and notify is about to set it |
| Wakeup.TerminalNotifiedSuffices | src/worker/orchestrator/queue.py:196-203 | A bus is dispensable once a terminal row of its task has been inserted and notified |
| WakeupGuard.DispensableIff | src/worker/orchestrator/event_bus.py:82-87 | Dropping a bus now loses no wakeup in any continuation that drops only dispensable buses, if and only if each of its subscribers is immune |
| WakeupGuard.StrayLoses | src/worker/api/routes.py:248-288 | Every session that is not immune can be lost once its bus is gone: it parks unflagged, and rows arrive that nobody announces to it |
| Wakeup.EarlyDiscardLosesWakeup | src/worker/orchestrator/event_bus.py:82-87 | A run from the start in which a bus is discarded early and a parked stream stays unannounced |
| Decisions.OneWinner | src/worker/storage/repo.py:295-316 | Of all resolve and expire calls on a row, exactly one reports success once the row has left pending, and none before |
| Decisions.ClosedRowIsFinal | src/worker/storage/repo.py:374-391 | A row that is resolved or timed out never changes again |
| Decisions.WinnerStands | src/worker/storage/repo.py:295-391 | A resolve that reported success leaves its own choice and key for good; an expiry that did leaves the row timed out for good |
| Decisions.ResolveIff | src/worker/storage/repo.py:295-316 | A resolve is accepted if and only if the row is pending and its key, if any, is not in use; the row then holds answer and key, and no other row is touched |
| Decisions.ExpireIff | src/worker/storage/repo.py:374-391 | An expiry reports success if and only if the row is pending, which is then timed out without an answer; no other row is touched |
| Decisions.InsertAdds | src/worker/storage/repo.py:264-282 | An insert adds a pending row under a new id and never disturbs an existing one |
| Decisions.KeysStayUnique | src/worker/storage/db.py:74-76 | Non-null idempotency keys stay unique over all rows in every run |
| Decisions.RepeatedKeyRaises | src/worker/storage/repo.py:306-313 | A statement raises if and only if it resolves a pending row with a key that another row carries, and then changes nothing |
| Decisions.DecisionTable.ResolveDecision | src/worker/storage/repo.py:295-316 | Compare-and-set of one row: changed, unchanged, or a unique violation, with the exact new table |
| Decisions.DecisionTable.GetResolvedDecision | src/worker/storage/repo.py:342-371 | Finds an answer exactly when the row is resolved |
| Hitl.ResolveHitlTimeoutPolicy | src/worker/adapters/opencode/driver.py:1096-1120 | In any letter case, continue and escalate stand for approve; everything else, including nothing, is abort |
| Hitl.StepKeeps | src/worker/adapters/opencode/driver.py:500-640 | Every step of handlers, submitters and the event reader keeps the invariant of the shared driver state |
| Hitl.AnsweredOnce | src/worker/adapters/opencode/driver.py:410-418 | Each permission id of a pass has one handler and is answered once; the answer is "once" exactly for auto-approve, a human approval, or a timeout under continue or escalate |
| Hitl.RejectCountIsSinceReset | src/worker/adapters/opencode/driver.py:557-571 | The reject counter is the number of refusals processed since the last approval, by whichever handlers |
| Hitl.SignalledIff | src/worker/adapters/opencode/driver.py:564-591 | A finished handler has signalled an abort exactly when its outcome calls for one; for a refusal, when it brought the counter to three or more |
| Hitl.AbortIsFirstSignal | src/worker/adapters/opencode/driver.py:891-899 | The abort reason and decision are those of the first signal ever raised |
| Hitl.AbortIsSticky | src/worker/adapters/opencode/driver.py:896-899 | Flag, reason and decision never change after the first signal |
| Hitl.RowAgreesWithHandler | src/worker/adapters/opencode/driver.py:592-608 | An answer acted on is the row's answer; after a timeout the row is timed out exactly when the expiry reported success |
| Hitl.LateAnswerIgnored | src/worker/adapters/opencode/driver.py:592-608 | For every answer there is a run in which it is accepted and ignored: the tool is rejected and the driver aborts under abort, the tool runs under continue or escalate |
| HitlProgress.PollDecides | src/worker/adapters/opencode/driver.py:1122-1142 | In every run a handler that has read an answer ends by acting on the answer in its row, and one that has polled in vain past its deadline ends with a timeout |
| HitlProgress.PollReads | src/worker/adapters/opencode/driver.py:553-559 | A poll sees an answer if and only if the row has one, and takes exactly that answer |
| HitlProgress.AskDispatches | src/worker/adapters/opencode/driver.py:410-418 | A new permission id of a pass starts a handler for its tool, a known one changes nothing |
| HitlProgress.ThirdRefusalAborts | src/worker/adapters/opencode/driver.py:566-591 | A refusal signals the threshold abort if and only if it is at least the third since the last approval |
| HitlProgress.AbortStopsDispatch | src/worker/adapters/opencode/driver.py:383-384 | Once the abort is signalled no further request starts a handler |
| HitlProgress.HandlerEnds | src/worker/adapters/opencode/driver.py:470-640 | A handler takes at most four steps, whatever the others do |
| HitlProgress.HandlerGoesOn | src/worker/adapters/opencode/driver.py:470-640 | A handler has no step left if and only if it is done |
| Hitl.WaitForDecision | src/worker/adapters/opencode/driver.py:1122-1142 | Returns the first answer read before the deadline check fails, after one last read past the deadline |
| Hitl.OpenCodeDriver.ActOnAnswer | src/worker/adapters/opencode/driver.py:555-591 | The method moves the shared fields and picks the response as the step function says |
| Recorder.ConversationsWriter.OnEvent | src/worker/adapters/opencode/interceptors/conversations.py:127-198 | After each event buffer, messages and truncation count equal the specification of the whole input |
| Recorder.ConversationsWriter.Flush | src/worker/adapters/opencode/interceptors/conversations.py:209-213 | Closes the open run of deltas and hands out the recorded messages |
| Recorder.WindowRefinement | src/worker/adapters/opencode/interceptors/conversations.py:328-345 | For a limit of at least three, repeated truncation of the truncated list is the window: first message, sentinel, last limit - 2 |
| Recorder.LimitHoldsFromThree | src/worker/adapters/opencode/interceptors/conversations.py:330-345 | The list never outgrows the limit if and only if the limit is at least three |
| Recorder.RecordedWindow | src/worker/adapters/opencode/interceptors/conversations.py:312-345 | Length and total content of the recording are bounded by the two limits |
| Recorder.RecordedContent | src/worker/adapters/opencode/interceptors/conversations.py:319-345 | Every recorded message but the sentinel records one message of the input, in order: content scrubbed first and then cut to the limit, marked when cut, extras scrubbed and free of all seven shapes |
| Recorder.TruncatedCount | src/worker/adapters/opencode/interceptors/conversations.py:320-324 | The truncation counter is the number of messages that were cut, those that left the window included |
| Recorder.GroupSplit | src/worker/adapters/opencode/interceptors/conversations.py:127-198 | Inputs can be grouped into messages part by part, cut anywhere but inside a run of deltas |
| Recorder.GroupPieces | src/worker/adapters/opencode/interceptors/conversations.py:300-310 | A message of its own stands for itself, a flush for nothing, and a run of deltas for one assistant message of the joined text |
| Recorder.ItemByKind | src/worker/adapters/opencode/interceptors/conversations.py:136-195 | Role, text and extra that each kind of event contributes |
| Recorder.SentinelCount | src/worker/adapters/opencode/interceptors/conversations.py:335-345 | The sentinel reports two dropped messages however many are missing |
| Recorder.Rechunking | src/worker/adapters/opencode/interceptors/conversations.py:145-152 | Two runs of deltas with the same joined text are interchangeable anywhere in the input, however they are cut |
| Recorder.IgnoredInputs | src/worker/adapters/opencode/interceptors/conversations.py:127-198 | Ignored kinds and empty deltas can be left out of the input, even in the middle of a run of deltas |
| Recorder.FlushTwice | src/worker/adapters/opencode/interceptors/conversations.py:300-310 | Flushing twice records what flushing once does |
| Scrub.MatchLenComplete | src/worker/adapters/opencode/interceptors/conversations.py:56-72 | The greedy matcher finds a match wherever the pattern fits, and the longest one |
| Scrub.SubIff | src/worker/adapters/opencode/interceptors/conversations.py:76-83 | A substitution keeps every character outside the secrets, in order, and replaces each secret: its result is that of the one cut of the text in which, from left to right, the longest accepted text is a secret |
| Scrub.ScrubInOrder | src/worker/adapters/opencode/interceptors/conversations.py:56-83 | The seven substitutions are applied one after the other, in the order of the table |
| Scrub.ApiKeyShape | src/worker/adapters/opencode/interceptors/conversations.py:58 | Exactly these texts are API keys as a whole, and what replaces them |
| Scrub.StripeKeyShape | src/worker/adapters/opencode/interceptors/conversations.py:59 | Exactly these texts are live or test payment keys as a whole, and what replaces them |
| Scrub.SlackTokenShape | src/worker/adapters/opencode/interceptors/conversations.py:60 | Exactly these texts are Slack tokens as a whole, and what replaces them |
| Scrub.AwsKeyShape | src/worker/adapters/opencode/interceptors/conversations.py:61 | Exactly these texts are AWS access keys as a whole, and what replaces them |
| Scrub.GithubTokenShape | src/worker/adapters/opencode/interceptors/conversations.py:62 | Exactly these texts are GitHub tokens as a whole, and what replaces them |
| Scrub.IdNumberShape | src/worker/adapters/opencode/interceptors/conversations.py:64 | Exactly these texts are citizen id numbers as a whole, and what replaces them |
| Scrub.BearerTokenShape | src/worker/adapters/opencode/interceptors/conversations.py:66 | Exactly these texts are bearer headers, in any letter case, as a whole, and what replaces them |
| Scrub.SecretSizes | src/worker/adapters/opencode/interceptors/conversations.py:56-67 | How long a secret of each shape is, wherever it stands |
| Scrub.ScrubLeavesNoMatch | src/worker/adapters/opencode/interceptors/conversations.py:76-83 | After scrubbing none of the seven expressions accepts anything at any position, also not through the inserted text |
| Scrub.ScrubIdempotent | src/worker/adapters/opencode/interceptors/conversations.py:76-83 | Scrubbing twice is scrubbing once |
| Scrub.ScrubText | src/worker/adapters/opencode/interceptors/conversations.py:76-83 | The substitution loop computes the specification, which ScrubInOrder and SubIff describe |
| Scheduler.Conservation | src/worker/orchestrator/queue.py:108-203 | Every enqueued item is in exactly one of queued, waiting, running and done, and at most max_concurrent_tasks run |
| Scheduler.CountersAgree | src/worker/orchestrator/queue.py:137-201 | The gauge equals the executions under way, so its clip never acts; every counter equals the number of finished executions of its status or reason, and the sums agree |
| Scheduler.CountersByName | src/worker/orchestrator/queue.py:158-195 | Each named counter is the number of executions that ended that way, and aborts are counted by their reason or as unknown |
| Scheduler.DurationSum | src/worker/orchestrator/queue.py:142-195 | The duration sum is the time from start to close, over all finished executions |
| Scheduler.TerminalKinds | src/worker/contract/event.py:95-100 | The terminal event kinds are exactly those that announce an outcome |
| Scheduler.RunIsBounded | src/worker/orchestrator/queue.py:108-203 | Without new arrivals a run is bounded by what was left at its start |
| Scheduler.NeverStuck | src/worker/orchestrator/queue.py:137-203 | While something is unfinished a step is possible, and waiting means a full house |
| Scheduler.AnyOutcome | src/worker/orchestrator/queue.py:144-195 | A task that executes can end in every way, and is then done with that outcome |
| Scheduler.TaskQueue.CloseExecution | src/worker/orchestrator/queue.py:158-201 | Counters, gauge and slot move together, as the step function says |
| Metrics.Registry.IncTaskCount | src/worker/observability/metrics.py:56-58 | One label grows by one, and so does the sum over all labels |
| Metrics.GaugeIsNetIff | src/worker/observability/metrics.py:82-91 | The clipped gauge is never below increments minus decrements, and equal to it if and only if there never were more decrements than increments |
| ArtifactGc.Collector.GcRunOnce | src/worker/orchestrator/artifact_gc.py:90-116 | Exactly the clearable selected rows are deleted, exactly their removable files are gone, and the three counters account for the selection |
| ArtifactGc.Collector.UnlinkFile | src/worker/orchestrator/artifact_gc.py:119-147 | Ok, missing file or error, and which file disappears |
| ArtifactGc.StatsAccount | src/worker/orchestrator/artifact_gc.py:90-116 | The counters sum to the rows selected; deleted and missing sum to the rows cleared |
| ArtifactGc.CountersMean | src/worker/orchestrator/artifact_gc.py:90-116 | The missing-file counter is the number of cleared rows whose file was not there, or no longer after an earlier row with the same file |
| ArtifactGc.UnlinksInside | src/worker/orchestrator/artifact_gc.py:127-140 | Only removable files below the root, named by a selected row, are ever unlinked |
| ArtifactGc.ClearedHasNoFile | src/worker/orchestrator/artifact_gc.py:94-110 | A row is cleared only when it has no file or its file lies below the root and is gone |
| ArtifactGc.RefusedIsKept | src/worker/orchestrator/artifact_gc.py:94-110 | A row that the database refuses to clear is kept; one with a removable file is cleared whether or not the file is there |
| ArtifactGc.RoundClears | src/worker/storage/repo.py:468-485 | A round over a valid selection clears at least limit - E good rows or all of them |
| ArtifactGc.ProgressBound | src/worker/orchestrator/artifact_gc.py:90-116 | After r rounds at most max(0, G - r * (limit - E)) of G collectable rows remain, and the failing rows are kept |
| ArtifactGc.CollectsAllIff | src/worker/orchestrator/artifact_gc.py:90-116 | As many rounds as there are good rows collect them all, for every choice among ties, if and only if each good row has fewer than limit failing rows at or before its expiry; otherwise no number of rounds does |
| ArtifactGc.SelectionExists | src/worker/storage/repo.py:476-482 | Every query has an answer, and one in which ties go to a given set of rows |
| ArtifactGc.Starvation | src/worker/storage/repo.py:476-482 | A good row with at least limit strictly older failing rows is never collected, whatever the selections |
| Runner.DeliveredPrefix | src/worker/adapters/opencode/interceptors/runner.py:126-142 | An interceptor receives the prefix of dispatches that ends at its own budget-th failure, or all; its error count stays within max(1, budget) and it is disabled exactly at that failure |
| Runner.InterceptorRunner.Dispatch | src/worker/adapters/opencode/interceptors/runner.py:73-91 | One dispatch at a time, its calls completing in any order, leaves every interceptor where it would be alone |
| RunnerOverlap.NonInterference | src/worker/adapters/opencode/interceptors/runner.py:110-142 | In any two runs with overlapping dispatches, an interceptor that is dispatched to and fails alike ends up alike, whatever its siblings are and do |
| RunnerOverlap.ErrorBound | src/worker/adapters/opencode/interceptors/runner.py:126-142 | With at most w calls under way at once, an interceptor's errors stay within max(1, budget) - 1 + w, and it is disabled exactly when it has failed and its errors have reached the budget |
| RunnerOverlap.ErrorBoundIsTight | src/worker/adapters/opencode/interceptors/runner.py:126-142 | For every budget and every width some run reaches that bound |
| RunnerOverlap.LoadCounts | src/worker/adapters/opencode/interceptors/runner.py:113-129 | Errors are the calls that failed, and calls under way those started and not ended |
| Runner.InterceptorRunner.CollectArtifacts | src/worker/adapters/opencode/interceptors/runner.py:93-108 | Artifacts of the enabled interceptors in registration order; a failing flush costs only its own interceptor |
| Runner.DeclaredInOrder | src/worker/adapters/opencode/interceptors/runner.py:99-108 | The collected artifacts are those of exactly the enabled interceptors that declare one, in registration order |
| Runner.FlushCostsACall | src/worker/adapters/opencode/interceptors/runner.py:119-142 | A failing flush costs what a failing call does |
| Runner.NameShapes | src/worker/adapters/opencode/interceptors/base.py:30-39 | Which names pass: length, first letter, alphabet, and the final newline that slips through |
| Runner.Register | src/worker/adapters/opencode/interceptors/runner.py:41-58 | Succeeds exactly for distinct, well-formed names |
| McpFields.RunKeeps | src/worker/adapters/opencode/interceptors/mcp_fields.py:196-234 | Over all event sequences, evictions included, aggregates are counts and unions over the matched calls, the counts sum to the processed ids whose tool matched, and the buffer holds at most max(1, limit) |
| McpFields.KeysMean | src/worker/adapters/opencode/interceptors/mcp_fields.py:208-226 | An aggregate exists exactly for the tools with processed calls whose name matches, under the matched group, and counts those calls |
| McpFields.ForgetsOldest | src/worker/adapters/opencode/interceptors/mcp_fields.py:185-193 | The pending calls are those that a first-in-first-out buffer keeps, in order of arrival |
| McpFields.UnusableIgnored | src/worker/adapters/opencode/interceptors/mcp_fields.py:176-181 | Events without a usable id, and starts without a tool, are ignored |
| McpFields.CountedIff | src/worker/adapters/opencode/interceptors/mcp_fields.py:175-207 | Without eviction a call is counted if and only if a finish came after a start of the same non-empty id |
| McpFields.CountedAs | src/worker/adapters/opencode/interceptors/mcp_fields.py:192-226 | What is counted is the latest start before the first finish, with that finish; later events of the id change nothing |
| McpFields.OrderIndependence | src/worker/adapters/opencode/interceptors/mcp_fields.py:175-234 | Without eviction the aggregates depend only on each id's own events, whatever the interleaving and finishing order |
| McpFields.Separates | src/worker/adapters/opencode/interceptors/mcp_fields.py:175-234 | Without eviction every id is treated as if it were alone |
| McpFields.FewIdsNeverFull | src/worker/adapters/opencode/interceptors/mcp_fields.py:186-193 | Fewer distinct ids than places means that nothing is ever evicted |
| McpFields.FinishTwice | src/worker/adapters/opencode/interceptors/mcp_fields.py:200-206 | Repeating a finish is a no-op |
| McpFields.McpFieldRecorder.OnEvent | src/worker/adapters/opencode/interceptors/mcp_fields.py:99-114 | The mutable recorder follows the step function and keeps its invariant |
| Retry.Request | src/worker_sdk/client.py:527-577 | Sends stop at the first reply that is final or at the last attempt, the result is that reply's verdict, every wait is the back-off or the longer server advice, and the code after the loop is unreachable |
| Retry.OutcomeIsDetermined | src/worker_sdk/client.py:527-577 | Number of sends and result are unique: the response when the last reply is the first success, else the kind of error and the status of the last reply; only transport errors and 5xx answers whose switch is on are repeated |
| Retry.DefaultPostSentOnce | src/worker_sdk/client.py:584-594 | Without an override only GET and HEAD are repeated |
| Retry.WhoIsRetried | src/worker_sdk/client.py:584-594 | An override is followed; without one GET and HEAD are repeated in any letter case |
| Retry.SentUntilSpent | src/worker_sdk/client.py:532-574 | While the replies stay transient a request that is retried is sent max_attempts times |
| Retry.DefaultSends | src/worker_sdk/client.py:527-577 | By default a repeatable request is sent three times while there is trouble, with waits of 0.5 s and 1 s give or take a quarter, unless the server asks for longer ones |
| Retry.SleepBound | src/worker_sdk/client.py:527-577 | Without server advice the total sleep is at most (max_attempts - 1) * max_backoff * (1 + jitter) |
| Retry.CappedGrows | src/worker_sdk/retry.py:79-80 | Waits before jitter never shrink and stay between the initial and the maximal back-off |
| Retry.BackoffInInterval | src/worker_sdk/retry.py:79-86 | With jitter a wait stays in its interval around the capped value |
| Retry.JitterSpans | src/worker_sdk/retry.py:79-86 | The waits that jitter can produce are exactly those within the factors 1 - jitter and 1 + jitter of the capped value |
| Retry.CapKeptIff | src/worker_sdk/retry.py:79-86 | No wait that the loop can ask for exceeds max_backoff, if and only if the last one with full jitter does not |
| Retry.RequestsKeepCap | src/worker_sdk/client.py:527-577 | Under that condition no request without server advice waits longer than max_backoff |
| Retry.CapExceeded | src/worker_sdk/client.py:527-577 | Without it there is a request that does |
| Retry.DefaultKeepsCap | src/worker_sdk/retry.py:46-53 | The default policy keeps its cap; with six attempts it would not |
| Retry.AdviceLengthens | src/worker_sdk/client.py:560-564 | Server advice can only lengthen a wait, and is followed in full when it is the longer one |
| Retry.CheckPolicy | src/worker_sdk/retry.py:55-65 | A policy is accepted exactly when all five rules hold |

## Left out

- Wakeup.NoLostWakeup: the heartbeat timeout, which refetches anyway, is modelled but not counted as a wakeup.
- EventLog.NoInsertFails: for runs whose discards meet an idle lock; the scheduler does not wait for that. The exact conditions are in LockDiscard.
- StreamObjects.EventGenerator.Generate: runs one generator against a given growing table; the interleaving with writers is in StreamProtocol.
- StreamObjects.SdkIterator.StreamEvents: each connection is given as a finite sequence of messages; that the protocol's own streams cannot go on for ever is StreamProgress.IterationEnds.
- Runner.InterceptorRunner.Dispatch: one dispatch at a time; overlapping dispatches are modelled on values in RunnerOverlap.
- ArtifactGc.CollectsAllIff: the clock is fixed, and no row is inserted and no path changes between the rounds.
- McpFields.OrderIndependence: assumes that no start meets a full buffer; with eviction the first pending call is forgotten.
- Retry.Request: reals instead of floating point; a Retry-After text is given as the number it parses to, if any.
- Scrub.ScrubIdempotent: ASCII text; outside it `\b`, `\d` and `\s` have wider meanings.
- Hitl.AnsweredOnce: decision ids are fresh, as for a random UUID; auto-approve matching is an uninterpreted predicate on the tool name.
- Database failures, task cancellation and process restarts.
- An error raised while the connection is being closed after the terminal event.
- The lock and semaphore queues are not FIFO in the model: any waiter may be served.
- Task status rows: `update_task_status` has no guard, so a terminal status can be overwritten.
- Cascading deletes: foreign keys are not switched on.
- The plan approval dialogue (its abort signal is a step), the mode escalation hint after three permission asks, and the events a handler writes around its wait.
- Message timestamps, artifact files and JSON written by the flush of an interceptor.
- SSE framing: a stream is a sequence of messages that may break off anywhere. Section 9.2.6 of the WHATWG HTML standard lets a message without id carry the previous one; both readings are covered.
- Decoding of event payloads, which stay text; an id that is missing, empty or not an integer is one case.
- Docker, the opencode client, workspace checkout, the broker proxy, authentication, web framework wiring, logging and Prometheus text.
- `BacktestInterceptor`, slug choice, event normalisation, compatibility parsing and orphan recovery, which would add easy members only.
