# Verification of the gateway's accounting, streaming, and lookup core

A Dafny model of the parts of the gateway whose correctness spans several functions or
several goroutines. `dafny verify dfyconfig.toml` checks all of it.

| file | what it models |
|---|---|
| `BudgetWindow.dfy`, `SpendProtocol.dfy`, `Budget.dfy` | the spend of one budget: window arithmetic; the protocol, with every atomic load, add and store and every database write as its own step; and the imperative methods, each proved to be a path of that protocol |
| `Ledger.dfy`, `LedgerOrder.dfy` | the usage records beside the budgets, the hook that feeds both, and the order of the records |
| `Metrics.dfy` | the telemetry pipeline: pooled events, bounded buffer, flush with a carry-over |
| `Worker.dfy` | a job's starts, loops, triggers and last run, and its code as a path of that protocol |
| `Hosted.dfy`, `TelemetryShutdown.dfy`, `UsageShutdown.dfy`, `BudgetShutdown.dfy` | the worker under the gateway's shutdown, and what it leaves of telemetry events, usage records and budget totals |
| `Sse.dfy`, `EventStream.dfy` | server-sent events, printed and read by the gateway, and read by a client (section 9.2 of the WHATWG HTML Standard) |
| `StreamProtocol.dfy`, `ChatStream.dfy` | producer and consumer of a streamed answer, and the code of both as paths of the protocol |
| `KeyStore.dfy`, `AuthCache.dfy` | key and budget transactions; the cache the requests authenticate against |
| `Money.dfy`, `Prices.dfy`, `TokenRates.dfy`, `UnitPrices.dfy`, `Pricing.dfy` | nano-dollars, price lists, rates, and bills |
| `Merging.dfy`, `PriceIndex.dfy` | price overrides, and the price index |
| `KeyFormat.dfy`, `Dataplane.dfy`, `Buckets.dfy` | key strings, provider policies and selection, request counts over time |
| `Wrappers.dfy`, `Text.dfy`, `Arithmetic.dfy` | shared options and results, trimming, arithmetic facts |

The protocols are state machines. A run is any finite sequence of events, each enabled
where it happens, and the theorems are about the end of every run. The methods of a
budget, of the ledger, of a stream and of a job carry the run they are part of as ghost
state: each atomic step they take is appended to it, with steps of other goroutines in
between, so what is proved of all runs holds of that code. The telemetry engine's methods
state that accepting an event, taking a batch and writing it are steps of the pipeline's
machine, with requests finishing at any moment. A database write applies as a whole or not
at all. How a write ends - to the database, to a client - and how a job's function ends is
an argument of the method that depends on it, so its contract says what follows from each
outcome. Floats are reals, times are integers, counters are unbounded
integers except where a width is named (nano-dollars saturate, round-robin cursors wrap).

## What the code does not keep

Some properties the design suggests are false of the code. Each has an input that shows
it and, beside it, the exact condition under which the property holds.

- Revoking or deleting an inactive key releases its budget even when another active key
  holds it, and two active keys can come to share it
  (`KeyStore.RevokingAnInactiveKeySharesABudget`). The binding holds all along a run
  exactly when no revocation or deletion is of that kind
  (`KeyStore.BindingHoldsExactlyWhileReleasesAreOwn`).
- A handler whose commit cannot be read back answers with an error and leaves the cache
  as it was. The verdicts are right all along a run exactly when no such commit shows in a
  verdict (`AuthCache.VerdictsAgreeExactly`; every visible one is an input that shows it).
  The next successful sync repairs the cache, but syncs refuse as a whole while any key has
  a balancer that the store accepts and nothing implements.
- Tokens written to the cache are part of the prompt and stay in its plain line, so next to
  a cache-write price they are billed twice (`Pricing.CacheWriteBillsTwice`). So are cached
  tokens under a cache-read price for a tier or a band without a base one
  (`Pricing.OrphanPriceBillsTwice`). A prompt token is billed by two priced lines in these
  two cases and in no other (`Pricing.BilledOnceExactly`).
- Under a list with an audio price for the priority tier and none for the others, audio
  tokens are taken out of the plain line and cost nothing in the other tiers
  (`Pricing.PromptPrices`, which gives the exact price of every kind of prompt token).
- A configuration read before a roll and published after it makes the next tick close the
  window that has just begun (`SpendProtocol.StalePublishRollsTwice`). Every completed roll
  moves the row to a later start exactly when none sets out from a configuration whose
  window around the row's start still runs (`SpendProtocol.RollsAdvanceExactly`).
- A write that panics is recovered by the worker, but the batch is then held by nobody: its
  events are neither stored nor counted as lost, exactly when a write has panicked
  (`Metrics.MetricsEngine.EveryEventIsCounted`), and an attempt stays on the books with
  nothing to retry, exactly when it panicked during a retry
  (`Metrics.MetricsEngine.FailThenPanic`, `Metrics.MetricsEngine.Flush`).
- A second start after a shutdown that timed out can run a job beside its earlier loop
  (`Worker.RestartAfterTimedOutShutdownOverlaps`). A start is safe exactly when every
  earlier loop is over (`Worker.StartIsSafeExactlyWhenClean`).
- Usage records are not always stored in the order they were offered
  (`Ledger.FailedInsertReorders`). The order is kept all along a run exactly when no record
  of a failed batch is taken back by a buffer that already holds one offered after that
  batch was drained (`LedgerOrder.OrderIsKeptExactly`).

## Model

| member | source | states |
|---|---|---|
| `BudgetWindow.TargetIsTheWindowOfNow` | internal/governance/budget.go:50-62 | There is no reset target exactly while the current window runs; otherwise the k-th later window start is the target if and only if its window contains now |
| `BudgetWindow.RollTwiceIsRollOnce` | internal/governance/budget.go:50-62 | Rolling at two times in order gives the same window start as rolling once at the later one |
| `BudgetWindow.RollsArePathIndependent` | internal/governance/governance.go:231-271 | Over any ordered tick times, any of them failing before a last success, the window start is that of one roll at the last tick |
| `BudgetWindow.RollAbsorbsEarlierTicks` | internal/governance/governance.go:231-271 | Earlier ticks, failed or not, leave no trace in the window start once a later tick succeeds |
| `BudgetWindow.TargetRepeatsExactly` | internal/governance/budget.go:50-62 | For any configuration, row start and time: the target is no later than the row's window if and only if the configuration is due although its window that holds the row's start still runs |
| `BudgetWindow.WindowsBehind` | internal/governance/budget.go:50-62 | For a configuration j windows behind the row that is: j is at least one and the row's window is not over |
| `SpendProtocol.RunKeepsInv` | internal/governance/governance.go:205-271 | The books, the flush marks and the position of the settle goroutine stay consistent in every interleaving of recorders, flush, roll, publication and crash |
| `SpendProtocol.StepKeepsInv` | internal/governance/governance.go:205-271 | Each single step keeps them, and only a crash loses anything |
| `SpendProtocol.BooksCountTheRun` | internal/governance/budget.go:45-48 | The ghost books are exactly what the run's own events recorded |
| `SpendProtocol.SpendIsConserved` | internal/governance/governance.go:205-271 | Seed plus everything recorded equals counter plus everything closed plus what crashes lost (nothing in a crash-free run), for cost and for requests, and no counter is negative |
| `SpendProtocol.SkipOnlyWhenRowIsExact` | internal/governance/governance.go:213-224 | The equality skip is taken only when the row already holds both loaded totals |
| `SpendProtocol.CrashLosesOnlyUnflushedSpend` | internal/governance/budget.go:98-112 | Reseeding from the row after a crash at any step keeps the books, loses at most what was not flushed and counts nothing twice |
| `SpendProtocol.OverspendIsBounded` | internal/governance/hook_budget_auth.go:20-36 | With a fixed enforced limit, at most k requests in flight and cost at most c each, the counter never exceeds limit - 1 + k*c, across rolls and crashes |
| `SpendProtocol.OverspendBoundIsReached` | internal/governance/budget.go:25-35 | For every limit, k and c some run reaches that bound exactly |
| `SpendProtocol.RowHoldsTheFoldedWindow` | internal/governance/governance.go:243-266 | While no stale configuration is published, the stored window start is the fold of the completed rolls |
| `SpendProtocol.RowHoldsTheLastWindow` | internal/governance/governance.go:243-266 | ... and so one roll at the last of them |
| `SpendProtocol.FinalTickStoresEverything` | internal/governance/governance.go:93-104 | From any state between two ticks a tick can store both totals, whether or not it rolls, so what is required of the last run at shutdown is never out of reach |
| `SpendProtocol.RollKeepsToWhatItFound` | internal/governance/governance.go:237-261 | Up to the reset of the row a roll works towards the target, and from the row start, of the moment it was found due |
| `SpendProtocol.RollsAdvanceExactly` | internal/governance/governance.go:237-261 | In every run each completed roll moves the row to a later window if and only if none set out from a configuration whose window around the row's start was still running |
| `SpendProtocol.StalePublishRollsTwice` | internal/governance/governance.go:257-261 | The failing case: a configuration read before a roll and published after it closes the new window's spend at once |
| `GovernedBudget.Budget.constructor` | internal/governance/budget.go:77-96 | A budget enters the cache with its counters and flush marks seeded from the row |
| `GovernedBudget.Budget.Admission` | internal/governance/budget.go:25-35 | Two atomic loads, the configuration and then the counter, with other goroutines in between: admitted if and only if the configuration held has no limit, is not enforced, or has a limit the counter at the end is below |
| `GovernedBudget.Budget.Decide` | internal/governance/budget.go:25-35 | The second half of a check admits or refuses as the protocol does |
| `GovernedBudget.Budget.RecordUsage` | internal/governance/budget.go:45-48 | Both counters grow by the spend and one request, whatever else runs in between, as steps of one protocol run |
| `GovernedBudget.Budget.FlushBudgetUsage` | internal/governance/governance.go:205-229 | The imperative flush is a path of the protocol: skipped, failed with the row unchanged, or done with the row and marks at the loaded totals. A write that succeeds is done as soon as the cost differs from its mark or requests have come |
| `GovernedBudget.Budget.TrackBudgetWindow` | internal/governance/governance.go:231-271 | The imperative roll is a path of the protocol: nothing is logged exactly while the window runs; it rolls if and only if the window is over and both writes succeed, and the row then holds zero totals and the later window start whose window contains now; each failed write ends it where it stands |
| `GovernedBudget.Budget.SubtractClosed` | internal/governance/governance.go:257-266 | The roll subtracts exactly what it closed, so spend recorded meanwhile survives |
| `GovernedBudget.Budget.ClearMarks` | internal/governance/governance.go:257-266 | After a roll both flush marks are zero and the goroutine is idle again |
| `Ledger.LedgerIsConserved` | internal/governance/governance.go:169-202 | As multisets, records offered equal buffered plus in flight plus stored plus dropped, under any interleaving of appends, drains and failed inserts |
| `Ledger.LedgerAgreesWithBudgets` | internal/governance/hook_budget_usage_record.go:26-44 | For a resident budget the recorded spend is the summed cost of its offered records, up to hooks paused between their two writes |
| `LedgerOrder.OrderIsKeptExactly` | internal/governance/governance.go:187-195 | In every run of differing records, what the table, a drained batch and the buffer hold stands in the order of offering all along if and only if no record of a failed batch is taken back by a buffer that holds one offered after that batch was drained |
| `LedgerOrder.TableKeepsOrder` | internal/governance/governance.go:169-202 | Then the table in particular is in that order |
| `LedgerOrder.OvertakingReorders` | internal/governance/governance.go:187-195 | Any such taking back breaks the order at once |
| `Ledger.FailedInsertReorders` | internal/governance/governance.go:187-195 | Such a run is reached: the table ends up with the newer record first |
| `Ledger.FlushCanSucceed` | internal/governance/governance.go:169-202 | From any state between two flushes a flush can empty the buffer into the table |
| `Ledger.UsageBuffer.Append` | internal/governance/usage.go:48-58 | Appends below capacity; at capacity drops the record and counts it |
| `Ledger.UsageBuffer.Drain` | internal/governance/usage.go:60-66 | Hands over all records in order and leaves none |
| `Ledger.Governance.RecordUsage` | internal/governance/hook_budget_usage_record.go:21-47 | One finished request is one record offered and one spend on its budget, with other hooks in between |
| `Ledger.Governance.FlushUsageHistory` | internal/governance/governance.go:169-202 | The batch holds at least what was buffered at the start; it is stored whole if and only if the insert succeeds or it is empty; otherwise none of it is stored and each record is offered to the buffer again, in order |
| `Ledger.Governance.Take` | internal/governance/governance.go:169-175 | The batch is at least everything buffered when the flush starts |
| `Ledger.Governance.ReEnqueue` | internal/governance/governance.go:187-195 | Every record of a failed batch is offered again, in order; the buffer keeps it or drops it as any other |
| `Metrics.RowsFollowAcceptance` | internal/metrics-engine/metrics-engine.go:89-117 | Every disposal is exactly one of written, lost and leaked; the stored rows are the written events in acceptance order, none twice |
| `Metrics.DisposeBatch` | internal/metrics-engine/metrics-engine.go:89-117 | Disposing of a batch adds exactly its events, all with one fate |
| `Metrics.EventsBuffer.Append` | internal/metrics-engine/EventsBuffer.go:27-37 | Bounded append with the drop counter |
| `Metrics.EventsBuffer.Drain` | internal/metrics-engine/EventsBuffer.go:39-45 | Hands over all events in order |
| `Metrics.MetricsEngine.AcquireEvent` | internal/metrics-engine/event-pool.go:14-16 | An acquired event is empty and held by nobody else |
| `Metrics.MetricsEngine.ReleaseEvent` | internal/metrics-engine/event-pool.go:18-21 | Only an event nobody holds is released, emptied, into the pool |
| `Metrics.MetricsEngine.AddEvent` | internal/metrics-engine/metrics-engine.go:73-87 | Accepted exactly when the buffer has room, else released, as one step of the pipeline's machine; flush is triggered from half full |
| `Metrics.MetricsEngine.Book` | internal/metrics-engine/metrics-engine.go:100-116 | The store's rows and the lost count stay those of the disposals when a batch leaves |
| `Metrics.MetricsEngine.Conclude` | internal/metrics-engine/metrics-engine.go:100-116 | A batch is written, given up or leaked as a whole, and its objects are released unless it is kept or leaked |
| `Metrics.MetricsEngine.TakeBatch` | internal/metrics-engine/metrics-engine.go:90-91 | The carried-over batch and then the buffer are taken, as one step of the pipeline's machine |
| `Metrics.MetricsEngine.WriteBatch` | internal/metrics-engine/metrics-engine.go:100-116 | One write decides the whole batch, as one step of the pipeline's machine: stored, carried over with one more attempt, given up at the third, or leaked by a panic |
| `Metrics.MetricsEngine.ReleaseAll` | internal/metrics-engine/metrics-engine.go:119-123 | Each event of a decided batch is released once, while requests already reuse the pool |
| `Metrics.MetricsEngine.Flush` | internal/metrics-engine/metrics-engine.go:89-117 | The batch is at least everything pending at the start and shares one fate, decided by the outcome of the write and the attempts before it: a success stores it, the third failure in a row loses it, an earlier one keeps it; attempts are positive exactly while something waits for a retry, if and only if the write did not panic during a retry; after the server closed a flush that does not retry leaves nothing pending |
| `Metrics.MetricsEngine.PanicsUnsettleAttempts` | internal/metrics-engine/metrics-engine.go:90-108 | The exact condition for attempts and retry to stay in step |
| `Metrics.MetricsEngine.FailThenPanic` | internal/metrics-engine/metrics-engine.go:90-108 | An execution that leaves an attempt on the books and nothing to retry: one failed write, then one that panics |
| `Metrics.MetricsEngine.EveryEventIsCounted` | internal/metrics-engine/metrics-engine.go:89-117 | Pending, stored and lost events are all that was accepted if and only if no write has panicked |
| `Sse.ReadPrinted` | internal/providers/openai/handler.go:106-123 | Reading back printed frames gives, frame by frame, the trimmed payloads until a closing one |
| `Sse.RoundTrip` | internal/core/diffractcontext.go:141-164 | With the closing frame the bodies come back exactly, in order, and the stream counts as closed, if and only if each body survives: one line, not empty, no outer white space, not the closing marker, short enough to scan |
| `Sse.CutShort` | internal/providers/openai/handler.go:106-123 | Without the closing frame the bodies still come back but the stream does not count as closed |
| `Sse.PayloadsAreOneLine` | internal/providers/openai/handler.go:106-123 | Whatever a provider sends, each payload read is one trimmed line, so printing it again is safe |
| `Sse.SkippedLine` | internal/providers/openai/handler.go:107-112 | A line within the buffer that trims to nothing, to a comment or to another field changes nothing of what is read after it |
| `Sse.DataLine` | internal/providers/openai/handler.go:114-123 | A line within the buffer that trims to a data field gives its trimmed payload ahead of the rest, nothing if that is empty, and the close if it is the marker |
| `Sse.PaddedDataLine` | internal/providers/openai/handler.go:107-123 | White space before the field, after its colon and at the end of the line - a carriage return, say - makes no difference |
| `Sse.LongLine` | internal/providers/openai/handler.go:93-94 | A line that does not fit the buffer ends the reading, without a close |
| `Sse.LastLine` | internal/providers/openai/handler.go:106-106 | The end of the stream ends its last line; so these lemmas settle the reading of any text |
| `Text.TrimSpaceIffBetween` | internal/providers/openai/handler.go:107-107 | Trimmed text is the one stretch without white space at its ends that has only white space around it |
| `EventStream.ClientsGetTheFrames` | internal/core/diffractcontext.go:141-164 | A client that parses as section 9.2.6 of the WHATWG HTML Standard says gets back exactly the frames written, event names and all, if no name and no body has a line break |
| `Sse.Context.WriteSSE` | internal/core/diffractcontext.go:141-164 | Appends exactly one frame and counts its bytes; a write that breaks off has sent and counted some first part of it |
| `Sse.ReadStream` | internal/providers/openai/handler.go:106-123 | The line loop computes the reading that the line lemmas and the round trip are stated about |
| `StreamProtocol.RunKeepsInv` | internal/server/chat.go:41-109 | The channel, the two goroutines and what was written stay consistent in every run |
| `StreamProtocol.FailureIsTheLastMessage` | internal/providers/openai/handler.go:89-169 | A failure is the last message before the channel closes |
| `StreamProtocol.EndsInExactlyOneWay` | internal/server/chat.go:41-109 | An ended request is exactly one of completed, failed and aborted |
| `StreamProtocol.CompletedDeliversEverything` | internal/server/chat.go:41-109 | Completed means every chunk and then the closing frame were written, in order |
| `StreamProtocol.ProperStreamsCompleteOrAbort` | internal/providers/openai/handler.go:106-169 | A stream with its closing frame and no bad chunk ends completed unless the client left |
| `StreamProtocol.UsageIsMaximal` | internal/server/chat.go:66-70 | The usage priced is that of the consumed chunks with the most output tokens, the last among equals |
| `StreamProtocol.KeptIsBillable` | internal/server/chat.go:66-70 | Keeping the larger usage keeps the context at the usage to bill: the last maximum, or none |
| `StreamProtocol.ClassificationAgreesWithEnding` | internal/metrics-engine/event-pool.go:99-114 | The reported outcome is the way the stream ended, never a gateway error |
| `StreamProtocol.NothingAfterCancel` | internal/server/chat.go:41-53 | Once the client has left nothing more is written to it, and the request neither completes nor fails any more |
| `StreamProtocol.NeverDeadlocks` | internal/server/chat.go:125-128 | Until both goroutines have ended one of them can take a step |
| `StreamProtocol.StepsDoWork` | internal/providers/openai/handler.go:58-171 | Every step uses up work that is left, except outside events |
| `StreamProtocol.RunsAreBounded` | internal/providers/openai/handler.go:58-171 | So every run has a bounded number of steps |
| `ChatStream.Stream.Offer` | internal/providers/openai/handler.go:89-105 | The message goes to the end of the channel and the producer reads on, or stops after a failure; or, only after a cancellation, the message is lost, the channel stays and the producer ends |
| `ChatStream.Stream.Produce` | internal/providers/openai/handler.go:89-169 | The producer goroutine is a path of the protocol |
| `ChatStream.Stream.AwaitStreamEnd` | internal/server/chat.go:125-128 | Draining reads until the channel is closed and writes nothing |
| `ChatStream.Stream.KeepUsage` | internal/server/chat.go:66-70 | If the context held the usage to bill for the chunks so far, the last with the most output tokens or none, it holds that of the chunks with the new one |
| `ChatStream.Stream.ChatCompletion` | internal/server/chat.go:13-123 | The handler's loop is a path of the protocol that reaches its end. It aborts only if the client left or a write failed; with neither, the stream completes if and only if it is closed and free of faults and fails otherwise; a failing stream has the error as its last write, and as the last thing received if that write succeeds |
| `Worker.TriggerLeadsToARun` | internal/worker/worker.go:248-262 | The latest trigger is pending or a run has begun after it |
| `Worker.StopServesEveryTrigger` | internal/worker/worker.go:114-135 | A job that runs at stop begins a run after every trigger made before its loop sees the stop |
| `Worker.OneLastRunPerLoop` | internal/worker/worker.go:114-135 | Last runs begun equal loops that have left, for a job that runs at stop, and are none otherwise |
| `Worker.LastRunIsLast` | internal/worker/worker.go:114-135 | After a last run a loop can only return, for good |
| `Worker.NeverOverlaps` | internal/worker/worker.go:182-221 | With clean starts a job never overlaps itself, in a loop, at start or at stop |
| `Worker.StartIsSafeExactlyWhenClean` | internal/worker/worker.go:182-221 | After clean starts, a start is safe, meaning nothing that can follow it overlaps, if and only if every earlier loop is over |
| `Worker.UncleanStartCanOverlap` | internal/worker/worker.go:182-221 | Beside any loop that is not over a start can lead to an overlap |
| `Worker.RestartAfterTimedOutShutdownOverlaps` | internal/worker/worker.go:223-246 | Such a start is reached: a shutdown that gave up waiting clears the started flag |
| `Worker.Job.Exec` | internal/worker/worker.go:88-112 | One execution is one history entry with the outcome of the job's function, a panic being a failure, and the failure streak follows it |
| `Worker.StreakCounts` | internal/worker/worker.go:71-86 | The streak counts the failures since the last success: the last so many executions failed and the one before them did not |
| `Worker.Job.LoopUntilStopped` | internal/worker/worker.go:114-135 | The loop is a path of the protocol, with triggers and a shutdown in between, that ends with the loop returned: one execution for each round and, for a job that runs at stop, exactly one last one; its history records what began each execution of the run and how it ended |
| `Worker.Job.Round` | internal/worker/worker.go:119-124 | One round is one tick or one trigger taken - a pending trigger if it is chosen - one execution, and its end |
| `Worker.Job.StartJob` | internal/worker/worker.go:182-221 | A job that runs at start executes once; the start succeeds if and only if that execution, if there is one, and all other jobs succeed, and then the loop is launched; else the start is given up and the group left startable again |
| `Hosted.StepKeepsInv` | internal/gateway/gateway.go:193-240 | Only the latest loop lives, and a server found closed at a stop stays closed; the closing may also fail and the group is stopped with requests still running |
| `Hosted.StoppedHasReturned` | internal/worker/worker.go:235-245 | A shutdown that returned nil finds the latest loop of a started group returned |
| `Hosted.Phases` | internal/worker/worker.go:114-135 | A job that runs at stop returns only from its last run, which begins when its loop sees the stop |
| `TelemetryShutdown.RunKeepsInv` | internal/metrics-engine/metrics-engine.go:42-117 | Order of acceptance, and what an execution has left of what it took, over all runs of requests, pipeline steps, server and worker |
| `TelemetryShutdown.ShutdownDrains` | internal/metrics-engine/metrics-engine.go:42-117 | When the flush job has stopped, every event accepted has left in order, but for a batch the last run kept and what was accepted after that run took its batch; nothing stays exactly when there is neither, and a server closed at the stop leaves none of the latter |
| `UsageShutdown.LedgerRunIsARun` | internal/governance/governance.go:79-91 | The flush job under the worker takes only steps of the ledger |
| `UsageShutdown.ShutdownDrains` | internal/governance/governance.go:79-91 | When the flush job has stopped, nothing is in flight and records offered are buffered, stored or dropped; after a successful last insert the buffer holds exactly what was offered since the last drain, as far as it fits, and with the server closed at the stop that is nothing |
| `BudgetShutdown.OneFlushStoresTheTotals` | internal/governance/governance.go:205-271 | After the last request, along every sequence of settle steps and publications, failing writes included, one completed flush makes the row hold both totals at every later moment between two ticks |
| `BudgetShutdown.RowLacksExactlyTheLate` | internal/governance/governance.go:205-271 | In every run of the protocol, at every moment between two ticks, the row lacks exactly what was recorded after the load whose totals it holds, so it holds both totals if and only if nothing was |
| `BudgetShutdown.SpendRunIsARun` | internal/governance/governance.go:93-104 | The settle job under the worker takes only steps of the spend protocol |
| `BudgetShutdown.ShutdownStoresTheTotals` | internal/governance/governance.go:93-104 | When the settle job has stopped the same holds, whatever was and still is published; if its last flush succeeded and the server was closed at the stop, the stored totals equal the counters |
| `BudgetShutdown.ShutdownIsPossible` | internal/governance/governance.go:93-104 | From any stored row some run ends that way, with the totals stored |
| `TelemetryShutdown.WithoutLastRunEventsStay` | internal/worker/worker.go:126-133 | Without the run at stop events can stay behind |
| `KeyStore.CreateBinds` | internal/dbstore/virtualkeys.go:279-341 | Creating a key on an unbound budget keeps every budget bound exactly when one active key names it |
| `KeyStore.ActivationBinds` | internal/dbstore/virtualkeys.go:151-187 | So does activating a key whose budget no other active key names |
| `KeyStore.LettingGo` | internal/dbstore/virtualkeys.go:189-200 | Ending a key's activity keeps the binding if and only if no other active key names its budget, or the key was active itself, or the budget is gone |
| `KeyStore.StepKeepsBinding` | internal/dbstore/virtualkeys.go:151-354 | Any accepted operation keeps the binding if and only if it does not release a budget another key holds |
| `KeyStore.BindingHoldsExactlyWhileReleasesAreOwn` | internal/dbstore/virtualkeys.go:189-200 | Over whole runs: the binding holds all along exactly when no revocation or deletion hits an inactive key whose budget went to another |
| `KeyStore.BoundBudgetsAreHeld` | internal/dbstore/virtualkeys.go:299-330 | In every run whatsoever a bound budget has an active key |
| `KeyStore.RevokingAnInactiveKeySharesABudget` | internal/dbstore/virtualkeys.go:198-198 | The failing case: six operations after which two active keys share a budget |
| `KeyStore.NormalCompiles` | internal/dbstore/virtualkeys.go:257-259 | Setting the weight of a direct key keeps its configuration acceptable |
| `KeyStore.NormalSetsTheDirectWeight` | internal/dbstore/virtualkeys.go:257-259 | It sets the weight of a direct key's one provider to one and touches nothing else |
| `KeyStore.StoredRoutingsCompile` | internal/dbstore/virtualkeys.go:30-55 | In every run every stored routing can be compiled again, so reading a key never fails on it |
| `KeyStore.Store.CreateVirtualKeyTx` | internal/dbstore/virtualkeys.go:279-341 | All or nothing: refused exactly for a missing or bound budget, a configuration that does not compile, a draw that is already there or a failed write; otherwise the row is stored active and its budget bound, and only the reading back may fail |
| `KeyStore.Store.SetVirtualKeyActive` | internal/dbstore/virtualkeys.go:151-187 | (De)activation: refused exactly for a missing key, a failed write, or an activation while another active key names the budget; otherwise the row has the status, and its budget is bound or released with it when the status changed |
| `KeyStore.Store.RevokeVirtualKey` | internal/dbstore/virtualkeys.go:189-200 | Revocation: refused exactly for a missing key or a failed write; otherwise the row is inactive and its budget released |
| `KeyStore.Store.RotateVirtualKey` | internal/dbstore/virtualkeys.go:202-230 | Rotation: refused exactly for a missing or inactive key, a draw that another key has, or a failed write; otherwise the row has the new key and nothing else changes |
| `KeyStore.Store.UpdateVirtualKeyRouting` | internal/dbstore/virtualkeys.go:238-272 | A routing change: refused exactly for a missing key, a failed write, or a merged configuration that does not compile; otherwise what the change gives is taken, the rest of the row stays, and a direct key's provider has weight one |
| `KeyStore.Store.DeleteVirtualKey` | internal/dbstore/virtualkeys.go:343-354 | Deletion: refused exactly for a missing key or a failed write; otherwise the row is gone and its budget released |
| `KeyStore.Store.DeleteBudget` | internal/dbstore/budget.go:164-173 | A budget is deleted exactly when it exists, is not bound and the write succeeds |
| `AuthCache.MirrorsAgree` | internal/governance/governance_authentication.go:11-37 | A cache that mirrors the rows gives every key, at every time, the verdict and policy of a scan, and has one entry per key id |
| `AuthCache.ServedMirrors` | internal/server/admin-handlers.go:113-252 | Each handler's cache update restores the mirror after its commit |
| `AuthCache.CacheRefinesRows` | internal/server/admin-handlers.go:113-252 | Over every run in which each commit since the last sync was cached or changed no verdict, lookup plus activity and expiry check agrees with a scan |
| `AuthCache.VerdictsAgreeExactly` | internal/server/admin-handlers.go:113-252 | The verdicts are right all along a run if and only if no commit that shows in a verdict went uncached |
| `AuthCache.InvisibleCommitMirrors` | internal/server/admin-handlers.go:147-157 | A commit no verdict shows leaves the cache mirroring the rows |
| `AuthCache.UnreadCommitAgreesIffInvisible` | internal/server/admin-handlers.go:122-134 | A commit that was not read back leaves the verdicts right if and only if the change shows in no verdict |
| `AuthCache.UnimplementedBalancerBlocksSync` | internal/governance/governance.go:125-148 | One key stored with an unimplemented balancer stops every later sync until its own routing is changed |
| `AuthCache.VirtualkeyCache.LookupVkey` | internal/governance/virtualkey.go:29-36 | Reads the published map; nothing before the first load |
| `AuthCache.VirtualkeyCache.LoadVirtualKeys` | internal/governance/virtualkey.go:38-48 | Publishes exactly the loaded keys, the last entry under a key winning |
| `AuthCache.VirtualkeyCache.UpsertVirtualKey` | internal/governance/virtualkey.go:50-59 | Replaces one entry and keeps the others |
| `AuthCache.VirtualkeyCache.DeleteVirtualKeyByID` | internal/governance/virtualkey.go:61-73 | Removes one entry of the id, hence all of them when there is at most one |
| `AuthCache.Server.ValidateKey` | internal/governance/governance_authentication.go:22-34 | One lookup gives the scan's verdict while the cache mirrors the rows: a key is granted if and only if some row has it that is active and has no expiry or one that has not passed, and gets that row |
| `AuthCache.Server.CreateVirtualKey` | internal/server/admin-handlers.go:113-137 | The call is one event of the run: refused exactly when the transaction is, committed and cached under its key, or committed without being cached exactly when it cannot be read back |
| `AuthCache.Server.UpdateVirtualKeyRouting` | internal/server/admin-handlers.go:139-161 | The same for a routing change |
| `AuthCache.Server.SetVirtualKeyStatus` | internal/server/admin-handlers.go:167-196 | The same for (de)activation |
| `AuthCache.Server.RevokeVirtualKey` | internal/server/admin-handlers.go:198-206 | The same for revocation |
| `AuthCache.Server.RotateVirtualKey` | internal/server/admin-handlers.go:236-252 | The same for rotation: the old entry goes before the new one comes |
| `AuthCache.Server.SyncVirtualKeys` | internal/governance/governance.go:125-148 | Publishes all rows exactly when they can be read and every balancer is implemented, or nothing |
| `Money.RoundTrip` | internal/core/money.go:9-22 | Every whole amount survives dollars and back |
| `Money.Nearest` | internal/core/money.go:9-18 | Below saturation the amount is the nearest one, ties going up |
| `Money.SaturatesExactly` | internal/core/money.go:14-16 | Saturation happens exactly from half a nano-dollar below the largest integer |
| `Money.Monotone` | internal/core/money.go:9-18 | More dollars are never fewer nano-dollars |
| `Money.SettledOnce` | internal/server/utils.go:11-16 | The settled dollars convert to the same integer in ledger, budget and metric event; settling again changes nothing |
| `TokenRates.TokenRateIsMostSpecific` | internal/core/pricing.go:255-361 | The input or output rate is the most specific price that applies to the tier and the count: tier prices before bands, high bands first, the priority price of a band before its plain one |
| `TokenRates.CacheReadRateIsMostSpecific` | internal/core/pricing.go:363-409 | The same for cache reads |
| `TokenRates.CacheCreationRateIsMostSpecific` | internal/core/pricing.go:411-458 | The same for cache writes, the long-lived prices first when asked for |
| `TokenRates.ZeroFlexBandRates` | internal/core/pricing.go:263-269 | A zero flexible-tier band price gives the rates of the list without it |
| `TokenRates.OneIsMostSpecific` | internal/core/pricing.go:255-458 | As soon as one price applies there is a most specific one |
| `TokenRates.NothingOfferedRates` | internal/core/pricing.go:246-253 | When none applies tokens are free, save that cache reads have the cache-hit price |
| `Pricing.CalculateCost` | internal/core/pricing.go:724-728 | The loop computes the total of the lines |
| `Pricing.CostBreakdown` | internal/core/pricing.go:730-738 | The loop keeps exactly the lines with quantity and price |
| `Pricing.BreakdownAddsUp` | internal/core/pricing.go:724-738 | The breakdown adds up to the calculated cost and shows each line as often as it occurs, if it has a quantity and a price, and no other |
| `Pricing.InputIsPerToken` | internal/core/pricing.go:741-772 | The input, cache-read, cache-write, audio and image lines are the sum of the prices of the prompt's tokens; tokens written to the cache are part of the prompt |
| `Pricing.OutputIsPerToken` | internal/core/pricing.go:755-767 | The output lines are the sum of the prices of the answer's tokens, each at its own price where there is one |
| `Pricing.PromptPrices` | internal/core/pricing.go:741-772 | What each kind of prompt token costs over all lines; an audio price for the priority tier alone leaves audio tokens free in the other tiers |
| `Pricing.ExtraLines` | internal/core/pricing.go:774-794 | The extra token lines are count times price, for citation, cached audio, written audio and video |
| `Pricing.BillIsPerToken` | internal/core/pricing.go:740-810 | The bill is the token by token sum plus the extra token lines and the lines of the other units |
| `Pricing.FitsIffDescribed` | internal/core/pricing.go:741-767 | That account covers exactly the usages whose special counts fit in the totals |
| `Pricing.KindBilledOnce` | internal/core/pricing.go:741-772 | A kind of prompt token is billed by two priced lines if and only if there is a plain price and the token is cached under a cache price for its tier or band without a base one, or written to the cache under a cache-write price |
| `Pricing.BilledOnceExactly` | internal/core/pricing.go:741-772 | Hence no token of a prompt is billed twice if and only if the plain price is zero, or the prompt has neither cached tokens under such a list nor written tokens under a cache-write price |
| `Pricing.CacheWriteBillsTwice` | internal/core/pricing.go:741-772 | A failing case: one token written to the cache, at the plain and the cache-write price |
| `Pricing.OrphanPriceBillsTwice` | internal/core/pricing.go:741-753 | Another: one cached token at both prices |
| `Merging.MergePricing` | internal/core/pricing.go:978-986 | The loop over the fields overrides exactly the fields that are set |
| `Merging.MergeIsAssociative` | internal/core/pricing.go:978-986 | Merging is associative with the empty price as identity |
| `Merging.UpdatesFoldOverBase` | internal/dbstore/pricing.go:329-340 | An override that took any updates, merged into the base price, is the base price with the updates applied in order |
| `Merging.LastUpdateWins` | internal/dbstore/pricing.go:337-340 | Each field has the last price any update set, or the base price |
| `Pricing.SettledBillIsExact` | internal/server/utils.go:11-16 | The settled integer is within half a nano-dollar of the itemised per-token bill |
| `PriceIndex.FirstIsFirst` | internal/modelcatalog/modelcatalog.go:55-64 | The scan finds the first row by position, or there is none |
| `PriceIndex.LastIsLast` | internal/modelcatalog/modelcatalog.go:236-258 | The scan for the last row, likewise |
| `PriceIndex.NewBasePricingSnapshot` | internal/modelcatalog/modelcatalog.go:31-53 | One pass and the pruning give each key its base row and its bucket exactly when it has two rows |
| `PriceIndex.Prune` | internal/modelcatalog/modelcatalog.go:47-51 | Keeps exactly the buckets of two rows or more |
| `PriceIndex.PrunedKeysScanToBase` | internal/modelcatalog/modelcatalog.go:47-51 | Pruning changes no answer |
| `PriceIndex.Find` | internal/modelcatalog/modelcatalog.go:55-64 | Equals a scan: first row with key and selector, else first unselected, else first |
| `PriceIndex.IndexOverrides` | internal/modelcatalog/modelcatalog.go:224-266 | The last row of every scope is in force |
| `PriceIndex.InForceIsMostSpecific` | internal/modelcatalog/modelcatalog.go:327-340 | The override in force is the latest row of the most specific scope that has any |
| `PriceIndex.ScanPriceAnswers` | internal/modelcatalog/modelcatalog.go:55-64 | The row found is the first of the key with the selector, else the first without one, else the first; there is none only if the key has no row |
| `PriceIndex.ScanResolves` | internal/modelcatalog/modelcatalog.go:309-341 | Every field of the resolved price has the price of the prevailing override where that sets it, and of the answering base row otherwise |
| `PriceIndex.ModelCatalog.LoadBasePricing` | internal/modelcatalog/modelcatalog.go:203-222 | Publishes an index of the rows read, or leaves the old one |
| `PriceIndex.ModelCatalog.LoadCustomPricing` | internal/modelcatalog/modelcatalog.go:224-266 | Likewise for the overrides |
| `PriceIndex.ModelCatalog.ResolvePrice` | internal/modelcatalog/modelcatalog.go:309-341 | No price without a row of the key; otherwise the answering base row's price with every field the prevailing override sets taken from it, the rows named by their positions among those last loaded |
| `KeyFormat.EncodeDecodes` | internal/core/virtualkey-format.go:22-36 | Decoding an encoding gives n modulo 62^L |
| `KeyFormat.DecodeEncodes` | internal/core/virtualkey-format.go:22-36 | Every string of digits is the encoding of its value |
| `KeyFormat.EncodeCollides` | internal/core/virtualkey-format.go:22-36 | Two numbers share an encoding exactly when they agree modulo 62^L |
| `KeyFormat.EncodeAscends` | internal/core/virtualkey-format.go:20-36 | Encodings sort like the numbers they stand for |
| `KeyFormat.TurnAround` | internal/core/virtualkey-format.go:32-34 | The swaps turn the digits around |
| `KeyFormat.Base62Encode` | internal/core/virtualkey-format.go:22-36 | The division loop and the reversal compute the encoding |
| `KeyFormat.GenerateVirtualKey` | internal/core/virtualkey-format.go:38-59 | 25 characters, validly signed, with an 11-character display prefix and the digest of the whole key |
| `KeyFormat.ValidateKeySignature` | internal/core/virtualkey-format.go:65-86 | Accepts exactly the signed keys |
| `KeyFormat.SignedIffChecksum` | internal/core/virtualkey-format.go:65-86 | A key is signed if and only if it has the prefix and the length, digits after the prefix, and last four digits that stand for the CRC of the rest modulo 62^4 |
| `KeyFormat.SignedIffGenerated` | internal/core/virtualkey-format.go:38-86 | The accepted keys are exactly those the generator can draw |
| `KeyFormat.OneChecksumPerPayload` | internal/core/virtualkey-format.go:81-86 | Exactly one ending is accepted for each payload |
| `KeyFormat.KeysCollideExactly` | internal/core/virtualkey-format.go:44-53 | Two draws give one key exactly when they agree modulo 62^18 |
| `Dataplane.CompileProviderConfigs` | internal/core/virtualkey.go:84-162 | Accepts exactly the acceptable lists, compiles every entry to its meaning, and names a fault the list has |
| `Dataplane.CompileBlocked` | internal/core/virtualkey.go:121-134 | Blocked names, trimmed and without repeats, or the fault in them |
| `Dataplane.CompileAllowed` | internal/core/virtualkey.go:136-154 | Allowed names, likewise, and whether everything is allowed |
| `Dataplane.NamesAreTheTrimmed` | internal/core/virtualkey.go:121-150 | The compiled names are the trimmed names, each once |
| `Dataplane.AllowedMeansPermitted` | internal/core/virtualkey.go:70-82 | The compiled check is the reading of the stored lists: not blocked, and listed or everything listed |
| `Dataplane.IsModelKeyAllowed` | internal/core/virtualkey.go:210-222 | Some admissible provider allows the model |
| `Dataplane.SharesPartition` | internal/dataplane/dataplane.go:113-133 | The viable providers' shares cut [0, total) into disjoint pieces |
| `Dataplane.PickProvider` | internal/dataplane/dataplane.go:113-133 | Picks the provider whose share holds the target; with total zero the last viable one; none when none is viable |
| `Dataplane.Walk` | internal/dataplane/dataplane.go:121-132 | The decrement loop finds the share, so the fallback is unused when the total is positive |
| `Dataplane.ZeroWeightIsNeverPicked` | internal/dataplane/dataplane.go:113-133 | A provider of weight zero holds no target |
| `Dataplane.CompiledWeights` | internal/core/virtualkey.go:84-162 | Compiled policies meet all that selection relies on, and the weights, all viable, add up to one within the tolerance |
| `Dataplane.RoundRobin.Pick` | internal/dataplane/dataplane.go:149-164 | One cursor per key advances by one; one or no credential moves none |
| `Dataplane.EachTurnOnce` | internal/dataplane/dataplane.go:149-164 | n picks in a row among n credentials use each exactly once, unless the 64-bit counter wraps in between and n does not divide its range |
| `Dataplane.ResolveWeighted` | internal/dataplane/dataplane.go:84-111 | Fails exactly when no configured provider has a candidate; otherwise the provider is the one the random fraction draws among those that have, and the credential is its only one or the one whose turn it is, no other cursor moving |
| `Dataplane.ResolveExplicit` | internal/dataplane/dataplane.go:66-82 | The named provider or a refusal that says why, with the credential in turn |
| `Dataplane.Resolve` | internal/dataplane/dataplane.go:44-64 | Succeeds exactly when the model is named and an admissible provider has a candidate; the provider is the named or the drawn one, the credential the one in turn, and the refusal is the first that applies |
| `Buckets.EveryEventHasAPoint` | internal/metrics-engine/duckdb-reads.go:361-365 | Every event of a range from the epoch on has a point, the one whose span holds it |
| `Buckets.AtMost145Points` | internal/metrics-engine/metrics-engine.go:137-157 | A range of an hour up to a year takes at most 145 points |
| `Buckets.AtLeastSevenPoints` | internal/metrics-engine/metrics-engine.go:137-157 | Every admitted range takes at least seven points |
| `Buckets.PointsCoverTheRange` | internal/metrics-engine/duckdb-reads.go:361-365 | The points start at the last multiple of the width at or before the range and are just enough to cover it |
| `Buckets.OneRangeTakes145` | internal/metrics-engine/metrics-engine.go:137-157 | Some range takes 145 |
| `Buckets.GetRequestSummaryByTime` | internal/metrics-engine/duckdb-reads.go:173-206 | Filing the grouped rows gives each point the counts of its own bucket |
| `Buckets.SummaryCountsTheRange` | internal/metrics-engine/duckdb-reads.go:173-206 | Summed errors, cancellations and successes per provider are direct counts over the range; only successes without a provider are left out |
| `Buckets.KindsAreEveryEvent` | internal/metrics-engine/duckdb-reads.go:23-24 | Errors, cancellations and successes are all the events of the range, each once |
| `Buckets.RequestSummary` | internal/metrics-engine/metrics-engine.go:168-175 | A range of under an hour or over the window is refused, any other gives points with those totals, at least seven and few enough to draw |

## Left out

- HTTP transport, dialing, proxies, routing of admin requests, JSON, logging and configuration files: plumbing around the modelled core.
- The database engines, encryption at rest and migrations: stores are maps whose transactions apply whole or not at all. The bucket query's grouping is a predicate on its answer, not a model of SQL.
- CRC-32 and SHA-256 are parameters, random bytes are an argument.
- Float rounding, NaN and infinities: reals throughout, so the `isNaN` guards have no counterpart. Overflow of the 64-bit spend counters is assumed away.
- SpendProtocol.RowHoldsTheLastWindow: does not cover a published configuration that is older than the row or changes the duration, because the code then does not keep it.
- SpendProtocol.OverspendIsBounded: is about one fixed limit; a limit lowered while requests run has no such bound.
- Each budget is one protocol; the range loops over all cached budgets repeat it. Eviction of a budget from the cache while requests hold it is not modelled.
- AuthCache.CacheRefinesRows: handlers and syncs run one at a time; a sync that publishes rows read before a concurrent rotation does not keep the refinement.
- Merging.MergePricing: iterates over the fields the override sets, in any order, where the code goes over a fixed list of all fields and skips the unset ones.
- Pricing.FitsIffDescribed: special counts that overlap, as cached audio tokens would, are outside the per-token account; the code then subtracts them twice. The citation, cached-audio and video counts are filled by no provider and stay beside it.
- UnitPrices: the rates of seconds, characters, images, pages and the like are modelled branch by branch and enter every bill; beyond that nothing is proved of them.
- TelemetryShutdown.ShutdownDrains: composes the pipeline's steps with the worker; the pooled objects behind them are the engine's own matter.
- ChatStream: the look at the cancellation and the write after it are one step; a client that leaves in between has left just after the write.
- EventStream: the fields that no frame has, and the type name an event without one is given, are not modelled.
- Hosted: a closing of the server that fails leaves requests running, and the drain results then say exactly what stays; the time limits of the shutdown are not modelled.
- KeyStore.Store.CreateBudget: a drawn budget id is one no key has ever named.
- UsageShutdown and BudgetShutdown: an execution ends after its last step; one that panics between two steps, which needs a database driver that panics, is not modelled.
- Worker: a loop uses the stop channel of its own start; the code reads it when the loop's goroutine first runs. Sending a trigger and coalescing it are one step.
- Worker.Job: the class has one loop alive, as after a clean start; what an unclean start can do is shown of the protocol.
- Dataplane.EachTurnOnce: among the turns of one key; which caller gets which turn is up to the scheduler.
- Buckets.RequestSummary: ranges before the epoch are not modelled; the code's truncating division rounds their start the other way.
- The spend-by-bucket, tiles, logs and detail queries read single rows or sums that the database computes; the catalog feed, credentials, provider settings and payload capture share no state with what is modelled here.
