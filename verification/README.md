# Verified model of the Coda node runtime

This project models the parts of the Coda node that are hardest to get right and proves what they promise.

**The Redis job consumer.** `Wire` is the Redis side: the stream's delivered entries, the pending list (PEL), the
acknowledged ids, the job states, the cancel flags and the cloud's webhook inbox. `Handling` lists every `await` of
`_process_message` and of a batch delivery. `Consumer` is the whole process as a step relation: the consume loop, the
single and batch paths, recovery, the one-place delivery slot, the idle event, the backoff, `stop` and restarts. The
environment is free: any call may raise a connection error, another exception or a forced task cancellation, with or
without having taken effect; cancel flags change between any two awaits; the deliveries of a batch interleave freely;
entries are trimmed; the process may stop and start again anywhere. Theorems quantify over every sequence of actions,
so a crash is simply a shorter run. `RedisConsumers.RedisConsumer` is the class itself, coroutine by coroutine. The
behaviour of the environment is a script; the class is proved to take, for every script, exactly the steps of the
relation on that script, and to stop only when the script is used up or the relation says that the loop has ended.

**OpenQASM text.** `Text`, `Decimals`, `Tolerance`, `CircuitIR`, `Qasm` and `QasmRoundTrip` model the printer, the
parser and the IR validators at character level, with gate parameters as finite decimals, `.15g` as rounding half to
even to 15 significant digits in `%g` notation, and `float()` as a grammar over text. `QasmPatterns`, `QasmTables`,
`QasmText` and `FloatSyntax` state which texts, names, numbers and circuits are meant, in literals.

**Smaller machines.** `VpnGuard` is the readiness state and its callbacks, `RetryLoops` the two HTTP retry loops,
`RestartCycle`, `BundleLaws` and `NodeRuntime` the connect, persist and reload cycle.

## Where the code and its promises differ

- `docs/operations/GRACEFUL_SHUTDOWN.md:43-45` says that a force-cancelled job is not acknowledged. The `finally` block
  acknowledges it (`consumer.py:622-625`); the model follows the code: `HandlingOutcomes.ForcedUnreported` is the run, and
  `Forced` is one of the reasons in `CrashSafety.Explains`.
- A forced cancellation that arrives while the loop reaps the cancelled runner (`consumer.py:354-357`) is swallowed:
  `HandlingOutcomes.ReapSwallows` gives the run, `HandlingOutcomes.ForcedExact` says exactly when one gets through.
- A forced cancellation inside the executor's cancel hook loses the `cancelled` write:
  `HandlingHistory.HookKillLosesCancelledWrite` gives the run, `HandlingHistory.CancellationSafety` the exact condition.
- Four failures leave the idle event clear with nothing under way: the `executing` write of a single job, which stands
  before the `try` (`consumer.py:562-570`); the same write of a batch (`consumer.py:426-434`); a raising `batch_run`
  (`consumer.py:447-458`); and the final acknowledgement, which stands in front of the two resets
  (`consumer.py:623-625`). `IdleAccounting.AccountingExact` shows that these are all; the first and the last leave
  `current_job_id` behind too (`IdleAccounting.HandlingEndsIdle`).
- An acknowledged job can go unreported: no webhook attempted, no `cancelled` write, not found terminal.
  `HandlingOutcomes.UnreportedExact` states exactly when, with a run for each of the three ways.
- The batch path acknowledges work that does not parse without reporting it; the single path reports it as failed.
  `BatchInterleaving.BatchRefinesSingle` states the difference exactly.
- A delivery task that raised is never removed from the slot: `LoopControl.StalledSlot`; `Witnesses.SlotStalls` gives
  a run that gets there.
- The delay `2.0 ** 1024` overflows inside an exception handler: at the 1025th consecutive failure the consume loop ends
  (`LoopControl.HealthInRuns`, with the run in `Witnesses.FailuresEndTheLoop`), and both retry loops leave with an
  overflow after 1025 attempts.
- `_process_message` promises that a message is always acknowledged (`consumer.py:530-534`); a status read or a cancel
  poll that raises before the job starts leaves it pending. `HandlingHistory.AckExact` states exactly when.
- The guard's module text promises a callback whenever the state changes; it makes one only for edges between passing
  and failing checks of the loop (`VpnGuard.CallsAreEdges`). Direct checks between checks of the loop make the
  callbacks stop alternating; `VpnGuard.AlternationExact` gives the exact patterns of use.
- Between its two writes `_persist_runtime_config` pairs the new private key with the old key id
  (`RestartCycle.KeyPairExact`).

## Model

| member | source | states |
|---|---|---|
| `CrashSafety.DeliveredIsPendingOrExplained` | src/coda_node/server/consumer.py:369-625 | In every prefix of every run each delivered message is pending or acknowledged, never both, and an acknowledged one has a reason recorded in the log |
| `CrashSafety.NextSafe` | src/coda_node/server/consumer.py:170-235 | Every step of the loop, a delivery or the environment keeps the pending list ordered and every acknowledgement explained |
| `CrashSafety.RunSafe` | src/coda_node/server/consumer.py:170-235 | So does every run, restarts included |
| `CrashSafety.KeepIn` | src/coda_node/server/consumer.py:270-280 | Acknowledging removes exactly the acknowledged id from the pending list |
| `BatchInterleaving.BatchRefinesSingle` | src/coda_node/server/consumer.py:369-523 | With distinct job ids, a fixed cancel set, no failures and an agreeing runner, the job states, webhook multiset and acknowledged set of handling the messages one by one are those of every interleaving of the batch's deliveries, plus exactly the `failed` states and error webhooks that the batch path leaves out for bad work; equal when all work parses |
| `BatchInterleaving.BatchRuns` | src/coda_node/server/consumer.py:460-523 | At every moment of a batch, what has happened plus what is left to do is the same view |
| `BatchInterleaving.SettleIsSum` | src/coda_node/server/consumer.py:525-625 | Handling messages with distinct jobs one by one is the sum of the effects computed on the initial state |
| `BatchRefinement.SingleRuns` | src/coda_node/server/consumer.py:525-625 | Every failure-free run of the single path ends in the reference fold over the messages |
| `HandlingHistory.StatusHistory` | src/coda_node/server/consumer.py:525-625 | For every sequence of replies the attempted status writes form one of eight paths, at most one webhook call returns normally, and a handling that ends normally after starting wrote a complete path |
| `HandlingSequence.SequenceExact` | src/coda_node/server/consumer.py:327-625 | For all replies, every call of a handling is the one that its history alone calls for (a function of the last few calls and replies, written without the program), and it has ended exactly when its history calls for none |
| `HandlingSequence.ExitExact` | src/coda_node/server/consumer.py:525-625 | An ended handling returns or raises, and with which fault, exactly as its last two replies say |
| `HandlingSequence.FailedWebhook` | src/coda_node/server/consumer.py:596-621 | A result webhook that fails is followed by the handler's poll, then by the `failed` write if that said no, then by the error webhook if that did not raise through |
| `HandlingSequence.OutcomeExact` | src/coda_node/server/consumer.py:525-625 | A job that ran to a normal end uncancelled ends as `completed` if and only if the result webhook returned normally; otherwise as `failed` with the error webhook attempted |
| `HandlingHistory.CancellationSafety` | src/coda_node/server/consumer.py:327-625 | After a positive cancel poll nothing is sent and only `cancelled` is written; the last write is `cancelled` if and only if no forced cancellation hit the cancel hook; every webhook follows a negative poll with at most one write in between |
| `HandlingHistory.AckExact` | src/coda_node/server/consumer.py:525-625 | A handling acknowledges at most once, its own message, as its last call; one that has ended did so if and only if the state read, the first poll and the first write did not raise through |
| `HandlingHistory.HookKillLosesCancelledWrite` | src/coda_node/server/consumer.py:314-325 | A run in which a poll answered yes, the hook was force-cancelled, and the message is acknowledged with `executing` as the only write |
| `HandlingOutcomes.UnreportedExact` | src/coda_node/server/consumer.py:525-625 | A handling that acknowledged its message attempted no webhook, wrote no `cancelled` and found nothing terminal, with all fields present, if and only if its last call before was a poll that raised through, a `failed` write that raised through, or a runner, cancel hook or `completed` write hit by a forced cancellation, and no result was to be sent yet |
| `HandlingOutcomes.PollRaisesUnreported` | src/coda_node/server/consumer.py:602-603 | For every job that can run: the runner raises, the handler's poll raises, and the job is acknowledged unreported |
| `HandlingOutcomes.FailedWriteUnreported` | src/coda_node/server/consumer.py:610-617 | The same by way of a `failed` write that raises |
| `HandlingOutcomes.ForcedUnreported` | src/coda_node/server/consumer.py:622-625 | The same by way of a forced cancellation while the runner works |
| `HandlingOutcomes.ForcedExact` | src/coda_node/server/consumer.py:348-364 | An ended handling passes a forced cancellation on if and only if one arrived at a call other than the reaping of the runner and no other failure of the acknowledgement replaced it |
| `HandlingOutcomes.ReapSwallows` | src/coda_node/server/consumer.py:354-357 | For every job that can run: a handling that receives a forced cancellation and returns normally |
| `HandlingHistory.DeliveryHistory` | src/coda_node/server/consumer.py:460-498 | The same two laws for one delivery of a batch, without exception: four write paths, at most one webhook, quiet after a positive poll |
| `HandlingSequence.DeliveryExact` | src/coda_node/server/consumer.py:460-498 | Every call of a delivery is the one its history calls for; it fails, with that fault, if and only if its last call is a poll that raised, a write or acknowledgement that raised through, or a webhook under forced cancellation; otherwise it ends with its own acknowledgement |
| `HandlingSequence.DeliveryAcks` | src/coda_node/server/consumer.py:490-498 | After the webhook, whatever it did, the next call is the acknowledgement |
| `LoopSafety.HistoryLawsInRuns` | src/coda_node/server/consumer.py:460-625 | In every reachable state the handling in progress, the batch preamble in progress and every delivery obey the status paths and the cancellation laws, the last-write law and the exact condition for an unreported job included |
| `LoopSafety.Serialisation` | src/coda_node/server/consumer.py:189-219 | In every reachable state in which a message is handled, a batch filtered, marked or executed, or pending entries recovered, the delivery slot is empty |
| `LoopSafety.RunSerial` | src/coda_node/server/consumer.py:201-219 | That is kept by every run from any state that satisfies it |
| `LoopControl.StalledSlot` | src/coda_node/server/consumer.py:189-239 | Once the task in the slot has failed, for the rest of the process nothing is handled, executed or recovered, every call belongs to a leftover delivery, and every message read stays pending |
| `StallCauses.StallExact` | src/coda_node/server/consumer.py:500-523 | In every state of every run the task in the slot has ended with an exception if and only if the result list had the wrong length, the last call of some delivery failed, or a delivery was cut off together with the loop |
| `Witnesses.SlotStalls` | src/coda_node/server/consumer.py:504-517 | For any two jobs that can run there is a run that fills the slot with a failed task |
| `LoopControl.HealthInRuns` | src/coda_node/server/consumer.py:187-235 | In every reachable state the health flag holds exactly when the failure counter is zero, every sleep is one second or the backoff of the counter, and the counter reaches 1025 only by ending the loop |
| `Witnesses.FailuresEndTheLoop` | src/coda_node/server/consumer.py:220-232 | A run of 1025 connection failures ends the loop although nobody stopped it |
| `LoopControl.BackoffSchedule` | src/coda_node/server/consumer.py:223-226 | The k-th delay is in [1, 60], nondecreasing, 60 exactly from k = 7; the sum is 2^k - 1 up to 6 and 63 + 60(k - 6) after |
| `LoopLaws.ReadRaises` | src/coda_node/server/consumer.py:220-235 | A read that raises: one second after an ordinary exception, the end after a forced cancellation, min(60, 2^(k-1)) seconds after the k-th connection failure and the end after the 1025th |
| `LoopLaws.ReadExact` | src/coda_node/server/consumer.py:182-219 | A read of two or more goes to the batch path if the executor can batch, others are handled in order, an empty one rechecks when due; health and counter are reset |
| `LoopLaws.BatchesAreSeveral` | src/coda_node/server/consumer.py:214-216 | In every run only reads of two to a hundred messages are batched, and only by an executor that can |
| `LoopLaws.StartupRaises` | src/coda_node/server/consumer.py:182-184 | An exception that leaves the recovery at the start ends the process instead of reaching the handlers of the loop |
| `LoopLaws.RedeliveryExact` | src/coda_node/server/consumer.py:550-558 | A redelivered job runs again if and only if it is not flagged and its stored state is missing, `executing` or `failed` |
| `LoopLaws.FallbackSettles` | src/coda_node/server/consumer.py:448-458 | After `batch_run` raised, every message of the read is settled as by single handling from the state the batch left |
| `LoopControl.NoReadAfterStop` | src/coda_node/server/consumer.py:189-239 | After `stop`, outside a read, no run of this process issues another read |
| `TerminalStates.TerminalStaysTerminal` | src/coda_node/server/consumer.py:397-553 | A job stored as completed or cancelled with nothing in flight is never executed, reported or rewritten, over redeliveries, recoveries and restarts |
| `TerminalStates.TerminalAbsorbs` | src/coda_node/server/consumer.py:397-400 | The same from any state in which nothing has got past asking for that job's state |
| `IdleAccounting.IdleExact` | src/coda_node/server/consumer.py:421-625 | Busy implies clear: a step keeps that, and that `current_job_id` names the executing job, if and only if it is not a leaking single-job write or final acknowledgement |
| `IdleAccounting.IdleInRuns` | src/coda_node/server/consumer.py:421-625 | So in every run without those two leaks a set `current_job_id` implies the event is clear, whatever happens to batches |
| `IdleAccounting.AccountingExact` | src/coda_node/server/consumer.py:421-625 | From a state in which the event is set exactly when no job, batch or delivery is under way, a step keeps that if and only if it is none of four failures: an `executing` write of a job or of a batch, `batch_run`, or the final acknowledgement |
| `IdleAccounting.AccountingInRuns` | src/coda_node/server/consumer.py:421-625 | In every state of every run without those failures the event is set if and only if nothing is under way, and `current_job_id` is set, to the executing job, if and only if one is executing |
| `IdleAccounting.HandlingEndsIdle` | src/coda_node/server/consumer.py:622-625 | The step that ends a started handling sets the event and clears `current_job_id` if and only if it is not one of the two leaks; a leak leaves both behind |
| `IdleAccounting.FallbackIdle` | src/coda_node/server/consumer.py:436-625 | After a batch falls back to single handling, the idle event is set if and only if some re-handled message wrote `executing` |
| `Recovery.RecoverRemovesOldest` | src/coda_node/server/consumer.py:137-168 | Without Redis failures and with all entries in the stream, one call removes exactly the min(100, size) oldest pending entries, whatever the runner and the webhook raise |
| `Recovery.RecoveryAdvances` | src/coda_node/server/consumer.py:154-166 | Every reply brings the call nearer to its return, except for polling while the runner is busy |
| `Recovery.RecoveryReturns` | src/coda_node/server/consumer.py:137-168 | A call gets at most 30 replies for each of its min(100, size) entries, plus two for each time the runner was found still at work |
| `Recovery.RecoveryCalls` | src/coda_node/server/consumer.py:137-168 | n calls in a row, each entered by a restart or a recheck and run to its return, leave exactly the pending list without its min(100 n, size) oldest entries; so they empty it if and only if it had at most 100 n |
| `Recovery.TrimmedStaysPending` | src/coda_node/server/consumer.py:154-166 | A pending entry trimmed from the stream and not in flight stays pending in every run |
| `RedisConsumers.RedisConsumer.constructor` | src/coda_node/server/consumer.py:82-108 | A fresh process: idle, healthy, empty slot, about to recover, with the whole script ahead |
| `RedisConsumers.RedisConsumer.Stop` | src/coda_node/server/consumer.py:237-239 | Takes the stop of the script: clears the running flag and leaves the rest |
| `RedisConsumers.RedisConsumer.Elapse` | src/coda_node/server/consumer.py:500-523 | Takes one step of the script beside the loop (a delivery, a flag change, a trim); the loop stands where it stood |
| `RedisConsumers.RedisConsumer.Suspend` | src/coda_node/server/consumer.py:189-219 | One await: takes the steps of the script beside the loop, then one step of the loop; stops only with the script used up |
| `RedisConsumers.RedisConsumer.Request` | src/coda_node/server/consumer.py:261-300 | An awaited call performs its effect, is logged, and moves the relation by the reply; stops only with the script used up, as do all coroutines below |
| `RedisConsumers.RedisConsumer.HasCancelSignal` | src/coda_node/server/consumer.py:282-287 | The reply of the poll decides the next step; a failure is raised |
| `RedisConsumers.RedisConsumer.IsTerminal` | src/coda_node/server/consumer.py:289-300 | The same for the stored state compared with the terminal states |
| `RedisConsumers.RedisConsumer.Safely` | src/coda_node/server/consumer.py:261-280 | A connection error is absorbed, anything else is raised |
| `RedisConsumers.RedisConsumer.RunJobWithCancellation` | src/coda_node/server/consumer.py:327-367 | The polling loop leaves at the await the relation reaches: result, cancellation, or exception |
| `RedisConsumers.RedisConsumer.StopRunner` | src/coda_node/server/consumer.py:348-364 | The hook, then the runner: only a forced cancellation in the hook escapes |
| `RedisConsumers.RedisConsumer.Checkpoint` | src/coda_node/server/consumer.py:576-577 | A cancel check leaves by the cancellation exactly when flagged |
| `RedisConsumers.RedisConsumer.WriteCompleted` | src/coda_node/server/consumer.py:579-585 | The `completed` write leads to the last cancel check or to the handler |
| `RedisConsumers.RedisConsumer.PostResult` | src/coda_node/server/consumer.py:589-596 | The result webhook leads to the acknowledgement or to the handler |
| `RedisConsumers.RedisConsumer.Report` | src/coda_node/server/consumer.py:576-597 | The rest of the try block in order |
| `RedisConsumers.RedisConsumer.TryBlock` | src/coda_node/server/consumer.py:572-597 | The try block ends where the relation does; bad work raises before anything runs |
| `RedisConsumers.RedisConsumer.MarkJobCancelled` | src/coda_node/server/consumer.py:302-312 | The `cancelled` write of the handlers, then the acknowledgement |
| `RedisConsumers.RedisConsumer.HandleFailure` | src/coda_node/server/consumer.py:602-608 | The handler polls once more and then cancels or reports |
| `RedisConsumers.RedisConsumer.ReportFailure` | src/coda_node/server/consumer.py:609-621 | The `failed` write, then the error webhook, whose ordinary failures are absorbed |
| `RedisConsumers.RedisConsumer.ExecuteJob` | src/coda_node/server/consumer.py:560-625 | From the `executing` write to the end of `finally` |
| `RedisConsumers.RedisConsumer.Finally` | src/coda_node/server/consumer.py:622-625 | Acknowledges on every exit; the two fields are reset only if that does not raise |
| `RedisConsumers.RedisConsumer.Skip` | src/coda_node/server/consumer.py:547-553 | A message that is not executed is acknowledged |
| `RedisConsumers.RedisConsumer.SkipCancelled` | src/coda_node/server/consumer.py:555-558 | A job flagged before it starts is written `cancelled`, then acknowledged |
| `RedisConsumers.RedisConsumer.ProcessMessage` | src/coda_node/server/consumer.py:525-625 | `_process_message` takes exactly the steps of the relation, for every environment |
| `RedisConsumers.RedisConsumer.ProcessEach` | src/coda_node/server/consumer.py:217-219 | Messages are handled in order; the first exception ends the loop over them |
| `RedisConsumers.RedisConsumer.RecoverPending` | src/coda_node/server/consumer.py:137-168 | Recovery follows the relation, skipping entries no longer in the stream |
| `RedisConsumers.RedisConsumer.FilterMessage` | src/coda_node/server/consumer.py:381-416 | The batch preamble of one message; only parsed work joins |
| `RedisConsumers.RedisConsumer.FilterOut` | src/coda_node/server/consumer.py:394-415 | A message left out of the batch is acknowledged |
| `RedisConsumers.RedisConsumer.MarkBatch` | src/coda_node/server/consumer.py:425-434 | Every job of the batch is marked executing, in order |
| `RedisConsumers.RedisConsumer.ExecuteBatch` | src/coda_node/server/consumer.py:436-458 | Hands out a delivery task, or falls back to single handling; a result list of the wrong length gives a failed task |
| `RedisConsumers.RedisConsumer.ProcessBatch` | src/coda_node/server/consumer.py:369-523 | `_process_batch` takes exactly the steps of the relation |
| `RedisConsumers.RedisConsumer.ReadMessages` | src/coda_node/server/consumer.py:191-199 | A read makes its entries pending and resets health and counter |
| `RedisConsumers.RedisConsumer.AwaitDelivery` | src/coda_node/server/consumer.py:201-203 | The slot is cleared only after a task that ended without an exception |
| `RedisConsumers.RedisConsumer.HandleRead` | src/coda_node/server/consumer.py:205-219 | Recheck, batch or single handling of what was read |
| `RedisConsumers.RedisConsumer.Iterate` | src/coda_node/server/consumer.py:190-219 | One turn of the loop's try block |
| `RedisConsumers.RedisConsumer.Recover` | src/coda_node/server/consumer.py:220-235 | The except clauses: backoff, one-second pause, or the end of the loop |
| `RedisConsumers.RedisConsumer.FollowLoop` | src/coda_node/server/consumer.py:170-235 | The whole loop is the run of the relation on the script: it ends where the relation has ended, or has taken the whole script |
| `RedisConsumers.RedisConsumer.ConsumeLoop` | src/coda_node/server/consumer.py:170-235 | So whenever the process ends, crash safety and serialisation hold of its fields |
| `QasmRoundTrip.RoundTrip` | src/coda_node/server/qasm.py:71-377 | Every text printed from a valid circuit parses, with the same target and metadata, to that circuit with parameters rounded to 15 significant digits and `id` durations zero; gate and measurement order kept |
| `QasmRoundTrip.ShortRoundTrip` | src/coda_node/server/qasm.py:71-377 | With parameters of at most 15 significant digits only the `id` durations change |
| `QasmRoundTrip.ExactRoundTrip` | src/coda_node/server/qasm.py:71-377 | The circuit itself comes back if and only if no parameter is longer and every `id` has duration zero |
| `QasmRoundTrip.Normalisation` | src/coda_node/server/qasm.py:100-377 | Every accepted text gives a valid circuit that prints; parsing the print gives its normal form, which prints to the same text and is its own normal form |
| `QasmRoundTrip.PrintStable` | src/coda_node/server/qasm.py:54-63 | A circuit and its normal form print to the same text; normalising is idempotent |
| `QasmRoundTrip.PrinterDomain` | src/coda_node/server/qasm.py:316-377 | On valid circuits the printer succeeds if and only if there are no gates, or the target is `cz`, or it is `cnot` and no gate is `rx`, `ry` or `rz` |
| `QasmText.PrintedText` | src/coda_node/server/qasm.py:166-198 | The text printed from a valid circuit, as literal text and numerals: header, include, register, bit register of the number of measurements, gates, and the i-th measurement into bit i |
| `QasmText.PrintsExact` | src/coda_node/server/qasm.py:316-377 | The literal text of each gate on each target, `ry(-1.5707963267949)` included, and nothing for the others |
| `QasmText.HalfPiText` | src/coda_node/server/qasm.py:369-370 | `.15g` of -pi/2 is -1.5707963267949 |
| `QasmTables.ParseExact` | src/coda_node/server/qasm.py:95-158 | A text is accepted if and only if every line is, exactly one declares the register, and the circuit of its gate and measurement lines in order is valid; that circuit is the result |
| `QasmTables.ClassifyExact` | src/coda_node/server/qasm.py:102-138 | Every line is exactly one item, the one that the ordered regular expressions give it; blank and comment lines are ignored |
| `QasmTables.YieldsExact` | src/coda_node/server/qasm.py:206-297 | Which gate each name yields on each target, with the numbers of qubits and parameters it needs |
| `QasmTables.AngleExact` | src/coda_node/server/qasm.py:289-291 | The angle test in numbers: the distance to 1.5707963267948966 below zero is at most 1e-12 times the largest of 1 and the two magnitudes |
| `QasmTables.OtherAnglesRefused` | src/coda_node/server/qasm.py:289-295 | On `cnot` an `ry` line with any other angle makes the whole text refused |
| `QasmTables.ValidExact` | src/coda_node/server/ir.py:57-168 | The validators accept exactly the circuits with a known target, 1 to 50 qubits, and gates that the target allows, of their own shape and in range |
| `QasmTables.SplitCommaExact` | src/coda_node/server/qasm.py:129-133 | The parameter text is cut at every comma and nowhere else |
| `QasmTables.StripBlanks` | src/coda_node/server/qasm.py:100-101 | Blanks around a line do not matter |
| `QasmTables.LineBreaks` | src/coda_node/server/qasm.py:100-101 | A text is cut into lines at each line break, `\r\n` counting as one |
| `QasmPatterns.HeaderExact` | src/coda_node/server/qasm.py:39-39 | The scanner finds a header if and only if the line can be cut as the regular expression says |
| `QasmPatterns.IncludeExact` | src/coda_node/server/qasm.py:40-40 | The same for the include line |
| `QasmPatterns.DeclExact` | src/coda_node/server/qasm.py:41-42 | The same for the two register lines, with the number captured |
| `QasmPatterns.MeasureExact` | src/coda_node/server/qasm.py:43-43 | The same for measurements, with the qubit captured |
| `QasmPatterns.GateExact` | src/coda_node/server/qasm.py:44-50 | The same for gates, with name, parameter text and qubits; greedy scanning loses no match |
| `QasmPatterns.ClassTable` | src/coda_node/server/qasm.py:39-51 | The character classes of the expressions, written out |
| `FloatSyntax.FloatExact` | src/coda_node/server/qasm.py:129-133 | `float()` reads a text if and only if it is sign, digits, point, digits and exponent with single underscores between digits, and as exactly that number |
| `FloatSyntax.Round15Exact` | src/coda_node/server/qasm.py:54-63 | Rounding keeps the 15 digits of the nearest multiple, the even one of two equally near |
| `FloatSyntax.NotationExact` | src/coda_node/server/qasm.py:54-63 | The exponent is written exactly for numbers below 10^-4 or from 10^15 on |
| `QasmRoundTrip.PrintedKinds` | src/coda_node/server/qasm.py:102-138 | Every printed line is classified as its own kind, with its own register size, qubits or measured qubit; the bit register has the number of measurements, and the i-th measurement names bit i |
| `QasmRoundTrip.GateLine` | src/coda_node/server/qasm.py:206-377 | Each printed gate reads back as its normal form; `y_minus_90` survives through the angle test |
| `QasmRoundTrip.ParseKeeps` | src/coda_node/server/qasm.py:230-297 | The parser only ever builds gates the printer has a mapping for |
| `QasmRoundTrip.NotEarlier` | src/coda_node/server/qasm.py:102-127 | No gate line is taken by a test that comes before the gate test |
| `QasmRoundTrip.WithParamsLine` | src/coda_node/server/qasm.py:44-50 | A line with parameters matches the gate pattern with its name, parameter text and qubits |
| `QasmRoundTrip.PlainLine` | src/coda_node/server/qasm.py:44-50 | A line without parameters matches it with no parameter text |
| `QasmRoundTrip.MeasureLine` | src/coda_node/server/qasm.py:43-43 | A measurement line is read as the measurement of its qubit |
| `QasmRoundTrip.QubitLineIs` | src/coda_node/server/qasm.py:41-41 | The register line is read as a register of that size |
| `QasmRoundTrip.BitLineIs` | src/coda_node/server/qasm.py:42-42 | The bit line is ignored |
| `Qasm.OpenqasmToIr` | src/coda_node/server/qasm.py:71-158 | The parser's loop computes the parse function, first error included |
| `Qasm.PrintEach` | src/coda_node/server/qasm.py:192-193 | The printer's gate loop prints all gates in order or fails at the first unmapped one |
| `Qasm.PrintMeasurements` | src/coda_node/server/qasm.py:195-196 | The i-th measurement goes to bit i |
| `Qasm.IrToOpenqasm` | src/coda_node/server/qasm.py:166-198 | The printer computes the print function |
| `Decimals.ParseRender` | src/coda_node/server/qasm.py:129-133 | Reading a printed decimal gives it back, in positional and scientific notation |
| `Decimals.ParseFormat` | src/coda_node/server/qasm.py:54-63 | Reading a formatted parameter gives it rounded to 15 significant digits |
| `Decimals.RoundShort` | src/coda_node/server/qasm.py:54-63 | Rounding leaves at most 15 digits, is idempotent, and changes nothing shorter |
| `Tolerance.RoundClose` | src/coda_node/server/qasm.py:289-291 | Rounding any number to 15 significant digits stays within the parser's tolerance |
| `VpnGuard.StateMeans` | src/coda_node/vpn/guard.py:317-369 | READY iff the last check passed, DEGRADED iff a check of the loop failed right after one that passed, BOOTING iff there was no check |
| `VpnGuard.CallsAreEdges` | src/coda_node/vpn/guard.py:385-397 | For every history the callbacks are exactly the checks of the loop whose result differs from the check before |
| `VpnGuard.WatchCallsAreEdges` | src/coda_node/vpn/guard.py:371-397 | One run of the loop adds exactly the edges of its own checks |
| `VpnGuard.WatchAlternates` | src/coda_node/vpn/guard.py:385-397 | From any state the callbacks of one run strictly alternate |
| `VpnGuard.AlternationExact` | src/coda_node/vpn/guard.py:317-397 | For a pattern of direct and watched checks the callbacks alternate for all results if and only if, after the first check, no direct check comes between two checks of the loop |
| `VpnGuard.BreakingResults` | src/coda_node/vpn/guard.py:317-397 | For every other pattern: results for which the loop reports DEGRADED twice in a row |
| `VpnGuard.VPNGuard.constructor` | src/coda_node/vpn/guard.py:290-306 | Starts BOOTING and not running |
| `VpnGuard.VPNGuard.LookUp` | src/coda_node/vpn/guard.py:335-339 | Collects exactly the host names that do not resolve, in order |
| `VpnGuard.VPNGuard.ProbeAll` | src/coda_node/vpn/guard.py:349-353 | One probe per target, in order |
| `VpnGuard.VPNGuard.Examine` | src/coda_node/vpn/guard.py:317-369 | The verdict holds iff the tunnel is not required or all three stages pass; the reason names the first failing stage, the stages before it having passed, with all its failures |
| `VpnGuard.VPNGuard.Preflight` | src/coda_node/vpn/guard.py:317-369 | A direct check extends the history and keeps the meaning of the state |
| `VpnGuard.VPNGuard.WatchRound` | src/coda_node/vpn/guard.py:387-397 | One round makes the check, the state change and the callback of the machine |
| `VpnGuard.VPNGuard.Watch` | src/coda_node/vpn/guard.py:371-397 | The loop's verdicts and callbacks are those of the machine; no round follows one in which `stop` was called or a callback raised, and the loop ends early only for those reasons |
| `RetryLoops.PostWithRetry` | src/coda_node/server/webhook.py:98-137 | With f leading transport errors and statuses from 500 on, f being unique: min(f + 1, n) posts, 2^f - 1 seconds slept, the outcome of the first other answer (returned only from 200 to 299) or the last failure raised; silent return when no attempt is allowed; overflow after 1025 failures |
| `RetryLoops.PostConnect` | src/coda_node/vpn/service.py:324-363 | The same posts, 2^min(f, n - 1) - 1 seconds slept, and always an exception in the end, also with no attempt allowed |
| `RetryLoops.FailuresExist` | src/coda_node/server/webhook.py:101-134 | The number of leading retryable failures exists and is unique for all answers |
| `RestartCycle.RestartInvariant` | src/coda_node/vpn/service.py:560-589 | After one successful connect and any number of token-free restarts without overrides, successful, failed or cut off between the two file writes, the next start passes the credential test, sends only the first run's fingerprint, and leaves key and key id on disk non-empty |
| `RestartCycle.OneRestart` | src/coda_node/vpn/service.py:560-589 | One such restart keeps the invariant of the disk |
| `RestartCycle.FirstConnect` | src/coda_node/vpn/service.py:560-589 | A successful connect sends one fingerprint and leaves a provisioned disk with it |
| `RestartCycle.FirstConnectHappens` | src/coda_node/vpn/service.py:560-589 | From any disk, a token and a bundle with the required entries do give a successful first connect |
| `RestartCycle.StartsFromDisk` | src/coda_node/server/config.py:206-268 | A token-free start from a provisioned disk passes the credential test and has every persisted setting exactly as on disk |
| `RestartCycle.ReloadUnchanged` | src/coda_node/vpn/service.py:124-148 | Settings that are persisted come back unchanged, all eighteen of them |
| `RestartCycle.PersistedProvisioned` | src/coda_node/vpn/service.py:116-148 | Writing both files provisions the disk; writing only the key keeps a provisioned one provisioned |
| `RestartCycle.KeyPairExact` | src/coda_node/vpn/service.py:124-148 | Key and key id on disk are both the old or both the new ones if and only if the writing does not stop between the two files, or one of them does not change |
| `RestartCycle.Precedence` | src/coda_node/server/config.py:206-226 | Without a token: a non-blank environment value, then the persisted value, then the blank or the default |
| `RestartCycle.TokenIgnoresDisk` | src/coda_node/server/config.py:216-217 | With a token nothing on disk matters |
| `RestartCycle.FreshSettings` | src/coda_node/server/config.py:160-204 | A first start with nothing but a token has the documented defaults |
| `RestartCycle.AppliedKeeps` | src/coda_node/vpn/service.py:465-557 | An applied bundle leaves well-typed settings with both credentials and never touches fingerprint, token or local VPN settings |
| `BundleLaws.AppliedExact` | src/coda_node/vpn/service.py:465-557 | A bundle is applied if and only if no required entry is missing or ill-typed, and then every setting is the entry of its own name, or what it was |
| `RestartCycle.LoadsProvisioned` | src/coda_node/server/config.py:58-116 | Loading a provisioned disk returns every persisted setting and the key, and no token |
| `NodeRuntime.LoadPersisted` | src/coda_node/server/config.py:58-116 | From a provisioned disk it returns every persisted setting and the key, and no token; missing and blank files give nothing; it raises for a config or key file whose mode is not 0600 on POSIX and for text that is no object |
| `NodeRuntime.CopyLoaded` | src/coda_node/server/config.py:90-111 | The loop copies exactly the listed keys that are present |
| `NodeRuntime.MergePersisted` | src/coda_node/server/config.py:219-225 | The loop fills exactly the absent and blank entries, in any order |
| `NodeRuntime.Node.ResolveFingerprint` | src/coda_node/vpn/service.py:291-295 | Keeps the stored fingerprint, or generates host-node and stores it; never empty |
| `NodeRuntime.Node.ApplyCredentials` | src/coda_node/vpn/service.py:489-499 | Each credential is its own entry, if that is a non-empty string, or what it was; both are non-empty afterwards or it fails; nothing else changes in either case |
| `NodeRuntime.Node.ApplyNodeBundle` | src/coda_node/vpn/service.py:465-557 | Succeeds if and only if no required entry is missing or ill-typed; then every setting is the entry of its own name, or what it was; on failure too the settings stay well typed and fingerprint, token and local VPN settings are untouched |
| `NodeRuntime.Node.PersistRuntimeConfig` | src/coda_node/vpn/service.py:124-148 | Both writes provision the disk with the fingerprint of the settings, with mode 0600 on POSIX; wherever the writing stops, a disk provisioned with it stays so |
| `NodeRuntime.Node.ConnectSettings` | src/coda_node/vpn/service.py:560-589 | Sends at most one fingerprint, the stored one if there is one; success provisions the disk with the one sent, and no outcome spoils a disk provisioned with it |

## Left out

- `drain`: the idle event is set briefly between the messages of a fallback, so a true result is no proof of quiescence.
- `setup` and group creation: one idempotent call without state of its own.
- RedisConsumers.RedisConsumer.RecoverPending: the number it returns is not specified, because both callers ignore it.
- Other consumers of the same group: recovery asks only for this consumer's entries.
- The two delivery coroutines of a batch are steps of the relation, interleaved freely, rather than methods of the class, because they run beside the loop.
- A result list of the wrong length sets the idle event when the delivery task is created; in the program that happens at the task's first turn.
- The second test of `batch_run` at dispatch time (`consumer.py:436-445`) is covered by the same fallback as a raising `batch_run`.
- Timestamps, `last_job_at`, log text, error strings, byte decoding of fields and the JSON form of circuits are opaque.
- The optional cancel hook is always called; an absent hook is one that returns at once.
- The internals of a webhook call inside the consumer: there it is one await that returns or raises; the retry loop is modelled on its own.
- NaN, infinities, overflow and binary rounding of floats in QASM: parameters are exact decimals, and the angle test is over exact numbers.
- Text outside ASCII, Python's limit on the digits of `int()`, and the placeholder metadata of a parse without metadata.
- Pydantic's coercion of values, its re-validation on assignment and JSON encoding: settings carry values of their declared type, and a bool counts as an int where Python says so.
- The settings that the restart cycle does not touch, the device config defaults and the YAML scan.
- Which of the parser's errors a refused text raises.
- A private-key path in the config file that is not a string, and file writes that leave a truncated file.
- A direct `preflight` while a round of the watch loop awaits its own (`guard.py:388-389`): the server makes its only direct check before the loop starts.
- Interface detection, DNS, probes, OpenVPN launch and profile scanning: their outcomes are inputs.
- JWT signing and verification, the FastAPI wiring, heartbeat, CLI, daemon control, executor discovery and device topology: library calls and plumbing without a hard property.
