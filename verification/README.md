# Verified model of the durable task runtime, retry executor, tracker and routing

This project models the stateful core of the repository and proves what it keeps over whole runs.

- **Task-group runtime** (`TaskModel`, `InMemoryRuntime`, `RuntimeRuns`). A multi-instance actor runtime: every
  `(name, id)` instance owns a storage map, one alarm slot and a system-failure flag. A handler is an arbitrary program
  of context operations that branches on every answer it gets; it may nest sends to siblings or to itself, catch
  failures, fail, die or purge. `TaskModel` says on values what every invocation and every external call does to the
  table of instances, together with the trace of atomic changes it makes; `InMemoryRuntime` is the runtime as mutable
  objects, each of whose methods is proved to have exactly that effect and answer and to leave exactly that trace in its
  log, and `RuntimeRuns` extends this to whole runs. The properties are about every run of sends, alarm firings, ticks,
  state reads, failure injections and passing time, including calls that fail half way.
- **Durable retry executor** (`RetryExecutor`, `RetryRuns`). Four storage keys and one alarm, written one at a time, are
  proved to refine a plain in-memory loop, with and without crashes between writes.
- **Backoff and durations** (`Backoff`, `DurationText`). Delay shapes, caps, jitter, sums, and the duration grammar.
- **HTTP batch tracker** (`HttpBatch`). Emit is an append, a read and perhaps a swap; the properties hold under every
  interleaving of any number of fibers.
- **Worker-pool routing** (`WorkerRouting`). The wrapping 32-bit hash and the round-robin counter.
- **Counter task** (`Counter`). The example handlers, run on the runtime from start to purge.

Conventions. `TaskModel.Serve` runs a sequence of external calls; its trace is a sequence of `Step`s. Fuel counts the
operations a handler may still perform, so that handlers which loop forever have a meaning (they halt, keeping their
partial effects); once a call has ended, its outcome does not depend on the fuel (`Fuel.CallIndependentOfFuel`), and
bounded handlers that dispatch only downwards always end (`Endings.BoundedRunsEnd`). Times and delays are real numbers
in the retry modules and integers in the task runtime. The clock, the random draw for jitter, the handlers, the schemas
(as encode and decode functions) and the retried effect's answers are parameters.

Where code and documentation differ, the code is modelled: the comment at `packages/core/src/retry/types.ts:42-46`
says that `maxAttempts: 3` allows four executions, while the executor runs the effect three times
(`RetryRuns.MaxAttemptsCountsExecutions`). Four promises hold only under a condition, which is proved to be exact:
keys are parsed back only for task names without a colon (`InstanceKey.ParseInvertsKey`), a saved state is recalled only
when its schema round-trips that state, since struct schemas drop unknown fields
(`ReadYourWrites.EveryoneReadsLastSaved`, `Counter.OtherStatesLoseFields`), a new retry sequence is
independent of an earlier one unless that was terminated on its second or a later attempt
(`RetryRuns.NextSequenceIndependent`), and a crash between the attempt number and the alarm loses the wake-up
(`RetryRuns.OneCrashLosesWakeUp`). The job runner that calls the executor clears all storage after a termination
(`packages/jobs/src/services/execution.ts:237-242`), ignoring errors of that cleanup, so a leftover attempt shows only
to other users of the executor, or when the cleanup fails.

## Model

| member | source | states |
|---|---|---|
| `AlarmMirror.MirrorAlways` | packages/task-group/src/RegisteredTask.ts:167-192 | After every step of every run, inside handlers too, the stored alarm key equals the platform slot of each instance (both absent or both present and equal), and nextAlarm answers the slot. |
| `AlarmMirror.CallKeepsMirror` | packages/task-group/src/InMemoryRuntime.ts:190-230 | Any external call on any table whose two records agree leaves them agreeing, also when it fails or never finishes. |
| `AlarmMirror.AlarmOperations` | packages/task-group/src/RegisteredTask.ts:147-192 | For every operation of a handler on its own instance: the alarm it leaves in both records and that nextAlarm then answers, its own answer where it schedules or cancels, and the time it takes; only scheduling and cancelling change the alarm. |
| `AlarmLedger.EveryAlarmAccountedFor` | packages/task-group/src/RegisteredTask.ts:167-186 | Over any run each alarm ever set is either pending in the slot of its instance with its time, or has exactly one fate (overwritten, cancelled, purged, consumed by one firing of its own instance); no alarm is consumed twice and the counts add up. |
| `AlarmLedger.FatesAreFinal` | packages/task-group/src/InMemoryRuntime.ts:190-225 | No later step of a run changes the fate of an alarm. |
| `AlarmLedger.FiringConsumes` | packages/task-group/src/InMemoryRuntime.ts:190-200 | A firing consumes the alarm that was pending when it began, for good, whether its handler then succeeds, fails, dies or never finishes, and whatever it schedules or purges. |
| `AlarmLedger.BookRecords` | packages/task-group/src/InMemoryRuntime.ts:218-225 | The ledger lists exactly the alarms the trace sets and the firings it makes, in order. |
| `TickSemantics.TickFiresSnapshot` | packages/task-group/src/InMemoryRuntime.ts:206-229 | Over any reachable table a tick runs the alarm handler of a prefix of the registered due instances, in insertion order, none twice, whatever the handlers do to each other's alarms; a successful tick runs all of them and answers the size of the snapshot. |
| `TickSemantics.TickShrinks` | packages/task-group/src/InMemoryRuntime.ts:206-229 | When alarms set during a tick lie after its time, the due set strictly shrinks, also when a handler fails, if and only if a due instance belongs to a registered task; a successful tick leaves none of those due. |
| `TickSemantics.TicksDrain` | packages/task-group/src/InMemoryRuntime.ts:206-229 | Repeating tick(now), failing or not, leaves no registered instance due after as many ticks as there were due instances. |
| `TickSemantics.RunsDrain` | packages/task-group/src/InMemoryRuntime.ts:206-229 | In a runtime whose task names have no colon the drain leaves nothing due at all. |
| `Draining.LateTasksDrain` | packages/task-group/src/InMemoryRuntime.ts:206-229 | When all handlers schedule only by positive delays or for times after now, ticks at a time that has been reached leave nothing due, by a condition on the handlers alone. |
| `TickSemantics.ReachableOrdered` | packages/task-group/src/InMemoryRuntime.ts:127-141 | In every reachable table each instance is listed once, in the order of first use, and only instances of registered tasks have alarms; parsing such a key finds its task when no task name has a colon. |
| `TickSemantics.FireAllFires` | packages/task-group/src/InMemoryRuntime.ts:218-226 | Firing a snapshot consumes alarms and starts alarm handlers in step, stopping at the first firing that does not succeed. |
| `TickSemantics.RunAdvances` | packages/task-group/src/InMemoryRuntime.ts:190-230 | What every firing of an instance advances by one, and nothing else changes, counts the firings of that instance over any run, by fire call and by tick alike. |
| `Isolation.CallIsIsolated` | packages/task-group/src/InMemoryRuntime.ts:82-155 | An external call leaves storage, alarm and failure flag of every instance unchanged for which no handler context was built during the call. |
| `Isolation.HandlerIsIsolated` | packages/task-group/src/RegisteredTask.ts:132-218 | A handler changes another instance only through a dispatch to it. |
| `Isolation.SolitaryHandlersDoNotMeet` | packages/task-group/src/InMemoryRuntime.ts:123-155 | With colon-free names, a handler that dispatches nothing leaves every other (name, id) as it was. |
| `Isolation.PurgeContained` | packages/task-group/src/RegisteredTask.ts:224-270 | A handler or error handler that ends in purge reports success and leaves empty storage and no alarm whatever it did before, with the failure flag it started with; the cleanup touches no other instance. |
| `Isolation.PurgedSendLeavesBlank` | packages/task-group/src/InMemoryRuntime.ts:168-176 | After an external send that ends in a purge the instance equals one that was never used, failure flag included. |
| `Isolation.PurgedFiringLeavesBlank` | packages/task-group/src/InMemoryRuntime.ts:190-200 | The same after an alarm firing that ends in a purge. |
| `Invocations.EveryStepAccountedFor` | packages/task-group/src/RegisteredTask.ts:290-328 | Over any run every handler start begins the invocation it names, whose own steps follow it up to its end, or up to the end of the call when it ran out of fuel; every wipe ends an invocation on the wiped instance that ended in a purge; storage and alarms change only inside such an invocation on their instance. |
| `Invocations.StartFixesInvocation` | packages/task-group/src/RegisteredTask.ts:290-328 | The context and raw event of a start fix the invocation: any two that come to their end from there have the same steps and outcome. |
| `Invocations.WipesArePurges` | packages/task-group/src/RegisteredTask.ts:224-270 | At any step of any run an instance is wiped if and only if an invocation begun on it ends there in a purge. |
| `Invocations.PurgedUntilFilled` | packages/task-group/src/RegisteredTask.ts:224-232 | From the end of a purging invocation until a handler of the instance saves or schedules, the instance stays empty without an alarm. |
| `Invocations.HandlersWipeOnlyByPurges` | packages/task-group/src/RegisteredTask.ts:299-309 | While any handler runs, another instance changes only if a handler was started on it, and any instance wiped meanwhile, the handler's own included, is wiped exactly where an invocation begun on it after the handler started ends in a purge. |
| `Invocations.SenderSurvivesPurge` | packages/task-group/src/InMemoryRuntime.ts:82-95 | A send whose target ends in purge succeeds and empties the target; the sender is wiped only where an invocation on it ended in a purge itself, and is wholly unchanged unless a handler was started on it, even if the target read its state. |
| `Isolation.PurgeStaysInside` | packages/task-group/src/InMemoryRuntime.ts:82-95 | No context operation ever fails with another invocation's purge signal. |
| `Isolation.SendersAgree` | packages/task-group/src/InMemoryRuntime.ts:82-95 | An external send and a sibling's send of the same event succeed together and do the same to the table, except that only the external one settles the failure flag; a sibling sees the failure wrapped. |
| `Isolation.SendSucceedsExactly` | packages/task-group/src/RegisteredTask.ts:290-309 | A send succeeds if and only if the task is registered, the event decodes, and the handler's program, or that of the error handler it fails into, stops at its end or at a purge; an unknown task changes nothing and a malformed event reaches no handler. |
| `Handling.RunEndsWhereItStops` | packages/task-group/src/RegisteredTask.ts:299-307 | Following a handler through its operations and their answers to where its program stops: one that reaches its end answers nothing, one that raises e fails with e, one that dies is a defect, with the table and steps of that place. |
| `Handling.InvocationAnswers` | packages/task-group/src/RegisteredTask.ts:247-270 | A purge is answered by success and a wipe; any other failure e by an execution error with cause e, or by what the error handler, run on the same context and e in the table as it was left, comes to, its own failure in two execution errors; defects pass. |
| `Handling.SendAnswers` | packages/task-group/src/InMemoryRuntime.ts:168-176 | An external send is answered as its handler concludes on a context with the current flag, and only a success clears the flag; unknown tasks and malformed events get their own errors. |
| `Handling.FireAnswers` | packages/task-group/src/InMemoryRuntime.ts:190-200 | The same for a fired alarm, with the alarm hook and its error handler, once the alarm is consumed. |
| `FailureFlag.HandlersSeeTheFlag` | packages/task-group/src/InMemoryRuntime.ts:143-155 | In every run each handler sees what the last injection or settlement of its instance left: the injected failure or none. |
| `FailureFlag.NoFailureBeforeInjection` | packages/task-group/src/InMemoryRuntime.ts:127-155 | In every run a handler of an instance that no failure was injected into before sees none, however often the instance settled. |
| `FailureFlag.OnlySuccessSettles` | packages/task-group/src/InMemoryRuntime.ts:168-200 | A send or a fire call on a registered task settles its instance if and only if it succeeds, and as its last step; dispatches nested in it settle and inject nothing. |
| `FailureFlag.CallSettlesExactly` | packages/task-group/src/InMemoryRuntime.ts:164-230 | A send or fire call settles its instance when it succeeds and nothing otherwise; a tick settles every instance it fired, or all but the last when that firing ended it; no other call settles anything. |
| `FailureFlag.FlagsAfterCall` | packages/task-group/src/InMemoryRuntime.ts:164-248 | Every failure flag after any call: set by an injection on that instance, cleared where the call settled it, otherwise as it was. |
| `FailureFlag.FailedCallKeepsFlags` | packages/task-group/src/InMemoryRuntime.ts:164-230 | A call that does not succeed keeps every flag, except that a failed tick has cleared those of the instances it fired before the firing that ended it. |
| `FailureFlag.RunSettlesExactly` | packages/task-group/src/InMemoryRuntime.ts:164-248 | Over any run flags are cleared exactly by the successful sends, fire calls and tick firings, once each and in order. |
| `FailureFlag.SeenDuringCall` | packages/task-group/src/InMemoryRuntime.ts:143-230 | A handler sees the flag from before the call it starts in, or none when an earlier firing of the same tick has cleared it. |
| `FailureFlag.InjectedFailureIsSeen` | packages/task-group/src/InMemoryRuntime.ts:143-248 | A handler that starts during any call of a run sees a failure if and only if some earlier call injected it into that instance, no call since has cleared the flag or injected again, and no earlier firing of the same tick has cleared it. |
| `ReadYourWrites.EveryoneReadsLastSaved` | packages/task-group/src/RegisteredTask.ts:204-213 | For a task that shares no key with another one, at every moment of every run ctx.recall answers the state last saved, or null after a purge or when nothing was saved, if and only if the codec round-trips that one state; then the getState of every sibling and every external getState answer it too and only create a missing instance. |
| `ReadYourWrites.UpdateTransformsLastSaved` | packages/task-group/src/RegisteredTask.ts:154-165 | At every moment, when the codec round-trips the state last saved, update saves the function of it, does nothing when there is none, and is refused without effect exactly when the new state cannot be encoded. |
| `ReadYourWrites.LawIsNeeded` | packages/task-group/src/RegisteredTask.ts:147-158 | ctx.save stores the encoded state or is refused without effect, and what it stored is recalled as the saved state if and only if its encoding decodes to it and is not null, or both are null. |
| `ReadYourWrites.HeldIsRead` | packages/task-group/src/RegisteredTask.ts:330-342 | A held state is recalled as itself if and only if the codec round-trips it; decoding, re-encoding for the wire and decoding again then gives it too. |
| `ReadYourWrites.LawfulTasksReadBack` | packages/task-group/src/RegisteredTask.ts:147-165 | Where every handler saves only states its codec round-trips, a condition on the handlers alone, recall, a sibling and an external reader all answer the state last saved at every moment of every run. |
| `ReadYourWrites.UnreadableIsReported` | packages/task-group/src/RegisteredTask.ts:330-342 | What ctx.recall, ctx.update, a sibling and an external reader each answer about a stored value that does not decode, does not encode again, or does not decode off the wire; for any other value the two outside readers answer the same. |
| `ReadYourWrites.UnknownTasksAreReported` | packages/task-group/src/InMemoryRuntime.ts:82-109 | A sibling send or getState answers that a task is unknown, by its name, if and only if it is not registered, and then changes nothing. |
| `Programs.RunsKeepGood` | packages/task-group/src/RegisteredTask.ts:132-218 | When every handler keeps to some operations, whatever it is answered, every step of every run of the runtime is one that these operations or the runtime itself take. |
| `InstanceKey.ParseInvertsKey` | packages/task-group/src/InMemoryRuntime.ts:123-160 | Parsing a key gives back name and id if and only if the name has no colon. |
| `InstanceKey.KeyInvertsParse` | packages/task-group/src/InMemoryRuntime.ts:157-160 | The parsed parts name the same table entry if and only if the key has a colon; without one the name is the key less its last character. |
| `InstanceKey.KeyInjective` | packages/task-group/src/InMemoryRuntime.ts:123-125 | Colon-free names with their ids never share a key. |
| `InstanceKey.SeparatorCollides` | packages/task-group/src/InMemoryRuntime.ts:123-160 | A name with a colon always shares its key with a different, colon-free name. |
| `InstanceKey.KeysShared` | packages/task-group/src/InMemoryRuntime.ts:123-125 | Two task names have a key in common if and only if they are equal or one continues the other behind a colon. |
| `InstanceKey.IndexOf` | packages/task-group/src/InMemoryRuntime.ts:158 | The index of the first occurrence of a character, or -1 exactly when there is none. |
| `TaskTrace.ServeFaithful` | packages/task-group/src/InMemoryRuntime.ts:164-248 | Over any run the table is the replay of the trace, every handler was shown the failure flag of that moment, and every step acts on an instance some dispatch opened. |
| `TaskTrace.GuardedSound` | packages/task-group/src/RegisteredTask.ts:247-270 | Whatever a handler and its error handler do, including nested dispatches, is a replay of steps none of which fires an alarm or touches a failure flag. |
| `TaskTrace.FiringShape` | packages/task-group/src/InMemoryRuntime.ts:190-199 | A firing consumes the alarm, then starts the alarm handler once, and settles exactly when it succeeds. |
| `TaskTrace.CallTakesTime` | packages/task-group/src/RegisteredTask.ts:167-172 | The clock that scheduling reads moves in a call by exactly the time its steps let pass, and not while a state is read or a failure injected. |
| `Fuel.CallIndependentOfFuel` | packages/task-group/src/InMemoryRuntime.ts:164-248 | Any two fuels that let a call finish give the same table, answer and trace. |
| `Fuel.RunIndependentOfFuel` | packages/task-group/src/InMemoryRuntime.ts:164-248 | Any two fuels with which every call of a run ends give the same run. |
| `Endings.BoundedRunsEnd` | packages/task-group/src/RegisteredTask.ts:290-328 | When every handler ends within some number of operations, whatever it is answered, and dispatches only to tasks of a lower rank, every call of every run ends with the fuel given, and more fuel changes nothing. |
| `InMemoryRuntime.Runtime.Send` | packages/task-group/src/InMemoryRuntime.ts:168-176 | The mutable runtime's table, answer and logged steps after a send are those of the model's send. |
| `InMemoryRuntime.Runtime.GetState` | packages/task-group/src/InMemoryRuntime.ts:177-189 | Likewise for an external getState. |
| `InMemoryRuntime.Runtime.FireAlarm` | packages/task-group/src/InMemoryRuntime.ts:190-200 | Likewise for an external alarm firing. |
| `InMemoryRuntime.Runtime.Tick` | packages/task-group/src/InMemoryRuntime.ts:206-230 | Likewise for a tick: collect the due instances, then fire the collected ones one after the other. |
| `InMemoryRuntime.Runtime.CollectDue` | packages/task-group/src/InMemoryRuntime.ts:210-216 | The loop collects exactly the due instances in insertion order. |
| `InMemoryRuntime.Runtime.FireNext` | packages/task-group/src/InMemoryRuntime.ts:218-226 | One turn of the firing loop leaves the rest of the snapshot to be fired, or ends the tick with the failure. |
| `InMemoryRuntime.Runtime.FireSnapshot` | packages/task-group/src/InMemoryRuntime.ts:218-226 | The firing loop over records that handlers change meanwhile has the effect and answer of firing the snapshot. |
| `InMemoryRuntime.Runtime.InjectSystemFailure` | packages/task-group/src/InMemoryRuntime.ts:245-248 | Injection sets the flag of one instance, creating it if missing. |
| `InMemoryRuntime.Runtime.GetOrCreateInstance` | packages/task-group/src/InMemoryRuntime.ts:127-141 | Returns the record stored under the key, adding a fresh blank one only when the key is new; no two keys share a record. |
| `InMemoryRuntime.Runtime.MakeHandlerContext` | packages/task-group/src/InMemoryRuntime.ts:143-155 | The context carries the failure flag of the moment it is built. |
| `InMemoryRuntime.Runtime.RunProgram` | packages/task-group/src/RegisteredTask.ts:299-308 | Running a handler operation by operation on shared records, with nested dispatches, equals its run on values. |
| `InMemoryRuntime.Runtime.RunOperation` | packages/task-group/src/RegisteredTask.ts:132-218 | One context operation and the rest of the handler after its answer, on the shared records, equal the model's. |
| `InMemoryRuntime.Runtime.RunGuarded` | packages/task-group/src/RegisteredTask.ts:299-308 | A hook with its error routing, on the records, equals the model's, trace included. |
| `InMemoryRuntime.Runtime.HandleError` | packages/task-group/src/RegisteredTask.ts:247-270 | Purge cleanup, missing error handlers and errors of error handlers on the records equal the model's routing. |
| `InMemoryRuntime.Runtime.HandleEvent` | packages/task-group/src/RegisteredTask.ts:290-309 | Decoding an event and running the hook on a built context equals the model's, a malformed event starting no handler. |
| `InMemoryRuntime.Runtime.HandleAlarm` | packages/task-group/src/RegisteredTask.ts:311-328 | Running the alarm hook after the alarm was consumed equals the model's. |
| `InMemoryRuntime.Runtime.DispatchSend` | packages/task-group/src/InMemoryRuntime.ts:82-95 | Sibling send on the records equals the model's dispatch. |
| `InMemoryRuntime.Runtime.DispatchGetState` | packages/task-group/src/InMemoryRuntime.ts:96-109 | Sibling getState on the records equals the model's. |
| `InMemoryRuntime.Runtime.Update` | packages/task-group/src/RegisteredTask.ts:160-165 | Recall and save on the record equal the model's update. |
| `InMemoryRuntime.Runtime.ScheduleAlarm` | packages/task-group/src/RegisteredTask.ts:167-180 | Slot first, stored copy second; together one step of the model. |
| `InMemoryRuntime.Runtime.Cleanup` | packages/task-group/src/RegisteredTask.ts:224-232 | Deleting all storage and cancelling the alarm is one wipe of the instance. |
| `RuntimeRuns.CallOn` | packages/task-group/src/InMemoryRuntime.ts:164-248 | Any external call on the mutable runtime leaves the table, answer and logged steps of the model's call. |
| `RuntimeRuns.ServeOn` | packages/task-group/src/InMemoryRuntime.ts:164-248 | A run of external calls on the mutable runtime leaves the table and the logged steps of the model's run. |
| `RuntimeRuns.ServeFresh` | packages/task-group/src/InMemoryRuntime.ts:69-111 | On a new runtime that served any calls both records of every alarm agree and every alarm in its log is accounted for. |
| `Counter.CountersAlwaysRest` | examples/effect-worker-api/src/tasks/counter.ts:44-75 | Between the calls of any run every instance is either empty without alarm, or holds a count from 0 to 9 with an alarm set. |
| `Counter.TenFiringsEndIt` | examples/effect-worker-api/src/tasks/counter.ts:44-75 | After any run and a start event, in any run without another start of that counter, it fires exactly at each fire call on it and each tick at or after its alarm; after n of those it holds n modulo ten, and every tenth purges it. |
| `Counter.TenTicksPurge` | examples/effect-worker-api/src/tasks/counter.ts:55-70 | Ten ticks after a start, each at or after the alarm of that moment, do purge the counter. |
| `Counter.CountersDrain` | examples/effect-worker-api/src/tasks/counter.ts:44-70 | The counter's handlers meet that condition: ticks at the present time leave no counter due, whatever was sent. |
| `Counter.CountersEnd` | examples/effect-worker-api/src/tasks/counter.ts:44-75 | Every call of every run on counters ends with fuel 4, and more fuel changes nothing. |
| `Counter.EveryoneReadsTheCount` | examples/effect-worker-api/src/tasks/counter.ts:29-75 | At every moment of every run recall, a sibling and an external reader all answer the count last saved, or null. |
| `Counter.OtherStatesLoseFields` | examples/effect-worker-api/src/tasks/counter.ts:29-36 | The state schema encodes some states that it does not give back: the codec law holds of counts, not of every state. |
| `Counter.UnfitEvent` | examples/effect-worker-api/src/tasks/counter.ts:33-35 | Any event not tagged as a start is refused and leaves every counter as it was. |
| `Counter.UnreadableCounterStops` | examples/effect-worker-api/src/tasks/counter.ts:72-75 | A counter whose stored state cannot be read swallows its alarm: the firing succeeds and no other alarm is set. |
| `Counter.FiringCounts` | examples/effect-worker-api/src/tasks/counter.ts:55-70 | One firing of a resting counter always succeeds, adds one or purges at ten, reschedules two seconds on, and changes no other instance. |
| `Counter.StartResets` | examples/effect-worker-api/src/tasks/counter.ts:44-53 | A start event resets the count to zero and sets the alarm two seconds ahead. |
| `RetryExecutor.Executor.ExecuteWithRetry` | packages/jobs/src/retry/executor.ts:122-219 | One call writes exactly the planned writes in the planned order, runs the effect exactly when planned, and answers the planned signal; a scheduled retry is reported with the attempt stored and the time of the alarm set, which is as late as the delay asks for. |
| `RetryExecutor.Executor.Reset` | packages/jobs/src/retry/executor.ts:113-119 | The four keys are deleted in order, the attempt number first; the alarm stays. |
| `RetryExecutor.NextStore` | packages/jobs/src/retry/executor.ts:127-214 | Storage after each kind of answer in closed form: empty after success or exhaustion, start time kept after termination, attempt plus one, as reported, with error and resume time after a scheduled retry. |
| `RetryExecutor.DelayWakes` | packages/jobs/src/retry/executor.ts:204-206 | A retry wakes after the fixed delay, the custom function's, the strategy's, or by default 1 s doubled per attempt up to 30 s from attempt 6 on; with jitter, unless switched off, evenly from 0.9 to 1.1 of it with the draw. |
| `RetryRuns.DriveIsLoop` | packages/jobs/src/retry/executor.ts:127-214 | Driven alarm by alarm from fresh storage, the executor has the same executions and final signal as a plain in-memory loop, for every config, answers and clock. |
| `RetryRuns.SequencesExplained` | packages/jobs/src/retry/executor.ts:136-214 | At most max(1, maxAttempts) executions; reported attempts equal the executions when attempts run out and exceed them by one when time runs out, and both report the time since the start; a sequence always ends within that many wake-ups. |
| `RetryRuns.MaxAttemptsCountsExecutions` | packages/core/src/retry/types.ts:42-46 | An always failing effect runs max(1, maxAttempts) times, which is maxAttempts + 1 only for zero: the documented count does not hold. |
| `RetryRuns.EveryCallProgresses` | packages/jobs/src/retry/executor.ts:182-214 | maxAttempts minus the attempt strictly decreases with each scheduled retry, and after success or exhaustion all four keys are absent. |
| `RetryRuns.IndependentExactlyWithoutRetry` | packages/jobs/src/retry/executor.ts:128-134 | Leftover storage makes no difference to any next sequence if and only if it holds no number of a later attempt, whatever the config. |
| `RetryRuns.EndedSequenceLeaves` | packages/jobs/src/retry/executor.ts:160-198 | A sequence that has ended leaves an attempt number behind if and only if its second or a later attempt was terminated, and then the number of that attempt. |
| `RetryRuns.NextSequenceIndependent` | packages/jobs/src/retry/executor.ts:128-198 | After an ended sequence every next one behaves as from fresh storage if and only if the ended one was not terminated on its second or a later attempt. |
| `RetryRuns.FailThenTerminate` | packages/jobs/src/retry/executor.ts:160-171 | A failure followed by a termination leaves attempt 2 behind, and some next sequence then differs from a fresh one. |
| `RetryRuns.FirstTurnsLoop` | packages/jobs/src/retry/executor.ts:131-134 | From any storage without the number of a later attempt, such as after a termination on attempt 1, the next sequence is the plain loop. |
| `RetryRuns.DelaysFitDuration` | packages/jobs/src/retry/executor.ts:136-209 | If the k-th execution happens and no call up to it comes before the alarm the call before has left, the delays before it sum to less than maxDuration. |
| `RetryRuns.FixedDelaysKeepTime` | packages/jobs/src/retry/executor.ts:204-209 | With calls on time and no jitter a fixed delay puts the k-th execution k - 1 delays after the first. |
| `RetryRuns.ExecutionCountFromTime` | packages/jobs/src/retry/executor.ts:136-209 | With uncapped exponential delay and no call up to the k-th before its stored alarm, a k-th execution within D implies b(m^(k-1) - 1) < D(m - 1), with 0.9 of the left side under default jitter. |
| `RetryRuns.CrashesKeepSafe` | packages/jobs/src/retry/executor.ts:113-134 | However often and wherever calls are cut off between writes, a stored attempt lies in 2..maxAttempts, with a last error, and with the start time of the latest attempt 1. |
| `RetryRuns.CrashesThenLoop` | packages/jobs/src/retry/executor.ts:200-209 | After any crashes the rest of the run is again the plain loop from the stored attempt and start time. |
| `RetryRuns.CrashesBoundExecutions` | packages/jobs/src/retry/executor.ts:113-119 | With crashes between any writes the effect runs at most max(1, maxAttempts) times, plus once per crash, or plus a whole sequence per crash that has deleted a later attempt's number; at most max(1, maxAttempts) * (crashes + 1) times. |
| `RetryRuns.CutCountsExecution` | packages/jobs/src/retry/executor.ts:127-166 | A call cut off before its effect may start counts no execution, and one cut off after its last write makes the rest of the run the same as a whole call. |
| `RetryRuns.OneCrashLosesWakeUp` | packages/jobs/src/retry/executor.ts:200-209 | A crash leaves an attempt recorded without its alarm at exactly one point: after the attempt is written and before the alarm is set. |
| `Backoff.DelaysGrowUpToCap` | packages/core/src/retry/backoff.ts:53-77 | Delays never shrink with the attempt, never exceed the cap, and stay at the cap once there; a constant delay is the same every time. |
| `Backoff.LinearRecurs` | packages/core/src/retry/backoff.ts:61-67 | Linear delays start at the initial delay and grow by the increment; with a cap the delay is the smaller of cap and recurrence. |
| `Backoff.ExponentialRecurs` | packages/core/src/retry/backoff.ts:69-75 | Exponential delays start at the initial delay and are multiplied by the factor, 2 by default; with a cap the delay is the smaller of cap and recurrence. |
| `Backoff.PresetLadders` | packages/core/src/retry/backoff.ts:187-199 | The presets double from their base and sit at their cap exactly from attempt 6, 7 and 6 on. |
| `Backoff.JitterBand` | packages/core/src/retry/backoff.ts:86-89 | Jitter moves a delay by at most its factor either way, reaching the lower end and never the upper one. |
| `Backoff.GeometricTotal` | packages/core/src/retry/backoff.ts:69-75 | The total of exponential delays times (m - 1) is b(m^n - 1). |
| `DurationText.ParsePrinted` | packages/core/src/retry/backoff.ts:101-144 | Parsing any decimal with any spacing and any unit spelling in any letter case gives the decimal times the milliseconds of the unit; a missing unit means milliseconds. |
| `DurationText.SpellingsAgree` | packages/core/src/retry/backoff.ts:114-140 | All spellings of a unit stand for the same, and none for milliseconds. |
| `DurationText.UnitsConvert` | packages/core/src/retry/backoff.ts:114-140 | The same number of seconds is 1000 times that of milliseconds, of minutes 60 times that of seconds, of hours 60 times that of minutes, and of days 24 times that of hours. |
| `DurationText.DigitsAreRead` | packages/core/src/retry/backoff.ts:101-121 | A number of milliseconds is the sum of its digits times their powers of ten, scaled back by the digits after the point; given as a number it means the same. |
| `DurationText.Characters` | packages/core/src/retry/backoff.ts:106-108 | The digits and spaces of the pattern, listed one by one. |
| `DurationText.AcceptsExactlyGrammar` | packages/core/src/retry/backoff.ts:106-112 | A text is accepted if and only if it splits into number, spaces and unit. |
| `DurationText.OneReading` | packages/core/src/retry/backoff.ts:106-108 | No text splits in two ways. |
| `HttpBatch.EveryInterleaving` | packages/core/src/tracker/http-batch.ts:155-171 | Under every interleaving the taken batches in swap order followed by the buffer are the emitted events in append order, and with no emit in flight the buffer is shorter than the batch size. |
| `HttpBatch.BatchesBounded` | packages/core/src/tracker/http-batch.ts:161-171 | With at most n emits in flight at a time no batch exceeds the batch size by more than n - 1. |
| `HttpBatch.FullUnlessOvertaken` | packages/core/src/tracker/http-batch.ts:164-170 | An emit that found the batch full takes at least a full batch unless another fiber swapped in between. |
| `HttpBatch.FlushDelivers` | packages/core/src/tracker/http-batch.ts:155-159 | Whatever other fibers do after a flush has started, its swap takes the whole buffer as one batch and leaves it empty, so that every event emitted before is in some batch. |
| `HttpBatch.SequentialBatches` | packages/core/src/tracker/http-batch.ts:161-171 | Without interleaving every batch sent has exactly the batch size and nothing is lost or reordered. |
| `HttpBatch.EmitIsUninterruptedRun` | packages/core/src/tracker/http-batch.ts:162-171 | The three atomic steps run without interruption are one emit of the tracker. |
| `HttpBatch.Tracker.Emit` | packages/core/src/tracker/http-batch.ts:162-171 | What was sent followed by the buffer grows by exactly the event, and a full buffer is handed over. |
| `HttpBatch.Tracker.Flush` | packages/core/src/tracker/http-batch.ts:155-159 | The buffer is emptied into one batch, and an empty buffer sends none. |
| `WorkerRouting.ConsistentHash` | packages/jobs/src/client/client.ts:38-46 | The wrapping loop computes the signed 32-bit value of the sum of c_i * 31^(n-1-i); the index is what remains of its magnitude after whole rounds of the buckets, also for negative hashes. |
| `WorkerRouting.PolyIsPowerSum` | packages/jobs/src/client/client.ts:38-46 | Horner's rule without wrapping gives the explicit sum of powers. |
| `WorkerRouting.RoundIsHorner` | packages/jobs/src/client/client.ts:42-43 | One loop round on the wrapped hash is one Horner step, wrapped. |
| `WorkerRouting.HashConcat` | packages/jobs/src/client/client.ts:38-46 | hash(a + b) is the wrapped hash(a) * 31^len(b) + hash(b). |
| `WorkerRouting.HashCollides` | packages/jobs/src/client/client.ts:38-46 | Two keys collide if and only if their sums of powers agree modulo 2^32. |
| `WorkerRouting.ToInt32` | packages/jobs/src/client/client.ts:42-43 | The value in [-2^31, 2^31) congruent modulo 2^32 (section 7.1.6 of ECMA-262). |
| `WorkerRouting.WorkerPoolClient.Enqueue` | packages/jobs/src/client/client.ts:278-288 | A request with a non-empty key goes where the magnitude of its key's hash leaves it after whole rounds and leaves the counter alone; any other takes the next turn. |
| `WorkerRouting.RouteOf` | packages/jobs/src/client/client.ts:274-288 | In any run of requests a keyed one goes where its key hashes and an unkeyed one to the next instance in turn, counting unkeyed requests only. |
| `WorkerRouting.TurnsRotate` | packages/jobs/src/client/client.ts:274-288 | Two unkeyed requests of a run go to the same instance if and only if the unkeyed requests from one to the other make whole rounds. |

## Left out

- AlarmMirror.MirrorAlways: the instant between the two writes of one scheduling operation, slot first and stored copy
  second, is not a moment of the trace; no other handler step can come between them in the model.
- Effect's own machinery: fibers, layers, memo maps, scopes and schedules. Hook layers do nothing in the model, a schema
  is a pair of encode and decode functions, and concurrency is modelled only where the tracker's buffer needs it.
- Concurrent external calls on one runtime: calls and the dispatches nested in them run one after the other, as the
  synchronous handlers of the in-memory runtime do; time may pass inside a handler.
- Failing storage and alarm services: the in-memory ones cannot fail.
- Handlers that catch defects: in the model a defect ends the invocation and everything that dispatched it.
- Registry lookups of names inherited from the object prototype, task tags missing for a registered task, and values
  that are not JSON.
- `getScheduledAlarms`, `hasInstance`, `getInstanceStorage` and `getScheduledAt`: plain reads.
- `TaskRunner`, job handlers, workflows, `AlarmService` and the Cloudflare adapters.
- Consuming the alarm in the retry modules: scheduling overwrites one slot, and when wake-ups come is an input, assumed
  not early only where a lemma says so.
- Non-numeric, infinite or rounded numbers: times, delays and multipliers are exact; `Duration` values are
  taken in milliseconds.
- `Backoff.constant`, `Backoff.linear` and `Backoff.exponential`: compositions of the duration parser with the
  strategies.
- sendBatch after hand-over: enrichment, the request and its retries; a failed batch is dropped. Batch sizes are whole
  numbers.
- The order in which concurrent fibers reach the network after their swaps.
- The worker-pool request itself, and pausing, resuming and status aggregation.
- UTF-16 surrogates outside the hash: the hash works on code units, all other modules on whole characters.
