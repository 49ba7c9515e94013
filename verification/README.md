# Verified model of the vuhive load-test engine

The concurrent protocols and arithmetic kernels of vuhive, modelled in Dafny and proved for every
input, every interleaving or every run.

| Part | Modules |
|---|---|
| Startup quorum gate, worker lifecycle, stop, drain, teardown, abort monitor | `Quorum`, `Lifecycle`, `LifecycleInvariant`, `LifecycleTheorems`, `LifecycleReasons` |
| Arrival-rate dispatcher, iteration accounting, Little's-law capacity rule | `ArrivalRate`, `Iterations`, `Capacity`, `Saturation`, `Jitter` |
| Ramping allocator | `Ramping` |
| PreTest supervisor and its backoff | `Supervisor` |
| Server-sent event decoder, its block meaning, its printer, the WHATWG standard | `Sse`, `SseBlocks`, `SseRoundTrip`, `SseStandard` |
| Tag keys, copy-on-write metric store, registry | `TagKeys`, `MetricStore`, `StoreTheorems`, `Collector` |
| Striped histograms | `Histogram`, `HistogramRaces`, `MergeRaces` |
| Execution watchdog | `Watchdog`, `WatchdogRaces`, `WatchdogRefinement` |
| Inline checks and their report | `Checks`, `CheckSummaries`, `CheckRuns`, `CheckReads` |
| Data sets | `DataSets`, `SharedQueues` |
| Shared helpers | `Wrappers`, `Arithmetic`, `Strings` |

## How it is modelled

Two forms stand side by side. Code that changes an object is a class whose methods are proved
against functions of the old state. Code that interleaves with other goroutines is, in addition, a
transition system: `Enabled` and `Next` give one atomic load, store, counter update, channel
operation or lock operation at a time; an action list and its states form a run when every step is
enabled; the theorems hold in every state of every run. A step the environment chooses (a hook's
outcome, a timer, a cancellation, a select case that is ready) is nondeterministic.

- **Lifecycle.** One system covers the constant, arrival-rate and ramping pacers, the gate, the
  drain, the executor and the abort monitor. A worker's history (`trace`, `fails`, `iterations`) is
  part of its state. AfterTest does not panic; hooks return. In this system a token is only counted
  (`ArrivalRate` has its identity and its buffer) and a ramping stop closes any open channel
  (`Ramping` has the stack discipline).
- **Time in the capacity results.** The clock counts units of 1/target_tps nanoseconds, so that a
  token interval is a whole number. Of the limiter only the spacing of its tokens is assumed. A run
  is *prompt* when iterations end by their timeout and an idle worker does not let time pass with a
  token queued; picking up a token takes no time. `Jitter` bounds
  the delays of dispatch and pick-up instead.
- **Numbers.** Go's `float64` ratios are exact (`real`, or integers over a common denominator).
  Wrap-around is explicit where the program meets it: the backoff product, the histogram's uint32
  counter, the data sets' int64 sum and cursor. Counters of events are unbounded.
- **Map iteration order** is an arbitrary choice (`:|`), so results hold for every order.
- **Panics** of the source are values: a `Failure` for MustRegister, an `IndexPanic` for a data set.
- **Strings** are sequences of characters that stand for bytes; `sort.Strings` is `SortStrings`,
  proved to be the only sorted arrangement.

## Findings

- The gate's two channels do not exclude each other. After a grace-period abort a late RecordReady
  still opens the gate, and RunVU runs in the aborted run (`GraceAbortCanStillOpenTheGate`). Once all
  workers have reported, both are closed exactly if the run got its quorum and the grace timer has
  closed the abort channel (`GateOutcome`); aborts by dropout exclude an open gate (`DropoutStopsTheRun`, `AbortIsExplained`).
- With a gate, the ramping pacer spawns stage 0 in full but still interpolates from 0, so an early
  first tick stops workers the quorum has just waited for, and they are spawned a second time.
  `GatedStage` says exactly when, and how many, for every schedule of ticks.
- The Little's-law check runs before `vu_timeout` is defaulted. `AcceptedEffectiveTimeout` gives the
  exact condition under which an accepted pool sustains the timeout its iterations really get.
- For an explicit timeout the rule is exact for drops: accepted pools never drop when tokens are
  dispatched and picked up without delay (`AcceptedScenarioNeverDrops`), and every pool it rejects drops in
  some run, if the run period is long enough (`RejectedPoolDrops`). With delays, and workers that sustain a
  timeout longer by the pick-up delay, a buffer never overflows if it outlasts the pick-up delay and what
  tokens can run ahead of an even pace (`BufferAbsorbsJitter`), and can overflow otherwise
  (`SmallerBufferDrops`). However late a dispatch is, that is at most one interval, since the limiter is
  asked for a token only after the previous one was dispatched; so the automatic buffer is good for any dispatch
  delay, with pick-up delays up to one interval short of two seconds (`AnyDispatchDelayAbsorbed`). The single token of the ramp-up never
  causes a drop either, but with it a dispatch may find every worker of an accepted pool busy
  (`AcceptedRampCanSaturate`), exactly if the workers do not outlast that token
  (`SaturatedOnlyIfTooSmall`, `TooSmallSaturates`).
- `Aborted` is reported only for pacers that return no error (`AbortReport`), so a breach during
  startup can go unreported (`BreachCanGoUnreported`).
- A metric's tags are not always identified by its key. No other map shares the key of a map if and only if
  it is empty, or has a single tag with no '=' in key or value (`IdentifiedIff`). Among maps without '=' in
  keys and ',' in values keys are unique (`KeysInjective`); dropping either of the two
  conditions admits collisions (`EqualsCollides`, `CommaCollides`).
- At single atomic operations a scan of the watchdog can mark an iteration no scan has measured
  (`StaleScanMarksNextIteration`). A swap counts the iteration that was measured exactly if the VU has
  not reset its flag since the load (`SwapCountsMeasuredIff`); without overlapping Begin or End the
  count is the number of iterations seen overdue (`CountedIffSeenWithoutOverlap`); and the number of stalls
  never exceeds that of iterations.
- A check with the empty name is counted but never listed (`TotalsMatchIffNamed`). A counter that a scenario creates itself
  under one of the two check names is listed under the text of its tags, together with a check of that name (`ShareANameIff`).
- When the int64 sum of a sequential data set overflows, it panics or hands out record 0;
  `SequentialKeepsPromiseIff` gives the exact condition under which the record is the promised one, and
  `OverflowCanMislead` a wrong record without an error. A shared queue's promise ends when its
  cursor wraps (`PromiseHoldsIffNotWrapped`). UniquePerVU is the same function as Sequential,
  although it is documented (README.md:485) to partition rows so that VUs do not overlap where possible:
  VU 1 in iteration 1 and VU 2 in iteration 0 always get the same record, and rows are partitioned only
  with at most one VU, without iterations, or with one iteration each and no more VUs than rows (`PartitionedIff`).
- The SSE decoder departs from section 9.2.6 of the WHATWG HTML standard: it flushes at the end of
  the stream, dispatches blocks without data, resets the id with every event and knows no lone CR.
  `AgreesWithStandard` gives the exact sub-language on which types and data agree; lines are split into names and
  values as the standard has it (`SameField`).

## Model

| member | source | states |
|---|---|---|
| Quorum.Required | internal/engine/quorum.go:62-72 | the quorum is the ceiling of the ratio of the target for accepted ratios, and always between 1 and the target |
| Quorum.RequiredIsRatio | internal/engine/quorum.go:66-72 | for every accepted ratio, reaching `required` is the same as reaching the ratio of the target |
| Quorum.StartupQuorumGate.constructor | internal/engine/quorum.go:62-86 | a fresh gate, open to nobody, with the default grace period where none is given |
| Quorum.StartupQuorumGate.RecordReady | internal/engine/quorum.go:89-104 | one more ready worker; the gate is open exactly when the quorum is reached, and the abort side is untouched |
| Quorum.StartupQuorumGate.RecordFailed | internal/engine/quorum.go:107-113 | one more failure; the abort channel closes exactly when the quorum has become impossible, with the error of the first abort kept |
| Quorum.StartupQuorumGate.TriggerAbort | internal/engine/quorum.go:115-139 | only the first call publishes the error and closes the channel |
| Quorum.StartupQuorumGate.AwaitQuorum | internal/engine/quorum.go:156-179 | released by the ready signal or a timer with a quorum, refused with the published error by the abort signal or a timer below the quorum (which then aborts), cancelled exactly by the context |
| LifecycleReasons.PacerTakesVerdict | internal/engine/quorum.go:142-179 | the single steps of the interleaved pacer, the three of triggerAbort included, take the verdict of the gate object and leave its gate |
| LifecycleInvariant.InitInv | internal/engine/executor.go:98-135 | the initial state satisfies the invariant of gate, workers, pacer and monitor |
| LifecycleInvariant.StepKeepsInv | internal/engine/constant_vus.go:59-190 | every atomic step of a worker, the pacer, the executor, the monitor or the environment keeps the invariant |
| LifecycleInvariant.WorkerKeepsInv | internal/engine/constant_vus.go:109-190 | every step of a worker goroutine keeps the invariant of the whole system |
| LifecycleTheorems.GateMonotone | internal/engine/quorum.go:89-113 | in every run the gate's counters only grow and its thresholds never change |
| LifecycleTheorems.ReportsAtMostTarget | internal/engine/constant_vus.go:149-162 | ready and failed reports together never exceed the target, since no worker reports twice |
| LifecycleTheorems.QuorumDecision | internal/engine/quorum.go:89-139 | once all workers have reported and no grace timer fired, exactly one channel is closed, and the counters say which |
| LifecycleTheorems.DropoutStopsTheRun | internal/engine/quorum.go:107-139 | after too many dropouts the quorum is missed in every state, the pacer never passes startup and no RunVU ever happens |
| LifecycleTheorems.AbortIsExplained | internal/engine/quorum.go:115-139 | the error is published before the abort channel closes, and an abort by dropout excludes an open gate |
| LifecycleTheorems.StartupOutcome | internal/engine/quorum.go:142-179 | the pacer passes startup, and a gated worker iterates, only with a quorum; a quorum error is the published one |
| LifecycleTheorems.GraceAbortCanStillOpenTheGate | internal/engine/quorum.go:89-104 | a run in which both channels are closed and RunVU happens after a grace abort |
| LifecycleTheorems.GateOutcome | internal/engine/quorum.go:89-179 | once all gated workers have reported, grace aborts included: open exactly with a quorum, and both channels closed exactly if there is a quorum and the grace timer's close is among the actions |
| LifecycleTheorems.HookOrder | internal/engine/constant_vus.go:138-190 | a worker's hooks are failed PreTests, at most one success, RunVUs only after it, then at most one AfterTest, with at most max_pretest_retries + 1 PreTests |
| LifecycleTheorems.ReturnMeansJoined | internal/engine/drain.go:45-104 | on every return path all workers have exited with their full hook sequence, the active gauge is restored and Teardown follows, once |
| LifecycleTheorems.NoWorkerMovesAfterReturn | internal/engine/drain.go:45-104 | no worker can take any step after a pacer has returned |
| LifecycleTheorems.SetupFailureStartsNothing | internal/engine/executor.go:104-109 | a failed Setup spawns no worker and runs no Teardown |
| LifecycleTheorems.StepAfterStop | internal/engine/drain.go:51-103 | after the stop signal each step of the program lowers a rank, and none from outside raises it |
| LifecycleTheorems.DrainIsBounded | internal/engine/drain.go:51-103 | after the stop signal only a bounded number of program steps remain, whatever the environment does |
| LifecycleTheorems.NoDeadlock | internal/engine/executor.go:98-168 | until the executor is done, some step of the program itself is enabled |
| LifecycleTheorems.AbortReport | internal/engine/executor.go:137-157 | an abort is reported exactly for a breached threshold and a pacer without error, with its reason, once the monitor has cancelled |
| LifecycleTheorems.BreachCanGoUnreported | internal/engine/executor.go:137-146 | a run in which the monitor cancels after a breach, the pacer returns an error and no abort is reported |
| LifecycleReasons.AbortIsJudgedOnce | internal/engine/executor.go:137-168 | every run that ends has looked once at the monitor, and its report is exactly what was there then |
| LifecycleReasons.WorkersLeaveForAReason | internal/engine/constant_vus.go:149-190 | a worker gives up exactly after max_retries + 1 failed PreTests, or interrupted by a cancel or its stop; a ready one leaves only for a cancel, an abort or its stop, and an arrival worker for the stop only when no token is left |
| LifecycleReasons.AllReportsArrive | internal/engine/constant_vus.go:149-162 | on every return path the gate has one report of each planned worker: `ready` counts exactly the successful PreTests and `failed` the others, and the gate is open exactly if the successes reach the quorum |
| LifecycleReasons.PlannedWorkersStart | internal/engine/constant_vus.go:59-73 | unless cancelled, the pacer awaits the quorum and runs with all planned workers, and exactly these are gated; a ramping pacer without a gate spawns nobody before its first stage |
| LifecycleReasons.ErrorsAreExplained | internal/engine/constant_vus.go:61-84 | a pacer ends with the context's error only after its parent or the monitor cancelled, and with a quorum error only with its workers' context cancelled |
| LifecycleReasons.EveryWorkerStoppedOnce | internal/engine/ramping_vus.go:86-92 | interleaved with the workers, no stop channel is closed twice, and each one once when the drain begins |
| LifecycleReasons.NoIterationAfterStop | internal/engine/constant_vus.go:167-175 | under a constant or ramping pacer no worker begins an iteration after the cancel or its stop |
| LifecycleReasons.IterationsAreTokens | internal/engine/arrival_rate.go:212-232 | under an arrival-rate pacer iterations begun and tokens waiting add up to the tokens queued, in every state |
| Iterations.IterationMetrics.ExecuteIteration | internal/engine/constant_vus.go:192-219 | a panic is one failed iteration and nothing else; the counters show the classification of every ending so far |
| Iterations.IterationMetrics.RecordIterationResult | internal/engine/iteration.go:52-99 | which counters move, by the run's cancellation, the deadline and the error: in a cancelled run only the total, and only without an error |
| Iterations.VerdictsPartition | internal/engine/iteration.go:33-41 | every iteration has one verdict, so total = failed + completed and nothing is lost |
| Iterations.CountersFromFlags | internal/engine/iteration.go:33-41 | over any list of endings: timeouts are the deadlines passed in a live run, failures these, the panics and the errors in time, and the total leaves out exactly the errors of a cancelled run |
| ArrivalRate.AcceptedIffSustained | internal/config/validate.go:294-308 | with an explicit timeout validation accepts exactly the pools that sustain the rate |
| ArrivalRate.AcceptedIffNoBadField | internal/config/validate.go:294-354 | a scenario is accepted exactly if no field is bad, rejected for one that is, and changed only in a timeout left out |
| ArrivalRate.AcceptedEffectiveTimeout | internal/config/validate.go:294-354 | exactly when an accepted pool sustains the timeout that its iterations really get; that timeout is the explicit one, 30 seconds, or none where allowed, before the defaulting as after it |
| ArrivalRate.BurstBuffer | internal/engine/arrival_rate.go:60-66 | the configured buffer, or else the larger of max_vus and twice the target rate; never empty |
| ArrivalRate.TokenChannel.constructor | internal/engine/arrival_rate.go:60-69 | an empty open channel of the configured size |
| ArrivalRate.TokenChannel.DispatchToken | internal/engine/arrival_rate.go:95-104 | the next number is queued or, exactly on a full buffer, dropped and counted; conservation is kept |
| ArrivalRate.TokenChannel.CloseTokens | internal/engine/arrival_rate.go:71-73 | closing is idempotent and keeps the queue |
| ArrivalRate.TokenChannel.Receive | internal/engine/arrival_rate.go:213-219 | the oldest token, never one taken before, or the news of a closed and empty channel |
| ArrivalRate.StepKeepsInv | internal/engine/arrival_rate.go:95-143 | every step of dispatcher, workers and clock keeps conservation and the bounds |
| ArrivalRate.TokensConserved | internal/engine/arrival_rate.go:95-143 | in every state of every run issued = dropped + queued + taken, none twice, and taken = counted + interrupted + running with failed at most total |
| ArrivalRate.DispatchIsSafe | internal/engine/arrival_rate.go:95-104 | nothing is sent after the close, and a dispatch drops exactly on a full buffer |
| ArrivalRate.RemainingRampIsHalf | internal/engine/arrival_rate.go:107-127 | the wait after the ramp-up token is half of the ramp-up, to a nanosecond |
| ArrivalRate.DrainTakesEveryToken | internal/engine/arrival_rate.go:212-219 | in a run that is not cancelled workers leave only when the closed buffer is empty, so every number issued was dropped or has an ending when all have left |
| Capacity.BusyUntilSlot | internal/engine/arrival_rate.go:212-232 | when all workers are busy with earlier tokens, one reaches its deadline by the token's slot |
| Capacity.QueueEmptyAtDispatch | internal/engine/arrival_rate.go:131-137 | on schedule, the queue is empty whenever a token is dispatched |
| Capacity.StepStaysOnSchedule | internal/engine/arrival_rate.go:95-143 | every prompt step keeps the schedule that no token starts later than its slot |
| Capacity.NeverDrops | internal/engine/arrival_rate.go:95-137 | in every prompt run with a sustaining pool nothing is ever dropped, with or without ramp-up token and for any buffer |
| Capacity.AcceptedScenarioNeverDrops | internal/config/validate.go:294-308 | a scenario accepted with an explicit timeout never drops an iteration once all workers are ready |
| Capacity.DispatchFindsIdleWorker | internal/engine/arrival_rate.go:95-104 | if the workers also outlast the ramp-up token, or there is none, every dispatch finds an idle worker or an iteration that is at its deadline at that instant |
| Saturation.SaturatedOnlyIfTooSmall | internal/engine/arrival_rate.go:107-137 | no fair run finds a pool saturated that sustains the rate and outlasts the ramp-up token |
| Saturation.TooSmallSaturates | internal/engine/arrival_rate.go:107-137 | every other pool is found saturated by some fair run, with or without a ramp-up |
| Saturation.AcceptedRampCanSaturate | internal/engine/arrival_rate.go:107-137 | an accepted scenario with a ramp-up and a run in which a dispatch finds every worker busy |
| Saturation.RejectedPoolDrops | internal/config/validate.go:294-308 | every pool rejected for its explicit timeout drops an iteration in some fair run that is long enough, whatever its buffer and ramp-up |
| Jitter.StepKeepsInv | internal/engine/arrival_rate.go:95-143 | with delayed dispatch and pick-up every step keeps tokens, iterations and freed workers within their delays |
| Jitter.BufferAbsorbsJitter | internal/engine/arrival_rate.go:57-67 | a buffer that outlasts the pick-up delay and the lead over an even pace (at most an interval, however late the dispatch; ramp-up token included) never overflows, and every token begins within the pick-up delay of that pace |
| Jitter.SmallerBufferDrops | internal/engine/arrival_rate.go:97-103 | every smaller buffer overflows in some run of a limiter that grants each token as early as it can, with or without a ramp-up token and however many workers there are |
| Jitter.DefaultBufferAbsorbs | internal/engine/arrival_rate.go:60-66 | the automatic buffer outlasts a lead and a pick-up delay below two seconds together |
| Jitter.AnyDispatchDelayAbsorbed | internal/engine/arrival_rate.go:60-66 | with it dispatch delays of any length are absorbed if pick-up delays stay an interval short of two seconds |
| Jitter.AcceptedWithDelayNeverDrops | internal/config/validate.go:294-308 | a scenario that would be accepted for a timeout longer by the pick-up delay, with a buffer that outlasts the delays, never drops |
| Ramping.RampingAllocator.AdjustWorkers | internal/engine/ramping_vus.go:65-93 | the stack grows on top or shrinks from the top to the desired size, and live workers are those with an open channel |
| Ramping.RampingAllocator.Grow | internal/engine/ramping_vus.go:74-85 | new workers get the next ids, in order |
| Ramping.RampingAllocator.Shrink | internal/engine/ramping_vus.go:86-92 | the youngest workers' channels are closed, youngest first, and no other |
| Ramping.RampingAllocator.StopRemaining | internal/engine/ramping_vus.go:171-177 | every channel that is still open is closed |
| Ramping.RunRampingVUs | internal/engine/ramping_vus.go:95-177 | the allocator follows the stages as specified, on both exit paths |
| Ramping.DriveStages | internal/engine/ramping_vus.go:111-161 | the stages run in order, each from the previous target, until one is cancelled |
| Ramping.DriveStage | internal/engine/ramping_vus.go:112-161 | one stage under any ticks, timer and cancellation |
| Ramping.DriveTicks | internal/engine/ramping_vus.go:136-158 | the ticks of one stage, up to the one that finds it over |
| Ramping.EveryStopClosedOnce | internal/engine/ramping_vus.go:65-177 | on every path each spawned worker's channel has been closed exactly once before the drain |
| Ramping.AdjustedStaysPartitioned | internal/engine/ramping_vus.go:65-93 | ids ascend, are never reused, and each is either live or closed once |
| Ramping.StageReachesTarget | internal/engine/ramping_vus.go:113-161 | a stage that is not cancelled ends with exactly its target, gate or not |
| Ramping.DesiredMonotone | internal/engine/ramping_vus.go:152-154 | the rounded interpolation moves monotonically from start to target |
| Ramping.TicksFollowTheLine | internal/engine/ramping_vus.go:151-157 | after any ticks of a stage the live workers are the straight line from start to target at the last tick, rounded to the nearest with halves up |
| Ramping.TicksOneWay | internal/engine/ramping_vus.go:136-157 | at any tick schedule a rising stage stops nobody and a falling one spawns nobody |
| Ramping.StageOneWay | internal/engine/ramping_vus.go:113-161 | the same for a whole stage, with the exact number of workers spawned |
| Ramping.RampingTotals | internal/engine/ramping_vus.go:111-161 | after the stages exactly the last target is live and the sum of the rises was spawned |
| Ramping.StagesCompose | internal/engine/ramping_vus.go:111-161 | running the stages is running a prefix and then the rest, so the totals hold after every stage |
| Ramping.GatedFirstTick | internal/engine/ramping_vus.go:96-157 | what the first tick leaves of a gated stage 0, and exactly when it stops nobody or everybody |
| Ramping.GatedStage | internal/engine/ramping_vus.go:96-161 | the whole gated stage 0 for every sorted schedule: it ends with its target, stops nobody exactly if no tick comes too early, and otherwise spawns the stopped workers again |
| Ramping.PacerTotals | internal/engine/ramping_vus.go:95-177 | the whole pacer, gated or not, spawns the sum of the rises and what the first tick of a gated stage 0 stopped, and stops each once |
| Ramping.CancelledTotals | internal/engine/ramping_vus.go:111-161 | after a cancellation no later stage begins: the live workers are those of the last tick, and those spawned the rises up to there |
| Ramping.FailedQuorumStopsStageZero | internal/engine/ramping_vus.go:95-110 | without a quorum exactly the workers of stage 0 are spawned and stopped, in order |
| Supervisor.BackoffIsExact | internal/engine/supervisor.go:61-65 | in int64 arithmetic the delay is min(10ms x 2^attempt, 1s) for every attempt |
| Supervisor.WrappedProductIsMultiple | internal/engine/supervisor.go:62 | from attempt 23 on the wrapped product is a multiple of 2^30 |
| Supervisor.PreTestSupervisor.RunSupervisedPreTest | internal/engine/supervisor.go:29-88 | the deciding attempt, the counters (errors = restarts + 1 exactly when exhausted), each verdict's exact condition, and sleeps that are the delay and its jitter, within [delay, 1.5 delay] |
| Sse.SSEStream.ReadString | pkg/vuhive/http/sse.go:93 | one line with its newline, or the rest of the stream |
| Sse.SSEStream.Next | pkg/vuhive/http/sse.go:74-169 | computes the next event of the remaining stream, with error and end told apart, and stops early exactly at the first look that finds the context done |
| Sse.SSEStream.Dispatch | pkg/vuhive/http/sse.go:171-191 | the current event with its default type, the time of the last event, and a sample of the time since the previous one |
| Sse.SSEStream.Events | pkg/vuhive/http/sse.go:226-241 | what is sent is a prefix of what the reader delivers, and all of it unless the context is done; the latencies sampled add up to the time until the last event |
| Sse.DeliveredIsPrefix | pkg/vuhive/http/sse.go:88-169 | a read error cuts the decoding short and changes nothing before it |
| SseBlocks.ReadsAsWritten | pkg/vuhive/http/sse.go:128-136 | each line reads as exactly the name and value it is a writing of: with a colon, an optional space, or as a bare name |
| SseBlocks.FoldReadsBlock | pkg/vuhive/http/sse.go:79-159 | the incremental variables hold what the block of lines says as a whole |
| SseBlocks.DispatchesBlock | pkg/vuhive/http/sse.go:105-109 | a block is dispatched exactly if it has a recognised field, as the event it reads as |
| SseBlocks.DecodesBlocks | pkg/vuhive/http/sse.go:74-169 | decoding a stream yields the events of its recognised blocks |
| SseRoundTrip.CRLFInvariance | pkg/vuhive/http/sse.go:103 | LF and CRLF decode alike, for every stream |
| SseRoundTrip.CRLFAnywhere | pkg/vuhive/http/sse.go:103 | the same at any single line end, so mixed endings decode alike |
| SseRoundTrip.IgnoredLine | pkg/vuhive/http/sse.go:116-159 | inserting comments or unknown fields anywhere never changes the result |
| SseRoundTrip.AnyWritingDecodesAlike | pkg/vuhive/http/sse.go:128-136 | one writing of a field may replace another on any line of any stream |
| SseRoundTrip.AtoiIff | pkg/vuhive/http/sse.go:152-156 | a retry value is accepted exactly if it is a decimal numeral of a 64-bit integer, with sign and zeros in front, and read as its number |
| SseRoundTrip.RoundTrip | pkg/vuhive/http/sse.go:103-180 | decoding a printed list of events, with or without spaces after the colons, returns all of each event but CRs at the end of its id, type and data lines, with the default type filled in |
| SseRoundTrip.UnchangedIff | pkg/vuhive/http/sse.go:103-180 | the list comes back unchanged exactly if every event has a type and no CR at the end of its id, type or a data line |
| SseStandard.DecoderEvents | pkg/vuhive/http/sse.go:74-169 | one event for each recognised ended block and one for a recognised open one |
| SseStandard.SameField | pkg/vuhive/http/sse.go:128-136 | the decoder splits each line as the standard, read on its own, does |
| SseStandard.AgreesWithStandard | pkg/vuhive/http/sse.go:88-169 | types and data agree with section 9.2.6 of the WHATWG HTML standard exactly on the conforming streams |
| TagKeys.SortedTagsKey | internal/metric/collector.go:32-56 | the canonical text of the map, for every order of iteration |
| TagKeys.MakeKey | internal/metric/collector.go:18-28 | agrees with it for every map size |
| Strings.LeIsLexicographic | internal/metric/collector.go:40-44 | the order of sort.Strings is the lexicographic one of bytes, a prefix first |
| TagKeys.CanonicalUnique | internal/metric/collector.go:32-56 | a map has one key |
| TagKeys.KeysInjective | internal/metric/collector.go:18-56 | maps without '=' in keys and ',' in values share a key only if they are equal |
| TagKeys.IdentifiedIff | internal/metric/collector.go:18-56 | exactly which tag maps share their key with no other map |
| TagKeys.CommaCollides | internal/metric/collector.go:45-55 | two maps with a comma in a value, and no '=' in a key, that share a key |
| TagKeys.EqualsCollides | internal/metric/collector.go:45-55 | two maps with an '=' in a key, and no comma in a value, that share a key |
| MetricStore.StepExtends | internal/metric/collector.go:73-108 | no step replaces or removes a published handle or name |
| MetricStore.StepKeepsInv | internal/metric/collector.go:73-108 | every atomic step of every call keeps locks, snapshots and published maps consistent |
| MetricStore.StepEffect | internal/metric/registry.go:80-124 | a step changes a published map only under its lock, and only by adding the call's own entry |
| StoreTheorems.MapsOnlyGrow | internal/metric/collector.go:92-107 | between any two states of a run the maps only grow |
| StoreTheorems.ReturnedIsPublished | internal/metric/collector.go:73-108 | a returned handle is the published one, from then on |
| StoreTheorems.OneHandlePerKey | internal/metric/collector.go:73-108 | two callers share a handle exactly if they asked for the same type and key |
| StoreTheorems.OneHandlePerTags | internal/metric/collector.go:18-108 | two callers of a name share a handle exactly if their separable tags are equal |
| StoreTheorems.SecondCallNeedsNoLock | internal/metric/collector.go:73-80 | once a metric has been handed out, later calls for it finish in one step with the same handle, whoever holds the locks |
| StoreTheorems.RegisteredNameNeedsNoLock | internal/metric/registry.go:80-92 | a registered name is decided without the registry's lock, for good |
| StoreTheorems.NamesHaveOneStorage | internal/metric/collector.go:158-194 | no metric name is ever in two of the four storages |
| StoreTheorems.CollisionPublishesNothing | internal/metric/registry.go:127-131 | a panicking call's name is in its storage at no time |
| StoreTheorems.OutcomeIsDecidedByTheName | internal/metric/registry.go:80-124 | a finished call succeeded exactly if the name belongs to its type, for good |
| StoreTheorems.NoDeadlock | internal/metric/collector.go:82-92 | the nested locks never leave all unfinished calls waiting |
| StoreTheorems.RunsAreBounded | internal/metric/collector.go:73-108 | n calls take at most 11 n steps |
| Collector.Registry.Register | internal/metric/registry.go:80-124 | the first registration decides; a collision reports both types and changes nothing |
| Collector.Registry.TypeOf | internal/metric/registry.go:143-150 | the registered type, if any |
| Collector.Registry.NamesByType | internal/metric/registry.go:153-167 | exactly the names of the type, each once, in order |
| Collector.MetricCollector.GetOrCreate | internal/metric/collector.go:158-194 | the published handle, a new one, or the panic with nothing published |
| Collector.UndisturbedCreate | internal/metric/collector.go:73-108 | the interleaved call, run alone, does what the object's method does |
| Histogram.Clamped | internal/metric/histogram.go:53-60 | the microseconds of the duration, clamped to the range at either end |
| Histogram.StripesHoldOneHistogram | internal/metric/histogram.go:53-67 | for every sequence of observations the stripes together hold all clamped samples |
| Histogram.ShardOccupancy | internal/metric/histogram.go:62 | past any number of wraps each shard has exactly its share |
| Histogram.ShardsBalanced | internal/metric/histogram.go:62 | two shards differ by at most one sample |
| Histogram.SplitOverTagsIsLossless | internal/metric/aggregator.go:64-96 | for every split over tags, merging gives back all samples |
| Histogram.StripedHistogram.Observe | internal/metric/histogram.go:53-67 | one more clamped sample, in the next stripe |
| Histogram.StripedHistogram.AddHistogram | internal/metric/histogram.go:78-82 | the VU's samples join the contents |
| Histogram.StripedHistogram.Snapshot | internal/metric/histogram.go:98-116 | the merged samples are all contents |
| Histogram.MergedHistogramSnapshot | internal/metric/aggregator.go:64-96 | the merged samples are the contents of all variants |
| HistogramRaces.StepKeepsInv | internal/metric/histogram.go:53-116 | every interleaved step keeps shards, draws and running snapshot consistent |
| HistogramRaces.ShardsHoldFinishedCalls | internal/metric/histogram.go:53-67 | at every moment the shards hold exactly the finished observations |
| HistogramRaces.DrawsBalanced | internal/metric/histogram.go:62 | at every moment two shards have been drawn at most once apart |
| HistogramRaces.SnapshotIsBracketed | internal/metric/histogram.go:98-116 | a concurrent snapshot has all observations finished before it and none from after it |
| MergeRaces.MoveKeepsMerge | internal/metric/aggregator.go:80-95 | every step of a merge that reads live shards value by value, and of the observations beside it, keeps each value between its bounds |
| MergeRaces.MergeIsBracketed | internal/metric/aggregator.go:64-96 | a merge during the run has every value at least as often as when it began and at most as often as by its end, although shards are read unlocked, provided that the library passes over none of a shard's values |
| Watchdog.CountedOnceIfSeen | internal/engine/watchdog.go:36-46 | with atomic operations an iteration is counted once exactly if some scan sees it past the threshold |
| Watchdog.EffectiveThreshold | internal/engine/watchdog.go:178-190 | a configured threshold wins; otherwise it is three times the 99th percentile capped by the VU timeout, and without samples that timeout or 30 seconds |
| Watchdog.VuTracker.Begin | internal/engine/watchdog.go:36-41 | the tracker's new state |
| Watchdog.VuTracker.End | internal/engine/watchdog.go:43-45 | the tracker is inactive and otherwise unchanged |
| Watchdog.ExecutionWatchdog.RegisterVU | internal/engine/watchdog.go:120-129 | a fresh tracker at the end of the list |
| Watchdog.ExecutionWatchdog.Unregister | internal/engine/watchdog.go:131-141 | removes exactly that tracker and keeps the others' order |
| Watchdog.ExecutionWatchdog.CheckStalledIterations | internal/engine/watchdog.go:178-210 | each tracker is scanned once and the counter grows by the newly stalled |
| WatchdogRaces.StepKeepsInv | internal/engine/watchdog.go:36-46 | every atomic operation keeps the counted iterations distinct, the starts in step with the resets, and the stalled flag true exactly for a counted iteration |
| WatchdogRaces.StallsAtMostIterations | internal/engine/watchdog.go:192-209 | in every interleaving stalls never exceed iterations begun, per tracker and in all |
| WatchdogRaces.SwapCountsMeasuredIff | internal/engine/watchdog.go:192-205 | in every run a successful swap counts the iteration whose start was loaded exactly if the flag was not reset in between, with the load just before a reset as its own case |
| WatchdogRefinement.CountedIffSeenWithoutOverlap | internal/engine/watchdog.go:36-46 | if no Begin or End overlaps a measurement, a tracker counts exactly the iterations some scan sees overdue |
| WatchdogRefinement.StepAbstracts | internal/engine/watchdog.go:36-46 | without overlap the single operations refine the atomic ones, step by step |
| WatchdogRaces.StaleScanMarksNextIteration | internal/engine/watchdog.go:194-205 | a run in which a scan marks an iteration it has not measured |
| Checks.CheckKeyIsCanonical | internal/engine/context.go:428-431 | the check's key is the one makeKey gives its tags |
| Checks.CounterStore.GetOrCreate | internal/metric/collector.go:158-164 | the published counter, or a new one at zero |
| Checks.CheckContext.PairFor | internal/engine/context.go:426-436 | the cached pair is the published pair |
| Checks.CheckContext.RecordCheck | internal/engine/context.go:418-448 | exactly this verdict's counter grows by one, and without a collector nothing is counted |
| CheckSummaries.CheckSummaries | internal/metric/aggregator.go:149-195 | one entry for every named check, sorted, with everything counted under the name |
| CheckSummaries.SummaryAddsUp | internal/metric/aggregator.go:182-192 | total and percentage of an entry: 0 without checks, the share of passed checks otherwise, 100 exactly if some passed and none failed |
| CheckSummaries.ShareANameIff | internal/metric/aggregator.go:156-159 | two counters of a kind are reported under one name exactly if their keys are equal but for a leading "name=" |
| CheckSummaries.ReportIsUnique | internal/metric/aggregator.go:175-195 | the counters determine the report, whatever order the maps are visited in |
| CheckSummaries.AggregatedCounterValue | internal/metric/aggregator.go:100-108 | the sum over all tag variants |
| CheckSummaries.TotalsAreAggregated | internal/metric/aggregator.go:149-195 | the report's totals are the aggregated counters less the unnamed checks |
| CheckRuns.StepKeepsInv | internal/engine/context.go:418-448 | every interleaved step keeps caches, handles and counts consistent |
| CheckRuns.ReportIsExact | internal/metric/aggregator.go:149-195 | whatever has been interleaved, a report of the counters at one instant shows for each name exactly the finished calls, their total and the percentage passed, and lists each named check once |
| CheckRuns.TotalsMatchIffNamed | internal/metric/aggregator.go:156-159 | the totals are the aggregated counters exactly if no check had the empty name, when only checks use the check counters |
| CheckRuns.RecordedCounts | internal/engine/context.go:418-448 | from an empty store, after any sequence of checks both counters of every name checked exist and hold the number of its calls |
| CheckReads.MoveKeepsInv | internal/metric/aggregator.go:152-172 | every step of a report that reads one counter after another, and of the checks beside it, keeps the values read between their bounds |
| CheckReads.ReportIsBracketed | internal/metric/aggregator.go:149-195 | a report taken during the run lies, name by name, between the calls finished when it began and those finished when it ended, with total and percentage of the numbers read, and lists every named check finished by its beginning |
| DataSets.DataSet.Next | pkg/vuhive/data/dataset.go:45-84 | the record or error of every strategy, and the cursor |
| DataSets.SequentialKeepsPromiseIff | pkg/vuhive/data/dataset.go:57-63 | the record is the promised one exactly if the sum fits, or wraps to a multiple of n where n divides 2^64; it panics exactly if it wraps to anything but a multiple of n |
| DataSets.OverflowCanMislead | pkg/vuhive/data/dataset.go:57-63 | an overflow that hands out the wrong record without an error |
| DataSets.WindowVisitsEachOnce | pkg/vuhive/data/dataset.go:57-63 | n consecutive iterations of a VU visit every record exactly once |
| DataSets.CollideIffOffsetsAgree | pkg/vuhive/data/dataset.go:57-63 | two VUs get the same record exactly if their offsets agree modulo n |
| DataSets.CollideIffIdsAgree | pkg/vuhive/data/dataset.go:57-63 | for ids from 1 on, exactly if the ids agree modulo n |
| DataSets.PartitionedIff | pkg/vuhive/data/dataset.go:53-63 | exactly when no record goes to two VUs |
| DataSets.NeighboursOverlap | pkg/vuhive/data/dataset.go:53-63 | VU 1 in iteration 1 and VU 2 in iteration 0 get the same record, for every number of records |
| SharedQueues.StepKeepsInv | pkg/vuhive/data/dataset.go:70-75 | every interleaved step keeps draws and answers in correspondence |
| SharedQueues.EachRecordAtMostOnce | pkg/vuhive/data/dataset.go:70-75 | no record is dispensed twice |
| SharedQueues.EveryRecordDispensed | pkg/vuhive/data/dataset.go:70-75 | the first n draws dispense every record, the others report exhaustion |
| SharedQueues.ExhaustedForever | pkg/vuhive/data/dataset.go:70-75 | no draw after the n-th is ever answered with a record |
| SharedQueues.PromiseHoldsIffNotWrapped | pkg/vuhive/data/dataset.go:71-75 | in every run a draw is answered as promised exactly if it is one of the first n or the wrapped cursor is at or past n; within 2^64 draws, exactly while the cursor has not wrapped |

## Left out

- HTTP, Kafka and NATS clients, connection pools, TLS and tracing: network plumbing over unseen libraries.
- Configuration loading, command-line flags, console and JSON reports, logging: input and output.
- HDR bucket layout, percentiles and means: a histogram is the multiset of its samples.
- Delay generators and the choice of random records: the drawn number is a parameter.
- Real clocks and scheduler fairness: ticks, timers and clock readings are arbitrary; progress is stated as absence of deadlock and bounded remaining work.
- float64 rounding of ratios, of the Little's-law product, of the interpolation and of pass percentages: exact arithmetic instead.
- Most of Validate and the threshold evaluator: only the arrival-rate branch with the capacity rule is modelled; a breach is an event.
- Groups, rates and gauges in the aggregator: the same loops as for counters, without a further property.
- The pacers' spawn loops, drainWorkers, Execute and MonitorAbortThresholds as sequential methods: they matter interleaved with the workers, so they exist as steps of `Lifecycle`, which does not capture the order in which several ready select cases of one goroutine were written.
- Group timings, parameter tracking and the per-iteration reset of a VU's context.
- An executor without a pacing engine, which returns before Teardown.
- Waiting for the watchdog's goroutine in Stop, and the backing array its list shares after a removal.
- The channel behind the SSE Events, with its buffer of 16, and Close, which ends the stream from outside.
- The library's way through a live histogram: the count of each value is read once, in any order, and reading does not stop early on an outdated total.
- The iteration number a stall warning logs, which is loaded after the swap.
- Check counters that a scenario creates itself through its metrics (pkg/vuhive/suite.go:186): `CheckRuns` has all other counters; for arbitrary counters `TotalsAreAggregated` still holds.
- Overflow of counters of events (iterations, issued tokens, worker ids) past 63 bits.
- Nested locks of a panicking GetOrCreate are released in one step each, as deferred calls do.
- Saturation.RejectedPoolDrops: the run is as long as its buffer takes to fill; the end of the run period, which may come earlier, is an arbitrary step.
- Capacity.NeverDrops: assumes that an idle worker picks up a queued token before time passes; delays are treated in `Jitter`, where the number of ready workers is fixed.
- SseRoundTrip.RoundTrip: takes ids and types without LF, which no line can carry.
- SseStandard.AgreesWithStandard: compares types and data only, and streams whose CRs are all part of a CRLF and that have no byte order mark.
