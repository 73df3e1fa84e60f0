# CPU-scheduling core, modelled in Dafny

This project models the scheduling core of a small CPU-scheduling simulator
(`src/Components/Algorithms/`). The core has four policies over a discrete,
integer clock:

- first come, first served (FCFS);
- shortest job first, non-preemptive (SJF);
- shortest remaining time first, preemptive (SRTF);
- Round Robin with a fixed quantum (RR).

Each policy has a batch runner (`runFCFS`, `runSJF`, `runSRTF`,
`runRoundRobin`). The runner takes a list of processes and returns the
execution history (one `ExecutionStep` per executed tick) and the per-process
results.

FCFS, SJF and RR also have an incremental engine (`createFCFSEngine`,
`createSJFEngine`, `createRoundRobinEngine`). An engine is a closure over a
clock, a ready queue, counters and a running process. It offers `addProcess`
and a one-unit `tick()`, and it reports through the `onStep`, `onFinish` and
`onComplete` callbacks.

Modules, one per source file:

- `Common` (common.dfy). The shared records `Process`, `ExecutionStep` and
  `ProcessResult`; the metric definitions Tr = cf − ti, Te = Tr − τ and
  Is = τ / Tr; and the queue helpers the schedulers repeat: admitting one
  tick's arrivals, finding and splicing an entry by pid, and sorting results
  by name.
- `Sorting` (sorting.dfy). A stable insertion sort that stands in for
  `Array.prototype.sort`.
- `Fcfs`, `Sjf`, `Srtf` and `RoundRobin` (fcfs.dfy, sjf.dfy, srtf.dfy,
  round_robin.dfy). One module per policy.

How the policies are modelled:

- Batch runners are methods with the source's `while` and `for` loops. Each
  is proved equal to a functional specification: one function per loop
  iteration, plus a recursive function that runs the loop to its end. The
  properties are lemmas about that specification.
- Each engine is a class whose fields are the closure's variables. Its
  `AddProcess` and `Tick` are proved to produce the state that the pure
  functions `AfterAdd` and `AfterTick` give. They keep the invariant
  `EngineInv`.
- The callbacks are logs in the `Events` record: `steps`, `finishes` and
  `completes`.

Preconditions, as the process form enforces them:

- pids are unique;
- `burstTime >= 1`;
- `arrivalTime >= 0`;
- for Round Robin, `quantum >= 1`.

Without these, `runSRTF` and `runRoundRobin` need not terminate.

## Model

| member | source | states |
|---|---|---|
| Common.MakeResult | src/Components/Algorithms/common.ts:30-38 | the record of process p finishing at cf copies p's pid, name, arrival and burst; has finishTime cf; turnaround Tr = cf − arrival; waiting Te = Tr − burst; service index Is = burst / Tr (0 when Tr = 0) |
| Common.MetricBounds | src/Components/Algorithms/common.ts:35-38 | a record that finishes no earlier than arrival + burst has Tr >= τ and Te >= 0; its Is lies in (0, 1] and Is · Tr = τ |
| Common.SortByName | src/Components/Algorithms/FCFS.ts:62 | `results.sort` by name returns the same records (a permutation), ordered by the name order |
| Common.ByNameIsTotalPreorder | src/Components/Algorithms/FCFS.ts:62 | the comparison by name is total and transitive, so sorting by it is well defined |
| Common.NameLeTotal | src/Components/Algorithms/FCFS.ts:62 | any two names are comparable under the fixed order standing in for `localeCompare` |
| Common.NameLeTransitive | src/Components/Algorithms/FCFS.ts:62 | the name order is transitive |
| Sorting.InsertionSort | src/Components/Algorithms/FCFS.ts:62 | the sort returns a sorted permutation of its input, of the same length |
| Sorting.Insert | src/Components/Algorithms/FCFS.ts:62 | inserting into a sorted sequence keeps it sorted and adds exactly the one element |
| Common.ArrivingAt | src/Components/Algorithms/SJF.ts:37-39 | the processes pushed for tick t are exactly the inputs arriving at t; with unique input pids they have unique pids |
| Common.ArrivingAtConcat | src/Components/Algorithms/SRTF.ts:53-57 | admission keeps input order: the arrivals of `a + b` are those of `a` followed by those of `b` |
| Common.EnqueueArrivals | src/Components/Algorithms/RoundRobin.ts:28-30 | the admission loop appends exactly `ArrivingAt(procs, t)` to the queue |
| Common.FindPid | src/Components/Algorithms/SJF.ts:90 | `findIndex` by pid gives the first index holding that pid, or −1 when no entry has it |
| Common.RemoveFirstPidMembers | src/Components/Algorithms/SJF.ts:90-91 | splicing out the first entry with a pid keeps every other process and adds none |
| Common.RemoveAtPids | src/Components/Algorithms/FCFS.ts:100-101 | splicing index k out of a queue with distinct pids leaves distinct pids, minus exactly the removed one |
| Common.InitialRemaining | src/Components/Algorithms/SRTF.ts:42-45 | the remaining-time table has a key for each input pid, holding that process's burst |
| Common.CopyBurstTimes | src/Components/Algorithms/SRTF.ts:43-45 | the `forEach` loop builds exactly `InitialRemaining` |
| Common.SumRemainingIsBurst | src/Components/Algorithms/RoundRobin.ts:18-20 | before anything runs, the total remaining work is `totalBurst` |
| Common.SumRemainingUpdate | src/Components/Algorithms/RoundRobin.ts:52 | changing one process's remaining time changes the total by exactly the difference |
| Common.SumBurstPermutation | src/Components/Algorithms/FCFS.ts:16-18 | reordering the processes does not change the total burst |
| Common.BurstOfBounds | src/Components/Algorithms/SJF.ts:33-35 | the burst of the finished set lies between 0 and `totalBurst`; it equals `totalBurst` iff every pid is in the set |
| Common.BurstOfAdd | src/Components/Algorithms/SJF.ts:89 | marking a new pid finished adds that process's burst |
| Common.BlockRunsToCompletion | src/Components/Algorithms/FCFS.ts:34-43 | a process's block of steps counts remainingTime down from burst − 1 to 0, one step per tick |
| Common.BlockTimes | src/Components/Algorithms/FCFS.ts:34-43 | the block's step times are consecutive and increasing, from its start to start + burst |
| Common.ConcatTimes | src/Components/Algorithms/FCFS.ts:25-43 | histories laid end to end keep increasing times within the combined bounds |
| Common.ConcatRunsToCompletion | src/Components/Algorithms/FCFS.ts:25-43 | two histories that each run their processes to completion still do so when concatenated |
| Common.AppendFreshPid | src/Components/Algorithms/SJF.ts:123 | pushing a process whose pid is not queued keeps the queue's pids distinct and adds exactly its pid |
| Common.SamePidSameProcess | src/Components/Algorithms/FCFS.ts:74 | with unique pids, two input entries with one pid are the same process |
| Fcfs.ArrivalOrder | src/Components/Algorithms/FCFS.ts:16-18 | the copied and sorted input is a permutation of the input, sorted by (arrival, pid) |
| Fcfs.ArrivalOrderIsStrict | src/Components/Algorithms/FCFS.ts:18 | with unique pids, the order is strictly ascending in (arrival, pid) |
| Fcfs.ArrivalLeIsTotalPreorder | src/Components/Algorithms/FCFS.ts:18 | the comparator `a.arrivalTime - b.arrivalTime \|\| a.pid - b.pid` is a total preorder |
| Fcfs.RunFcfs | src/Components/Algorithms/FCFS.ts:13-64 | the batch runner returns the `Timeline` of the arrival order from t = 0, and that order's `Completions` sorted by name |
| Fcfs.ServeProcess | src/Components/Algorithms/FCFS.ts:25-60 | one pass of the outer loop serves `procs[i]` and keeps the history and results a prefix of the whole run |
| Fcfs.ServeToCompletion | src/Components/Algorithms/FCFS.ts:34-43 | the inner loop pushes exactly the process's block: burst steps at consecutive ticks, remainingTime down to 0 |
| Fcfs.ServeNext | src/Components/Algorithms/FCFS.ts:26-59 | each process starts at max(clock, arrival) and runs its whole block; it is recorded as finishing at that start + burst |
| Fcfs.ServeStepTimeline | src/Components/Algorithms/FCFS.ts:25-43 | after serving process i, the history so far followed by the rest of the timeline is still the whole timeline |
| Fcfs.ServeStepCompletions | src/Components/Algorithms/FCFS.ts:45-59 | after serving process i, the results so far followed by the rest of the completions are still all the completions |
| Fcfs.TimelineShape | src/Components/Algorithms/FCFS.ts:25-43 | the history has exactly Σ burst steps, with strictly increasing times, each process counting down to 0 |
| Fcfs.TimelineLength | src/Components/Algorithms/FCFS.ts:34-43 | the history has one step per unit of burst, and the clock never goes back |
| Fcfs.TimelineTimes | src/Components/Algorithms/FCFS.ts:26-43 | step times strictly increase and lie between the start clock and the final clock |
| Fcfs.TimelineRuns | src/Components/Algorithms/FCFS.ts:34-43 | every process's steps count remainingTime down to 0 |
| Fcfs.TimelineBlocks | src/Components/Algorithms/FCFS.ts:25-43 | process i's steps are one contiguous block placed after the earlier processes' steps |
| Fcfs.TimelineSplit | src/Components/Algorithms/FCFS.ts:25-43 | the timeline of a sequence is the timeline of a prefix followed by that of the rest, from the clock the prefix ends at |
| Fcfs.CompletionsLength | src/Components/Algorithms/FCFS.ts:50-59 | one result per served process |
| Fcfs.CompletionAt | src/Components/Algorithms/FCFS.ts:26-29 | result i finishes at max(previous finish, arrival) + burst |
| Fcfs.FinishesIncrease | src/Components/Algorithms/FCFS.ts:45 | later-served processes finish strictly later |
| Fcfs.CompletionsShape | src/Components/Algorithms/FCFS.ts:26-59 | each result describes its process and satisfies the metrics; finish − burst is the start max(prev finish, arrival); finish >= arrival + burst and waiting >= 0; finish times increase |
| Fcfs.CompletionsRecorded | src/Components/Algorithms/FCFS.ts:50-59 | results come in serving order, one per process, each the record of an input process, with waiting >= 0 |
| Fcfs.RunFcfsResults | src/Components/Algorithms/FCFS.ts:50-63 | the returned results are sorted by name, one per input pid, each recording its input process with waiting >= 0 |
| Fcfs.InitInv | src/Components/Algorithms/FCFS.ts:71-82 | a fresh engine satisfies the engine invariant |
| Fcfs.AfterAdd | src/Components/Algorithms/FCFS.ts:84-90 | a known pid changes nothing; a new one is registered and inserted so that the queue is its old contents plus p, sorted by (arrival, pid); nothing else changes |
| Fcfs.AddPreservesInv | src/Components/Algorithms/FCFS.ts:84-90 | `addProcess` keeps the engine invariant |
| Fcfs.AddKeepsQueue | src/Components/Algorithms/FCFS.ts:86-89 | adding a new pid keeps the queue well formed and adds exactly its pid to the queued pids |
| Fcfs.AddKeepsResults | src/Components/Algorithms/FCFS.ts:84-90 | registering a process keeps every result the record of a registered process |
| Fcfs.FirstArrived | src/Components/Algorithms/FCFS.ts:95 | `queue.find(p => p.arrivalTime <= t)` gives the first entry that has arrived, or none |
| Fcfs.AfterTick | src/Components/Algorithms/FCFS.ts:92-148 | a tick advances t by 1; it keeps an unfinished running process; it logs at most one step and keeps the earlier ones; an idle tick logs none; a finish is logged with finishTime t + 1 |
| Fcfs.ExecuteFinishes | src/Components/Algorithms/FCFS.ts:116-136 | executing either reports no finish or reports the running process with finishTime t + 1 |
| Fcfs.TickPreservesInv | src/Components/Algorithms/FCFS.ts:92-148 | `tick` keeps the engine invariant |
| Fcfs.DispatchInv | src/Components/Algorithms/FCFS.ts:94-103 | dispatching moves an arrived entry out of the queue into `current` and keeps the invariant |
| Fcfs.RemoveAtKeepsQueue | src/Components/Algorithms/FCFS.ts:100-101 | the splice keeps the queue well formed and removes exactly that pid |
| Fcfs.ExecuteInv | src/Components/Algorithms/FCFS.ts:105-137 | executing one unit keeps the invariant for the next clock value |
| Fcfs.TickDoneIff | src/Components/Algorithms/FCFS.ts:141-147 | `tick` returns true iff nothing runs and the queue is empty; then every registered process has exactly one result |
| Fcfs.DrainedMeansRecorded | src/Components/Algorithms/FCFS.ts:141 | with nothing running and nothing queued, `results.length == all.size` and the results cover every pid |
| Fcfs.TickDispatchesHead | src/Components/Algorithms/FCFS.ts:94-114 | with nothing running, a tick runs the queue head iff it has arrived by t, logging it at time t and removing it; otherwise nothing runs and the queue is unchanged |
| Fcfs.FcfsEngine.constructor | src/Components/Algorithms/FCFS.ts:71-82 | the engine starts at the given clock, empty, with the invariant |
| Fcfs.FcfsEngine.AddProcess | src/Components/Algorithms/FCFS.ts:84-90 | the new state is `AfterAdd` of the old one, and the invariant holds |
| Fcfs.FcfsEngine.Tick | src/Components/Algorithms/FCFS.ts:92-148 | the new state and return value are `AfterTick` of the old state, and the invariant holds |
| Fcfs.FcfsEngine.DispatchPhase | src/Components/Algorithms/FCFS.ts:94-103 | the fields change as the dispatch phase specifies |
| Fcfs.FcfsEngine.ExecutePhase | src/Components/Algorithms/FCFS.ts:105-137 | the fields change as the execute phase specifies |
| Fcfs.FcfsEngine.AdvancePhase | src/Components/Algorithms/FCFS.ts:139-147 | the clock advances; the done test, sort and completion report follow `Advance` |
| Sjf.BetterCandidate | src/Components/Algorithms/SJF.ts:13-19 | returns one of its arguments; that one is least in (burst, arrival, pid), and `a` wins when it is not greater |
| Sjf.BetterCandidateSymmetric | src/Components/Algorithms/SJF.ts:13-19 | for distinct pids the result does not depend on argument order |
| Sjf.KeyLeIsTotalPreorder | src/Components/Algorithms/SJF.ts:13-19 | the (burst, arrival, pid) order is a total preorder; it ties only entries with one pid |
| Sjf.Best | src/Components/Algorithms/SJF.ts:47 | the `reduce` over a non-empty queue picks a queued process that is (burst, arrival, pid)-least |
| Sjf.BestUnique | src/Components/Algorithms/SJF.ts:47 | queues holding the same processes, with unique pids, select the same process whatever their order |
| Sjf.Without | src/Components/Algorithms/SJF.ts:52 | the filter keeps exactly the entries with another pid |
| Sjf.WithoutConcat | src/Components/Algorithms/SJF.ts:52 | the filter keeps queue order: filtering `a + b` filters `a`, then `b` |
| Sjf.Snapshot | src/Components/Algorithms/SJF.ts:50-53 | the logged queue lists the selected pid first; the remaining pids are exactly the other queued pids |
| Sjf.SnapshotConcat | src/Components/Algorithms/SJF.ts:50-53 | the snapshot keeps queue order and repetitions: over `a + b` it is the snapshot over `a` followed by the other pids of `b`, in order |
| Sjf.PidsWithout | src/Components/Algorithms/SJF.ts:52 | the filtered queue's pids are the queue's pids except the removed one |
| Sjf.BurstEffect | src/Components/Algorithms/SJF.ts:56-70 | the inner loop advances t and `executed` by the units left, and records no result |
| Sjf.BurstHistory | src/Components/Algorithms/SJF.ts:56-64 | the inner loop logs the rest of the process's block: consecutive ticks, remainingTime down to 0 |
| Sjf.BurstReady | src/Components/Algorithms/SJF.ts:66-69 | the inner loop keeps every queued entry and adds exactly the processes arriving at the ticks it passes |
| Sjf.InitInv | src/Components/Algorithms/SJF.ts:25-33 | the loop invariant holds initially |
| Sjf.AdmitOk | src/Components/Algorithms/SJF.ts:37-39 | after admission, every input process that has arrived and is unfinished is queued |
| Sjf.IdleOk | src/Components/Algorithms/SJF.ts:41-44 | an idle iteration keeps the invariant and decreases the termination measure |
| Sjf.RunOk | src/Components/Algorithms/SJF.ts:46-91 | a running iteration keeps the invariant and decreases the termination measure |
| Sjf.FinishReady | src/Components/Algorithms/SJF.ts:89-91 | after the finished process's first entry is spliced out, the queue invariant holds at the new clock |
| Sjf.FinishFinished | src/Components/Algorithms/SJF.ts:78-89 | recording the finished process keeps the finished-set and `executed` accounting |
| Sjf.FinishHistory | src/Components/Algorithms/SJF.ts:56-64 | the history stays time-ordered and runs each process to completion |
| Sjf.IterationOk | src/Components/Algorithms/SJF.ts:35-92 | each iteration of the `while` loop keeps the invariant and decreases the measure |
| Sjf.SjfRunInv | src/Components/Algorithms/SJF.ts:35 | the loop ends with `executed >= totalBurst`, still satisfying the invariant |
| Sjf.RunSjf | src/Components/Algorithms/SJF.ts:22-96 | the runner returns the specification's history, and its results sorted by name |
| Sjf.RunLoop | src/Components/Algorithms/SJF.ts:35-92 | the `while` loop reaches exactly the state `SjfRun` specifies |
| Sjf.Iterate | src/Components/Algorithms/SJF.ts:36-91 | one pass of the loop body computes `SjfIteration` |
| Sjf.RunBurst | src/Components/Algorithms/SJF.ts:56-70 | the inner `for` loop computes `Burst` |
| Sjf.SjfOutcomeFacts | src/Components/Algorithms/SJF.ts:22-96 | the history has at least Σ burst steps, increasing in time, each process counting down to 0; each result records an input process |
| Sjf.SjfIdleIteration | src/Components/Algorithms/SJF.ts:41-44 | with nothing queued after admission, the clock advances by 1 and nothing is logged or recorded |
| Sjf.SjfPicksShortest | src/Components/Algorithms/SJF.ts:46-87 | the selected process is an input process, least in (burst, arrival, pid) among the queue; it runs its whole burst from t in one block of steps whose snapshot lists it first; it is recorded as finishing at t + burst |
| Sjf.IterationRunsBest | src/Components/Algorithms/SJF.ts:47-87 | an iteration runs the selected process to completion, non-preemptively |
| Sjf.RunToCompletion | src/Components/Algorithms/SJF.ts:56-87 | running a process's whole burst logs its block and records it finishing at start + burst |
| Sjf.BestFromInput | src/Components/Algorithms/SJF.ts:47 | the selected process is one of the valid input processes |
| Sjf.SjfAdmitsTwice | src/Components/Algorithms/SJF.ts:37-69 | a process arriving exactly when a burst ends is queued twice: once by the inner loop, again by the next admission |
| Sjf.StartInv | src/Components/Algorithms/SJF.ts:103-117 | a fresh engine satisfies the engine invariant |
| Sjf.AddPreservesInv | src/Components/Algorithms/SJF.ts:119-124 | `addProcess` keeps the invariant and registers the pid; a new process that has arrived is queued |
| Sjf.AddKeepsQueue | src/Components/Algorithms/SJF.ts:123 | pushing an arrived new process keeps the queue well formed |
| Sjf.AddKeepsResults | src/Components/Algorithms/SJF.ts:119-124 | registering a process keeps every result the record of a registered process |
| Sjf.AdmitFrom | src/Components/Algorithms/SJF.ts:126-134 | admission only appends; it appends only registered processes arriving at `time` that are unfinished |
| Sjf.AdmitFromOk | src/Components/Algorithms/SJF.ts:126-134 | admission keeps queued pids distinct, keeps every entry, and admits every unfinished process arriving at `time` |
| Sjf.TickPreservesInv | src/Components/Algorithms/SJF.ts:147-204 | `tick` keeps the engine invariant |
| Sjf.EnqueueInv | src/Components/Algorithms/SJF.ts:148 | after admission, every unfinished registered process that has arrived by t is queued or running |
| Sjf.SelectInv | src/Components/Algorithms/SJF.ts:151-154 | selecting a process keeps the invariant |
| Sjf.ExecuteInv | src/Components/Algorithms/SJF.ts:158-194 | executing one unit keeps the invariant for the next clock value |
| Sjf.RetireInv | src/Components/Algorithms/SJF.ts:170-193 | retiring the running process keeps the invariant |
| Sjf.FinishQueue | src/Components/Algorithms/SJF.ts:190-191 | the splice removes the finished pid and keeps the queue well formed |
| Sjf.FinishResults | src/Components/Algorithms/SJF.ts:171-187 | the new record keeps the results one per finished pid, each recording its process |
| Sjf.AdvanceInv | src/Components/Algorithms/SJF.ts:196-203 | advancing the clock and reporting completion keeps the invariant |
| Sjf.TickBasics | src/Components/Algorithms/SJF.ts:147-204 | a tick advances t by 1; it logs at most one step, keeping the earlier ones; `executed` grows by the number of steps logged |
| Sjf.ExecuteBasics | src/Components/Algorithms/SJF.ts:158-194 | the execute phase logs at most one step, one per unit executed |
| Sjf.TickSelectsBest | src/Components/Algorithms/SJF.ts:148-168 | with nothing running, an empty queue logs nothing; otherwise the step runs the (burst, arrival, pid)-least queued process, with its burst − 1 left and a snapshot led by its pid |
| Sjf.TickKeepsCurrent | src/Components/Algorithms/SJF.ts:150-168 | a running process that is not on its last unit keeps the CPU whatever has arrived; the step logs its remaining time less one |
| Sjf.TickRetires | src/Components/Algorithms/SJF.ts:170-193 | a process on its last unit is reported with finishTime t + 1, marked finished, recorded and released |
| Sjf.TickRetiresFromQueue | src/Components/Algorithms/SJF.ts:190-191 | after it finishes, no queue entry carries its pid |
| Sjf.TickDoneIff | src/Components/Algorithms/SJF.ts:198-203 | `tick` returns true iff nothing runs and every registered pid has finished; then the queue is empty, there is one result per process, sorted by name, and it is reported in this tick |
| Sjf.WorkBounds | src/Components/Algorithms/SJF.ts:110-111 | `executed <= totalBurst`, and equality holds iff nothing runs and every pid has finished |
| Sjf.AllFinished | src/Components/Algorithms/SJF.ts:187-191 | once every pid has finished, the queue is empty and the results cover each process once |
| Sjf.FinishesOnce | src/Components/Algorithms/SJF.ts:129 | the engine reports each pid's finish at most once, each report recording a registered process |
| Sjf.SjfEngine.constructor | src/Components/Algorithms/SJF.ts:103-117 | the engine starts at the given clock, empty, with the invariant |
| Sjf.SjfEngine.AddProcess | src/Components/Algorithms/SJF.ts:119-124 | the new state is `AfterAdd` of the old one, and the invariant holds |
| Sjf.SjfEngine.Tick | src/Components/Algorithms/SJF.ts:147-204 | the new state and return value are `AfterTick` of the old state, and the invariant holds |
| Sjf.SjfEngine.EnqueueArrivalsAt | src/Components/Algorithms/SJF.ts:126-134 | the loop over registered processes sets the queue to `AdmitFrom` of the old queue |
| Sjf.SjfEngine.SelectPhase | src/Components/Algorithms/SJF.ts:151-154 | the fields change as the selection phase specifies |
| Sjf.SjfEngine.ExecutePhase | src/Components/Algorithms/SJF.ts:156-194 | the fields change as the execute phase specifies |
| Sjf.SjfEngine.ConsumeUnit | src/Components/Algorithms/SJF.ts:159-168 | one unit is consumed and logged |
| Sjf.SjfEngine.RetireCurrent | src/Components/Algorithms/SJF.ts:171-192 | the finished process is recorded, reported, marked finished, removed from the queue and released |
| Sjf.SjfEngine.AdvancePhase | src/Components/Algorithms/SJF.ts:196-203 | the clock advances; the done test, sort and completion report follow `Advance` |
| Srtf.ShortestIndex | src/Components/Algorithms/SRTF.ts:61-65 | the `reduce` picks a queue index of least remaining time; every earlier entry has strictly more, so ties go to the earliest entry |
| Srtf.SrtfResult | src/Components/Algorithms/SRTF.ts:79-93 | the unguarded metrics agree with the shared record whenever finish > arrival |
| Srtf.InitInv | src/Components/Algorithms/SRTF.ts:37-49 | the loop invariant holds initially |
| Srtf.AdmitOk | src/Components/Algorithms/SRTF.ts:53-57 | after admission, every input process that has arrived and is unfinished is queued |
| Srtf.AdmittedEntries | src/Components/Algorithms/SRTF.ts:53-57 | every queued entry has a remaining time and has arrived |
| Srtf.IdleOk | src/Components/Algorithms/SRTF.ts:60-104 | an idle iteration keeps the invariant and decreases the termination measure |
| Srtf.IdleKeepsInv | src/Components/Algorithms/SRTF.ts:103-104 | a tick with an empty queue only advances the clock and keeps the invariant |
| Srtf.SomePending | src/Components/Algorithms/SRTF.ts:51 | while `finished.size < processes.length`, some process has work left |
| Srtf.RunOk | src/Components/Algorithms/SRTF.ts:67-101 | running the selected process one unit keeps the invariant and decreases the measure |
| Srtf.RunProgress | src/Components/Algorithms/SRTF.ts:69 | one unit lowers the total remaining time by exactly 1, which stays >= 0 |
| Srtf.RunReady | src/Components/Algorithms/SRTF.ts:95-99 | after the unit, and the splice when it finishes, the queue invariant holds |
| Srtf.RunFinished | src/Components/Algorithms/SRTF.ts:78-95 | a process joins `finished`, with its record, exactly when its remaining time reaches 0 |
| Srtf.RunHistory | src/Components/Algorithms/SRTF.ts:70-75 | the step is logged with the remaining time after the unit, and times increase |
| Srtf.IterationOk | src/Components/Algorithms/SRTF.ts:51-105 | each iteration keeps the invariant and decreases the measure |
| Srtf.SrtfRunInv | src/Components/Algorithms/SRTF.ts:51 | the loop ends with every process finished, still satisfying the invariant |
| Srtf.RunSrtf | src/Components/Algorithms/SRTF.ts:33-108 | the runner returns the specification's history and its results, in completion order and not re-sorted |
| Srtf.RunLoop | src/Components/Algorithms/SRTF.ts:51-105 | the `while` loop reaches exactly the state `SrtfRun` specifies |
| Srtf.Iterate | src/Components/Algorithms/SRTF.ts:52-104 | one pass of the loop body computes `SrtfIteration` |
| Srtf.RunShortest | src/Components/Algorithms/SRTF.ts:67-101 | running the selected process one unit computes `RunUnit` |
| Srtf.SrtfOutcomeComplete | src/Components/Algorithms/SRTF.ts:33-108 | there is one result per input pid, each recording its process; there are exactly Σ burst steps, with strictly increasing times |
| Srtf.AllFinished | src/Components/Algorithms/SRTF.ts:51 | when every process has finished, the results cover each pid once and no work remains |
| Srtf.SrtfPicksShortest | src/Components/Algorithms/SRTF.ts:59-76 | the clock advances one tick; when some arrived process has work left, the iteration logs one step at the current time for an arrived process with work left, which loses exactly one unit; no arrived pending process had less remaining time; an idle iteration logs nothing |
| Srtf.SrtfFinishesAtNextTick | src/Components/Algorithms/SRTF.ts:67-100 | a unit of an arrived pending process lowers its remaining time by one; on its last unit it is recorded with finishTime = currentTime + 1, marked finished and spliced out of the queue; an earlier unit records nothing |
| Srtf.UnitFinishes | src/Components/Algorithms/SRTF.ts:67-100 | the same for one unit of a queued process, from the state after admission |
| RoundRobin.ArrivalsBetween | src/Components/Algorithms/RoundRobin.ts:40-50 | the processes queued during a slice are exactly those arriving in its tick range, with arrival times that never decrease along the queue |
| RoundRobin.SliceEffect | src/Components/Algorithms/RoundRobin.ts:40-50 | the slice loop advances t by the slice length and changes no counter or record |
| RoundRobin.UnitHistory | src/Components/Algorithms/RoundRobin.ts:41-47 | each unit logs its step of the slice |
| RoundRobin.SliceHistory | src/Components/Algorithms/RoundRobin.ts:40-50 | the slice logs consecutive steps with remainingTime `remaining − 1 − i` and the snapshot taken before the shift |
| RoundRobin.SliceReady | src/Components/Algorithms/RoundRobin.ts:48-49 | the slice appends exactly the arrivals of the ticks it passes |
| RoundRobin.InitInv | src/Components/Algorithms/RoundRobin.ts:16-26 | the loop invariant holds initially |
| RoundRobin.StaleAppend | src/Components/Algorithms/RoundRobin.ts:72 | stale (finished) queue entries add up over concatenation |
| RoundRobin.StaleNone | src/Components/Algorithms/RoundRobin.ts:29 | a queue of unfinished entries has no stale entry |
| RoundRobin.AdmitOk | src/Components/Algorithms/RoundRobin.ts:33 | admission queues every arrived unfinished process, adds no stale entry, and queues only input processes |
| RoundRobin.SomePending | src/Components/Algorithms/RoundRobin.ts:32 | while `executed < totalBurst`, some process has work left |
| RoundRobin.IdleOk | src/Components/Algorithms/RoundRobin.ts:74-77 | an idle iteration keeps the invariant and decreases the measure |
| RoundRobin.ClockAdvance | src/Components/Algorithms/RoundRobin.ts:48 | advancing the clock keeps the progress bound |
| RoundRobin.TurnSlice | src/Components/Algorithms/RoundRobin.ts:35-50 | the shift and the slice loop produce the slice's steps, clock and arrivals |
| RoundRobin.EndProgress | src/Components/Algorithms/RoundRobin.ts:52-53 | subtracting the slice from the head's remaining time keeps the progress bound and lowers the total remaining work by the slice |
| RoundRobin.ProgressUpdate | src/Components/Algorithms/RoundRobin.ts:52 | lowering one process's remaining time within its elapsed time keeps the progress bound |
| RoundRobin.EndReady | src/Components/Algorithms/RoundRobin.ts:55-73 | after requeueing or recording the head, the queue invariant holds at the new clock |
| RoundRobin.EndFinished | src/Components/Algorithms/RoundRobin.ts:55-70 | a process is recorded and marked finished when its remaining time reaches 0 |
| RoundRobin.EndHistory | src/Components/Algorithms/RoundRobin.ts:40-53 | the history stays time-ordered and consistent with `executed` |
| RoundRobin.TurnOk | src/Components/Algorithms/RoundRobin.ts:33-73 | a turn keeps the invariant; it lowers the remaining work, or else the number of stale queue entries |
| RoundRobin.TurnFrom | src/Components/Algorithms/RoundRobin.ts:35-73 | the same, from the state after admission |
| RoundRobin.TurnEnd | src/Components/Algorithms/RoundRobin.ts:52-73 | the end of a turn keeps the invariant, and `executed` stays within `totalBurst` |
| RoundRobin.EndWork | src/Components/Algorithms/RoundRobin.ts:52-53 | the work accounting holds after `executed += timeSlice` |
| RoundRobin.EndShape | src/Components/Algorithms/RoundRobin.ts:52-53 | the end of the slice updates remaining and `executed` by the slice and logs nothing more |
| RoundRobin.TurnDecreases | src/Components/Algorithms/RoundRobin.ts:39-73 | a turn lowers the measure, or keeps it and drops a stale entry |
| RoundRobin.StaleHead | src/Components/Algorithms/RoundRobin.ts:36 | shifting off a finished head drops one stale entry |
| RoundRobin.IterationOk | src/Components/Algorithms/RoundRobin.ts:32-78 | each iteration keeps the invariant and decreases the lexicographic measure |
| RoundRobin.RrRunInv | src/Components/Algorithms/RoundRobin.ts:32 | the loop ends with `executed >= totalBurst`, still satisfying the invariant |
| RoundRobin.NoneLeft | src/Components/Algorithms/RoundRobin.ts:32 | when the total remaining work is 0, each process's remaining time is 0 |
| RoundRobin.RrOutcomeFacts | src/Components/Algorithms/RoundRobin.ts:12-82 | there are exactly Σ burst steps, with increasing times; every process ends with 0 left and is finished; the results cover each pid, each recording an input process |
| RoundRobin.FinalFacts | src/Components/Algorithms/RoundRobin.ts:32 | at loop exit there are Σ burst steps and nothing is left to run |
| RoundRobin.RrIdles | src/Components/Algorithms/RoundRobin.ts:74-77 | with nothing queued after admission, only the clock advances |
| RoundRobin.RrRunsHead | src/Components/Algorithms/RoundRobin.ts:35-53 | the head runs for min(quantum, remaining) ticks; the steps count its remaining time down with the snapshot taken before the shift; remaining and `executed` change by that amount |
| RoundRobin.RrRecordsHead | src/Components/Algorithms/RoundRobin.ts:55-70 | a head whose remaining time reaches 0 is recorded finishing at the clock after its slice, and is marked finished |
| RoundRobin.RrRequeues | src/Components/Algorithms/RoundRobin.ts:48-73 | an unfinished head goes to the tail, behind the slice's arrivals, after a full quantum, with no record |
| RoundRobin.EndOutcome | src/Components/Algorithms/RoundRobin.ts:52-73 | the end of a turn either records the head or requeues it behind the arrivals |
| RoundRobin.RrAdmitsTwice | src/Components/Algorithms/RoundRobin.ts:33-49 | a process arriving exactly when a slice ends is queued twice |
| RoundRobin.RrRecordsAgain | src/Components/Algorithms/RoundRobin.ts:36-70 | a finished process shifted off the queue again runs no step but is recorded a second time |
| RoundRobin.RunRoundRobin | src/Components/Algorithms/RoundRobin.ts:12-82 | the runner returns the specification's history, and its results sorted by name |
| RoundRobin.RunLoop | src/Components/Algorithms/RoundRobin.ts:32-78 | the `while` loop reaches exactly the state `RrRun` specifies |
| RoundRobin.Iterate | src/Components/Algorithms/RoundRobin.ts:33-77 | one pass of the loop body computes `RrIteration` |
| RoundRobin.TakeTurn | src/Components/Algorithms/RoundRobin.ts:35-73 | the shift, slice and requeue compute `Turn` |
| RoundRobin.RunSlice | src/Components/Algorithms/RoundRobin.ts:40-50 | the inner `for` loop computes `Slice` |
| RoundRobin.StartInv | src/Components/Algorithms/RoundRobin.ts:89-104 | a fresh engine satisfies the invariant; the quantum defaults to 2 |
| RoundRobin.AddPreservesInv | src/Components/Algorithms/RoundRobin.ts:110-116 | `addProcess` keeps the invariant and registers the pid; a new process gets remaining = burst and is queued iff it has arrived |
| RoundRobin.AddKeepsRegistered | src/Components/Algorithms/RoundRobin.ts:112-114 | registering keeps the table and `totalBurst` consistent |
| RoundRobin.AddKeepsUsage | src/Components/Algorithms/RoundRobin.ts:113 | a new process has used none of its burst |
| RoundRobin.AddKeepsKeys | src/Components/Algorithms/RoundRobin.ts:112-113 | the remaining-time table has a key for each registered pid |
| RoundRobin.AddKeepsRanges | src/Components/Algorithms/RoundRobin.ts:113 | every remaining time stays between 0 and the burst, within the elapsed time |
| RoundRobin.AddKeepsTotals | src/Components/Algorithms/RoundRobin.ts:114 | `totalBurst` stays the registered processes' total burst |
| RoundRobin.AddKeepsQueue | src/Components/Algorithms/RoundRobin.ts:115 | pushing an arrived new process keeps the queue and the running process well formed |
| RoundRobin.AddKeepsWork | src/Components/Algorithms/RoundRobin.ts:113-114 | `executed` stays the work done |
| RoundRobin.AddKeepsResults | src/Components/Algorithms/RoundRobin.ts:110-116 | registering a process keeps every result the record of a registered process |
| RoundRobin.AdmitFrom | src/Components/Algorithms/RoundRobin.ts:118-124 | admission only appends; it appends only registered processes arriving at `time` with remaining > 0 |
| RoundRobin.AdmitFromOk | src/Components/Algorithms/RoundRobin.ts:118-124 | admission keeps queued pids distinct, keeps every entry, and admits every such process |
| RoundRobin.Enqueue | src/Components/Algorithms/RoundRobin.ts:132 | admission does not move the clock, and when every queued or running entry has a remaining time, every one still has afterwards |
| RoundRobin.Requeue | src/Components/Algorithms/RoundRobin.ts:135-139 | the quantum check does not move the clock, and when every queued or running entry has a remaining time, every one still has afterwards |
| RoundRobin.Dispatch | src/Components/Algorithms/RoundRobin.ts:145-148 | dispatch does not move the clock, and when every queued or running entry has a remaining time, every one still has afterwards |
| RoundRobin.Execute | src/Components/Algorithms/RoundRobin.ts:151-188 | execution does not move the clock and reports no completion |
| RoundRobin.TickPreservesInv | src/Components/Algorithms/RoundRobin.ts:130-201 | `tick` keeps the engine invariant |
| RoundRobin.FromEnqueued | src/Components/Algorithms/RoundRobin.ts:134-198 | the phases after admission restore the invariant at the next clock |
| RoundRobin.FromRequeued | src/Components/Algorithms/RoundRobin.ts:142-198 | the phases after the quantum check restore the invariant |
| RoundRobin.FromDispatched | src/Components/Algorithms/RoundRobin.ts:150-198 | execution and the clock advance restore the invariant |
| RoundRobin.EnqueueInv | src/Components/Algorithms/RoundRobin.ts:132 | after admission, every arrived unfinished process is queued or running |
| RoundRobin.EnqueueSparesCurrent | src/Components/Algorithms/RoundRobin.ts:132 | admission never queues the running process |
| RoundRobin.RequeueInv | src/Components/Algorithms/RoundRobin.ts:135-139 | requeueing an expired incumbent keeps the invariant and leaves its counter within the quantum |
| RoundRobin.DispatchInv | src/Components/Algorithms/RoundRobin.ts:145-148 | dispatching the head keeps the invariant |
| RoundRobin.ExecuteInv | src/Components/Algorithms/RoundRobin.ts:151-188 | executing one unit keeps the invariant for the next clock value |
| RoundRobin.ExecuteRunInv | src/Components/Algorithms/RoundRobin.ts:151-188 | the same, with a process running |
| RoundRobin.ConsumeKeeps | src/Components/Algorithms/RoundRobin.ts:152-162 | a unit that does not finish the process keeps the invariant |
| RoundRobin.ConsumeRetires | src/Components/Algorithms/RoundRobin.ts:152-187 | a unit that finishes the process, followed by its retirement, keeps the invariant |
| RoundRobin.ConsumeCurrent | src/Components/Algorithms/RoundRobin.ts:152-154 | after the unit, finished pids are those at 0 other than the runner; a runner with work left keeps a quantum counter between 1 and quantum |
| RoundRobin.ConsumeUsage | src/Components/Algorithms/RoundRobin.ts:152 | remaining times stay within their bounds and the elapsed time |
| RoundRobin.ConsumeWork | src/Components/Algorithms/RoundRobin.ts:152-153 | `executed` stays the work done |
| RoundRobin.ConsumeQueue | src/Components/Algorithms/RoundRobin.ts:152-162 | the queue and results invariants carry over to the next clock |
| RoundRobin.RetireInv | src/Components/Algorithms/RoundRobin.ts:165-187 | recording, marking finished and releasing the process keeps the invariant |
| RoundRobin.AdvanceInv | src/Components/Algorithms/RoundRobin.ts:191-198 | advancing the clock and reporting completion keeps the invariant |
| RoundRobin.TickBasics | src/Components/Algorithms/RoundRobin.ts:130-201 | a tick advances t by 1; it logs at most one step, keeping the earlier ones; `executed` grows by the steps logged |
| RoundRobin.ExecuteBasics | src/Components/Algorithms/RoundRobin.ts:151-188 | the execute phase logs at most one step, one per unit executed |
| RoundRobin.TickKeepsCurrent | src/Components/Algorithms/RoundRobin.ts:132-162 | within its quantum the runner keeps the CPU; it logs its remaining time less one and the queue after admission; unless finished, it stays current with the counter + 1 |
| RoundRobin.TickRotates | src/Components/Algorithms/RoundRobin.ts:132-162 | an expired runner goes to the tail behind this tick's arrivals; the head of that queue runs and the snapshot includes the requeued process |
| RoundRobin.TickPreempts | src/Components/Algorithms/RoundRobin.ts:135-148 | with others waiting, an expired runner does not run this tick and is queued |
| RoundRobin.TickDispatchesHead | src/Components/Algorithms/RoundRobin.ts:142-162 | with nothing running, an empty queue logs nothing; otherwise the head runs with counter 1 and is logged with the full queue as snapshot |
| RoundRobin.TickRetires | src/Components/Algorithms/RoundRobin.ts:165-187 | a process on its last unit is reported with finishTime t + 1, recorded and marked finished; it is not requeued and the counter resets to 0 |
| RoundRobin.TickDoneIff | src/Components/Algorithms/RoundRobin.ts:194-200 | `tick` returns true iff nothing runs and every pid has finished; then the queue is empty, there is one result per process, sorted by name, and it is reported |
| RoundRobin.TickCompletes | src/Components/Algorithms/RoundRobin.ts:194-200 | `tick` returns true iff `executed >= totalBurst`; then the sorted results are reported; otherwise nothing is reported |
| RoundRobin.WorkBounds | src/Components/Algorithms/RoundRobin.ts:101-102 | `executed <= totalBurst`, and equality holds iff nothing runs and every pid has finished |
| RoundRobin.AllFinished | src/Components/Algorithms/RoundRobin.ts:182-186 | once every pid has finished, the queue is empty and the results cover each process once |
| RoundRobin.FinishesOnce | src/Components/Algorithms/RoundRobin.ts:120 | each pid's finish is reported at most once, each report recording a registered process |
| RoundRobin.RoundRobinEngine.constructor | src/Components/Algorithms/RoundRobin.ts:89-108 | the engine starts at the given clock with the given quantum or 2, empty, with the invariant |
| RoundRobin.RoundRobinEngine.AddProcess | src/Components/Algorithms/RoundRobin.ts:110-116 | the new state is `AfterAdd` of the old one, and the invariant holds |
| RoundRobin.RoundRobinEngine.Register | src/Components/Algorithms/RoundRobin.ts:111-115 | the fields change as `AfterAdd` specifies |
| RoundRobin.RoundRobinEngine.Tick | src/Components/Algorithms/RoundRobin.ts:130-201 | the new state and return value are `AfterTick` of the old state, and the invariant holds |
| RoundRobin.RoundRobinEngine.EnqueueArrivalsAt | src/Components/Algorithms/RoundRobin.ts:118-124 | the loop over registered processes sets the queue to `AdmitFrom` of the old queue |
| RoundRobin.RoundRobinEngine.RequeuePhase | src/Components/Algorithms/RoundRobin.ts:135-139 | the fields change as the requeue phase specifies |
| RoundRobin.RoundRobinEngine.DispatchPhase | src/Components/Algorithms/RoundRobin.ts:145-148 | the fields change as the dispatch phase specifies |
| RoundRobin.RoundRobinEngine.ExecutePhase | src/Components/Algorithms/RoundRobin.ts:151-188 | the fields change as the execute phase specifies |
| RoundRobin.RoundRobinEngine.ConsumeUnit | src/Components/Algorithms/RoundRobin.ts:152-162 | one unit is consumed and logged |
| RoundRobin.RoundRobinEngine.RetireCurrent | src/Components/Algorithms/RoundRobin.ts:166-186 | the finished process is recorded, reported, marked finished and released |
| RoundRobin.RoundRobinEngine.AdvancePhase | src/Components/Algorithms/RoundRobin.ts:191-200 | the clock advances; the done test, sort and completion report follow `Advance` |

## Left out

- `TIME_UNIT`, the UI pacing constants (common.ts and SRTF.ts): they do not affect scheduling.
- The unused `priority` field of `Process`.
- SRTF's local copies of the three record types. SRTF's `ExecutionStep` has no `queueBefore`, so its steps are `Srtf.SrtfStep`.
- The commented-out console example in SRTF.ts.
- The accessors `now`, `stats` and `onStep`/`onFinish`/`onComplete`. The callbacks are modelled as the logs they would receive. Registering or clearing a callback is not modelled.
- `startTime` defaulting to 0: the model takes the start time as an argument.
- `localeCompare`: the model uses a fixed lexicographic order on code points. Results are only claimed to be sorted by that order and to be a permutation.
- Floating point: `serviceIndex` is an exact `real`, so rounding and `toFixed` are not modelled.
- Srtf.SrtfResult: the source divides without the `Tr > 0` guard. The model requires finish ≠ arrival, which always holds there (a process finishes at least one tick after it arrives). Division by zero is therefore not modelled.
- SRTF tie-break: the code keeps the earlier `readyQueue` entry on equal remaining time (strict `<`). The model follows the code, not a description of the newcomer winning.
- There is no incremental SRTF engine in the source, so none is modelled.
- Sjf.SjfOutcomeFacts: `runSJF` queues a process twice when it arrives exactly as a burst ends (Sjf.SjfAdmitsTwice). The duplicate entry is selected again and runs its whole burst a second time, and the loop stops once `executed` reaches `totalBurst`, so another process can end with no step and no result: by the loop as written, A(pid 1, arrival 0, burst 1), B(2, 1, 5), C(3, 1, 5) runs B over ticks 1-5 and again over 6-10, and C never runs. So no "each process finishes exactly once" or "every process has a result" claim is made, nor an exact history length. The history is only claimed to have at least Σ burst steps, and the results are only claimed to record input processes. The concrete run is not proved: evaluating a run on literal inputs unrolls beyond what the verifier can handle.
- RoundRobin.RrOutcomeFacts: `runRoundRobin` has the same double admission (RoundRobin.RrAdmitsTwice). A finished entry shifted off again is recorded a second time (RoundRobin.RrRecordsAgain). So the results are claimed to cover every pid, not to hold one record per pid.
- The concrete A(0,4), B(2,2), C(3,3) run of `runSRTF`: evaluating the run on literal inputs unrolls beyond what the verifier can handle. The general selection, step and metric lemmas (Srtf.SrtfPicksShortest, Srtf.SrtfOutcomeComplete) are proved instead.
- Fcfs.AfterTick: the finish report is stated as "none, or one record with finishTime t + 1". Fcfs.ExecuteFinishes names that record as the running process's.
- Integer widths: JavaScript numbers are modelled as unbounded integers. Inputs stay far below 2^53.
