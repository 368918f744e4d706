# A verified model of Go-Flash-Job

Go-Flash-Job is a distributed job scheduler. Scheduler instances elect a leader through a Redis lock; the leader
moves due jobs from a global sorted set to a pending one, hands them to two P's (priority heaps with work
stealing), and publishes them to RabbitMQ; executors call the job's URL, retry with backoff, and bury jobs that
keep failing; a logger writes results to a rotating file. Everything interleaves over one Redis.

The project models the parts where that interleaving matters, as it is in the code, and proves what they keep:

| file | what it models |
|---|---|
| `model.dfy`, `sets.dfy` | tasks, commands, status records, log entries; a lemma about finite sets |
| `queue_spec.dfy`, `heap.dfy` | the task order, `container/heap`'s sift loops over an array, and what a priority queue and a steal promise |
| `processor.dfy` | a P: its queue, its wake slot, stealing half |
| `processor_run.dfy`, `overtaking.dfy`, `early_pop.dfy` | the `Run` loops of two P's as a state machine; how long a task can wait; when a task is popped early |
| `leader.dfy`, `lease_run.dfy` | the lock key, an instance's operations on it, and competing instances with slow replies |
| `backoff.dfy`, `dedupe_keys.dfy` | the retry delay in wrapping 64-bit nanoseconds; the dedupe key |
| `redis.dfy` | the shared keys, each pipeline as a sequence of commands, the two Lua scripts |
| `fsm.dfy`, `recovery.dfy`, `cleaner.dfy` | the job state machine, its recovery loops and its cleaner, and what they leave |
| `scheduler.dfy`, `service.dfy`, `executor.dfy` | fetching, aging, balancing, dispatch; submission; the message handler |
| `lifecycle.dfy`, `lifecycle_refinement.dfy` | all of them interleaved, command by command, with crashes, lost replies and redelivery; its operations are those of the methods |
| `lifecycle_tokens.dfy`, `lifecycle_callbacks.dfy`, `lifecycle_ledgers.dfy`, `lifecycle_lineage.dfy` | how often a job is dispatched and called back, in counters and in steps; where its commands come from |
| `lifecycle_coverage.dfy`, `lifecycle_freshkey.dfy` | queue coverage and index agreement; the key of a job the monitor puts back |
| `lifecycle_overlaps.dfy` | runs that go wrong, and one that goes right, step by step |
| `log_buffers.dfy`, `log_run.dfy`, `log_files.dfy` | the logger's buffer, queue and workers; its file and rotation |

Classes and methods follow the code that changes state in place; each is proved against a function or relation on
values, and the theorems are about those. What the methods do is what the steps of `Lifecycle` do one command at a
time, through every fault (`LifecycleRefinement`). Where the code reads Redis several times before it writes, each
reading is a step of its own. Clock readings, network outcomes (how many commands of a pipeline ran, whether the
client heard of it), jitter and callback results are parameters; every value of them is covered.

## Where the code falls short of its documentation or comments

Each of these is proved, with the condition under which the promise does hold:

- **Lock tolerance.** The documentation gives the 10 s lock with its 3 s renewal a tolerance of 7 s. Two
  `isLeader` flags are excluded exactly when replies take less than 3.5 s: the reply to the acquisition delays the
  first renewal, and the reply to that one delays the step down (`LeaseRun.ExclusionIffRepliesWithin3500`).
- **Queue coverage under overlap.** Without overlap on one job it is covered at every point of every run. With
  overlap it is covered all along if and only if no command runs under a stated guard (`LifecycleCoverage.CoveredIff`).
  Two overlaps break it, from the start: the fetch script inside a pending recovery, and a resubmission between a
  dispatch and its ZREM (`LifecycleOverlaps.JobsCanBeUncovered`).
- **Key of a monitored job.** The monitor never looks at a job's age again after its scan. The time it writes back
  is later than every dispatch up to the scan, and its dedupe key is new if and only if no later dispatch was for
  that very second (`LifecycleFreshKey.MonitoredKeyIsFreshIff`). A job dispatched between the scan and its turn can
  get the same key again (`LifecycleOverlaps.MonitorCanRepeatKey`).
- **Takeover.** A job that ends between the takeover's scan and its turn is made PENDING and run again; it stays
  ended if and only if the scan did not list it (`Recovery.EndedStaysEndedIff`).
- **Retries wait for a recovery.** Nothing fires the RETRY event, and a queued RETRY job cannot be triggered. It runs
  again only after somebody writes PENDING (`LifecycleTokens.RetryWaitsForPendingWrite`).
- **A failed publish is not retried.** The task pushed back into the heap is skipped, because its job is DISPATCHED
  by then (`LifecycleTokens.NoDispatchWithoutTrigger`).
- **The fallback for a failed re-queue.** Requeuing the message "so that no task is lost" only makes the next
  delivery hit the dedupe key set by this one; the same holds after a SETNX that timed out once it had run. The
  redelivery runs if and only if the SETNX never reached Redis (`Executor.RequeuedRunsIffUnmarked`).
- **Keys of retries.** A retry has the dedupe key of the failed command, and is thrown away, if and only if the
  failure and the whole delay end within the trigger second (`Executor.KeyRepeatsIff`, `Executor.RetryRunsIff`).
  Whatever the jitter, the key is new if and only if the delay before jitter ends after that second, or more than
  499 ms before it (`Executor.KeyIsNewIff`): always, where the promised delay applies, for a failure in the trigger
  second or later, but not for one a little early, and not where nothing is left of the delay.
- **Retry count.** A failure counts if and only if the retry's detail was saved
  (`LifecycleLineage.FailureCountsIff`); the code queues the job in either case.
- **Cleaner.** Resubmission does not remove a job from the terminal list, so the cleaner can delete the record and
  detail of a live job (`Cleaner.ResubmittedJobIsWiped`); it spares the live jobs if and only if none is listed
  (`Cleaner.CleanerSparesLiveIff`).
- **Backoff.** The capped doubling is as described for the first 34 retries and for eight later ones; every other
  shift wraps (`Backoff.BackoffIsAsPromised`).
- **Early pop.** The pop after the due check is of a task that is not due only after a theft that took every due one
  (`EarlyPop.EarlyPopFollowsTheft`): one from a queue of which no more than half was due
  (`EarlyPop.PopAfterTheftIsEarlyIff`).
- **Release.** When the reply to the release is lost, the flag stays up although the lock may be gone
  (`LeaderElection.Elector.ReleaseLock`).

## Model

| member | source | states |
|---|---|---|
| QueueSpec.LessIsStrictWeakOrder | scheduler/internal/core/heap.go:24-37 | the order by trigger time, priority (unknown lowest) and enqueue time is a strict weak order |
| QueueSpec.LessMeans | scheduler/internal/core/heap.go:14-37 | before means: an earlier trigger; at the same one High, Medium, Low, any other string in this order; then an earlier enqueue time |
| QueueSpec.PopMeans | scheduler/internal/core/heap.go:24-37 | a popped task has the least trigger, nothing of its second outranks it, and nothing of its priority was enqueued earlier |
| QueueSpec.RootIsLeast | scheduler/internal/core/heap.go:24-55 | in the array layout no task comes before the root |
| QueueSpec.RiseStep | scheduler/internal/core/p.go:34-40 | one swap of sift-up moves the only wrong edge one level up |
| QueueSpec.SinkStep | scheduler/internal/core/p.go:69-71 | one swap of sift-down with the least child moves the only wrong edges one level down and touches nothing beyond the heap |
| QueueSpec.StealOneMore | scheduler/internal/core/p.go:101-105 | one more pop keeps a steal sorted, ahead of all that is left, and complete |
| Heap.TaskHeap.Peek | scheduler/internal/core/heap.go:50-56 | nothing for an empty heap, otherwise a task of the heap that none comes before |
| Heap.TaskHeap.Swap | scheduler/internal/core/heap.go:38 | exchanges two tasks in place and nothing else |
| Heap.TaskHeap.Append | scheduler/internal/core/heap.go:39-41 | the slice grows by the task at its end, in place or in a new array |
| Heap.TaskHeap.RemoveLast | scheduler/internal/core/heap.go:42-49 | cuts off and returns the last task |
| Heap.TaskHeap.Up | scheduler/internal/core/p.go:37 | sift-up makes a heap again and keeps the multiset of tasks |
| Heap.TaskHeap.Down | scheduler/internal/core/p.go:69 | sift-down makes the first n a heap again, keeps the rest in place and the multiset |
| Heap.TaskHeap.HeapPush | scheduler/internal/core/p.go:37 | a heap stays a heap with exactly this task more |
| Heap.TaskHeap.HeapPop | scheduler/internal/core/p.go:69 | a heap stays a heap; exactly one task leaves, and no other comes before it |
| Processor.P.Push | scheduler/internal/core/p.go:34-40 | the queue gains the task, and the wake slot is full |
| Processor.P.PushBatch | scheduler/internal/core/p.go:42-50 | the queue gains the batch, and the wake slot is full |
| Processor.P.Wake | scheduler/internal/core/p.go:52-58 | the slot is full afterwards |
| Processor.P.PeekTop | scheduler/internal/core/p.go:84-89 | a task that none comes before, or nothing for an empty queue; the queue stays |
| Processor.P.LocalLen | scheduler/internal/core/p.go:110-115 | the number of queued tasks |
| Processor.P.StealHalf | scheduler/internal/core/p.go:91-108 | exactly the floor of half the tasks leave, sorted, none after any left behind, and the rest is a heap |
| Processor.P.Schedule | scheduler/internal/core/p.go:60-82 | a least local task, or else the first of half of one other P's queue with the rest pushed locally; all further queues untouched; nothing only if the own queue is empty and no other has two tasks |
| Processor.WorkSteal | scheduler/internal/core/scheduler.go:359-370 | half of one other P's queue, all other queues untouched; empty only if no other P has two tasks |
| ProcessorRun.StepKeepsInv | scheduler/internal/core/p.go:117-202 | every step of either loop, of a pusher or of a thief keeps the invariant: tasks conserved, nothing overlooked without a wake-up, never popping from an empty queue |
| ProcessorRun.RunKeepsInv | scheduler/internal/core/p.go:117-202 | the invariant holds throughout every run |
| ProcessorRun.NoLostWakeup | scheduler/internal/core/p.go:34-58 | a P blocked with a non-empty queue, or timed for a later task than its earliest, has a full wake slot or a pusher between unlock and wake |
| ProcessorRun.NeverPopsEmpty | scheduler/internal/core/p.go:162-167 | the unchecked pop never meets an empty heap |
| ProcessorRun.TasksAreConserved | scheduler/internal/core/p.go:65-108 | queues, stolen batches in transit and popped tasks are together exactly what was pushed |
| ProcessorRun.PopIsDueUnlessRobbed | scheduler/internal/core/p.go:149-167 | the popped task is due if nobody stole since the look at the top |
| EarlyPop.TheftTakesAllDueIff | scheduler/internal/core/p.go:91-108 | stealing half leaves nothing due if and only if at most half of the queue, rounded down, was due |
| EarlyPop.PopAfterTheftIsEarlyIff | scheduler/internal/core/p.go:149-167 | every pop that can follow a theft from a P about to pop is early if and only if at most half of its queue was due, and due otherwise |
| EarlyPop.PopAfterTheftIsPossible | scheduler/internal/core/p.go:149-167 | and there always is such a pop |
| EarlyPop.EarlyPopFollowsTheft | scheduler/internal/core/p.go:117-202 | in every run a popped task is due unless, since the look at the top, such a theft took all that was due |
| Overtaking.StepIsBounded | scheduler/internal/core/heap.go:24-37 | one step pops a task not ordered after the waiting one, or adds only its own arrivals, or removes |
| Overtaking.BoundedOvertaking | scheduler/internal/core/heap.go:24-37 | pops while a task waits are fewer than the tasks not ordered after it that were present or arrived |
| Overtaking.PopsMeans | scheduler/internal/core/p.go:117-202 | the pops counted are the steps by which the P takes a task from its own queue |
| Overtaking.ArrivalsMean | scheduler/internal/core/p.go:34-108 | the arrivals counted are what came in: with the first queue they equal the last one and all that was popped or stolen |
| Overtaking.LaterTriggersAreAfter | scheduler/internal/core/heap.go:24-37 | arrivals with a later trigger, of whatever priority, count for nothing in that bound |
| Overtaking.TheftCounts | scheduler/internal/core/p.go:91-108 | stealing from the queue never raises it |
| LeaderElection.OthersCannotTouch | scheduler/internal/core/leader.go:23-41 | no acquire, renew or release of one instance changes a lock another holds |
| LeaderElection.Elector.TryAcquire | scheduler/internal/core/leader.go:105-112 | acquires exactly when no lock is live and the reply arrives; a lock taken without a reply is set all the same |
| LeaderElection.Elector.WaitForLeadership | scheduler/internal/core/leader.go:65-103 | tries until an acquisition is known to have succeeded; then the flag is up and the lock is 10 s from that try |
| LeaderElection.Elector.RenewOnce | scheduler/internal/core/leader.go:114-139 | keeps the flag exactly if it was the holder and heard of it; the 10 s restart whenever the script ran for the holder |
| LeaderElection.Elector.ReleaseLock | scheduler/internal/core/leader.go:141-155 | a leader deletes its own lock only, and lowers the flag exactly if the reply arrives |
| LeaseRun.LeasesAreRecorded | scheduler/internal/core/leader.go:17-41 | whatever the delays, an instance within 10 s of its last success that has not released is the recorded owner |
| LeaseRun.NextTickMeans | scheduler/internal/core/leader.go:116-127 | a tick comes 3 s after another, at most 3 s from now |
| LeaseRun.LeasesExclude | scheduler/internal/core/leader.go:17-41 | no two instances hold unexpired leases |
| LeaseRun.StepKeepsTimely | scheduler/internal/core/leader.go:114-139 | with replies under 3.5 s every step keeps the lock beyond what each phase of a leader needs |
| LeaseRun.LeaderHoldsLock | scheduler/internal/core/leader.go:65-139 | then whoever has the flag up holds the lock, and nobody else has it up |
| LeaseRun.TwoLeadersRun | scheduler/internal/core/leader.go:65-139 | at 3.5 s and above there is a run to two flags, from any start with two instances |
| LeaseRun.ExclusionIffRepliesWithin3500 | scheduler/internal/core/leader.go:17-139 | at most one flag in all runs if and only if replies take less than 3.5 s |
| Backoff.BackoffIsAsPromised | executor/internal/client/consumer.go:406-419 | the wrapped shift equals min(2^(retry-1), 30) s exactly for retry up to 34 and eight listed values |
| Backoff.WrapMeans | executor/internal/client/consumer.go:409-419 | a duration is the 64-bit word congruent to the exact value |
| Backoff.BaseMeans | executor/internal/client/consumer.go:409-419 | the delay before jitter is the doubled second as such a word, cut off at 30 s from above only |
| Backoff.DelayMeans | executor/internal/client/consumer.go:409-419 | no delay without an attempt; otherwise jitter adds whole milliseconds |
| Backoff.MiddleRetryIsNegative | executor/internal/client/consumer.go:406-419 | between retry 35 and 55 the delay is negative exactly where it is not the promised one |
| Backoff.HugeRetry | executor/internal/client/consumer.go:406-419 | from retry 56 on nothing is left of the delay before jitter |
| Backoff.BackoffGrows | scheduler/internal/core/scheduler.go:421-435 | the delay before jitter never shrinks up to retry 34 |
| Backoff.RetryIsSoon | scheduler/internal/core/scheduler.go:421-435 | for every retry count the delay stays below 30.5 s |
| Backoff.RetryIsLater | executor/internal/client/consumer.go:161-165 | up to retry 34 a failure no earlier than its trigger second is retried in a later second |
| Backoff.EarlyRetryIsNotLater | executor/internal/client/consumer.go:161-165 | one that came up to a second early can be retried no later than its trigger |
| DedupeKeys.KeyInjective | executor/internal/client/consumer.go:344-346 | equal keys mean equal job and trigger time, ids with colons and negative times included |
| DedupeKeys.NatStringMeans | executor/internal/client/consumer.go:344-346 | the digits of a key spell the trigger time, without leading zeros |
| Redis.ApplyAllConcat | scheduler/internal/service/job_service.go:61-82 | running two pipelines is running their concatenation |
| Redis.ApplyIsLocal | scheduler/internal/core/fsm.go:168-198 | a command changes what the keys say about its own job only |
| Redis.SavedDetailIsRead | pkg/model/detail.go:19-48 | a saved detail is read back, whatever other writes go through in between |
| Redis.SavingMeans | pkg/model/detail.go:19-35 | saving writes the detail and makes the job active since now, and nothing else |
| Redis.UpdateRecords | executor/internal/client/consumer.go:286-310 | a status write sets status and time, keeps the other fields, moves an ended job from active to terminal and makes any other active since now; nothing else changes |
| Redis.CasRecords | scheduler/internal/core/fsm.go:82-99 | a CAS that succeeds writes the task's fields, the status and the time, and the index entry of that status; nothing else changes |
| Redis.FetchMoves | scheduler/internal/core/scheduler.go:40-49 | the script moves exactly the due jobs, with their scores, and leaves all else |
| Redis.ScanIsComplete | scheduler/internal/core/fsm.go:325-337 | a capped range scan is complete when no more than the cap are in range |
| Redis.Store.Exec | scheduler/internal/service/job_service.go:61-88 | a pipeline leaves the effect of the prefix that ran; it reports success exactly when all ran and the reply came |
| Redis.Store.RunCas | scheduler/internal/core/fsm.go:78-99 | all or nothing, on the expected status of an existing record, with the index entries |
| Redis.Store.RunFetch | scheduler/internal/core/scheduler.go:40-49 | the script's loop has the effect of one move of all due jobs and returns them with their scores |
| Fsm.FindTransition | scheduler/internal/core/fsm.go:145-153 | whatever order the table is walked in, the answer is the one transition, or none exactly if there is none |
| Fsm.TableIsTotal | scheduler/internal/core/fsm.go:55-63 | an event has a target exactly where the table lists one |
| Fsm.TriggerAndDispatchSources | scheduler/internal/core/fsm.go:55-63 | only PENDING can be triggered and only READY dispatched |
| Fsm.Fire | scheduler/internal/core/fsm.go:101-166 | which of its four outcomes, for every reading and every fate of the CAS; the CAS takes effect whenever it ran, also if the reply is lost |
| Fsm.SaveState | scheduler/internal/core/fsm.go:168-198 | writes the record and its index entries, or a prefix of them |
| Fsm.RecoverJob | scheduler/internal/core/fsm.go:241-288 | one round: spares a fresh in-flight job, otherwise queues first and writes PENDING after; its times and fields are those of Recovery.RecoverRestores |
| Fsm.RecoverStaleTasks | scheduler/internal/core/fsm.go:223-293 | the loop's effect and its count are those of its rounds in order, through every fault |
| Fsm.MonitorJob | scheduler/internal/core/fsm.go:339-381 | one round: only in-flight jobs, queued before PENDING is written |
| Fsm.MonitorStaleStates | scheduler/internal/core/fsm.go:323-386 | the loop's effect and its count are those of its rounds in order |
| Fsm.CleanTerminalStates | scheduler/internal/core/fsm.go:295-321 | one pipeline over the scan; the count only on success |
| Recovery.RecoverKeepsQueues | scheduler/internal/core/fsm.go:223-293 | through any faults no job leaves global or pending |
| Recovery.ReturnKeepsQueues | scheduler/internal/core/scheduler.go:437-475 | the pending pipeline may stop anywhere without taking a job off both queues |
| Recovery.RecoverAllEffect | scheduler/internal/core/fsm.go:223-293 | without faults exactly the scanned jobs that are not fresh at their turn are requeued as PENDING, and no other job changes |
| Recovery.RecoverRestores | scheduler/internal/core/fsm.go:241-288 | without faults a scanned job that is not young ends in global, and with a record, due at its recorded time or its detail's, or now if the recorded one has passed; fields from the detail, or the old record and the default budget |
| Recovery.RecoverRoundMeans | scheduler/internal/core/fsm.go:241-291 | through every fault: what counts as recovered, whom a round spares, and that no status is written before the queue is known |
| Recovery.UnreadDetailIsLost | scheduler/internal/core/fsm.go:257-272 | a detail that cannot be read has the effect of one that is lost, in both loops |
| Recovery.RecoverCounts | scheduler/internal/core/fsm.go:235-293 | the count returned is that of the scanned jobs that are not young |
| Recovery.EndedStaysEndedIff | scheduler/internal/core/fsm.go:241-288 | a job that has ended by its turn stays ended if and only if the scan did not list it |
| Recovery.MonitorKeepsQueues | scheduler/internal/core/fsm.go:323-386 | through any faults the monitor takes no job off both queues |
| Recovery.MonitorAllEffect | scheduler/internal/core/fsm.go:323-386 | without faults exactly the in-flight jobs of the scan end PENDING and in global, due no earlier than now; no other job changes |
| Recovery.MonitorRestores | scheduler/internal/core/fsm.go:339-380 | without faults each in-flight job of the scan is due at its detail's time, or now if that has passed, with its record restored |
| Recovery.MonitorRoundMeans | scheduler/internal/core/fsm.go:339-381 | the same facts as for a takeover's round, through every fault |
| Recovery.MonitorCounts | scheduler/internal/core/fsm.go:338-386 | the count returned is that of the in-flight jobs of the scan |
| Recovery.ReturnRestores | scheduler/internal/core/scheduler.go:457-466 | without faults every pending member found is in global, due now, and off pending; nothing else changes |
| Recovery.TakeoverKeepsQueues | scheduler/internal/core/scheduler.go:125-134 | both recoveries together, with any faults, keep every queued job queued |
| Recovery.TakeoverIsComplete | scheduler/internal/core/scheduler.go:125-134 | with at most 10000 active jobs and no Redis error each ends in flight and younger than 120 s, or in global and PENDING |
| Scheduler.ParseTasks | scheduler/internal/core/scheduler.go:286-339 | each due member becomes its saved task with the score as trigger time; without detail it is skipped |
| Scheduler.ParsedCounts | scheduler/internal/core/scheduler.go:286-339 | exactly the members with a detail are parsed |
| Scheduler.ParsedMeans | scheduler/internal/core/scheduler.go:286-339 | in their order, each as its saved task due at its score |
| Scheduler.ApplyAging | scheduler/internal/core/scheduler.go:254-284 | each old low-priority task is raised in place and in its saved detail, no other changes |
| Scheduler.AgedMeans | scheduler/internal/core/scheduler.go:254-284 | a Low task enqueued more than 300 s ago becomes High; nothing else about any task changes |
| Scheduler.AgingSaves | scheduler/internal/core/scheduler.go:254-284 | the last aged task of a job is its new detail |
| Scheduler.AgingSpares | scheduler/internal/core/scheduler.go:254-284 | a job of which no task is aged keeps its detail |
| Scheduler.AgingWritesDetails | scheduler/internal/core/scheduler.go:254-284 | and nothing but details is written |
| Scheduler.AgingOnlyPromotes | scheduler/internal/core/scheduler.go:254-284 | aging puts a task behind nobody, and ahead of medium peers of its second |
| Scheduler.BalanceTasks | scheduler/internal/core/scheduler.go:341-357 | each queue gains exactly the tasks handed over on its rounds: those that find the job PENDING, not yet triggered in the batch, and hear that the CAS ran |
| Scheduler.BalanceRound | scheduler/internal/core/scheduler.go:343-355 | a task goes to the P of its position exactly if its TRIGGER fires and the reply arrives; the record changes even if the reply is lost |
| Scheduler.BalanceLeavesPendingIff | scheduler/internal/core/scheduler.go:341-357 | a job of the batch stays PENDING if and only if Redis ran none of its CASes, so one listed twice is handed over at most once |
| Scheduler.BalanceHandsOver | scheduler/internal/core/scheduler.go:341-357 | the same on values: even rounds go to P0, odd ones to P1 |
| Scheduler.BalanceTriggers | scheduler/internal/core/scheduler.go:341-357 | the job of a round that finds it PENDING and runs its CAS ends READY, active, with the round's task and time |
| Scheduler.AllAreHandedOver | scheduler/internal/core/scheduler.go:341-357 | without faults and with each PENDING job listed once, every task is handed over |
| Scheduler.ExecuteTask | scheduler/internal/core/p.go:204-228 | skipped exactly if not READY or the CAS is not known to have run; else published and taken off pending, or pushed back with one more attempt; DISPATCHED whenever the CAS ran |
| Scheduler.AgainMeans | scheduler/internal/core/p.go:214-220 | a task pushed back has one more attempt and the delayed trigger, and is otherwise the same |
| Scheduler.ReturnPending | scheduler/internal/core/scheduler.go:437-522 | one pipeline puts the scanned jobs back into global, due now |
| Service.SubmitJob | scheduler/internal/service/job_service.go:23-93 | the two refusals change nothing; otherwise the normalised task is written, or a prefix on an error |
| Service.BatchSubmitJobs | scheduler/internal/service/job_service.go:95-162 | normalises the valid tasks in place and sends one pipeline; all its results and error cases |
| Service.NormalisedMeans | scheduler/internal/service/job_service.go:34-58 | each default where a field is empty or 0, five seconds without a trigger, small triggers from now, the enqueue time, and nothing else |
| Service.BatchNormalisesEach | scheduler/internal/service/job_service.go:104-135 | a batch leaves each valid task in that form and the others alone |
| Service.BatchRefinesSingles | scheduler/internal/service/job_service.go:95-162 | a batch leaves Redis as single submissions in order would, duplicates included |
| Service.BatchCountsSubmittable | scheduler/internal/service/job_service.go:104-158 | the returned count is the number of tasks a single submission accepts |
| Service.SubmittedIsPending | scheduler/internal/service/job_service.go:61-90 | after a submission the job is due in global, PENDING, active and with its detail, and no other job changed |
| Service.SubmittedMeans | scheduler/internal/service/job_service.go:61-82 | in the task's own fields: queue, record, detail and active index after a submission, and that no other key changed |
| Service.NormalisedIsStable | scheduler/internal/service/job_service.go:34-58 | normalising again changes the enqueue time only |
| Cleaner.CleanerSparesLiveIff | scheduler/internal/core/fsm.go:295-321 | a round keeps every live job if and only if none is listed as terminal before the threshold |
| Cleaner.ResubmittedJobIsWiped | scheduler/internal/core/fsm.go:295-321 | a job that ended and was resubmitted loses record and detail, so no CAS on it succeeds and the fetcher finds no task |
| Executor.CheckAndMarkIdempotency | executor/internal/client/consumer.go:328-342 | marks a free key even when the reply is lost; reports a duplicate exactly for a live key |
| Executor.MarkMeans | executor/internal/client/consumer.go:328-346 | a free key, spelled out, is set for 24 hours; no other key changes |
| Executor.UpdateTaskState | executor/internal/client/consumer.go:286-310 | refuses an empty id; a prefix on faults; otherwise exactly the record and index entries of the status, for each of the four |
| Executor.HandleTaskDead | executor/internal/client/consumer.go:237-284 | writes the dead detail, then the dead list unless the detail failed, then DEAD in any case |
| Executor.HandleTask | executor/internal/client/consumer.go:111-201 | keys, records, callback and reply to the broker in all its branches and faults |
| Executor.SucceededIsRecorded | executor/internal/client/consumer.go:130-150 | without faults a callback that succeeded leaves SUCCESS, terminal and off active, and nothing else changed |
| Executor.DeathIsRecorded | executor/internal/client/consumer.go:152-160 | one that failed without attempts left leaves DEAD and the job in the dead list with its fields and error |
| Executor.RetryIsRecorded | executor/internal/client/consumer.go:161-201 | one that failed with attempts left leaves RETRY, the job in global at the delayed time, and its detail saved |
| Executor.AckedIff | executor/internal/client/consumer.go:112-201 | through every fault: exactly when a message is acknowledged, when its URL is called, and which keys are set |
| Executor.RetryTaskMeans | executor/internal/client/consumer.go:167-177 | the retry has the command's fields, one more attempt, the delayed time and no enqueue time |
| Executor.RetryCarries | scheduler/internal/core/scheduler.go:373-396 | publishing a task and retrying it loses its enqueue time and nothing else |
| Executor.AckedRetryIsQueued | executor/internal/client/consumer.go:152-196 | a failure acknowledged with attempts left is in global at the backoff time |
| Executor.RequeuedRunsIffUnmarked | executor/internal/client/consumer.go:187-191 | a requeued message runs again if and only if its first SETNX never reached Redis |
| Executor.RetryNeverAges | executor/internal/client/consumer.go:167-177 | a retry lost its enqueue time and is never aged |
| Executor.KeyRepeatsIff | executor/internal/client/consumer.go:161-177 | for every attempt, instant and jitter the retry repeats the dedupe key if and only if the failure plus the delay ends within the trigger second |
| Executor.KeyIsNewIff | executor/internal/client/consumer.go:161-177 | the key is new for every jitter if and only if the delay before jitter ends after the trigger second, or more than 499 ms before it |
| Executor.PromisedKeyIsNewIff | executor/internal/client/consumer.go:161-177 | the same in the documented delays up to retry 34 and for eight later ones, where a failure in the trigger second or later always gets a new key |
| Executor.SpentKeyIsNewIff | executor/internal/client/consumer.go:161-177 | the same from the 56th attempt on, where a failure in the trigger second without jitter always repeats the key |
| Executor.RetryRunsIff | executor/internal/client/consumer.go:112-136 | a retried command runs if and only if it does not repeat the key of the failed one; otherwise it is acknowledged and thrown away |
| Executor.CarriedKeepsBudget | scheduler/internal/core/scheduler.go:323-337 | a saved retry keeps its budget, and loses no attempt, on the way to its next command |
| Executor.LineageCountsUp | executor/internal/client/consumer.go:152-201 | along a retry lineage the attempts grow by at least one each and the budget stays |
| Executor.LineageTerminates | executor/internal/client/consumer.go:152-201 | a lineage from r0 has at most MaxRetry - r0 + 1 commands |
| LifecycleRefinement.RecoveryRunsItsCommands | scheduler/internal/core/fsm.go:278-289 | requeuing with any faults is a prefix of its command sequence |
| LifecycleRefinement.RoundsRunTheirCommands | scheduler/internal/core/fsm.go:241-381 | a round of either recovery loop, with any faults, is what the steps that read the record and the detail decide |
| LifecycleRefinement.FetchTakesDue | scheduler/internal/core/scheduler.go:225-232 | the fetch step moves exactly the jobs due within one second, with their scores |
| LifecycleRefinement.ParseIsParsed | scheduler/internal/core/scheduler.go:286-339 | the parse step is parseTasks on its member |
| LifecycleRefinement.HandlerRunsItsCommands | executor/internal/client/consumer.go:130-201 | the handler that won its key, with any faults, is a prefix of its RUNNING write and a prefix of one of its three endings |
| LifecycleTokens.StepKeepsActors | executor/internal/client/consumer.go:286-310 | no unconditional write makes a job READY, or PENDING other than by a full record |
| LifecycleTokens.TokensHold | scheduler/internal/core/fsm.go:82-129 | dispatches + [READY] stay within triggers and triggers + [PENDING] within PENDING writes, in every interleaving |
| LifecycleTokens.DispatchesAreBounded | scheduler/internal/core/p.go:205-222 | dispatches + [READY] + [PENDING] never exceed a job's PENDING writes |
| LifecycleTokens.NoDispatchWithoutTrigger | scheduler/internal/core/p.go:211-222 | a job that is not READY is not dispatched before a new TRIGGER, so a task pushed back is skipped |
| LifecycleTokens.RetryWaitsForPendingWrite | executor/internal/client/consumer.go:179-201 | a RETRY, in-flight or ended job is not triggered or dispatched before a new PENDING write |
| LifecycleLineage.CommandsDescend | scheduler/internal/core/scheduler.go:323-387 | in every run each published command ends a lineage of published commands that began with a submission, of at most MaxRetry - r0 + 1 |
| LifecycleLineage.FailureCountsIff | executor/internal/client/consumer.go:166-196 | a failure's attempt counts if and only if its detail was saved |
| LifecycleCallbacks.LedgerHolds | executor/internal/client/consumer.go:112-136 | every callback holds the dedupe key of a command that was published by a dispatch |
| LifecycleCallbacks.CallsInject | executor/internal/client/consumer.go:329-346 | the callbacks for a job inject into its dispatches |
| LifecycleCallbacks.CallbacksAreBounded | executor/internal/client/consumer.go:112-136 | within 24 h, under any redelivery, callbacks never exceed dispatches, nor those the PENDING writes |
| LifecycleCallbacks.CallbacksDiffer | executor/internal/client/consumer.go:329-346 | no two callbacks for a job carry the same trigger time |
| LifecycleLedgers.PendingWritesAreCounted | scheduler/internal/core/fsm.go:168-198 | the PENDING writes counted are the steps that write a PENDING record of the job |
| LifecycleLedgers.TriggersAreCounted | scheduler/internal/core/fsm.go:101-129 | the TRIGGERs counted are the CAS steps that move the job from PENDING to READY |
| LifecycleLedgers.DispatchesAreCounted | scheduler/internal/core/fsm.go:101-129 | the dispatches counted are the CAS steps that move it from READY to DISPATCHED |
| LifecycleLedgers.CallsAreCounted | executor/internal/client/consumer.go:112-140 | the callbacks counted are the call steps for it |
| LifecycleLedgers.CallbackStepsAreBounded | executor/internal/client/consumer.go:112-136 | end to end in the run's own steps: calls within moves to DISPATCHED, within moves to READY, within PENDING writes |
| LifecycleCoverage.SubmitIsGood | scheduler/internal/service/job_service.go:61-82 | every prefix of a submission leaves the job covered, and all of it leaves the indexes in agreement |
| LifecycleCoverage.RecoverIsGood | scheduler/internal/core/fsm.go:278-288 | the same for a recovered or monitored job |
| LifecycleCoverage.FailureIsGood | executor/internal/client/consumer.go:179-196 | the same for a retry and for a death |
| LifecycleCoverage.StepKeepsJob | scheduler/internal/core/fsm.go:86-97 | every step that does not overlap on a job keeps it covered and mendable |
| LifecycleCoverage.QueuesCoverJobs | scheduler/internal/core/fsm.go:370-380 | a PENDING, READY or RETRY job is in global or pending, at every point and after every crash |
| LifecycleCoverage.IndexesAgree | scheduler/internal/core/fsm.go:169-198 | between pipelines a non-terminal job is active at its update time, and a terminal one is terminal and not active |
| LifecycleCoverage.StaleScanIsExact | scheduler/internal/core/fsm.go:325-349 | with at most 1000 due entries the scan by score picks exactly the in-flight jobs a full scan would |
| LifecycleCoverage.StepCoversIff | scheduler/internal/core/fsm.go:82-99 | neither the CAS nor the fetch script uncovers a job, and a command does if and only if the stated guard holds before it |
| LifecycleCoverage.CoveredIff | scheduler/internal/core/p.go:224-227 | in every run, overlapping or not, a job is covered all along if and only if no such command runs |
| LifecycleOverlaps.FetchInsideReturnUncovers | scheduler/internal/core/scheduler.go:491-517 | from every world with such a job, a run in which the fetch script inside a pending recovery takes it off both queues |
| LifecycleOverlaps.ResubmitInsideDispatchUncovers | scheduler/internal/core/p.go:205-228 | from every world with a job about to be published, a run in which its resubmission leaves it in no queue |
| LifecycleOverlaps.JobsCanBeUncovered | scheduler/internal/core/scheduler.go:491-517 | both happen in runs from the start |
| LifecycleFreshKey.AheadHolds | scheduler/internal/core/scheduler.go:225-229 | fetched tasks run at most 1 s, pushed-back ones at most 31 s ahead, and active scores trail by the lag |
| LifecycleFreshKey.DispatchIsNotFarAhead | scheduler/internal/core/p.go:205-222 | no dispatch is more than 31 s before its trigger time |
| LifecycleFreshKey.StaleOutlivesDispatches | scheduler/internal/core/fsm.go:325-337 | when a job's active entry is two minutes old, all its dispatches were for earlier seconds, while writes lag by less than 89 s |
| LifecycleFreshKey.MonitorsFollowScans | scheduler/internal/core/fsm.go:325-349 | whatever the monitor works on was that old at the time of its scan |
| LifecycleFreshKey.MonitoredKeyIsFreshIff | scheduler/internal/core/fsm.go:325-380 | the time written back is at least now and later than every dispatch until any moment the entry still was stale; its key is new if and only if no dispatch after that was for the same second |
| LifecycleFreshKey.MonitoredKeyIsFresh | scheduler/internal/core/fsm.go:325-380 | such a moment, the scan, always exists |
| LifecycleOverlaps.MonitorRepeatsKey | scheduler/internal/core/fsm.go:339-380 | from every world in which a scanned job is PENDING and due no earlier than now, a run in which it is put back under a used key |
| LifecycleOverlaps.MonitorCanRepeatKey | scheduler/internal/core/fsm.go:325-380 | and a run from the start, with no lag |
| LifecycleOverlaps.JobCanSucceed | executor/internal/client/consumer.go:112-150 | a run from the start in which a submitted job is called back and ends as a SUCCESS |
| LogBuffers.LogBuffer.FlushLocked | logger/internal/store/buffer.go:262-277 | the buffer is emptied; it is queued as a copy while fewer than 256 batches wait, and only dropped otherwise; earlier batches stay |
| LogBuffers.LogBuffer.AddLog | logger/internal/store/buffer.go:247-260 | the entry is buffered; the hundredth completes a batch that is queued, or dropped if 256 wait; no queued batch changes though the array is reused |
| LogBuffers.LogBuffer.Receive | logger/internal/store/buffer.go:279-292 | a worker gets the oldest batch, in memory of its own |
| LogRun.StepKeepsEntries | logger/internal/store/buffer.go:222-294 | every step of callers, ticker, workers and shutdown keeps each entry in exactly one place |
| LogRun.EntriesAreConserved | logger/internal/store/buffer.go:222-294 | added = buffered + queued + in flight + written + dropped + lost to errors, and the buffer stays below 100, in every run |
| LogRun.StopLosesOnlyDropped | logger/internal/store/buffer.go:222-245 | after the stop, without errors, every entry was written or was in a batch that found the queue full |
| LogRun.DropsOnlyWhenFull | logger/internal/store/buffer.go:262-277 | a step drops a batch exactly if it flushes something while 256 batches wait, and then all that was buffered, at most 100 entries; every other flush queues it |
| LogRun.DroppedIffFull | logger/internal/store/buffer.go:262-277 | something was dropped in a run exactly if such a step occurred |
| LogRun.AllWrittenIffNeverFull | logger/internal/store/buffer.go:222-245 | after the stop, without errors, every entry was written if and only if no flush met a full queue |
| LogRun.StopIsReached | logger/internal/store/buffer.go:222-245 | a run to the end of the stop that writes an entry still buffered |
| LogFiles.LogFile.FirstFree | logger/internal/store/buffer.go:198-216 | the search finds the lowest free number, by the number of files of the date plus one |
| LogFiles.LogFile.OpenCurrent | logger/internal/store/buffer.go:150-167 | opens what is there, or a new file, with its real size |
| LogFiles.LogFile.Rotate | logger/internal/store/buffer.go:197-220 | no file is overwritten, the history is kept, and only job.log can get a new name |
| LogFiles.LogFile.WriteLine | logger/internal/store/buffer.go:175-193 | rotates exactly when the line does not fit; the line ends the history, or a failed write left a part of it |
| LogFiles.LogFile.Write | logger/internal/store/buffer.go:188-192 | the line is appended and counted, or a part of it is and nothing is counted |
| LogFiles.SizeOfJoined | logger/internal/store/buffer.go:175-192 | sizes add up over lines |
| LogFiles.LogFile.WriteBatch | logger/internal/store/buffer.go:169-195 | the history grows by exactly the batch's lines, sizes stay real and within the limit; on an error it stops at one line |

## Left out

- HTTP handlers, routing, configuration, signal handling, connection retries, the rate limiter, the worker pool.
- The AMQP channel pool and Kafka: a message may be delivered again at any time, and a publish may fail or time out after delivery.
- `DelTaskDetail`, `TouchActiveTask`, dead-job listing, log messages to Kafka, the FSM's hooks (DEAD is never reached through `Fire`), and the cleaner of expired log files: easy or unused.
- JSON: a task is read back as it was saved; an entry that cannot be marshalled is skipped by the log writer; malformed message bodies are not modelled.
- Scores are integers: the rounding of `float64` scores above 2^53 is not modelled, nor the overflow of times and retry counts.
- Clocks are nondecreasing integers, one for all processes; a pipeline reads it once, except that a status write may read it again (`Restamp`).
- Eventual retry of a RETRY job within one leader's term: the code does not provide it.
- ReturnJob and Clean in `Lifecycle`: the scan and the clock reading its commands carry are one instant; the commands run later, one by one.
- Lifecycle: the fetched, parsed and queued tasks, the scans' results and the broker's messages are sets that only grow, which allows more runs than the heaps and the broker do; a callback without URL counts as made.
- LeaseRun: `Release` is one step whose reply arrives; the release with a lost reply is in `Elector.ReleaseLock` only.
- LogFiles.LogFile.FirstFree: errors of `os.Stat` other than a missing file are not modelled.
- Heap.TaskHeap.Append: a full array is replaced by one of 2n + 1 elements; Go's growth policy differs.
- LogBuffers: the slice's spare capacity is an array of fixed size 100, since a longer buffer never forms.
