# job-scheduler in Dafny

A model of the in-process job scheduler of `job-scheduler`.

Jobs carry a positive priority, a description and a start delay. They are
submitted to a `Scheduler`, which keeps them in a `PriorityQueue` ordered by
descending priority. `startScheduler` drains that queue tier by tier. A tier
is every queued job that shares the current highest priority:

- a tier of one job is scheduled and waited for through its `Future`;
- a larger tier is scheduled all at once and waited for through a `CountDownLatch`.

Each job passes through the lifecycle `QUEUED → RUNNING → SUCCESS | FAILED`.
A failed job is rolled back. The line `"<description> -> <state message>"` is
appended to a shared log. `getList` returns that log sorted lexicographically.

The model is value-based. Jobs, start times and the scheduler are immutable
datatypes, and each Java mutation is a functional update:

- Whether `execute` throws a `JobException` is a field of the job,
  `executeFails`. That field is the only thing the model needs from a
  concrete subclass.
- Calls to `rollback` are counted in `rollbacks`.
- The job's state is `None` until it is submitted, where Java has `null`.
- The priority queue is a sequence. `peek` and `poll` may return any job that
  is least under `compareTo`, so jobs of equal priority come out in an
  arbitrary order.
- Threads are not modelled. Each tier is polled and then run as one
  sequential batch, in poll order. Poll order is already arbitrary within a
  tier, so every order in which the tier's jobs could finish is covered.
- The barrier (`Future.get` or `latch.await`) becomes "the batch is finished
  before the loop continues".

Modules, one per source concept:

- `Base` (`base.dfy`): `int32`, `Option`, `Result`, and an `IllegalArgument` error.
- `States` (`states.dfy`): `State` and its messages.
- `StartTimes` (`start_times.dfy`): `StartTime`.
- `Jobs` (`jobs.dfy`): `Job` and its constructors, accessors and `compareTo`.
- `JobQueues` (`job_queues.dfy`): the `PriorityQueue<Job>`.
- `LexOrder` (`lex_order.dfy`): `String.compareTo` and the sort in `getList`.
- `Scheduling` (`scheduling.dfy`): the `Scheduler` itself.
- `SeqFacts` (`seq_facts.dfy`): generic sequence and multiset facts the proofs share.
- `Scenarios` (`scenarios.dfy`): the six end-to-end runs of the repository's
  test class, stated as proved postconditions.

## Model

| member | source | states |
|---|---|---|
| States.Message | src/main/java/job/model/State.java:4-17 | the fixed message of each constant, as `getMessage` returns it; the messages are pairwise distinct and invert through `FromMessage` (MessagesDistinct, MessageRoundTrip) |
| States.FromMessage | src/main/java/job/model/State.java:3-17 | reading a message back yields a state that carries exactly that message; `None` only when no state carries it |
| States.MessageRoundTrip | src/main/java/job/model/State.java:3-17 | `getMessage` is inverted by `FromMessage`: every state is recovered from its message |
| States.MessagesDistinct | src/main/java/job/model/State.java:4-7 | two states have the same message if and only if they are the same state |
| States.ExactlyFourStates | src/main/java/job/model/State.java:3-7 | `QUEUED`, `RUNNING`, `SUCCESS` and `FAILED` are the only states |
| States.TerminalIsFinal | src/main/java/job/scheduler/Scheduler.java:98-117 | the lifecycle relation that `performJob`'s transitions follow has no step out of `SUCCESS` or `FAILED`; it is a fact about that relation, not about every operation (see Left out) |
| States.PathAdvances | src/main/java/job/scheduler/Scheduler.java:40-43 | along the lifecycle `submit` then `performJob` drive, every step advances strictly, so no state repeats |
| States.PathIsShort | src/main/java/job/scheduler/Scheduler.java:40-43 | a lifecycle path has at most three states (queued, running, finished) |
| StartTimes.NewStartTime | src/main/java/job/model/StartTime.java:9-15 | succeeds exactly when the value is not negative; it then keeps value and unit as given, and otherwise fails with "Value Must not be negative" |
| StartTimes.ConstructedIsValid | src/main/java/job/model/StartTime.java:9-23 | every constructed start time has a non-negative value, and every such value/unit pair is constructible and read back unchanged by the accessors |
| StartTimes.ZeroAccepted | src/main/java/job/Job.java:21 | the default start of a job, zero seconds, is a valid start time |
| Jobs.NewJob | src/main/java/job/Job.java:15-22 | succeeds exactly when the priority is positive, keeping priority and description, starting in zero seconds and with no state; otherwise fails with "The priority must not be zero or negative" |
| Jobs.NewJobAt | src/main/java/job/Job.java:24-27 | validates exactly as the two-argument constructor and then differs from its result only in the given start time |
| Jobs.SetState | src/main/java/job/Job.java:35-41 | after `setState(s)` the state read back is `s`, and every other field is unchanged |
| Jobs.Rollback | src/main/java/job/Job.java:33 | a rollback counts once more and changes nothing else |
| Jobs.IntegerCompare | src/main/java/job/Job.java:58 | `Integer.compare` is negative, zero or positive exactly as the first argument is below, equal to or above the second |
| Jobs.CompareTo | src/main/java/job/Job.java:55-59 | negative exactly when the receiver has the higher priority, zero exactly when the priorities are equal, positive exactly when lower: the order is descending priority |
| Jobs.CompareToAntisymmetric | src/main/java/job/Job.java:57-59 | swapping the arguments negates the sign of `compareTo` |
| Jobs.CompareToTransitive | src/main/java/job/Job.java:57-59 | `compareTo` is transitive, strictly and non-strictly |
| JobQueues.Count | src/main/java/job/scheduler/Scheduler.java:89 | the number of queued jobs with a given priority is at most the queue size, and it is zero exactly when no job has that priority |
| JobQueues.CountConcat | src/main/java/job/scheduler/Scheduler.java:89 | counting by priority distributes over concatenation |
| JobQueues.MaxPriority | src/main/java/job/scheduler/Scheduler.java:87 | the highest priority in the queue is the priority of some job and is at least every job's priority |
| JobQueues.Peek | src/main/java/job/scheduler/Scheduler.java:87 | `peek` returns a queued job that no other job precedes under `compareTo`, so its priority is the maximum |
| JobQueues.Poll | src/main/java/job/scheduler/Scheduler.java:53 | `poll` removes one `compareTo`-least job; the rest is the queue minus exactly that job, and only that job's priority count drops by one |
| Scheduling.NewScheduler | src/main/java/job/scheduler/Scheduler.java:30-37 | succeeds exactly when the initial capacity is at least one, as `PriorityQueue(int)` requires; the new scheduler has an empty queue and an empty log |
| Scheduling.Submit | src/main/java/job/scheduler/Scheduler.java:40-43 | the queue grows by exactly the submitted job, marked queued; the log is unchanged |
| Scheduling.QueuedSplit | src/main/java/job/scheduler/Scheduler.java:48-78 | jobs polled from a queue of queued jobs, and the jobs left behind, are all marked queued |
| Scheduling.SubmitKeepsQueued | src/main/java/job/scheduler/Scheduler.java:40-43 | if every queued job is marked queued, it still holds after a submit |
| Scheduling.Entry | src/main/java/job/scheduler/Scheduler.java:106 | the line logged for a description and a state; `EntryState` reads the state back (EntryRoundTrip) |
| Scheduling.EntryState | src/main/java/job/scheduler/Scheduler.java:106 | parsing a log line for a description yields a state only when the line is that description, " -> " and the state's message |
| Scheduling.EntryRoundTrip | src/main/java/job/scheduler/Scheduler.java:106 | the log line written for a description and state parses back to that state |
| Scheduling.PerformJob | src/main/java/job/scheduler/Scheduler.java:92-119 | the job goes to running and then to success exactly when `execute` does not throw, or to failure exactly when it does; only a failure rolls back, once; the states it sets are running and then the final state, and when the job came in queued they continue its lifecycle path; the line logged is the description, " -> " and the final state's message; priority, description and start time are untouched |
| Scheduling.RunAll | src/main/java/job/scheduler/Scheduler.java:65-71 | running a batch yields one outcome per job; the k-th outcome is the k-th job run (RunAllPointwise) |
| Scheduling.TierSize | src/main/java/job/scheduler/Scheduler.java:86-90 | the number of queued jobs that share the head's priority is the count at the maximal priority, between one and the queue size |
| Scheduling.PollTop | src/main/java/job/scheduler/Scheduler.java:53 | while no job is above priority `p` and one has it, `poll` yields a job of priority `p` and removes exactly it |
| Scheduling.TopTierDrained | src/main/java/job/scheduler/Scheduler.java:48-49 | jobs polled at the top priority, with none of that priority left, are exactly the top tier of the previous queue, and everything left is lower |
| Scheduling.RunTier | src/main/java/job/scheduler/Scheduler.java:48-78 | one pass of the loop polls exactly the top tier, runs each of its jobs once, appends their lines to the log, and shrinks the queue |
| Scheduling.RunSingle | src/main/java/job/scheduler/Scheduler.java:52-61 | the single-job branch polls the one top-priority job, runs it, and logs its one line before continuing |
| Scheduling.PollTier | src/main/java/job/scheduler/Scheduler.java:64-71 | the latch branch polls exactly `k` jobs, all of the top priority, and leaves none of that priority behind |
| Scheduling.RunBatch | src/main/java/job/scheduler/Scheduler.java:62-77 | the latch branch polls the whole top tier and returns only once every job of it has run and logged |
| Scheduling.RunAllSnoc | src/main/java/job/scheduler/Scheduler.java:65-71 | running one more job extends the outcomes by that job's outcome |
| Scheduling.EntriesSnoc | src/main/java/job/scheduler/Scheduler.java:106 | one more outcome adds exactly its line to the log |
| Scheduling.DrainSnoc | src/main/java/job/scheduler/Scheduler.java:48-78 | running the top tier of what is still queued extends a drain, keeps every tier run, and appends that tier's lines |
| Scheduling.DrainStep | src/main/java/job/scheduler/Scheduler.java:48-78 | one loop iteration keeps the loop invariant (the tiers so far drained the submitted jobs down to the queue, the log holds their lines, and the jobs left are marked queued) and shrinks the queue |
| Scheduling.StartScheduler | src/main/java/job/scheduler/Scheduler.java:45-79 | given a queue whose jobs are all marked queued, as `submit` leaves them: the queue ends empty; each tier was the top tier of what remained, so tiers ran in strictly decreasing priority; every submitted job was polled exactly once, was marked queued when polled, went through running to succeeded or failed along a lifecycle path, and was rolled back exactly when failed; the log grew by one line per job; and the sorted log is the sorted expected lines of the submitted jobs, whatever the order within each tier |
| Scheduling.GetList | src/main/java/job/scheduler/Scheduler.java:121-125 | the returned list is sorted and is a permutation of the log |
| Scheduling.DrainsToCovers | src/main/java/job/scheduler/Scheduler.java:48-78 | the submitted jobs are exactly those polled by the tiers plus those still queued |
| Scheduling.RestBelowTiers | src/main/java/job/scheduler/Scheduler.java:48-78 | every job still queued has lower priority than every tier already run |
| Scheduling.TiersDecrease | src/main/java/job/scheduler/Scheduler.java:48-78 | tiers run in strictly decreasing priority: no lower-priority job starts before a higher one |
| Scheduling.ExpectedLogConcat | src/main/java/job/scheduler/Scheduler.java:106 | the lines predicted for two job sequences in a row are the lines of the first followed by those of the second |
| Scheduling.RunAllLogsExpected | src/main/java/job/scheduler/Scheduler.java:92-119 | running jobs in a row logs exactly the lines their `execute` outcomes predict, in that order |
| Scheduling.LogOfIsExpected | src/main/java/job/scheduler/Scheduler.java:48-78 | the whole log is the predicted lines of all polled jobs, in polling order |
| Scheduling.ExpectedLogPermutation | src/main/java/job/scheduler/Scheduler.java:121-125 | reordering the jobs only reorders their predicted lines, which is why the sorted list does not depend on the order within a tier |
| Scheduling.RunTierFinishes | src/main/java/job/scheduler/Scheduler.java:92-119 | every job of a tier that ran was marked running and ends succeeded or failed, a lifecycle path from queued when it came in queued, rolled back once if failed and never if succeeded |
| Scheduling.AllTiersFinish | src/main/java/job/scheduler/Scheduler.java:48-78 | every tier of a drain leaves all of its jobs finished |
| Scheduling.DrainGuarantees | src/main/java/job/scheduler/Scheduler.java:45-79 | a complete drain gives decreasing tiers, full coverage of the submitted jobs, finished jobs, one line per job, and a log whose entries and sorted form are fixed by the submitted jobs |
| Scheduling.RunAllPointwise | src/main/java/job/scheduler/Scheduler.java:65-71 | the k-th outcome of a batch is the result of running its k-th job |
| LexOrder.StringCompare | src/main/java/job/scheduler/Scheduler.java:124 | `String.compareTo`: the first differing character decides, otherwise the length; its meaning is stated by StringCompareAgrees |
| LexOrder.LexLeq | src/main/java/job/scheduler/Scheduler.java:124 | the natural order `sorted()` uses; a total order (LexLeqReflexive, LexLeqAntisymmetric, LexLeqTransitive, LexLeqTotal) that agrees with `String.compareTo` |
| LexOrder.StringCompareAgrees | src/main/java/job/scheduler/Scheduler.java:124 | `String.compareTo` is not positive exactly when the first string is lexicographically at most the second, and is zero exactly when they are equal |
| LexOrder.LexLeqReflexive | src/main/java/job/scheduler/Scheduler.java:124 | the natural string order is reflexive |
| LexOrder.LexLeqAntisymmetric | src/main/java/job/scheduler/Scheduler.java:124 | the natural string order is antisymmetric |
| LexOrder.LexLeqTransitive | src/main/java/job/scheduler/Scheduler.java:124 | the natural string order is transitive |
| LexOrder.LexLeqTotal | src/main/java/job/scheduler/Scheduler.java:124 | any two strings are comparable |
| LexOrder.LexLeqCommonPrefix | src/main/java/job/scheduler/Scheduler.java:124 | a common prefix does not change the order of two strings |
| LexOrder.Insert | src/main/java/job/scheduler/Scheduler.java:124 | inserting into a sorted list keeps it sorted and adds exactly the new element |
| LexOrder.Sort | src/main/java/job/scheduler/Scheduler.java:124 | `sorted()` yields a sorted permutation of its input |
| LexOrder.SortedUnique | src/main/java/job/scheduler/Scheduler.java:124 | two sorted lists with the same elements are equal, so the sorted permutation is unique |
| LexOrder.SortDeterminedByContents | src/main/java/job/scheduler/Scheduler.java:121-125 | the sorted list depends only on the log's elements, not their order |
| LexOrder.SortKeepsSorted | src/main/java/job/scheduler/Scheduler.java:124 | sorting an already sorted list returns it unchanged |
| Scenarios.SubmitAndRun | src/test/java/job/JobSchedulerTest.java:36-50 | a scheduler of capacity three, given the jobs and drained, returns the sorted predicted lines of the jobs |
| Scenarios.SubmitAddsExpected | src/main/java/job/scheduler/Scheduler.java:40-43 | submitting a job adds exactly its predicted line, since the queued mark does not change it |
| Scenarios.EntriesOrdered | src/test/java/job/JobSchedulerTest.java:44-48 | two lines whose descriptions start "Write " and then differ in their first letter sort by that letter, whatever the state |
| Scenarios.LinesSorted | src/test/java/job/JobSchedulerTest.java:44-48 | the brokers, frameworks and template-engines lines are in sorted order |
| Scenarios.ExpectedLogThree | src/test/java/job/JobSchedulerTest.java:37-39 | three submitted jobs predict their three lines in submission order |
| Scenarios.ThreeJobsLines | src/test/java/job/JobSchedulerTest.java:32-50 | the three test jobs, all ending in one state, sort to brokers, frameworks, template engines |
| Scenarios.DifferentPrioritiesSucceed | src/test/java/job/JobSchedulerTest.java:27-51 | priorities 1, 4, 3 without failure list brokers, frameworks and template engines, each "-> The job completed successfully" |
| Scenarios.SamePrioritiesSucceed | src/test/java/job/JobSchedulerTest.java:53-77 | priorities 3, 3, 3 without failure give the same list |
| Scenarios.LatchThenSingleSucceed | src/test/java/job/JobSchedulerTest.java:79-103 | priorities 4, 4, 2 without failure give the same list |
| Scenarios.DifferentPrioritiesFail | src/test/java/job/JobSchedulerTest.java:105-129 | priorities 2, 4, 5 with every `execute` failing list the three descriptions, each "-> The job failed" |
| Scenarios.SamePrioritiesFail | src/test/java/job/JobSchedulerTest.java:131-155 | priorities 3, 3, 3 with every `execute` failing give the same failed list |
| Scenarios.DelayedSamePrioritiesSucceed | src/test/java/job/JobSchedulerTest.java:157-181 | priorities 3, 3, 3 with a five-second start time list the three successful lines |

## Left out

- Threads, the `ScheduledExecutorService`, the `AtomicLong` and the `CountDownLatch` are not modelled. A tier runs as a sequential batch in poll order, which is arbitrary within the tier. Interleavings inside `performJob` are not modelled; the log is a `CopyOnWriteArrayList`, so each append is atomic in the source anyway.
- The start delay is stored but not waited for. Time only affects when a job runs within its tier, and the batch already covers every order.
- `stopScheduler` only shuts the executor down, which has no counterpart without threads.
- The `System.out` and `printStackTrace` output of `startScheduler` and `performJob` is left out; only the shared list is modelled.
- The `InterruptedException` and `ExecutionException` paths around `future.get()` and `latch.await()` are left out. They need thread interruption or an unchecked exception from `execute`.
- An unchecked exception from `execute` is not modelled: `executeFails` only says whether a `JobException` is thrown. In the latch branch such an exception would skip `latch.countDown()`, and `latch.await()` would then never return.
- `rollback` is abstract. The model counts its calls and assumes it does not call `setState`, because the logged failure line reads the state after the rollback.
- `submit` sets the state to `QUEUED` whatever it was, so a finished job submitted again runs again; `Submit` does the same. `TerminalIsFinal` is therefore a property of the lifecycle relation only, and no operation promises that a finished job stays finished.
- A `Job` in Java is a shared object: the same instance submitted twice runs twice, and its state and rollbacks are shared by both runs. The model's queue holds independent copies, so its guarantees hold per queue entry. This is faithful as long as a job is owned by one path at a time.
- An unchecked exception from `rollback` (`Scheduler.java:114`) is not modelled: it would skip the `list.add` on the next line, and in the latch branch `latch.await()` would never return. The model assumes `rollback` does not throw.
- `FileWriterJob` (the test subclass that writes a file and reads a system property) is not part of this model. Its behaviour is represented by the `executeFails` field.
- Scheduling.NewScheduler: the model keeps that `new PriorityQueue<>(size)` rejects a capacity below one, but not the JDK's exact exception message (the error carries an empty message).
- A `null` description, start time or time unit is not modelled; the datatypes have no null.
- `TimeUnit` is a plain enumeration. Its conversion methods are unused by the core.
- LexOrder.StringCompare: Java compares UTF-16 code units while Dafny characters are Unicode scalar values. The orders differ only for characters outside the Basic Multilingual Plane.
- Scenarios.DifferentPrioritiesSucceed and the other five scenarios state the expected list as `Lines(state)`: each line is the test description, " -> ", and `Message(state)`. They do not spell out the test's string literals character by character.
