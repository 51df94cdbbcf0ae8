# XTTS server: scheduling, job lifecycle, streaming and speakers

This project models the serving core of the XTTS v2 server and proves what it
keeps over every interleaving of its coroutines. `dafny verify dfyconfig.toml`
checks all of it.

The model has two layers.

**State machines.** `Scheduling` is the protocol of one bounded FIFO, one drain
loop, a pool of workers and three kinds of consumers of their answers (result
collectors, WebSocket handlers, `compute_latents`, which bypasses the queue).
Every `await` is a point where any other step may happen: a worker may answer,
answer after a timeout, or never answer. `Lifecycle` puts the job store, the
submitting handlers, the completion callbacks, the files, the downloads, the
cleanup sweep and a clock on top. `CloneRace` is the check / compute / re-check
protocol of the clone endpoint for any number of clients. Safety is an
invariant of every step and so of every run; quiescence is a lexicographic
measure that every internal step lowers, together with the fact that no
unfinished state is stuck.

**Objects.** `Dispatchers`, `QueueManagers`, `JobStores`, `Speakers`,
`Workers`, `Streaming`, `Consumers`, `Collectors`, `Submission` and
`Completion` are the imperative code: classes with mutable fields and loops.
Their methods are proved against the functions that the state machines take
their steps with, or state outright that the object before and after the call
shows a step of the machine. What such a function means is then stated a second
time without it: on the method itself, field by field (`SubmitTts`,
`SubmitBatch`, `CollectResult`, `OnComplete`, `GetAudio`), and over every run
(`Outcomes`, `Records`).

| files | content |
|---|---|
| Common, Messages | options, job ids, requests, what a worker may answer |
| Pool, Topology, WorkerIds | slots, the routing rule, GPU loads, worker names and release by name |
| Ledgers, Scheduling, SchedulingSafety, SchedulingTheorems | the scheduling protocol, its invariant, its guarantees |
| Jobs, Lifecycle, LifecycleSafety, LifecycleSteps | records and store operations, the whole system, its invariant |
| Outcomes | where an outcome comes from, that it stays, the time workers are credited with |
| LifecycleTheorems, Quiescence | guarantees over runs, coming to rest |
| Records | what the record of a job says, field by field, and what downloads are answered |
| LifecycleExact, OverflowExact, Necessity | exact conditions of the lifecycle, of overflowed batches and of two protocol theorems |
| Witnesses, SilentCrash | concrete runs |
| Dispatcher, QueueManager, Collectors, Consumers, JobStore, Completion, Submission, Worker, Streaming, Speakers | the objects |
| CloneRace | concurrent clone requests |

## Where the code does not do what it says

Each of these is kept as the code has it, with a concrete input or run and the
exact condition under which the promise holds.

- A batch that overflows marks its already enqueued items FAILED but leaves
  their envelopes queued, so they can go FAILED, RUNNING, DONE
  (`Witnesses.OverflowedItemRevives`). A job keeps the promised lifecycle as
  long as no setter is called on it in a status it was not meant for
  (`LifecycleExact.LifecycleIffUnbroken`), and only such items ever break it.
  At rest, an item kept it exactly if it had already failed when it was marked,
  or overflowed itself, or was running towards a failure
  (`OverflowExact.OverflowedKeepsIff`). The batch docstring speaks of avoiding
  partial success.
- An idle worker is preferred, and no worker ever counts a second request in runs
  without clone traffic, only if the worker counts of the GPUs differ by at most
  one (`Topology.IdleFirstIffWithinOne`, `Necessity.NeverDoublesIffWithinOne`);
  with `WORKERS_PER_GPU="3,1"` it is not so (`Witnesses.LopsidedBurst`).
- Without CUDA, workers of different GPU slots share names, and `release` frees
  the first of that name; the other's slots are never given back
  (`WorkerIds.CpuReleaseMisses`). Slots are conserved in all runs exactly when
  CUDA is present or there is one GPU slot
  (`Necessity.ConservedIffCudaOrOneSlot`). The protocol releases by name as the
  code does, for pools of any names. Only what is said about the counter of one
  worker asks for distinct names; FIFO, wakeups, result queues, callbacks, the
  bound on accepted work, the lifecycle and quiescence hold with shared ones too.
- The batch docstring promises the validation of the single endpoint. The two
  differ exactly for an explicit empty language, and for no language under an
  unsupported `DEFAULT_LANGUAGE` (`Submission.VerdictsAgreeIff`; an item of each
  kind in `Submission.EmptyLanguageIsDisputed` and
  `Submission.UnsupportedDefaultIsDisputed`).
- Callbacks test the truth of the error text. An exception without a message,
  as the `EOFError()` of a result queue whose manager process has gone, leaves
  neither audio nor a true error, the save raises, and the job stays RUNNING
  (`SilentCrash.EmptyErrorStaysRunning` is such a run;
  `LifecycleTheorems.CallbackCanEnd` has the exact condition and
  `LifecycleTheorems.CrashedStays` the consequence).
- An error frame follows the done frame exactly if all frames up to the done
  frame are sent, closing the socket then fails other than by a disconnect, and
  the report of that failure is sent all the same (`Streaming.StreamChunks`, with
  a socket that does so in `Streaming.FrameAfterDone`). Whether a send can
  succeed after a failed close is up to the WebSocket library, which is not part
  of this model.

## Model

| member | source | states |
|---|---|---|
| Pool.PickIndex | xtts_server/dispatcher.py:354-365 | the worker picked is the first whose (GPU load, own load) no other worker's is below |
| Pool.PickUnique | xtts_server/dispatcher.py:365 | there is only one such worker |
| Pool.IdleChoice | xtts_server/dispatcher.py:354-365 | on a balanced topology with at most one request per worker an idle worker is picked whenever one exists |
| Pool.BusyChoice | xtts_server/dispatcher.py:357-359 | when two GPUs differ by two workers or more, some occupancy of one each makes the rule pick a busy worker beside an idle one |
| Pool.IdleChoiceIffBalanced | xtts_server/dispatcher.py:354-365 | idle workers are found in every such occupancy if and only if the topology is balanced |
| Pool.EvenAfterPick | xtts_server/dispatcher.py:228-231 | a dispatch to the picked worker keeps GPU loads, and loads within a GPU, at most one apart |
| Pool.BurstBalance | xtts_server/dispatcher.py:354-365 | after n dispatches into an empty pool every GPU carries the floor or the ceiling of n over the GPUs, and workers of one GPU differ by at most one |
| Topology.SizeOfSpawned | xtts_server/dispatcher.py:130-153 | the pool that `start` builds has the configured number of workers on each GPU slot |
| Topology.BalancedIffWithinOne | xtts_server/config.py:81-113 | the pool is balanced exactly when any two configured counts differ by at most one |
| Topology.IdleFirstIffWithinOne | xtts_server/dispatcher.py:354-365 | for every WORKERS_PER_GPU list, idle workers come first if and only if the counts are within one of each other |
| WorkerIds.DistinctIff | xtts_server/dispatcher.py:137 | worker names are distinct exactly with CUDA or with a single GPU slot |
| Pool.FindIffDistinct | xtts_server/dispatcher.py:255-262 | every worker is found under its own name exactly when the names are distinct |
| WorkerIds.ReleaseFindsItsWorkerIff | xtts_server/dispatcher.py:245-263 | a release reaches the worker it was dispatched to exactly with CUDA or with a single GPU slot |
| Pool.OwnRelease | xtts_server/dispatcher.py:253-263 | among workers with distinct names a release by name returns a slot of the worker meant |
| WorkerIds.ShadowedNeverReleased | xtts_server/dispatcher.py:255-262 | whatever is dispatched and released, no slot of a worker that shares its name with an earlier one is ever given back |
| WorkerIds.CpuReleaseMisses | xtts_server/dispatcher.py:255-262 | two CPU slots of one worker: a request on the second is released on the first, and the second stays busy with it whatever happens |
| Ledgers.TakeSeat | xtts_server/dispatcher.py:228-231 | taking a slot keeps the books: histories agree with the slots held, all counters together cover them, and with distinct names active equals the table of active jobs equals unreleased dispatches |
| Ledgers.ReturnSeat | xtts_server/dispatcher.py:257-261 | returning a held slot by the name of its worker keeps the books; with distinct names it finds a positive counter, so the clamp never takes effect |
| Ledgers.LeaveLine | xtts_server/queue_manager.py:184-186 | a dispatch moves exactly the held envelope from the line to the dispatched history |
| Dispatchers.Dispatcher.StartWorkers | xtts_server/dispatcher.py:110-162 | builds the configured pool, slot by slot, with fresh handles |
| Dispatchers.Dispatcher.SpawnOn | xtts_server/dispatcher.py:136-153 | appends the workers of one GPU slot and keeps the others |
| Dispatchers.Dispatcher.IsAllBusy | xtts_server/dispatcher.py:314-316 | true exactly when there are workers and each has an active request |
| Dispatchers.Dispatcher.MinActiveRequests | xtts_server/dispatcher.py:309-312 | the least counter of the pool, zero without workers |
| Dispatchers.Dispatcher.GpuLoads | xtts_server/dispatcher.py:362-364 | the accumulated map gives each GPU the sum of its workers' active requests |
| Dispatchers.Dispatcher.PickWorker | xtts_server/dispatcher.py:354-365 | the loop over the accumulated map returns the unique first least worker |
| Dispatchers.Dispatcher.TakeSlot | xtts_server/dispatcher.py:224-231 | no workers: an error and nothing changes; otherwise a slot of the least loaded worker is taken for the job |
| Dispatchers.Dispatcher.Put | xtts_server/dispatcher.py:233-234 | the request goes to that worker's queue only; no counter moves |
| Dispatchers.Dispatcher.Dispatch | xtts_server/dispatcher.py:215-243 | both together |
| Dispatchers.Dispatcher.Release | xtts_server/dispatcher.py:245-263 | the first worker of that name gives a slot back and all waiters are notified once; an empty name does nothing |
| Dispatchers.Dispatcher.ComputeLatents | xtts_server/dispatcher.py:269-303 | answered, timed out or raising: the slot is released by name once; with distinct names only that worker's total has changed |
| Dispatchers.ReleaseUndoesDispatch | xtts_server/dispatcher.py:228-261 | with distinct names a release undoes its dispatch except for the totals |
| Pool.ReleaseLowers | xtts_server/dispatcher.py:253-263 | a release by any name raises no counter and lowers the sum of them by at most one |
| SchedulingSafety.StepInv | xtts_server/queue_manager.py:161-253 | every step of the protocol keeps slot books, FIFO line, worker desks, no lost wakeup and private result queues |
| SchedulingTheorems.RunInv | xtts_server/queue_manager.py:161-253 | so every reachable state has them |
| SchedulingTheorems.SlotConservation | xtts_server/dispatcher.py:228-263 | with distinct worker names, per worker and reachable state: active = active jobs = dispatches not released, total + active = dispatches, and a release never meets zero |
| SchedulingTheorems.SlotsMeaning | xtts_server/dispatcher.py:228-263 | the same of any state that satisfies the invariant |
| SchedulingTheorems.ParkedMeansAllBusy | xtts_server/dispatcher.py:318-327 | a parked, unnotified drain loop means every worker is busy: no lost wakeup |
| SchedulingTheorems.FirstInFirstOut | xtts_server/queue_manager.py:171-203 | accepted = dispatched ++ held ++ queued, without repetition; the dispatched ones are exactly the non-latents requests with a worker |
| SchedulingTheorems.PhasesAdvance | xtts_server/queue_manager.py:161-253 | no step moves a request backwards or changes what it asks for |
| SchedulingTheorems.PhasesAdvanceInRun | xtts_server/queue_manager.py:161-253 | nor does any run |
| SchedulingTheorems.CallbackOnce | xtts_server/queue_manager.py:247-253 | a callback fires at most once, only after the release, and with distinct names only when no worker counts its job any more |
| SchedulingTheorems.OnePerWorkerStep | xtts_server/queue_manager.py:182-186 | on a balanced topology a step without clone traffic keeps every counter at one or none |
| SchedulingTheorems.NeverTwoOnOneWorker | xtts_server/queue_manager.py:182-186 | so does every such run |
| SchedulingTheorems.NeverTwoRequests | xtts_server/queue_manager.py:182-186 | and with distinct names no worker ever has two unreleased requests in it |
| SchedulingTheorems.BackpressureBound | xtts_server/queue_manager.py:171-186 | accepted and unreleased requests never exceed queue size + 1 + number of workers |
| SchedulingTheorems.NoCrosstalk | xtts_server/queue_manager.py:219-253 | what a consumer read and will read is a prefix of one legal answer to its own request, late replies included, and its outcome is genuine |
| Outcomes.OutcomeIsAnswer | xtts_server/queue_manager.py:219-245 | the outcome of a request is the last message its consumer took, or after chunks only a failure the consumer made up: what the worker answered is what the caller gets |
| Outcomes.OutcomeStays | xtts_server/queue_manager.py:219-253 | a concluded request keeps its outcome, worker, time and messages for good |
| Outcomes.SilenceIsFailure | xtts_server/queue_manager.py:224-236 | the outcome of a time-out carries a true error and neither audio nor voice |
| Outcomes.SilenceStays | xtts_server/queue_manager.py:224-236 | from its time-out on, the outcome of a request is that failure |
| Outcomes.TimeConservation | xtts_server/dispatcher.py:257-261 | with distinct names the time credited to a worker is the sum over the jobs and synchronous requests it has released |
| Necessity.UnbalancedDoubles | xtts_server/dispatcher.py:354-365 | on every unbalanced topology a run without clone traffic puts two requests on one worker |
| Necessity.OnePerWorkerIffBalanced | xtts_server/queue_manager.py:182-186 | no such run does if and only if the topology is balanced |
| Necessity.NeverDoublesIffWithinOne | xtts_server/config.py:81-113 | the same in terms of the WORKERS_PER_GPU list |
| Necessity.SharedNameLeaks | xtts_server/dispatcher.py:255-262 | for every worker that shares its name with an earlier one some run leaves its slot taken with no request to return it |
| Necessity.ConservedIffNamesDistinct | xtts_server/dispatcher.py:228-263 | slots are conserved in all runs if and only if the worker names are distinct |
| Necessity.ConservedIffCudaOrOneSlot | xtts_server/dispatcher.py:137 | for the workers that `start` spawns: if and only if CUDA is present or there is one GPU slot |
| QueueManagers.QueueManager.Enqueue | xtts_server/queue_manager.py:132-155 | accepted exactly when there is room (a limit of zero or less is none); a rejection leaves the queue as it is |
| QueueManagers.QueueManager.Submit | xtts_server/queue_manager.py:101-130 | implements the protocol's enqueue and refuse steps |
| QueueManagers.QueueManager.TakeNext | xtts_server/queue_manager.py:172-180 | implements the drain loop's get |
| QueueManagers.QueueManager.LookForFreeWorker | xtts_server/dispatcher.py:318-327 | implements one look at the pool: park exactly when all are busy |
| QueueManagers.QueueManager.PickWorker | xtts_server/queue_manager.py:186 | implements the dispatch of the envelope in hand |
| QueueManagers.QueueManager.HandOver | xtts_server/queue_manager.py:188-203 | implements the put, and spawns the collector with the envelope's own callback or resolves the future, never both; routes are kept |
| QueueManagers.QueueManager.CollectResult | xtts_server/queue_manager.py:205-250 | the reply itself, a true error without audio after a time-out, or the text of the exception, with the elapsed time in milliseconds; then exactly one release: two steps of the protocol |
| QueueManagers.QueueManager.GiveBack | xtts_server/queue_manager.py:248-250 | the release by the name of the collector's worker, which also wakes a parked drain loop |
| QueueManagers.CollectThenRelease | xtts_server/queue_manager.py:219-250 | for every kind of consumer a reply and the release after it touch only the entry, the pool and the drain loop |
| QueueManagers.RoutedOn | xtts_server/queue_manager.py:188-203 | as long as requests keep what they ask for and their workers, every closure stays with the request it was submitted for: in the queue, in the drain loop's hands, with its collector |
| Collectors.RoutesStay | xtts_server/queue_manager.py:161-253 | no step of any coroutine takes a closure from its request or a collector from its worker |
| Collectors.CallBack | xtts_server/queue_manager.py:252-253 | a collector's call performs the lifecycle's callback events of its own job; audio without a true error ends up in that job's own file in its own format, a true error on that job's record |
| QueueManagers.QueueManager.Round | xtts_server/queue_manager.py:172-203 | one undisturbed round dispatches the head or parks with it |
| QueueManagers.QueueManager.DrainAlone | xtts_server/queue_manager.py:161-203 | undisturbed, the loop dispatches a prefix of the queue in order as a burst and stops empty or parked before a busy pool |
| Consumers.DispatchLatents | xtts_server/dispatcher.py:283 | implements the protocol's Direct and Post: the queue and the drain loop are bypassed |
| Consumers.CollectLatents | xtts_server/dispatcher.py:285-303 | implements Receive, TimeOut or Abort and then Release, on every reply |
| Consumers.StreamActs | xtts_server/ws/stream.py:190-258 | taking the chunks, concluding and releasing is a sequence of protocol steps ending in one Release |
| Consumers.StreamAnswer | xtts_server/ws/stream.py:190-258 | the stream handler performs that sequence, an Abort when a send fails |
| Workers.HandleSynthesis | xtts_server/worker.py:226-301 | one answer: the audio the model returned, or the traceback |
| Workers.HandleStream | xtts_server/worker.py:304-375 | all chunks of the model in order, then one end marker carrying the error if it raised |
| Workers.HandleComputeLatents | xtts_server/worker.py:378-424 | one answer: the voice the model found, or the traceback |
| Workers.ServeAll | xtts_server/worker.py:183-204 | the requests before the first sentinel are each answered on their own queue with messages of their own; the rest are untouched; the statistics count synthesis and streams only |
| Workers.TotalMsMeans | xtts_server/worker.py:186-198 | each of them adds its own milliseconds to the total, and nothing else does |
| Workers.TotalMeans | xtts_server/worker.py:186-198 | the counter is the number of synthesis and stream requests served |
| LifecycleSteps.EventStep | xtts_server/job_store.py:151-261 | every event of the system keeps the invariant of statuses, audio, times and handlers |
| LifecycleTheorems.RunKeepsInv | xtts_server/job_store.py:151-261 | so every reachable state has it |
| LifecycleTheorems.ScheduleOfRun | xtts_server/routers/tts.py:237-266 | the scheduling part of a run of the system is a run of the protocol, so its theorems hold here |
| LifecycleTheorems.GrowsInRun | xtts_server/job_store.py:151-208 | histories of a job are only ever extended |
| LifecycleTheorems.StatusLifecycle | xtts_server/job_store.py:151-201 | outside overflowed batches a job shows a prefix of PENDING RUNNING DONE, PENDING RUNNING FAILED or PENDING FAILED; DONE excludes an error |
| LifecycleTheorems.TerminalIsFinal | xtts_server/job_store.py:171-201 | its terminal status never changes |
| LifecycleTheorems.OwnAudio | xtts_server/routers/batch.py:192-216 | the bytes at a job's path encode, in its own format, a result inferred from its own text, language, voice and parameters |
| LifecycleTheorems.MissingOnlyDuringDownload | xtts_server/routers/tts.py:444-446 | a DONE job answers 500 for a missing file only between a download's unlink and its clearing of the path |
| LifecycleTheorems.PathOnce | xtts_server/job_store.py:171-208 | the path of every job goes None, its own path, None, each at most once |
| LifecycleTheorems.OneShotDownload | xtts_server/routers/tts.py:455-467 | after a completed download never 200 again, but 410 or 404 |
| LifecycleTheorems.FilesAreOwned | xtts_server/job_store.py:239-261 | without overflow and failed deletions, every output file belongs to a DONE job naming it or to a save in progress |
| LifecycleTheorems.RetentionBound | xtts_server/job_store.py:234-261 | no terminal record is older than ttl + 60 + delay of the sweep |
| LifecycleTheorems.SweepIsExact | xtts_server/job_store.py:239-261 | a sweep removes a record exactly when it is terminal and finished before now - ttl, and keeps all others as they are |
| LifecycleTheorems.TimingConsistency | xtts_server/job_store.py:71-84 | created, started, finished are in order for DONE jobs, total = wait + synthesis, and synthesis is at least the collector's elapsed time |
| LifecycleTheorems.CallbackCanEnd | xtts_server/routers/tts.py:237-252 | a running callback can end without a save failure exactly when its error is not the empty string |
| LifecycleTheorems.CrashedStays | xtts_server/routers/tts.py:248-252 | after a raising save the job stays RUNNING for good |
| Records.RecordAfter | xtts_server/job_store.py:151-208 | which fields each event writes on a record, and that no other event touches it |
| Records.RecordsInRun | xtts_server/job_store.py:126-208 | every record of every run names its own request and worker, carries the error of its outcome or of the overflow and no other, and has a finish time exactly when marked or finished; a callback crashes only without a true error |
| Records.OwnRecord | xtts_server/job_store.py:126-169 | preview, language, speaker and worker of a record are those of its own request |
| Records.OutcomeDecides | xtts_server/routers/tts.py:237-252 | a finished job that is no stray is FAILED with exactly its outcome's error if that is a true one and DONE without an error if not; a refused one is FAILED with the overflow error |
| Records.SilentJobFails | xtts_server/queue_manager.py:224-236 | from its time-out on a job never crashes and writes no file, and once its callback has run its record is FAILED with the time-out's error |
| Records.AudioAnswers | xtts_server/routers/tts.py:419-447 | a download is answered 409 exactly until the job is terminal, 500 once it failed, 410 once downloaded, 404 exactly when its record is gone |
| Records.FailedForGood | xtts_server/routers/tts.py:426-430 | after a failure a download is answered 500 until eviction and 404 from then on |
| Records.GoneByEviction | xtts_server/job_store.py:239-261 | a record that is gone was removed by a sweep that found it expired |
| LifecycleExact.TraceAfter | xtts_server/job_store.py:151-208 | each event appends to a job's status trace exactly the status its setter writes, if that is a new one |
| LifecycleExact.BreaksIff | xtts_server/job_store.py:151-201 | in every reachable state an event keeps a promised trace promised if and only if no setter meets a status it was not meant for |
| LifecycleExact.OnlyOverflowBreaks | xtts_server/routers/batch.py:218-225 | the only jobs ever broken are already enqueued items of an overflowed batch |
| LifecycleExact.LifecycleIffUnbroken | xtts_server/job_store.py:151-201 | over every run and for every job, the trace is promised exactly as long as no such setter call happened |
| OverflowExact.EventTurns | xtts_server/routers/batch.py:192-225 | what one event does to the phase, the trace and the marking of a stored job |
| OverflowExact.FitsInRun | xtts_server/routers/batch.py:192-225 | the traces a stored job of any run may show, by its phase and whether its batch marked it |
| OverflowExact.OverflowedKeepsIff | xtts_server/routers/batch.py:218-225 | at rest a marked job shows a promised trace if and only if, when marked, it had failed, was the overflowing item, or was running towards a failure or a raising save |
| Quiescence.EventLowers | xtts_server/queue_manager.py:161-253 | every internal event lowers the measure of remaining stages, messages and handler work |
| Quiescence.NotStuck | xtts_server/dispatcher.py:318-327 | a state that is not at rest lets the server itself take a step |
| Quiescence.QuietMeans | xtts_server/queue_manager.py:161-253 | at rest the queue is empty, no request holds a slot (with distinct names every counter is zero), and no job is PENDING or RUNNING save those whose save raised |
| Quiescence.ComesToRest | xtts_server/queue_manager.py:161-253 | any continuation without new requests in which the server is not put off for ever reaches rest, while time passes, sweeps run and files are downloaded |
| Quiescence.RestStays | xtts_server/queue_manager.py:161-253 | and stays there, late worker answers included |
| Quiescence.EveryRunComesToRest | xtts_server/queue_manager.py:161-253 | so after every run, from some moment on, nothing is queued, no request holds a slot and no job is unfinished |
| Witnesses.OverflowedItemRevives | xtts_server/routers/batch.py:218-225 | a reachable run in which an enqueued item of an overflowed batch goes PENDING, FAILED, RUNNING, DONE and keeps the overflow error |
| Witnesses.LopsidedBurst | xtts_server/dispatcher.py:357-365 | with 3 and 1 workers, two busy and one idle on GPU 0 and one busy on GPU 1, the busy worker is picked |
| SilentCrash.EmptyErrorStaysRunning | xtts_server/queue_manager.py:237-245 | a reachable state at rest whose only job is RUNNING after an exception with an empty message |
| JobStores.JobStore.Create | xtts_server/job_store.py:126-149 | a new PENDING record under a fresh id, the others untouched |
| JobStores.JobStore.MarkRunning | xtts_server/job_store.py:151-169 | the one record becomes RUNNING with the start calculated back; an unknown id changes nothing |
| JobStores.JobStore.MarkDone | xtts_server/job_store.py:171-190 | the one record becomes DONE with path and finish time |
| JobStores.JobStore.MarkFailed | xtts_server/job_store.py:192-201 | the one record becomes FAILED with error and finish time |
| JobStores.JobStore.ClearAudioPath | xtts_server/job_store.py:203-208 | the one record loses its path |
| JobStores.JobStore.EvictExpired | xtts_server/job_store.py:239-261 | the loop leaves exactly the unexpired records, as the same objects, and deletes exactly the expired ones' files whose deletion does not fail |
| JobStores.JobStore.CountAll | xtts_server/job_store.py:223-227 | each counter is the number of records of its status |
| JobStores.JobStore.Stats | xtts_server/job_store.py:223-228 | and the total is the number of records |
| JobStores.StatusesPartition | xtts_server/job_store.py:228 | the four counters add up to the number of records |
| Completion.CallbackPerforms | xtts_server/routers/tts.py:237-252 | running a callback to its end is a sequence of lifecycle steps and leaves store and files as `Completed` says |
| Completion.RestPerforms | xtts_server/routers/tts.py:239-252 | the same from the RUNNING mark on |
| Completion.SaveAndMark | xtts_server/routers/batch.py:200-210 | the code of the callback has the effect `Completed`, on failure, success and raising save |
| Completion.CompletedMeans | xtts_server/routers/tts.py:237-252 | `Completed` field by field: the worker's own error, or the encoded audio under the job's path, on the one record |
| Completion.OnComplete | xtts_server/routers/tts.py:374-376 | the record of the captured job and its file end up exactly as `Recorded` spells out, all other records stay; the closure of a synchronous request resolves its future once |
| Completion.GetAudio | xtts_server/routers/tts.py:419-467 | read off the record: 404 exactly without one, 409 exactly while PENDING or RUNNING, 410 exactly when DONE without a path, 200 with the stored path exactly when DONE with its file there, else 500 |
| Completion.DeleteAfterSend | xtts_server/routers/tts.py:455-459 | after it, whether or not the unlink worked, a download is never 200, and is 410 for a DONE job still stored |
| Submission.VerdictsAgreeIff | xtts_server/routers/batch.py:114-147 | batch and single validation give the same verdict exactly for items that are not disputed |
| Submission.EmptyLanguageIsDisputed | xtts_server/routers/batch.py:124-129 | an item with an explicit empty language: 422 alone, accepted in a batch |
| Submission.UnsupportedDefaultIsDisputed | xtts_server/routers/batch.py:124-129 | an item without language under an unsupported default: accepted alone, 422 in a batch |
| Submission.SingleVerdictMeans | xtts_server/routers/tts.py:114-126 | 422 exactly for a long text or an unsupported language, else 404 exactly for an unknown speaker, else the item with its own or the default language and its own or the named speaker's latents |
| Submission.BatchVerdictMeans | xtts_server/routers/batch.py:112-147 | the same with the test on the language the item would be spoken in |
| Submission.ValidateSingle | xtts_server/routers/tts.py:114-126 | the single endpoint's verdict |
| Submission.ValidateBatch | xtts_server/routers/batch.py:112-147 | all items resolved in order, or the code of the first declined one |
| Submission.ResolveSpeaker | xtts_server/routers/tts.py:475-496 | an inline voice, or what a disk read without the cache would give, or 404 |
| Submission.CreateOrFail | xtts_server/routers/tts.py:202-272 | create, enqueue, and on a full queue FAILED and 503 |
| Submission.SubmitTts | xtts_server/routers/tts.py:167-272 | accepted: one envelope for the item with its own callback, and a PENDING record of it; 503: the queue as it was and a record FAILED with the overflow error and the time of failure; 422 or 404: no trace; all other records untouched |
| Submission.SingleMeans | xtts_server/routers/tts.py:202-272 | a single submission in terms of its item, with and without room |
| Submission.EnvelopeAsks | xtts_server/routers/batch.py:168-209 | the envelope asks for the item's text, parameters, language and voice in its format, and its callback saves under the same id in that format |
| Submission.SubmitItem | xtts_server/routers/batch.py:160-234 | one round of the loop extends the single submissions by one, or overflows and marks |
| Submission.MarkFailedAll | xtts_server/routers/batch.py:223-224 | the marking loop |
| Submission.MarkAllFails | xtts_server/routers/batch.py:221-224 | marks exactly the named records FAILED and keeps the rest |
| Submission.EnqueueAll | xtts_server/routers/batch.py:156-243 | accepted with all ids in order exactly when the whole batch fits |
| Submission.SubmitBatch | xtts_server/routers/batch.py:105-243 | wrong size or a declined item: 422 or 404 and no trace; otherwise one envelope for each item in order and a PENDING record of each, or on overflow after k items k envelopes and k + 1 FAILED records and 503 |
| Submission.SinglesInOrder | xtts_server/routers/batch.py:160-216 | the i-th id names the i-th item in record, request and captured callback, appended in order |
| Submission.BatchRefinesSingles | xtts_server/routers/batch.py:156-243 | a batch that fits leaves store and queue as the same single submissions would |
| Submission.OverflowFailsAll | xtts_server/routers/batch.py:218-225 | on overflow at item k, records 0 to k are FAILED with the overflow error, each at its own time, later ones absent, the k envelopes stay queued, all else is unchanged |
| Submission.BatchMeans | xtts_server/routers/batch.py:156-243 | `Batch` in terms of its items: which envelopes and records are there, and that everything else is as before |
| Submission.RoundIsCreateThenSubmit | xtts_server/routers/batch.py:160-219 | one round of a handler is the lifecycle's Create and then its Submit: same record, same envelope, accepted on the same condition |
| Submission.RefusedSingleIsLifecycle | xtts_server/routers/tts.py:263-266 | a single submission without room is Create, Submit and Mark of a handler with one item, which ends Rejected with the same table |
| Submission.MarkingIsMark | xtts_server/routers/batch.py:223-224 | one round of the marking loop is the lifecycle's Mark |
| Streaming.ImageRoundTrip | xtts_server/ws/stream.py:215 | unpacking the little-endian image of samples gives them back, four bytes each |
| Streaming.LittleEndian | xtts_server/ws/stream.py:215 | the least significant byte comes first |
| Streaming.ReceivedImage | xtts_server/ws/stream.py:223-225 | the binary frames together are the image of the concatenated chunks |
| Streaming.EndStream | xtts_server/ws/stream.py:227-254 | the end marker's branch: exactly the frames and the exception that the socket allows |
| Streaming.FallSilent | xtts_server/ws/stream.py:200-212 | a timeout is told to the client, any other exception is passed on |
| Streaming.TerminalMeans | xtts_server/ws/stream.py:200-254 | the last frame over a working socket: done, the first 300 characters of the worker's error, that the worker did not answer, or an internal error that tells nothing |
| Streaming.EndingMeans | xtts_server/ws/stream.py:200-265 | which of a disconnect, a breaking send and a breaking close leaves the client told what |
| Streaming.Relay | xtts_server/ws/stream.py:190-254 | binary frames up to the first failing send, or all of them, and then exactly the ending that the socket allows |
| Streaming.StreamChunks | xtts_server/ws/stream.py:184-265 | the same with the total bytes and the outer report: one terminal frame over a working socket, a second one exactly when a broken close is still reported, and exactly one release whatever the socket does |
| Streaming.SecondFrameIff | xtts_server/ws/stream.py:252-265 | the possible endings, and when there are two frames |
| Streaming.FrameAfterDone | xtts_server/ws/stream.py:252-265 | a socket with which an error frame follows the done frame |
| Streaming.StreamFidelity | xtts_server/ws/stream.py:214-252 | the client decodes a prefix of the worker's samples, and a done frame means it has the model's complete stream |
| Streaming.EndIsLast | xtts_server/worker.py:349-373 | a consumer that sees a clean end marker has seen the whole script |
| Speakers.CachedStepRefines | xtts_server/speakers.py:59-185 | each operation keeps the cache coherent and answers as a store without cache |
| Speakers.CacheRefinesDisk | xtts_server/speakers.py:59-185 | so does every sequence of operations |
| Speakers.ExistsIffLatents | xtts_server/speakers.py:157-161 | a speaker exists exactly when its latents file is on disk |
| Speakers.DeletedNeverServed | xtts_server/speakers.py:108-119 | after a deletion and until a registration of the name, get and exists find nothing |
| Speakers.RegisteredIsServed | xtts_server/speakers.py:59-106 | after a registration and until the name is registered again or deleted, get returns exactly the voice, clip path and time registered, and exists says yes |
| Speakers.GetMeans | xtts_server/speakers.py:125-210 | get finds exactly what has latents on disk, and returns them with the path and time that are there |
| Speakers.PreloadMeans | xtts_server/speakers.py:167-185 | preloading leaves exactly the speakers with latents on disk cached |
| Speakers.SpeakerStore.Register | xtts_server/speakers.py:59-106 | the directory is written, then the cache; the record is what a disk read would give |
| Speakers.SpeakerStore.Delete | xtts_server/speakers.py:108-119 | cache entry and directory go together, or nothing was there |
| Speakers.SpeakerStore.Get | xtts_server/speakers.py:125-138 | cached, loaded and cached, or not found |
| Speakers.SpeakerStore.Exists | xtts_server/speakers.py:157-161 | cached or latents on disk |
| Speakers.SpeakerStore.PreloadAll | xtts_server/speakers.py:167-185 | adds every loadable speaker that is not cached, in any directory order, and counts them |
| CloneRace.StepInv | xtts_server/routers/clone.py:96-196 | every step of every client, deletion and lookup keeps the race's invariant |
| CloneRace.AtMostOneWinner | xtts_server/routers/clone.py:174-196 | two registrations of a name have a deletion of it between them, however many clients race |
| CloneRace.WinnerIsServed | xtts_server/routers/clone.py:148-196 | until the next deletion every get returns the latents computed from the winner's own upload |
| CloneRace.CreatedIffRegistered | xtts_server/routers/clone.py:179-196 | a client is answered 201 exactly when it registered, and registers once |
| CloneRace.ConflictIff | xtts_server/routers/clone.py:95-103 | either check answers 409 exactly when the name has latents on disk at that moment |
| CloneRace.ConflictMet | xtts_server/routers/clone.py:174-190 | whoever is answered 409 met the name on disk while still unanswered |
| CloneRace.AnswerStays | xtts_server/routers/clone.py:96-196 | no answer is ever taken back |
| CloneRace.TwoPassTheFirstCheck | xtts_server/routers/clone.py:93-103 | a run in which two clients pass the first check and hold latents; one gets 201, the other 409 |
| CloneRace.CheckAndRegister | xtts_server/routers/clone.py:174-202 | the code from the second check on is the race's final step; the temporary file goes exactly after a registration |

## Left out

- Model loading, inference, VRAM limits and torch: the speech model is a set of relations between a request and what it may return.
- Audio codecs and sample scaling: an abstract `encode` from samples and format to bytes.
- HTTP and WebSocket framing, middleware, logging, health and info endpoints: only the status codes that properties mention.
- The first four steps of the WebSocket handler (receiving and validating the request): easy checks.
- The synchronous endpoints after their future is resolved: encoding the audio into the response.
- Shutdown and task cancellation: a handler cancelled before its future resolves would keep its slot.
- Process pipes, the manager server and thread pools: FIFO channels and an atomic get with timeout. A timeout is possible whenever the result queue is empty, so every real timing is covered.
- The effect of a worker put and the return of `dispatch` are one step; the drain loop hands over in that step.
- A save that raises is an event of its own (`SaveRaises`); the jobs it leaves RUNNING are excepted in `Quiescence.QuietMeans`.
- Partial disk writes and edits of the speakers directory from outside; `list_speakers`; the seeding script; name and extension checks.
- The upload's size and emptiness checks are one rejecting step of a clone request.
- Job ids are arrival numbers instead of uuids, and output paths are pairs of id and format: what matters is that both are distinct.
- The unsupported-format branches of the validators: formats are an enumeration, so they cannot be taken.
- The text of the queue-full and timeout errors has no numbers in it.
- A MAX_QUEUE_SIZE of zero or less, which asyncio reads as no limit, occurs in `QueueManager.Enqueue` and `Submission` only; the protocol assumes a positive one, and at least one worker.
- Times are real numbers and the clock is monotone.
- SchedulingTheorems.BackpressureBound: for runs without clone traffic on a balanced topology, as `compute_latents` bypasses the queue.
- SchedulingTheorems.NeverTwoOnOneWorker: for the same runs; `Necessity.NeverDoublesIffWithinOne` shows that the topology condition is needed.
- LifecycleTheorems.FilesAreOwned: not for overflowed items and files whose deletion failed; both leave files that no record names.
- Submission.SubmitBatch: one handler without interleaving; its rounds are the steps that `Lifecycle` interleaves with everything else (`Submission.RoundIsCreateThenSubmit`, `Submission.MarkingIsMark`).
