# Verification model of the database query exporter

The exporter answers HTTP requests for metrics by running queries in databases. A request, or
one run of a scheduler job, is expanded to `(database, query)` pairs; every pair that the
result cache does not answer becomes a `Task`. Each database has a collector: a dispatcher that
moves tasks from an inbox of one place to a standard and a background work queue of ten places
each, and two groups of workers whose sizes are limited. A worker sends the one result of a
task to the channel of its request, which gathers, writes and caches it. Loading a new
configuration stops all collectors and starts a new generation.

## The pipeline

`Pipeline` is an interleaved transition system over requests, jobs, dispatchers, workers,
timeouts and reloads. A label names an actor and one atomic section of its code; the theorems
quantify over every sequence of labels, so over every interleaving. It is built from four value
models, `Tasks`, `Pools` (one work queue with its workers), `Collectors` (one database's
dispatcher with its two pools) and `Requests` (one request with its result channel). The
dispatcher has a program counter: waiting, holding a task it has to put on a work queue, or past
the queue and about to ask for a worker. A request looks up a collector in one step and sends to
its inbox in another; in between it is inside `addTask` of that collector, also when a
configuration arrives and when the collector returns and closes its inbox. A worker that leaves its loop gives its slot back in a
second step.

* Safety, for every run: a task is in exactly one place (`OnePlace`), no task is answered twice
  (`OneAnswerPerTask`), a worker with a result never waits for room in the result channel
  (`WorkerNeverBlocks`), a request that ends with nothing outstanding has left nothing behind
  (`NothingLeft`) and has a complete response (`ResponseIsComplete`), and a result meets a closed
  channel exactly if its request has given up waiting (`PanicsExactly`).
* Giving up: when a request stops waiting, a worker may still meet its closed channel exactly if
  one of its tasks can yet be answered (`AbortPanicsExactly`); runs in which requests give up only
  otherwise never panic (`NoPanicInCarefulRuns`).
* Order: of two tasks put on one work queue the second is taken only after the first
  (`WorkQueueIsFifo`).
* Progress: each step of any actor, arrivals and reloads apart, lowers a rank (`StepLowersRank`),
  so the pipeline cannot be busy for ever (`RunIsBounded`). While nobody gives up and no
  configuration arrives, a step leaves waiting tasks without a worker exactly if it is one of two:
  the last worker in its loop leaves a queue that is not empty, or a new worker is refused because
  those on their way out still hold the slots (`StrandsExactly`). Without these two steps there is
  no deadlock (`NoDeadlock`), also with dispatchers blocked on full queues and with workers that
  leave and give back their slots at any other time, and every run ends with every task answered
  (`RunEndsAnswered`, `CanFinish`). With them, a run comes to rest with everything answered exactly
  if no work queue was left waiting (`RestOutcome`).
* Reload: it can hang exactly if, when the configuration arrives, there are more than ten tasks for
  one pool of a collector that are not with a worker yet: in the queue, in the dispatcher's hand,
  in the inbox, or with a sender inside `addTask` (`ReloadHangsExactly`). Otherwise the next
  generation can always be reached, and the old one cannot rest before (`LightReloadEnds`).
* Senders: a request or job meets a closed inbox only if it was inside `addTask` when a
  configuration arrived (`CrashNeedsReload`), and after a reload that cannot hang it may
  (`InsideCanCrash`). A handler that panics there leaves its result channel open
  (`CrashLeavesChannelOpen`), a job ends the process.
* Jobs: a job of the serial scheduler, whose context nothing cancels, can never be closed in any
  continuation exactly if its task was dropped or abandoned (`JobIsStuckExactly`).
* Source form: `CollectorObject` and `ResponseObject` hold the methods of the collector and of
  the request handler with their fields and loops, and contracts that say which steps of the
  transition system they are; `LoopIsManySteps` and `ScatterIsManySteps` connect whole loops to
  the repetition of single steps.

## Around the pipeline

* `Locking`: the lock by raw query string, with takeover after twenty minutes.
* `Caching` and `ResultCache`: the cache as a function of the history of its puts and clears;
  which results of which pair can be served.
* `Configuration` and `ConnectionBudget`: what loading guarantees, the split of a database's
  connections, and the bound on live workers in every state of every run.
* `Scheduler` and `ParallelScheduler`: the two modes as timed transition systems; spacing,
  lateness, and job names that always exist. `Timetable` and `ParallelTimetable`: when each job is
  due, told by the log of the executions alone, that it then runs, and that its answer is served
  from the cache.
* `RequestParams`: the expansion of a request, for any order of iteration over maps.
* `Histogram`: cumulative counts, and what the integer conversion changes.
* `Templates`: the normalisation of a template's text.

## What the proofs found

* `run` sends on a work queue without watching its context
  (internal/collectors/collector.go:121-126), so a reload can hang for ever exactly under the
  condition of `ReloadHangsExactly`. `ReloadCanHang` reaches such a state with twelve tasks for one
  worker, `CrowdCanHang` with one task in the collector and ten senders at its inbox.
* `run` closes its inbox while senders may wait at it (internal/collectors/collector.go:93-108):
  `CrashNeedsReload`, `InsideCanCrash`.
* A job of the serial scheduler has no deadline (internal/scheduler/mod.go:260-275), so one whose
  task a reload of the collectors drops or abandons stops the scheduler: `JobIsStuckExactly`.
* The deferred `close(output)` comes before `close(cancelCh)`
  (internal/server/query_handler.go:161-167), so after a timeout a worker can send on a closed
  channel: `AbortCanPanic`, and exactly when: `AbortPanicsExactly`.
* A worker on its way out still occupies its slot when the dispatcher asks for a new one:
  `TaskCanBeStranded`, and exactly which steps do this: `StrandsExactly`.
* The cache key `query@database` does not tell all pairs apart when one query's name continues
  another's with an at sign: `KeysTellApartExactly`, `MixedNamesServeAnothersResult`.
* The split of connections stays within them exactly under the condition of
  `SplitWithinBudget`; `max_connections: 0` and some negative `background_workers` break it.
* Unlocking removes the entry of a key whoever made it, so a late holder lets a third request
  in: `LateUnlockLetsAThirdIn`.
* The integer histogram counts values above the largest int in the bucket of the largest int:
  `IntegerBucketsAreExact`.
* README.md:204-206 of the repository promises that a second identical request waits up to five
  minutes and that a lock expires after fifteen. The code refuses at once and uses twenty
  minutes; the model follows the code.

## Model

| member | source | states |
|---|---|---|
| PipelineGuarantees.OnePlace | internal/collectors/collector.go:83-253 | in every state of every run, over cancellations and reloads, each task is in exactly one of: not submitted, inbox, dispatcher's hand, a work queue, a worker, result channel, dealt with, dropped, abandoned; and no other collector or request has it |
| PipelineGuarantees.OneAnswerPerTask | internal/collectors/collector.go:242-252 | no run delivers two results of one task |
| PipelineGuarantees.ResultsFit | internal/server/query_handler.go:229 | buffered results, tasks inside a collector and tasks still to be submitted together never exceed the capacity of the result channel |
| PipelineGuarantees.WorkerNeverBlocks | internal/collectors/collector.go:249-251 | in every run, a worker that has a result can send it at once |
| PipelineGuarantees.RefusalNeverBlocks | internal/collectors/mod.go:101-102 | a request that has to be told of an unknown database or a missing collector has room for that error in its own channel |
| PipelineGuarantees.NothingLeft | internal/server/query_handler.go:266-311 | when gathering ends with nothing outstanding, each requested pair was dealt with exactly once and no task of the request is anywhere in the pipeline, nor lost |
| PipelineGuarantees.PanicsExactly | internal/server/query_handler.go:160-170 | a send of a result meets a closed channel if and only if the request gave up waiting and has closed its channel already |
| PipelineGuarantees.OnlyAbortedPanic | internal/server/query_handler.go:161-167 | a task on a worker whose request has closed its channel belongs to a request that gave up |
| PipelineGuarantees.NoPanicWithoutAbort | internal/server/query_handler.go:303-309 | in every run in which no request gives up waiting, no worker sends a result on a closed channel, whatever else requests, jobs, senders at closed inboxes, workers and reloads do |
| PipelineAborts.AbortPanicsExactly | internal/server/query_handler.go:160-170 | when a request gives up and those before it were harmless, a worker can yet send on a closed channel if and only if the request has a task that can still be answered: an HTTP request of a live generation one that is in a collector, a job or a request of a stopped generation one that a worker is waiting for |
| PipelineAborts.NoPanicInCarefulRuns | internal/collectors/collector.go:222-252 | no run panics in which requests give up only when none of their tasks can be answered any more |
| PipelineAborts.StepKeepsQuiet | internal/collectors/collector.go:222-252 | no step of anybody makes a request that gave up harmlessly dangerous again |
| PipelineAborts.TaskStaysAway | internal/collectors/collector.go:83-253 | a task that was submitted and has left its collector never comes back |
| PipelineAborts.UnfinishedPanics | internal/server/query_handler.go:161-167 | from a state in which an HTTP request has given up with a task still in a collector, a run leads to a send on its closed channel |
| PipelineGuarantees.ResponseIsComplete | internal/server/request.go:37-49 | a response gathered to the end has one chunk per requested pair, and `written` is the number of pairs less the results that failed validation |
| PipelineGuarantees.WorkersWithinLimits | internal/collectors/collector.go:76-78 | live workers never exceed the limits of their group, and none is alive when the next generation starts |
| PipelineOrder.WorkQueueIsFifo | internal/collectors/collector.go:194-204 | in every run, of two tasks put on one work queue by the same generation the second is taken only after the first |
| PipelineOrder.QueueOfStep | internal/collectors/collector.go:120-128 | a work queue grows only at its end and shrinks only at its front, until its collector is gone |
| PipelineGuarantees.AnswersStayInRun | internal/server/query_handler.go:266-301 | the answers a request has for a task are never taken back in a run |
| PipelineSafety.InitInv | internal/collectors/mod.go:126-163 | a fresh generation satisfies the invariant |
| PipelineSafety.StepAccounts | internal/collectors/collector.go:83-253 | each step of each actor leaves each task where it belongs and counted as often as it exists |
| PipelineSafety.StepKeepsCollectors | internal/collectors/collector.go:104-142 | each step keeps the bounds, limits and phases of all collectors of the current configuration |
| PipelineSafety.StepKeepsInv | internal/collectors/collector.go:83-253 | the whole invariant is inductive over all labels |
| PipelineSafety.RunKeepsInv | internal/collectors/mod.go:47-108 | and so it holds in every state of every run |
| PipelineSafety.InnerKeeps | internal/collectors/collector.go:112-142 | steps of dispatchers and idle workers move tasks without losing one; what is left in the queues when a dispatcher returns is recorded as abandoned |
| PipelineSafety.DeliverKeeps | internal/collectors/collector.go:249-251 | delivering moves the task from its worker to the end of its own request's channel, with the answer it got |
| PipelineSafety.DropKeeps | internal/collectors/collector.go:222-247 | a task given up by its worker is counted as dropped, once |
| PipelineSafety.SubmitKeeps | internal/collectors/collector.go:93-95 | sending to an inbox, of a collector that still runs or is winding down, moves the task there and nowhere else |
| PipelineSafety.RefuseKeeps | internal/collectors/mod.go:101-102 | a refused task becomes an error result at the end of its own request's channel, and no task is lost |
| PipelineSafety.CrashKeeps | internal/collectors/collector.go:93-108 | a handler that meets a closed inbox loses no task but those it has not submitted, which stay accounted for |
| PipelineSafety.RestartKeeps | internal/collectors/mod.go:59-88 | replacing the generation loses no task that is not already recorded as lost |
| PipelineProgress.StepLowersRank | internal/collectors/collector.go:112-214 | every step that is not an arrival or a reload lowers the rank, also under cancellation and while a generation is stopped |
| PipelineProgress.RunIsBounded | internal/collectors/collector.go:112-214 | left to itself the pipeline takes at most as many steps as its rank |
| PipelineProgress.StrandsExactly | internal/collectors/collector.go:145-208 | while nobody gives up and no configuration arrives, a step keeps every waiting task attended if and only if it is not the last worker leaving a non-empty queue, nor a new worker refused because all the others are on their way out |
| PipelineProgress.OrderlyRunKeeps | internal/collectors/collector.go:112-165 | in runs without these two steps every waiting queue keeps a worker or is about to get one, and nothing is given up |
| PipelineProgress.CalmRunIsOrderly | internal/collectors/collector.go:206-213 | runs in which a worker only leaves an empty queue together with its slot have no such step, so all of this holds of them |
| PipelineProgress.NoDeadlock | internal/collectors/collector.go:112-128 | while one request is open and every waiting task attended, some actor can take a step that strands nothing, also when dispatchers are blocked on full queues and workers are on their way out |
| PipelineProgress.CollectorGoesOn | internal/collectors/collector.go:112-165 | a collector with a task in it, all waiting tasks attended, can take a step that strands nothing |
| PipelineProgress.AwaitedTask | internal/server/query_handler.go:266-271 | a request that waits for a result has a task inside some collector |
| PipelineProgress.RestMeansAnswered | internal/server/query_handler.go:266-311 | where such a run cannot go on, every request is closed with every task answered |
| PipelineProgress.RunEndsAnswered | internal/collectors/collector.go:112-214 | a run without cancellation, reload and stranding steps takes at most rank many steps from the last arrival on, and where it cannot go on in this way every task is answered; workers may leave and give back their slots at any time |
| PipelineProgress.CanFinish | internal/collectors/collector.go:112-214 | from every state of such a run, also with workers leaving, that end can be reached |
| PipelineProgress.RestOutcome | internal/collectors/collector.go:194-208 | a run that cannot go on in any way has answered every task if and only if no work queue was left waiting |
| PipelineProgress.InitIsSteady | internal/collectors/mod.go:126-163 | a first generation in which no database is without standard workers meets the assumptions of the progress theorems |
| PipelineReload.CollectorWindsDown | internal/collectors/collector.go:112-142 | while a generation is stopped, a collector that has not returned and is not wedged can take a step towards its end |
| PipelineReload.ReloadHangsExactly | internal/collectors/mod.go:59-88 | a reload can come to a point from which no new generation ever follows if and only if, when the configuration arrives, there are more than ten tasks for one pool of a collector that no worker has taken, counting those of senders inside addTask |
| PipelineReload.LightReloadEnds | internal/collectors/mod.go:59-88 | otherwise the stopped generation cannot rest before the next one can start |
| PipelineReload.CanRestart | internal/collectors/collector.go:112-142 | and from each of its states a run leads to the next generation, without any request doing anything |
| PipelineReload.OverloadWedges | internal/collectors/collector.go:92-128 | a stopped generation with such a collector has a run, with late senders, after which its dispatcher is blocked on a queue without workers |
| PipelineReload.TotalDoesNotGrow | internal/collectors/collector.go:92-128 | no step of anybody adds to the tasks that wait for a pool of a stopped generation; a late sender only moves its own from its hands into the inbox |
| PipelineReload.LoadDoesNotGrow | internal/collectors/collector.go:112-142 | nor does a step of the collector itself add to those inside it |
| PipelineReload.SubmitKeepsTotal | internal/collectors/collector.go:92-95 | a sender that gets in leaves the total as it is |
| PipelineReload.ReloadOutcome | internal/collectors/mod.go:59-88 | once nothing more winds down, the next generation can start if and only if no dispatcher is wedged |
| PipelineReload.WedgedStays | internal/collectors/collector.go:121-126 | no step of anybody frees a wedged dispatcher |
| PipelineReload.WedgedForEver | internal/collectors/mod.go:59-70 | in every continuation a wedged dispatcher stays wedged and no new generation starts |
| PipelineWitnesses.ReloadCanHang | internal/collectors/collector.go:121-126 | a wedged dispatcher is reachable from the initial state by a reload |
| PipelineWitnesses.CrowdCanHang | internal/collectors/collector.go:92-107 | a state with one task inside its only collector is reachable from which a reload can hang, because of ten senders at the inbox |
| PipelineSenders.CrashNeedsReload | internal/collectors/mod.go:59-70 | in every run, who meets a closed inbox was inside addTask when a configuration arrived |
| PipelineSenders.InsideCanCrash | internal/collectors/collector.go:93-108 | if the reload cannot hang, whoever is inside addTask when it begins may meet a closed inbox |
| PipelineSenders.CrashLeavesChannelOpen | internal/server/query_handler.go:161-167 | a handler that panics in addTask has cancelled its tasks and not closed its result channel, so no worker panics because of it; a job that does ends the process |
| PipelineJobs.JobIsStuckExactly | internal/scheduler/mod.go:254-275 | while a generation is at work with every waiting task attended, a job that nothing cancels can never be closed in any continuation if and only if its task was dropped or abandoned |
| PipelineJobs.LostJobWaits | internal/scheduler/mod.go:263-275 | a job whose task is lost waits in every state of every continuation, over all further reloads |
| PipelineJobs.HopefulCloses | internal/scheduler/mod.go:263-275 | any other such job has a continuation in which it is closed |
| PipelineJobs.FreshIsGoing | internal/collectors/mod.go:150-163 | a generation that has just started, with standard workers for every database, has every waiting task attended |
| PipelineWitnesses.AbortCanPanic | internal/server/query_handler.go:161-167 | a send on a closed channel is reachable by a timeout |
| PipelineWitnesses.TaskCanBeStranded | internal/collectors/collector.go:145-165 | a state at rest with an unanswered task is reachable by a new worker being refused while the last one is on its way out |
| PipelineWitnesses.QueueFills | internal/collectors/collector.go:120-127 | one busy worker and further tasks bring the work queue to its capacity |
| Pools.NewPool | internal/collectors/collector.go:69-78 | a new work queue and group are empty and within their limit |
| Pools.TenPlaces | internal/collectors/collector.go:53 | a work queue has ten places |
| Pools.Enqueue | internal/collectors/collector.go:122-125 | one more task, no worker changed, invariant kept |
| Pools.Spawn | internal/collectors/collector.go:145-165 | a worker is added exactly if the queue was found non-empty and the group has a free slot |
| Pools.Take | internal/collectors/collector.go:198-204 | the first task moves from the queue to an idle worker; no task or worker is lost |
| Pools.Begin | internal/collectors/collector.go:222-239 | the worker goes from its check to waiting for the database, still holding the task |
| Pools.Finish | internal/collectors/collector.go:241-252 | exactly that task leaves the pool and its worker is idle again |
| Pools.DoMove | internal/collectors/collector.go:180-213 | what an idle worker does by itself keeps all tasks and the invariant, changes the live workers as stated and lowers the rank |
| Collectors.NewCollector | internal/collectors/collector.go:57-81 | a new collector has no worker and no task |
| Collectors.Accept | internal/collectors/collector.go:93-95 | addTask puts exactly the one task into an open inbox with room |
| Collectors.AcceptsExactly | internal/collectors/collector.go:107 | the inbox has one place and takes a task exactly while it is open and empty |
| Collectors.DoKeepsInv | internal/collectors/collector.go:104-214 | every step of a collector keeps its queue bounds, worker limits and the order of its phases |
| Collectors.DoKeepsTasks | internal/collectors/collector.go:112-139 | every step keeps every task inside, but for the return of the dispatcher, which keeps none |
| Collectors.DoLowersRank | internal/collectors/collector.go:112-214 | every step lowers the rank |
| Collectors.FinishCounts | internal/collectors/collector.go:216-253 | a worker that is through with a task removes that task and no other |
| Collectors.FinishKeeps | internal/collectors/collector.go:216-253 | and keeps the collector's invariant and limits |
| Collectors.StrandsExactly | internal/collectors/collector.go:120-208 | a step of a collector keeps its waiting tasks attended if and only if it is neither the last worker leaving a non-empty queue nor a worker refused for the sake of leaving ones |
| Requests.NewRequestCounts | internal/server/query_handler.go:229-233 | a new request has all of its pairs, none submitted |
| Requests.DoKeeps | internal/server/query_handler.go:222-311 | a cache hit, a gathered result, a timeout or a close keeps every pair accounted for and lowers the rank |
| Requests.HitCounts | internal/server/query_handler.go:236-242 | a pair answered from the cache moves from the unsubmitted to the dealt with |
| Requests.SentCounts | internal/server/query_handler.go:244-252 | submitting gives away exactly the next pair |
| Requests.GatherCounts | internal/server/query_handler.go:268-301 | gathering moves one result from the channel to the chunks and loses none |
| Requests.KindsExactly | internal/server/query_handler.go:277-301 | a result becomes a comment exactly if it is an error, is skipped exactly if it fails validation, and is written exactly otherwise |
| Requests.GatherKeeps | internal/server/query_handler.go:273-301 | `scheduled` and `written` stay what the chunks say |
| Requests.EnteredKeeps | internal/collectors/mod.go:92-96 | looking up a collector changes nothing but where the request stands |
| Requests.BreakKeeps | internal/server/query_handler.go:161-167 | a panic in addTask takes no pair out of the account |
| Requests.ReceiveKeeps | internal/collectors/collector.go:251 | a result that arrives adds exactly its own task |
| Requests.AnswersStay | internal/server/query_handler.go:266-311 | no step of a request takes back an answer |
| Requests.WritesAndSkips | internal/server/request.go:37-45 | every chunk is either written or skipped |
| CollectorObject.Collector.constructor | internal/collectors/collector.go:57-81 | the object starts as the new collector of the transition system |
| CollectorObject.Collector.Open | internal/collectors/collector.go:104-110 | from here on the inbox exists |
| CollectorObject.Collector.AddTask | internal/collectors/collector.go:83-108 | without an inbox it answers with an error result; with a closed one it panics or gives up; otherwise it is the accepting step, also while the collector winds down, gives up, or waits, by the room in the inbox and what the select takes |
| CollectorObject.Collector.SpawnWorker | internal/collectors/collector.go:145-154 | is the spawning step of the standard pool |
| CollectorObject.Collector.SpawnBgWorker | internal/collectors/collector.go:157-165 | is the spawning step of the background pool |
| CollectorObject.Collector.Dispatch | internal/collectors/collector.go:120-128 | one turn of the dispatcher is receiving, enqueuing and spawning; with a full work queue it stops with the task in its hand, to be taken up again; scheduled tasks go to the background pool when there is one |
| CollectorObject.Collector.WorkOnStandardQueue | internal/collectors/collector.go:198-253 | one turn of a worker takes the oldest task and yields its one result, or none if it is interrupted |
| CollectorObject.Collector.ServeStandardQueue | internal/collectors/collector.go:180-213 | the loop of a worker handles tasks in order until a turn quits or the queue is empty, yields the results of those that were not interrupted, and leaves exactly if it quits |
| CollectorObject.AllAnswered | internal/collectors/collector.go:216-253 | an uninterrupted worker answers all tasks it is handed, in order, each once |
| CollectorObject.AnsweredExactly | internal/collectors/collector.go:216-253 | a worker's results are exactly those of the tasks that are neither cancelled nor interrupted |
| CollectorObject.AnsweredOnce | internal/collectors/collector.go:216-253 | one for each of them |
| CollectorObject.WholeTurn | internal/collectors/collector.go:216-253 | a whole turn of a worker is the sequence of its atomic steps, however it ends |
| CollectorObject.Collector.Close | internal/collectors/collector.go:131-141 | is the returning step of the dispatcher |
| ResponseObject.Response.Write | internal/server/request.go:37-45 | appends one chunk and counts it unless the client cannot be written to |
| ResponseObject.Response.QueryDatabases | internal/server/query_handler.go:222-258 | writes the cached pairs, makes tasks of the others in order and counts both |
| ResponseObject.Response.GatherResults | internal/server/query_handler.go:260-312 | takes as many results as are outstanding, available and waited for, writes bodies and comments in order, leaves out what fails validation, hands exactly the valid results to the cache, and says whether it is complete or the context expired |
| ResponseObject.Response.TakeResult | internal/server/query_handler.go:268-301 | the next result is taken and becomes one chunk, is counted if it is written, and is stored exactly if it is error-free and valid |
| ResponseObject.StoredAreTheBodies | internal/server/query_handler.go:290-301 | what is stored in the cache are exactly the error-free, valid results, which are the bodies written |
| ResponseObject.StoredInOrder | internal/server/query_handler.go:266-301 | in the order of the results |
| ResponseObject.ChunksExactly | internal/server/query_handler.go:277-301 | each result becomes one chunk, in order: an error a comment, a result that fails validation a skip, any other its body |
| ResponseObject.CommentsAndSkips | internal/server/query_handler.go:277-296 | a task has a comment exactly if it has an error result, and is skipped exactly if it has a result that fails validation |
| ResponseObject.WrittenExactly | internal/server/query_handler.go:277-301 | `written` grows by the number of results less those that fail validation |
| ResponseObject.HitOrMiss | internal/server/query_handler.go:233-255 | every pair is answered from the cache or submitted, never both |
| ResponseObject.HitsExactly | internal/server/query_handler.go:236-251 | exactly the pairs the cache has data for are answered, with that data, and tasks are made of exactly the others |
| ResponseObject.HitsInOrder | internal/server/query_handler.go:233-255 | both in order |
| ResponseObject.ScatterIsManySteps | internal/server/query_handler.go:233-255 | the submitting loop is the repetition of the atomic steps of the transition system |
| ResponseObject.LoopIsManySteps | internal/server/query_handler.go:266-311 | the gathering loop is the repetition of the gathering step |
| Locking.Locker.constructor | internal/server/query_handler.go:48-50 | nothing is locked |
| Locking.Locker.TryLock | internal/server/query_handler.go:52-67 | is refused exactly by an entry younger than maxLockTime, names its holder, and otherwise makes the caller's entry |
| Locking.Locker.Unlock | internal/server/query_handler.go:69-74 | removes the key's entry, whoever made it |
| Locking.EntryStays | internal/server/query_handler.go:52-74 | from a grant until the next unlock of its key the table has an entry at least as young |
| Locking.GrantsAreSpaced | internal/server/query_handler.go:31-67 | two grants of a key without an unlock of it between them are at least maxLockTime apart |
| Locking.ExclusionIsKept | internal/server/query_handler.go:52-74 | a call keeps exclusion if and only if it is not a tryLock of a key whose holder has had it for maxLockTime or more |
| Locking.GrantedExactly | internal/server/query_handler.go:52-67 | while the table names the holders, a request gets the lock if and only if nobody has it, or has had it for maxLockTime or more |
| Locking.TwentyMinutes | internal/server/query_handler.go:31 | maxLockTime is twenty minutes |
| Locking.MutualExclusion | internal/server/query_handler.go:136-144 | in every run in which each holder unlocks within maxLockTime, a key has at most one holder, and the table names it |
| Locking.LateUnlockLetsAThirdIn | internal/server/query_handler.go:69-74 | a run in which a late holder's unlock lets a third request in beside a timely second |
| Caching.EntryIsLastPut | internal/cache/cache.go:107-126 | a key is in the map exactly if it was put since the last clear, and then with the last put's data and expiry |
| Caching.LookupIsLastPut | internal/cache/cache.go:82-126 | a lookup gives some data if and only if the last put since the last clear gave that data and has not expired |
| Caching.Cache.constructor | internal/cache/cache.go:72-79 | the empty cache of the empty history |
| Caching.Cache.Get | internal/cache/cache.go:82-104 | hits exactly if the last put of the key since the last clear expires strictly after now, and returns its data |
| Caching.Cache.Put | internal/cache/cache.go:107-117 | extends the history by this put and keeps the map equal to its replay |
| Caching.Cache.Clear | internal/cache/cache.go:120-126 | extends the history by a clear and keeps the map equal to its replay |
| ResultCache.KeysTellApartExactly | internal/server/query_handler.go:193 | cache keys identify their pair if and only if no query name continues another with an at sign |
| ResultCache.NamesWithoutAtSign | internal/server/query_handler.go:206 | names without at signs meet that condition |
| ResultCache.WithParams | internal/collectors/task.go:63-72 | alternating keys and values become a map in which the last value of a key wins |
| ResultCache.GatesAgree | internal/collectors/task.go:63-72 | the task's parameter map is empty exactly if the request's parameter list is |
| ResultCache.SameGate | internal/server/query_handler.go:188-204 | a result is stored by a request exactly if the same request could be served from the cache: caching is not disabled, there are no parameters and the query is to be cached |
| ResultCache.ClosedGateServesNothing | internal/server/query_handler.go:189-191 | nothing is served if caching is disabled, to a request with parameters, or for a query that is not to be cached |
| ResultCache.ParamsExactly | internal/collectors/task.go:63-72 | a parameter is in the map exactly if its key is in the list, with the value of its last occurrence |
| ResultCache.LastStoreIsLastPut | internal/scheduler/mod.go:267-274 | the last stored result of a pair is the last put of its key, through either writer |
| ResultCache.ServedFromCache | internal/server/query_handler.go:182-209 | bytes are served for a pair if and only if caching is not disabled, the request has no parameters, the query is to be cached, and they are the last result stored for that very pair since the last reload, not yet expired |
| ResultCache.UncachedIsNeverServed | internal/scheduler/mod.go:273 | what a job stores with a caching time of zero is never served |
| ResultCache.MixedNamesServeAnothersResult | internal/server/query_handler.go:193-195 | a query and database that are served another pair's result |
| ResultCache.QueryHandler.GetFromCache | internal/server/query_handler.go:188-196 | what it returns is what the history of stored results and reloads says is served; nothing through a closed gate |
| ResultCache.QueryHandler.PutIntoCache | internal/server/query_handler.go:198-209 | is the cache operation of a gathered, error-free result |
| ResultCache.QueryHandler.UpdateConf | internal/server/query_handler.go:182-186 | is the cache operation of a reload |
| Configuration.Database.constructor | internal/conf/databases.go:63-89 | a database as it is read, not yet valid |
| Configuration.Database.Setup | internal/conf/databases.go:120-152 | default pool, split of the connections and connection timeout |
| Configuration.SplitWithinBudget | internal/conf/databases.go:132-147 | the split leaves a standard worker and stays within the connections if and only if there is a connection and the background workers are not negative, or negative within what one worker leaves free |
| Configuration.SplitUsesAll | internal/conf/databases.go:132-147 | the two groups together use all the connections, one if none is kept idle, and the background group is as large as asked for, or empty if nothing would be left to the other |
| Configuration.Defaults | internal/conf/databases.go:120-152 | ten connections, two idle, ten minutes; fifteen seconds to connect |
| Configuration.ValidateJob | internal/conf/scheduler.go:43-71 | the errors, and when a job is marked valid |
| Configuration.JobErrorsExactly | internal/conf/scheduler.go:46-56 | each error is reported exactly when it is so |
| Configuration.LoadJobs | internal/conf/config.go:86-132 | loading succeeds exactly if every job names a database and a query of the configuration; then jobs are numbered from one and valid exactly if their interval is a second or more |
| Configuration.BuildGroups | internal/conf/config.go:189-206 | for every order of iteration the index is the exact inverse of the queries' group lists, without duplicates and without empty groups |
| Configuration.GroupExists | internal/server/request.go:94 | a group exists exactly if some query lists it |
| Configuration.GroupsAreDetermined | internal/conf/config.go:189-206 | two orders of iteration give the same groups with the same queries |
| ConnectionBudget.WorkersWithinConnections | internal/collectors/collector.go:77-78 | for configured numbers that meet the condition of the split, in every state of every run, across reloads, the live workers of a database are no more than its connections, and never of two generations |
| ConnectionBudget.BudgetIsUsable | internal/conf/databases.go:132-147 | configured numbers that meet that condition meet the assumption of the progress theorems |
| Scheduler.RunsAreSpaced | internal/scheduler/mod.go:123-156 | in every run over loaded configurations no two executions overlap, a job rests strictly longer than its interval, first starts strictly after its offset, and finds its query |
| Scheduler.JobsArePunctual | internal/scheduler/mod.go:280-287 | if executions take at most D and waits at most W, each job starts at most (n - 1) * D + W after it was due |
| Timetable.DueExactly | internal/scheduler/mod.go:280-287 | in every run, a job is due its interval after the end of its previous execution, and for the first time its offset after its configuration was loaded |
| Timetable.JobsRunOnTime | internal/scheduler/mod.go:123-156 | and it starts after these times, by at most (n - 1) * D + W if executions take at most D and waits at most W |
| Timetable.RunsAreTimely | internal/scheduler/mod.go:123-156 | in every state of every run the tasks are the valid jobs of the configuration, in order, and each next run is the time at which the log of executions says the job is due |
| Timetable.OverdueTasksRun | internal/scheduler/mod.go:280-287 | a task that is overdue when a round begins is executed in it |
| Timetable.RoundExtendsLog | internal/scheduler/mod.go:280-287 | a round only adds executions, of the current configuration, each task at most once and in order |
| Timetable.ConfigIsLatest | internal/scheduler/mod.go:146-150 | the configuration in use is the last one that arrived |
| Timetable.ValidJobsInOrder | internal/scheduler/mod.go:324-337 | the tasks keep the order of the configuration |
| Timetable.SevenSeconds | internal/scheduler/mod.go:343 | the offset is seven seconds |
| Timetable.AnswerIsStored | internal/scheduler/mod.go:254-275 | an error-free answer becomes the last result stored for the query and database of its job, with the query's caching time, whatever was stored before; otherwise nothing is stored |
| Timetable.AnswerIsServed | internal/scheduler/mod.go:273 | until its caching time has passed, a request without parameters for that query and database is served that answer |
| Timetable.RoundStoresAnswers | internal/scheduler/mod.go:280-287 | a round stores exactly the answers of the executions it adds to the log |
| Timetable.RoundStoresInOrder | internal/scheduler/mod.go:280-287 | in the order in which they ended |
| Scheduler.LookAllIsPunctual | internal/scheduler/mod.go:280-287 | one round keeps every task, looked at or not, within its slack |
| Scheduler.LookAllKeepsSpaced | internal/scheduler/mod.go:280-287 | one round keeps all executions apart |
| Scheduler.LoadKeepsSpaced | internal/scheduler/mod.go:146-150 | taking in a configuration keeps the past executions apart from those to come, and leaves only runnable tasks |
| Scheduler.ValidJobsAreJobs | internal/scheduler/mod.go:327-331 | the tasks are exactly the valid jobs |
| Scheduler.SerialScheduler.constructor | internal/scheduler/mod.go:96-111 | the scheduler once it has been told its first configuration and the first run times are set |
| Scheduler.SerialScheduler.UpdateConfig | internal/scheduler/mod.go:324-337 | the tasks become the valid jobs in order, with the zero time |
| Scheduler.SerialScheduler.RescheduleTask | internal/scheduler/mod.go:340-345 | each next run becomes now plus seven seconds times the job's number |
| Scheduler.SerialScheduler.TakeConfig | internal/scheduler/mod.go:146-150 | is the reload turn of the timed system |
| Scheduler.SerialScheduler.HandleJob | internal/scheduler/mod.go:245-278 | fails at once exactly if the query is not in the configuration, and puts exactly an error-free answer into the cache, under the key of its query and database |
| Scheduler.SerialScheduler.LookAt | internal/scheduler/mod.go:281-286 | one overdue task is run and put off by its interval, others are left alone |
| Scheduler.SerialScheduler.RunOverdueJobs | internal/scheduler/mod.go:280-287 | the loop is the round of the timed system, and stores exactly the answers of the jobs it ran, in order |
| Scheduler.SerialScheduler.Round | internal/scheduler/mod.go:152-153 | is the timer turn of the timed system |
| ParallelScheduler.StepKeepsSpaced | internal/scheduler/mod.go:290-321 | each step of each job loop, and of a reload, keeps runs spaced and jobs runnable |
| ParallelScheduler.RunsAreSpaced | internal/scheduler/mod.go:159-208 | in every run a job never overlaps itself, rests at least its interval, first starts no sooner than interval plus offset, finds its query, and generations do not overlap |
| ParallelTimetable.RunsAreOnSchedule | internal/scheduler/mod.go:290-321 | in every run there is a loop for each valid job, which ends only for a new configuration, and sleeps exactly until its interval after its last run, or its interval and offset after loading, has passed |
| ParallelTimetable.FiresExactly | internal/scheduler/mod.go:308-318 | a waiting loop can start its job exactly when that time has come |
| ParallelTimetable.SwapTakesTheNewConfig | internal/scheduler/mod.go:188-205 | what is taken in is the configuration that arrived |
| ParallelTimetable.RunJobInLoop | internal/scheduler/mod.go:290-321 | the loop runs the job its interval after each end, the first time with the offset added, late by no more than its timer is |
| RequestParams.DeduplicateStringList | internal/server/request.go:157-184 | the distinct trimmed non-empty values, each once, for any order of iteration |
| RequestParams.ParamsFromQuery | internal/server/request.go:141-154 | as a map: every non-standard parameter with its first value |
| RequestParams.ExtraExactly | internal/server/request.go:146-151 | the extra parameters are exactly those not named query, group or database that have a value, each with its first |
| RequestParams.CollectNames | internal/server/request.go:91-99 | names given directly and through known groups, and an error for exactly each unknown group |
| RequestParams.FindQueries | internal/server/request.go:106-114 | an error for exactly each unknown query |
| RequestParams.NewRequestParams | internal/server/request.go:83-125 | succeeds if and only if there is a database, every group is known, and at least one query is asked for and all are known; then databases and queries are exactly those asked for, each once; otherwise each missing or unknown name is reported |
| RequestParams.AskedThroughGroups | internal/server/request.go:91-101 | with a loaded index, the queries asked for are those named and those that list a named group |
| RequestParams.KnownExactly | internal/server/request.go:94 | a group is known exactly if it has a query |
| RequestParams.KeptExactly | internal/server/request.go:172-176 | what is kept of a list are exactly its trimmed values that are not empty |
| RequestParams.CheckedNames | internal/server/request.go:83-118 | every reason to refuse a request is reported, and no other |
| RequestParams.Iter | internal/server/request.go:127-137 | yields the pairs database by database |
| RequestParams.PairsAreTheProduct | internal/server/query_handler.go:229 | the pairs are all of databases times queries, each once, and as many as the result channel holds |
| RequestParams.PairPosition | internal/server/request.go:127-137 | the pairs come database by database, and within one query by query |
| Histogram.AtMostCounts | internal/templates/templates_extra.go:55-68 | a bucket's count is the number of rows whose value can be converted and is at most its bound |
| Histogram.ConvertedCounts | internal/templates/templates_extra.go:55-71 | the count of all is the number of rows whose value can be converted |
| Histogram.Generate | internal/templates/templates_extra.go:36-91 | the result rows carry exactly the counts of the converted values, one row per bucket and one for all |
| Histogram.CountRows | internal/templates/templates_extra.go:51-71 | the loop over the rows counts the convertible values, and for each bucket those at most its bound |
| Histogram.CountValue | internal/templates/templates_extra.go:64-68 | the loop over the buckets counts one more value wherever it belongs |
| Histogram.CountsOfResult | internal/templates/templates_extra.go:73-90 | row i carries the count of bucket i, the last row the count of all convertible values |
| Histogram.RowsOfResult | internal/templates/templates_extra.go:73-88 | each row is a copy of the first input row with the label of its bucket, "+Inf" for the last, and a count put in |
| Histogram.NoRowsNoResult | internal/templates/templates_extra.go:38-40 | no rows give no histogram |
| Histogram.HistogramIsCumulative | internal/templates/templates_extra.go:64-88 | counts do not decrease along sorted buckets and never exceed that of "+Inf" |
| Histogram.HistogramsAdd | internal/templates/templates_extra.go:55-71 | the histogram of two non-empty inputs together is the sum of theirs |
| Histogram.ConversionKeepsOrder | internal/templates/templates_extra.go:134-152 | comparing a converted value with an integer bucket gives what comparing the exact value gives, if and only if it is not a clamped value in the bucket of the largest int |
| Histogram.IntegerBucketsAreExact | internal/templates/templates_extra.go:128-163 | integer counts equal the counts by exact comparison, plus the clamped rows in the bucket of the largest int |
| Histogram.RealBucketsAreExact | internal/templates/templates_extra.go:93-126 | a float bucket counts exactly the rows whose exact value is at most its bound, and "+Inf" those with a number |
| Histogram.IntegerBucketsCountExactly | internal/templates/templates_extra.go:128-163 | so does an integer bucket below the largest int |
| Histogram.LargestInt | internal/templates/templates_extra.go:143 | the bounds of an int of 64 bits |
| Histogram.Buckets | internal/templates/templates_extra.go:93-126 | the float histogram is the generated one over the float conversion |
| Histogram.BucketsInt | internal/templates/templates_extra.go:128-163 | the integer histogram is the generated one over the integer conversion |
| Templates.Prepare | internal/templates/templates.go:19-39 | fails exactly if a line is too long for the scanner, and otherwise gives the prepared text |
| Templates.LinesOfEnded | internal/templates/templates.go:23-35 | reading back lines that were written with newlines gives those lines |
| Templates.PreparedIsStable | internal/templates/templates.go:20-35 | the prepared text has exactly the trimmed non-blank lines in order, and preparing it again changes nothing |
| Templates.PreparedIsScannable | internal/templates/templates.go:37-39 | if no line is too long for the scanner then none of the prepared text is, so preparing it again succeeds |
| Templates.LinesAreTheText | internal/templates/templates.go:23-25 | splitting loses nothing: the lines, each ended by a newline, are the text again, with a newline after a last line that has none |
| Templates.KeptOfOne | internal/templates/templates.go:25-28 | a line is kept trimmed, or not at all if it is blank |
| Templates.KeptAdds | internal/templates/templates.go:24-35 | each by itself and in order |
| Templates.TooLongExactly | internal/templates/templates.go:37-39 | scanning fails exactly for a line of 65536 bytes or more |
| Templates.BytesAdd | internal/templates/templates.go:23 | the length of a line in bytes is the sum of its parts |
| Text.TrimBares | internal/server/request.go:163 | what trimming leaves has no space at its ends and no new characters |
| Text.TrimCutsOnlySpace | internal/server/request.go:163 | what trimming cuts off, at both ends, is white space only |
| Text.SpacesExactly | internal/server/request.go:163 | which characters are white space, by code point |

## Left out

- The drivers, connections, pings, transactions and connection strings of internal/db: a query is a step that ends with any success or failure.
- The detached goroutine of `queryDatabase`, which may outlive a task that was given up: the bound is on workers, not on connections in use.
- Template execution, the output parser behind `validateOutput` and the number formats of the histogram rows: their results are parameters.
- HTTP plumbing, middleware, landing page, info page, metrics, logging, tracing and YAML parsing.
- Process shutdown and closed configuration channels.
- PipelineAborts.AbortPanicsExactly: that an unfinished task of an HTTP request can still be answered assumes, as all progress does, that every waiting task is attended; a stranded one is answered by nobody.
- The exit of `Collectors.Run` when a new configuration has no usable database, and databases that fail validation or creation: a generation has the collectors its configuration gives it, an absent database is one without a collector.
- Write errors of the response, outside of `Response.Write`: every write succeeds, so `written` counts every chunk that is not skipped. The `written` counter of a job's request does not exist in the source and stays zero.
- Scheduler.SerialScheduler.HandleJob: every execution it models ends after some duration; one that waits for ever is the subject of `JobIsStuckExactly`, and the lateness bound is for runs without one.
- The clock is an integer that is passed in and, in runs, does not go back; timers fire at or after their time.
- The worker methods of `CollectorObject` cover the standard queue; the background queue has the same code in the source and the same pool operations in the transition system.
- The transition system is on values, because its steps belong to many goroutines that share state; the classes beside it have the source's fields and methods and are tied to its steps by their contracts.
- Rows of a histogram have the value key, without which the source panics. Floats are exact reals whose ceiling is an int; NaN and rounding are not modelled.
- ResultCache.ServedFromCache: assumes that no query name continues another with an at sign, because otherwise the statement is false (`MixedNamesServeAnothersResult`).
- The small character filters for templates, TLS, authentication and the limit on requests in flight, which are wrappers or one-line facts.
