# The life of a prediction task, proved

The serving agent keeps every asynchronous prediction in two places that are never updated
together: a *record* behind the webhook service (status, queue id, outputs) and an *entry* in the
task queue. HTTP handlers, workers, cancels, bulk deletions and three kinds of sweeps write to both,
one call at a time, and any call may fail and any of them may die in between. This project models
that protocol and the clients of the ML platforms, and proves what survives every interleaving, what
does not, and exactly when.

`dafny verify dfyconfig.toml` checks everything.

## How the model is built

* `Records`, `Queues`: the two stores as values, and the contract of each call.
* `Protocol`: a state machine. Its state holds the two views of the records (cache and database), the
  queue with a program counter for the worker of every active entry, a program counter for every HTTP
  handler and for every cancel, bulk deletion or sweep, and a history of what workers did per task.
  A step is one call to one service (with its outcome), a crash, a move inside the queue, or the
  expiry of a cached record. `Legal` and `Run` are sequences of enabled steps from the empty state.
* `Invariant`, `Evolution`, `Reachable`: the inductive invariant. `Evolves` says what any step may do
  to a task; everything an actor remembers between two calls is stable under it.
* `SweepSafety`, `Listing`, `Burials`, `Overwriting` (over `Successes`), `ArchiveSafety`, `CancelIsFinal`, `Absorption`, `Undoing`, `WorkBound`, `Attempts` (over
  `Histories`), `Admission`, `Draining`: theorems over all runs. `Counterexamples`: concrete runs, for every queue limit, that show
  each premise is needed.
* `Services`: the clients as classes whose calls fail at will; a `reliable` service fails only when
  its state gives a reason. Every call is noted in a journal (`Journals`) with its answer. `Sweepers`,
  `Handlers`: the loops and handlers as methods over these classes, each proved equal to a function of
  the outcomes of its calls (`Passes`, `Requests`), for the stores and for the journal. `Itemized` and
  the predicates `Submitting`, `Canceling`, `Served` and `Tells` say what these functions come to record
  by record, entry by entry and answer by answer. `Recovery`, `Housekeeping`, `Orphans`: what the sweeps
  achieve and conserve. `Bridge` (over `Tracing`): what a sweep, a worker's attempt, a submission, a
  synchronous prediction or a cancel does without interruption is what a run of its protocol steps does,
  with the same calls, the same answers and the same order.
* `Platforms`, `Polling`, `Verdicts`, `Clients`, `KServe`, `Configuration`: the retry and poll loops over
  an arbitrary trace of replies with a clock, what they answer in the services' own words, and what the
  start-up check covers.

In methods a `ghost` out-parameter names what the environment chose (pages, call outcomes); it carries no
information the code has. That all services share one journal is the only premise the journal adds.

## What is assumed of the services

* An update that returns an error had no effect. Empty fields of an update leave the stored field as
  it is; an `outputs` object without keys counts as given. A record created with status `""` is pending.
  A creation that returns an error may still have made the record.
* Reading one record and ordinary updates go through the cache and fail once the cached copy has
  expired. Listing by model and status reads the database. `DatabaseOnly` writes only the database.
* A handler that returns nil has its entry removed. An error moves the entry to retry while
  `retried < MaxRetry` (which is 1) and to the archive otherwise or on `SkipRetry`. Scheduled and retry
  entries move to pending. `DeleteTask` refuses active and missing entries. A list call answers with
  the whole list or with `MAX_QUEUE_SIZE` of its entries. A panic in a handler counts as an error.
* The timeout of a task does not interrupt its handler, which never looks at its context.
* Record ids and queue ids are fresh.
* The wait of the status sweep is a step; that a handler has ended when the wait is over is a premise
  of the theorems (`settled`), not an assumption of the model.

## What the proofs found

* The status sweep is right about a task exactly when no entry that its record does not name carries
  it, given that the listing missed nothing of the task and its HTTP handler had ended
  (`VerdictIsWrongIffOrphaned`). Exactly then its write cannot overwrite a success either, whatever
  others do between the read and the write (`FailLosesSuccessIff`, `OrphanOverwritten`).
* The repository's own description of the async API says that any failed step marks the record as
  failed. A submission that nothing interrupts does so exactly when the enqueue call was refused and the
  rollback accepted (`ErrorLeaves`); in every other error the record, if it was made, stays pending
  (`FailedLinkLeavesPending`), and after a refused link and a refused withdrawal an entry stays behind
  as well. Between the enqueue and a refused link a worker may already have taken the task, and then the
  record says what the worker wrote.
* The branch for records that cannot be read writes `failed` without looking at the database. Given that
  the listing missed nothing of the task and its handler had ended, it hits a task that is still in the
  queue exactly when an entry that the sweep has seen still carries the task
  (`BurialIsWrongIffSeenAlive`), even if the cached copy was gone when the task was listed
  (`ExpiredRunnerBuried`). Under the same premise it can lose a success exactly when the database says
  `succeeded` already, or such an entry is there and so is the cached copy (`BurialLosesSuccessIff`).
  Without it the branch may also bury a waiting task that the listing missed (`MissedAndBuried`).
* `ShutdownDistributor` is called before the workers are stopped and marks records before it deletes
  entries. A mark can hit a success exactly when the listed entry has left the queue, has had its report
  accepted or has lost its worker (`ShutMarkLosesIff`), so deleting first, which `DeleteTask` refuses for
  active and missing entries, would avoid it.
* A worker that dies after its last write, or a worker server that shuts down, can undo a success exactly
  when the cached record says `succeeded` as the entry is handed back (`HandBackUndoesIff`). A recovery
  lets a task be written again after a terminal status exactly when that status was accepted, an attempt
  is left and the record is still cached (`RecoveryLeavesIff`). Every hand-back on shutdown can cost one
  more prediction, and no more (`PredictionsAreBounded`, `RequeuesAddUp`).
* The size check is not atomic with the enqueue: the waiting lists may hold
  `MAX_QUEUE_SIZE - 1 + workers + submissions under way`, and some run reaches this number.
* `PreCheck` guarantees that `TASK_TIMEOUT` covers one request. KServe's retries need `5 T + 20` seconds
  and the polling clients `T (T + 2)`; both are attained, so an accepted configuration may be too small
  for all three at once (`PreCheckIsNotEnough`). All of this is for `T > 0`, since the HTTP client
  takes a timeout of zero for none.
* In both polling clients the branches for status 429 and for statuses from 400 on are dead, and type
  assertions on replies may panic; a panic is modelled as an outcome.

## Model

| member | source | states |
|---|---|---|
| Records.LinkCommutesWithWorker | api/v1.go:145-155 | the link write, which sets only the queue id, may land anywhere among a worker's writes of any number: the final record is the same and names the entry |
| Records.ReportTells | worker/predict.go:77-105 | the report of an answer makes any record succeeded, with every output but "running_time" exactly as given and that one as the running time unless missing or empty; the report of a refusal makes it failed with the error given and leaves outputs alone; nothing else changes |
| Queues.PageCovers | worker/distributor.go:93-111 | a list that fits MAX_QUEUE_SIZE is returned whole |
| Invariant.StepKeepsCore | api/v1.go:118-158 | every step of every actor keeps: entries carry known, distinct tasks; a stored queue id names the entry of its own task; the views differ at most in a `failed` of the database |
| Reachable.RunKeepsInv | worker/distributor.go:282-322 | over all runs, whatever a sweep, cancel or bulk deletion remembers between two calls stays true under all interleaved steps |
| Reachable.OneEntryPerTask | api/v1.go:118-146 | in every reachable state each entry's task has a record and distinct entries carry distinct tasks, so a record has at most one worker |
| Reachable.LinkNamesItsEntry | api/v1.go:145-147 | in every reachable state the queue id of a cached record and the payload of an entry agree in both directions |
| SweepSafety.VerdictIsWrongIffOrphaned | worker/distributor.go:296-321 | a task about to be failed by the status sweep, with complete listing and ended handler, is still in the queue if and only if its record does not name its entry; a linked one never is; neither view says succeeded |
| SweepSafety.StatusSweepIsSafe | worker/distributor.go:312-316 | after a sound verdict and any steps of others, the `failed` write hits a task that is in no list but the archive and has not succeeded, and this stays so in every continuation |
| SweepSafety.LinkedTasksAreSafe | worker/distributor.go:296-321 | from the read to the write, any steps of others in between: a suspect task whose record names an entry is failed only when it is in no list but the archive and has not succeeded, for ever |
| SweepSafety.BurialIsSafe | worker/distributor.go:299-311 | if the cached copy was gone when the task was listed, the database-only write hits no success, and no ordinary update reaches the record; it may hit a running task |
| Burials.BurialIsWrongIffSeenAlive | worker/distributor.go:299-311 | for a covered task whose record cannot be read, a burial right away fails a task that is still in the queue if and only if an entry that the sweep has seen still carries it |
| Burials.BurialStaysRight | worker/distributor.go:299-311 | if no seen entry carried the task at the read, then whatever happens no entry can run it at the burial or later, and it gains no success |
| Burials.BurialLosesSuccessIff | worker/distributor.go:299-311 | between the read and the burial others can bring a success for it to overwrite if and only if the database says succeeded already, or a seen entry still carries the task and its cached copy is there |
| Listing.ListingMissesNothing | worker/distributor.go:113-140 | with arbitrary steps of others between four list calls that answer in full, every entry of any task that is there at the first call, can still run at the last and made no move against their order is returned |
| Listing.ListedTasksAreSeen | worker/distributor.go:282-287 | so the sweep has seen every live entry of a listed task whose handler had ended with the wait and whose entry made no such move since |
| Overwriting.FailLosesSuccessIff | worker/distributor.go:312-316 | between the read of a suspect task and the `failed` write, steps of others can bring a success for it to overwrite if and only if a live entry carries the task without being named by its record |
| CancelIsFinal.SuccessfulDeleteIsFinal | api/server.go:112-129 | once cancel has deleted the entry, in every continuation the task is never predicted or written by a worker again, even if the `canceled` write fails |
| Absorption.SucceededIsAbsorbing | worker/predict.go:88-105 | over all calm runs no later step changes anything in the record of a succeeded task whose link was accepted, in either view; calm leaves out only hand-backs of a cached success, shutdown marks of a task whose entry is gone or reported, and unsound sweep writes |
| Undoing.HandBackUndoesIff | worker/predict.go:101-105 | after a calm run, re-issuing a dead worker's entry or requeuing one on shutdown lets some calm run undo a success of its task if and only if the cached record says succeeded at that moment |
| Undoing.ShutMarkLosesIff | worker/distributor.go:222-245 | some calm run has the shutdown sweep fail a success while the listed entry is at a given place if and only if the entry is gone, has had its report accepted or has lost its worker; never while it waits |
| WorkBound.LanguageBoundsWork | worker/predict.go:68-105 | a legal history has at most two predictions and its accepted writes are a prefix of running, optional running, one terminal status |
| WorkBound.WorkIsBounded | worker/predict.go:58-106 | in every run, dead and recovered workers included, a task whose own entry is neither requeued within an attempt nor recovered after an accepted report while it can be announced again: at most two calls of Predict, each right after an accepted running write, a second one only after a refused report, a panic or a worker's death, and accepted writes in that language |
| WorkBound.RecoveryLeavesIff | worker/predict.go:68-105 | some continuation of a recovery leaves the language if and only if the dead worker's report had been accepted, an attempt is left and the record is still cached |
| Attempts.PredictionsAreBounded | worker/predict.go:68-75 | in every run, crashed and recovered workers included, Predict is called at most twice per task plus once per requeue of its own entry, and only right after an accepted running write |
| Attempts.RequeuesAddUp | worker/processor.go:79-80 | for every k some run with k requeues of a task's entry calls Predict exactly 2 + k times for it |
| Admission.QueueStaysBounded | api/v1.go:103-134 | in every run with at most W active entries and C submissions between check and enqueue, waiting + active + under way never exceed limit - 1 + W + C |
| Admission.BoundIsAttained | api/v1.go:103-134 | for every limit, W and C some run fills the waiting lists exactly up to that number |
| Draining.StepUses | worker/predict.go:58-106 | every step but arrivals and shutdown requeues strictly decreases a measure over attempts left, queue places and program counters |
| Draining.DrainingTerminates | worker/predict.go:58-106 | from every reachable state a run without arrivals has at most as many steps as the measure says |
| Draining.WorkDrains | worker/predict.go:58-106 | from every reachable state, with no new requests and no shutdown requeues but any number of cancels, bulk deletions and sweeps, handlers, workers and the queue take at most as many steps as their entries and handlers weigh |
| Counterexamples.ImpatientSweep | worker/distributor.go:276-280 | without the wait the status sweep fails a task that is pending and linked |
| Counterexamples.MissedByTheListing | worker/distributor.go:121-132 | a move from retry to pending between two list calls hides a live task and the sweep fails it |
| Counterexamples.OrphanOverwritten | worker/distributor.go:312-316 | after a failed link write the sweep overwrites succeeded |
| Counterexamples.TransientErrorBuries | worker/distributor.go:299-311 | one failed read makes the sweep write failed for a task that a worker holds |
| Counterexamples.MissedAndBuried | worker/distributor.go:299-311 | a waiting task that the listing missed is buried after a failed read although no seen entry carries it |
| Counterexamples.ExpiredRunnerBuried | worker/distributor.go:299-311 | a linked task that a worker holds is buried although its cached copy was gone when it was listed |
| Counterexamples.ExpiredSuccessBuried | worker/distributor.go:299-311 | a record that succeeds and expires after the listing loses its success in the database |
| Counterexamples.ShutdownOverwritesSuccess | main.go:163-172 | the shutdown sweep, called while workers run, overwrites succeeded |
| Counterexamples.RecoveryUndoesSuccess | worker/predict.go:101-105 | a worker that dies between its last write and its return makes a succeeded task running again |
| Counterexamples.FailedLinkLeavesPending | api/v1.go:146-153 | a failed link write leaves the record pending and unlinked, with no entry, handler or actor about; it takes a status sweep to fail it (`Orphans.SweepFailsStranded`) |
| Services.Webhook.CreateNewTask | platform/webhook.go:60-101 | creation adds exactly the new record or nothing; an error may hide that the record was made |
| Services.Webhook.UpdateTaskInfo | platform/webhook.go:103-127 | an update overlays its given fields in both views or has no effect; it is never accepted for an expired record |
| Services.Webhook.UpdateDatabase | worker/distributor.go:303-306 | a database-only update leaves the cache alone |
| Services.Webhook.GetTaskInfoObject | platform/webhook.go:160-175 | a record that is returned is the cached one |
| Services.Webhook.GetTaskIDByModelStatus | platform/webhook.go:177-220 | the listing is exactly the database's records of that model and status, without duplicates, or empty after an error |
| Services.Distributor.DistributeTaskRunPrediction | worker/predict.go:36-56 | enqueuing adds one fresh pending entry that carries the task, or nothing |
| Services.Distributor.DeleteTask | worker/distributor.go:142-144 | deletion removes exactly one entry that is not active, or nothing |
| Services.Distributor.ListTasks | worker/distributor.go:93-111 | a list call returns a duplicate-free page of one list, whole unless it is full |
| Recovery.CheckAllFails | worker/distributor.go:296-324 | with calls granted, the loop fails exactly the expired and suspect ids and counts them |
| Itemized.SweepItemized | worker/distributor.go:289-323 | for any outcomes of the calls: a listed record is failed with "Unknown failure" exactly when it could not be read or was read as abandoned, and the write for that was granted (in the database alone in the first case); no other record changes; and the count is the number of such tasks whether or not the write was granted |
| Recovery.RecoveryIsComplete | worker/distributor.go:256-324 | from any quiescent stores one granted sweep leaves every unfinished record of the model linked to a seen entry, changes nothing else, and returns the number of records changed |
| Recovery.RecoveryIsIdempotent | worker/distributor.go:256-324 | a sweep over settled records returns 0 and changes nothing |
| Recovery.SecondSweepIsIdle | worker/distributor.go:256-324 | a granted sweep right after a granted sweep, with its own listings in any order, returns 0 and changes nothing |
| Itemized.ArchiveItemized | worker/distributor.go:164-195 | for any outcomes: exactly the records whose update was granted are failed, and a listed entry stays if and only if its payload does not parse, its update was refused less than 43200 seconds after its failure, its deletion was refused, or a worker holds it |
| Housekeeping.ArchiveLosesNothing | worker/distributor.go:164-195 | under any failures, an entry removed from the archive has its record failed or failed twelve hours ago; no other record or entry changes |
| ArchiveSafety.RemovalIsAccounted | worker/distributor.go:164-195 | over all runs with all interleavings, an entry the archive sweep deletes is archived, no record changes with it, its task is never worked on again, and its record says failed or canceled unless it failed twelve hours before the sweep tried to mark it |
| Housekeeping.ArchivePassesDrain | worker/distributor.go:159-197 | k granted passes over pages that are due, expired records that failed twelve hours ago included, remove exactly min(n, k * limit) of n archived entries |
| Itemized.ShutItemized | worker/distributor.go:222-245 | for any outcomes: exactly the records whose update was granted are failed, and a listed entry goes if and only if its payload parses, its deletion was granted and no worker holds it, whatever became of its record |
| Housekeeping.ShutdownClears | worker/distributor.go:222-245 | with calls granted, exactly the listed entries go and exactly their records fail |
| Housekeeping.ShutdownLeavesRemainder | worker/distributor.go:201-246 | a quiescent shutdown removes the first page of each waiting list, keeps active entries, and leaves what did not fit |
| Itemized.BulkItemized | api/server.go:173-182 | for any ids and outcomes: an entry goes if and only if the cached record of some listed id names it, both calls for that were granted and no worker holds it |
| Housekeeping.BulkConserves | api/server.go:172-182 | for any ids, duplicates and failures, the count is the drop in queue size, at most the number listed, and active entries stay |
| Orphans.BulkThenSweepFails | api/server.go:164-187 | a bulk deletion followed by a status sweep fails every listed record whose entry no worker holds, expired ones included |
| Orphans.SweepFailsStranded | worker/distributor.go:282-292 | of the unfinished records of the model a granted sweep fails those that have expired or whose entry can no longer run, and no other |
| Sweepers.CheckArchivedTasks | worker/distributor.go:159-197 | for any pattern of failures: which records fail and which entries stay, exactly as `Itemized.ArchiveItemized` says, and the calls in order: the list, then per entry the update and, after that, the deletion |
| Sweepers.CloseTasks | worker/distributor.go:222-245 | for any pattern of failures: which records fail and which entries go, and the calls in order: per entry the mark and, whatever came of it, the deletion |
| Sweepers.ShutdownDistributor | worker/distributor.go:201-246 | the three lists in order, then the loop; with granted calls and parsing payloads exactly the three pages go, their records are failed, active entries stay, and at most what lies beyond one page remains |
| Sweepers.ListUnfinishedTasks | worker/distributor.go:113-140 | four list calls in the order scheduled, pending, retry, active; the result is the union of what they answered, page or error; all live entries when calls succeed and lists fit |
| Sweepers.CheckListed | worker/distributor.go:296-324 | for any outcomes, what becomes of each record and what is counted; each record is read and, if lost, written before the next is read |
| Sweepers.CheckTaskStatus | worker/distributor.go:256-294 | for any answers: each record as `Itemized.SweepItemized` says, and the calls in order: both record listings, the wait if they found any, the four lists, then task by task; with granted calls and lists that fit, what is left unfinished is linked to a live entry, the result is the number of changed records, the views still agree, and a settled store is left alone with result 0 |
| Sweepers.CheckTwice | main.go:139-147 | when the periodic check comes round again with nothing in between, it returns 0, and the first result counts all records changed |
| Handlers.FillAnswer | worker/predict.go:88-100 | filling the request in place, with outputs aliasing the response: status succeeded, "running_time" deleted from the shared outputs and no other key, and its value the running time unless it was missing or empty |
| Handlers.ProcessTaskRunPrediction | worker/predict.go:58-106 | for each return value the calls made, in order, and what was accepted of them: `running` is written, only then the platform asked, only then the report written; on success both views of the record tell the platform's answer or error (`Records.Tells`); with a reliable webhook a known record always gets its report |
| Requests.SubmitAnswers | api/v1.go:103-158 | refused for its size if and only if the size was told and reaches MAX_QUEUE_SIZE, accepted if and only if all calls after that were granted, an internal error otherwise; an accepted task is one fresh pending entry and one pending record that names it and holds nothing else |
| Requests.ErrorLeaves | api/v1.go:121-154 | an internal error leaves a failed record if and only if the enqueue call was refused and the rollback accepted, a pending one if and only if the record was made and that is not so, and an unnamed entry if and only if the link and the withdrawal were refused |
| Handlers.Server.AsyncPredict | api/v1.go:91-158 | answers and leaves what `Requests.SubmitAnswers` and `Requests.ErrorLeaves` say for the answers its calls got, and makes its calls in order: size, record, entry, link or rollback, withdrawal |
| Requests.ServeAnswers | api/v1.go:30-75 | outputs if and only if every call was granted and the platform answered; no record if none was made, one still running after a panic, a lost reply or a refused report, and otherwise one that tells the answer or the error (`Records.Tells`) |
| Handlers.Server.Predict | api/v1.go:30-75 | answers and leaves what `Requests.ServeAnswers` says, and makes its calls in order: record, prediction, report, reading back; a refusal with a reliable webhook leaves failed; a panic leaves running |
| Requests.CancelAnswers | api/server.go:106-130 | an internal error if and only if the record could not be read or its mark was refused after the deletion; forbidden if and only if it was read and its entry could not be deleted or the deletion was refused; accepted otherwise, and only then the record is canceled, with nothing else changed |
| Handlers.Server.CancelTask | api/server.go:106-130 | answers and leaves what `Requests.CancelAnswers` says for the answers its calls got, all of which are granted by reliable services, and makes its calls in order: read, delete, mark |
| Handlers.Server.GetQueueSize | api/server.go:132-144 | the size is scheduled + pending + retry, 0 only for a missing queue, an error otherwise |
| Handlers.Server.DeleteListed | api/server.go:172-182 | its count is the drop in queue size, and exactly the entries named by listed records go, calls granted |
| Handlers.Server.DeleteAllPendingTasks | api/server.go:164-187 | reports the drop in queue size and the number listed; no record and no active entry changes; with reliable services an entry goes if and only if no worker holds it and the cached record of a task that the database has as pending names it |
| Bridge.StatusSweepIsRun | worker/distributor.go:256-324 | an uninterrupted status sweep, whatever its listings, list calls, reads and writes are answered with, is a run of the protocol that makes the same calls with the same answers in the same order and ends with the records of its fold |
| Bridge.CheckAsRun | worker/distributor.go:256-324 | every execution of the sweep's method makes, call by call and answer by answer, the calls of a run of the protocol's steps, and leaves the records that run leaves |
| Bridge.ArchiveAllIsRun | worker/distributor.go:164-195 | the uninterrupted archive loop is a run of the protocol with the stores of its fold and the same calls in the same order |
| Bridge.ShutAllIsRun | worker/distributor.go:222-245 | the uninterrupted shutdown loop is a run of the protocol with the stores of its fold and the same calls in the same order |
| Bridge.BulkAllIsRun | api/server.go:173-182 | the uninterrupted deletion loop is a run of the protocol with the queue of its fold and the same calls in the same order |
| Bridge.AttemptIsRun | worker/predict.go:58-106 | every outcome the worker's method may leave is the outcome of a run of the protocol's steps on that entry, call by call |
| Bridge.SubmissionIsRun | api/v1.go:103-158 | whatever its calls are answered with, an uninterrupted submission is a run of its handler's steps that makes the same calls and leaves the same stores |
| Bridge.PredictionIsRun | api/v1.go:30-67 | so is an uninterrupted synchronous prediction |
| Bridge.CancelIsRun | api/server.go:112-129 | whatever its calls are answered with, an uninterrupted cancel is a run of its steps that makes the same calls and leaves the same stores |
| Bridge.ShutdownAfterAdmission | worker/distributor.go:201-246 | from any governed reachable state a quiescent shutdown leaves at most W + C - 1 waiting tasks |
| Polling.PollsToOneResult | platform/replicate.go:124-177 | every reply trace leads to exactly one result after exactly one number of polls |
| Polling.PredictionTimeBound | platform/replicate.go:85-177 | for any trace a prediction ends within T (T + 2) seconds |
| Polling.PredictionTimeAttained | platform/runpod.go:85-169 | for every T > 0 and either client some trace takes exactly T (T + 2) seconds |
| Polling.MergedIsRightBiased | platform/replicate.go:141-145 | after any replies a key has the value of the last reply that told it since the last null body, else the submission's |
| Polling.NoStatusMeansNeverTold | platform/runpod.go:142-147 | a missing-status error means no reply since the last reset, nor the submission, carried a status |
| Clients.SendRequest | platform/replicate.go:32-67 | one exchange; anything above 300 is an error, so no poll ever sees 429 or 400 and above |
| Polling.SubmissionStarts | platform/replicate.go:85-122 | a submission leads to polling, with exactly these outputs, if and only if its reply is below 300 with an object that carries the handle in the right shape |
| Polling.SubmissionRefused | platform/runpod.go:85-118 | each reason for a refusal, with its error code, holds if and only if the reply is of its kind: no handle for null or an object without it below 300, "predict failed" for the status 300 alone, a panic for Replicate's mistyped urls alone, and never a verdict about the prediction |
| Polling.PollsUnlessRefused | platform/replicate.go:85-130 | with a positive timeout a prediction ends without a poll if and only if the submission was refused, after that one request |
| Verdicts.ReplicateAnswers | platform/replicate.go:124-177 | over any trace the first decisive reply decides: a success if and only if it leaves "status" last told as "succeeded" and "metrics" as an object, with the output last told and that object's "predict_time"; a failed prediction if and only if "failed"; a panic, a missing status and every error of the reply with its code exactly for their kinds; a timeout if and only if T replies leave it open; one second slept after each open one |
| Verdicts.RunPodAnswers | platform/runpod.go:120-169 | the same with "COMPLETED", "FAILED", and "executionTime" as a number of milliseconds |
| Clients.ReplicatePoll | platform/replicate.go:126-176 | one status reply overrides the outputs kept so far; a readable one is a success or a panic if and only if it leaves the status "succeeded", and a failed prediction if and only if "failed"; the branches from 400 on are dead |
| Clients.ReplicatePredict | platform/replicate.go:69-178 | for any trace the prediction ends as `Verdicts.ReplicateAnswers` says; requests and seconds are counted exactly; upload_webhook is removed from the inputs |
| Clients.RunPodPoll | platform/runpod.go:121-167 | one status reply overrides the outputs kept so far; a readable one is a success or a panic if and only if it leaves the status "COMPLETED", and a failed prediction if and only if "FAILED"; the branch from 400 on is dead |
| Clients.RunPodPredict | platform/runpod.go:69-170 | for any trace the prediction ends as `Verdicts.RunPodAnswers` says; requests and seconds are counted exactly; upload_webhook is removed from the inputs |
| Clients.PollUntilDecided | platform/replicate.go:125-177 | the loop stops at the first decisive reply or after T undecided polls, one second after each |
| KServe.SendRequest | platform/kserve.go:34-87 | a response if and only if one of five attempts is answered with 200 after only unreachable servers and 502, 503 or 504; a rejection with the status and the number of retries if and only if the last attempt is answered otherwise, with a gateway error only at the fifth; pauses of 2, 4, .. seconds; the return behind the loop is never reached |
| KServe.OneLastAttempt | platform/kserve.go:41-85 | every trace has exactly one last attempt |
| KServe.SendTimeBound | platform/kserve.go:41-85 | a request ends within 5 T + 20 seconds |
| KServe.SendTimeAttained | platform/kserve.go:41-85 | for every T > 0 some trace takes exactly 5 T + 20 seconds |
| Configuration.KServeFitsIff | main.go:65-70 | every request to KServe fits the task timeout if and only if it is at least 5 T + 20 |
| Configuration.PollingFitsIff | main.go:65-70 | every prediction of a polling client fits the task timeout if and only if it is at least T (T + 2) |
| Configuration.PreCheckMeansOneAttempt | main.go:61-71 | for positive timeouts a configuration is accepted if and only if the queue has room for one and every single request on every platform fits the task timeout |
| Configuration.PreCheckIsNotEnough | main.go:61-71 | for every T > 0 some accepted configuration is too small for KServe, Replicate and RunPod |

## Left out

- HTTP, routing, JSON encoding, headers, metrics and logging: plumbing without state of its own. The handlers start after a request was bound; adding `upload_webhook` to the inputs and the inputs themselves are not modelled there.
- The webhook service, asynq and Redis: not in the repository. Only the contracts above.
- Streaming generation, the Kubernetes client, document requests, reading a task, pausing a queue, gauges and liveness: single branches.
- The order of entries inside a list: a page is any part of a list that is as long as the limit.
- Fields that nothing here depends on: queue number, user id, creation time. Running times are kept as the values that the clients format, not as formatted text.
- In-place reading of replies into a shared map: the outputs of a polling client are a value handed from poll to poll, since nothing else refers to that map.
- Real time, except as seconds in the client loops and as failure times in the archive sweep; integers are unbounded.
- CheckTaskStatus: the method is proved without steps of others inside it; interleavings are in the protocol, and `Bridge` connects the two. The same holds for the other sweeps and handlers.
- CancelTask: for a record that names no entry the agent still asks the queue to delete the empty id, which is always refused; the model answers the same without that call. So does `DeleteListed`.
- ProcessTaskRunPrediction: what the platform answers is a parameter; the clients are modelled apart.
- WorkIsBounded: excludes requeues of the task's own entry within an attempt, and the recoveries that `RecoveryLeavesIff` shows to leave the language; `PredictionsAreBounded` includes both.
- DrainingTerminates: bounds all steps and so excludes new sweeps and cancels, whose listings bring work of their own; `WorkDrains` lets them come and bounds the steps of handlers, workers and the queue.
- SucceededIsAbsorbing: excludes the steps that can undo a success; `Undoing` says exactly when hand-backs and shutdown marks do, `Burials` and `SweepSafety` when the status sweep's writes do.
- BurialIsWrongIffSeenAlive: speaks of covered tasks; of a task that the listing missed nothing is known.
