# OtelForge deployments, modelled and proved

OtelForge pushes collector configurations to fleets of machines. An API turns a request into an event with one
job per target, stores both in Postgres and publishes one message per job to RabbitMQ. Workers consume the
messages one at a time, mark the job RUNNING, connect over SSH, run a script on the node, write the result and roll
the event's counters up. This project models that protocol and the nodes it drives, and proves what holds over
whole runs: when event rows agree with their jobs, what VERIFIED and COMPLETED say about real nodes, that no job
and no message is lost without a trace, that work ends, who owns what, and which host keys are trusted.

`dafny verify dfyconfig.toml` checks everything.

## How it is built

* **Sql** holds the tables and the effect of each SQL statement. **Handler** is the worker's handler as a machine,
  one step per statement or connection. **Machine** puts API calls, broker, N consumers and the handlers over one
  database; one action is one statement, one transaction, one broker operation or one connection, in any order.
  A run is any legal sequence of actions.
* A `Setup` says what may go wrong. A call can be *Confirmed*, *Refused* (no effect, error seen) or *Lost* (effect,
  error seen all the same); a consumer may crash, whereupon its message is redelivered, or quit for good as when its
  channel closes, and an API process may die with a call in flight; and `RollupEvent` is either one step or, with
  `torn`, the three separate statements the code really runs. "Fault-free" means none of refusals, losses and crashes
  (quitting and dying included); SSH and script failures are ordinary outcomes and always possible.
* Invariants: **Structure** and **Coverage** (all setups), **Tokens** and **OneToken** (fault-free), **Truth**,
  **Agreement**, **Stuck**, **Conservation**, **Drain**, **Ownership**, **Pins**. **Fleet** follows the target nodes
  through these runs. **Witness** drives concrete runs that show where guarantees end and turns them into exact
  conditions.
* **Collector** is a node and the bash scripts that change it in place; **HostKey** the host key callback;
  **Retry** the retry header.
* **Store**, **Runner**, **Service** and **Broker** are the Go code's own imperative form: classes whose methods run
  statement by statement. Their contracts tie every new state to the specification functions, and
  `Runner.HandleIsARun`, `Service.CallIsARun` and `Worker.WorkerIsARun` show that what they do is a run of the machine.
* **EventQuery** is the filter and SQL builder of the event list, **RemoteCommand** (with **Base64** and **Text**)
  the shell command sent to a node.

History fields (`h` in the machine's state, `log` in its world) are bookkeeping for the theorems; no step reads them.

## Where code and documentation differ, and where guarantees end

* The architecture document says host key mismatches are rejected once a key is pinned (ARCHITECTURE.md:333 and 624).
  A handler that read the instance row before the pin was stored accepts any key, since its pin UPDATE matches no
  row and reports no error. One handler is enough: `Witness.SecondKeyAccepted`. `Pins.MismatchExactly` is the exact
  condition, `Pins.TrustsOnlyThePin` what does hold.
* It says failed messages are nacked with requeue (ARCHITECTURE.md:612). The code publishes a copy and acks the
  original; the two are separate steps, so a crash between them duplicates the message: `Witness.SingleExactly`.
* With two or more consumers the three-statement rollup can leave a stale PARTIAL on an event whose jobs are all
  VERIFIED: `Witness.SettlesExactly`.
* With the three-statement rollup, one consumer and no fault at all, an event can show PARTIAL or FAILED while a job of
  it is QUEUED and no rerun is in progress: the rollup reads that nothing is pending, RerunFailed requeues the failed
  job and writes RUNNING, and the rollup then writes what it has read (`Witness.EarlyPartial`,
  `Witness.WindowedExactly`). With one consumer the event at least shows RUNNING again before that job is worked on;
  with more it need not (`Agreement.WorkedOnShowsRunning`, `Witness.ShownExactly`).
* A rerun of an event without failed jobs leaves it RUNNING for good: `Witness.EmptyRerunLeavesRunning`,
  `Agreement.StaleExactlyIfEmptied`.
* VERIFIED is final, and COMPLETED can be trusted at every moment, only while nothing is redelivered:
  `Witness.AbsorbingExactly`, `Witness.TruthfulExactly`.
* A consumer whose `Consume` has returned is only logged and never started again (worker/cmd/worker/main.go:54-58).
  When all have returned, messages stay queued for good: `Drain.StoppedExactly`.
* An API process that dies after its commit leaves QUEUED jobs that nobody will publish; they are among the ones whose
  call reported an error in `Stuck.NoSilentlyStuckJob`.
* A configuration that fails validation stays installed, and the next restart of the collector loads it:
  `Collector.RejectedConfigIsLoadedLater`.
* Deploying twice overwrites the only backup of the original configuration: `Collector.SecondDeployLosesBackup`.
* The launcher filter of the event list is containment only for search texts without `%`, `_` and backslash:
  `EventQuery.ContainmentExactly`.

## Model

| member | source | states |
|---|---|---|
| `Agreement.FinalAgreement` | internal/db/store.go:389-448 | fault-free, any events, consumers and interleaved reruns, rollups atomic or one consumer with the real three statements: whenever nothing is queued, held or awaiting publication, all jobs are VERIFIED or FAILED and every event's counters are those of its jobs, its status too unless its last status write came from a rerun that reset nothing |
| `Agreement.FinalStatuses` | internal/db/store.go:389-424 | the same written out for each event: the counters are the numbers of its VERIFIED and of its FAILED jobs and of both; the status is COMPLETED exactly if all jobs are VERIFIED, FAILED exactly if all are FAILED, PARTIAL exactly if there are both, and RUNNING only after a rerun that reset nothing |
| `Witness.SettlesExactly` | worker/cmd/worker/main.go:48-61 | a fault-free deployment always settles into agreement if and only if its rollup is atomic or it has at most one consumer; the other half is a run of two consumers |
| `Witness.StalePartial` | internal/db/store.go:389-424 | with the torn rollup and two consumers there is a legal run that ends quiet with both jobs VERIFIED and the event PARTIAL with one verified |
| `Agreement.StaleExactlyIfEmptied` | internal/db/store.go:426-448 | in a quiet state an event shows a status other than its jobs' exactly if its last status write came from a rerun that reset no job |
| `Agreement.ReachableEmptied` | internal/db/store.go:444-446 | whatever fails, an event whose last status write came from a rerun that reset nothing is RUNNING |
| `Witness.EmptyRerunLeavesRunning` | internal/db/store.go:444-446 | in every setup with a consumer some run completes an event, reruns it with nothing to reset, and ends quiet with RUNNING although all its jobs are VERIFIED |
| `Agreement.EarlyTerminalWindow` | internal/db/store.go:401-446 | of atomic rollups only, fault-free: an event is COMPLETED, PARTIAL or FAILED while a job of it is pending only while a rerun stands between its two UPDATEs; for the code's three statements this is false, see the next two rows |
| `Witness.WindowedExactly` | internal/db/store.go:389-446 | in a fault-free deployment with a consumer, early terminal statuses are confined to that window in every run if and only if the rollup is atomic |
| `Witness.EarlyPartial` | internal/db/store.go:401-424 | with the three statements, a legal run of one consumer writes PARTIAL on an event whose failed job has just been requeued, with no call in flight |
| `Agreement.WorkedOnShowsRunning` | worker/internal/runner/runner.go:38-45 | what does hold of three-statement rollups with one consumer (and of atomic ones with any number), fault-free: an event one of whose jobs is past its marking and not yet reported shows RUNNING |
| `Witness.ShownExactly` | worker/internal/runner/runner.go:38-45 | a fault-free deployment always shows RUNNING on an event that is being worked on if and only if its rollup is atomic or it has at most one consumer |
| `Witness.HiddenWork` | internal/db/store.go:401-424 | the other half: while a second consumer serves the requeued job, the first writes PARTIAL |
| `Agreement.ReachableAgree` | worker/internal/runner/runner.go:107-125 | the invariant behind final agreement: an event without pending jobs and without a rollup under way agrees with its jobs, and what a torn rollup has read is still true or about to be overwritten |
| `Stuck.NoSilentlyStuckJob` | internal/queue/rabbitmq.go:104-146 | whatever fails, each QUEUED or RUNNING job awaits publication, is queued, is held by a consumer that has not written its result, is dead-lettered, or its API call reported an error or died with the API process |
| `OneToken.OneTokenPerJob` | internal/db/store.go:354-375 | fault-free, a job waits in exactly one place if it is QUEUED or RUNNING and in none otherwise, and the place determines which of the two it is |
| `OneToken.VerifiedIsAbsorbing` | internal/db/store.go:354-375 | fault-free, a VERIFIED job's row never changes again although the UPDATEs of jobs are unguarded |
| `OneToken.VerifiedStep` | internal/db/store.go:354-375 | no single step touches a VERIFIED row, because only the holder of a token writes and only pending jobs have one |
| `Witness.AbsorbingExactly` | internal/queue/rabbitmq.go:118-144 | with the real rollup and a consumer, VERIFIED is final in every run if and only if no call is refused, no reply lost and no consumer crashes |
| `OneToken.AtMostNRunning` | internal/queue/rabbitmq.go:97-100 | fault-free, N consumers with prefetch 1 never have more than N jobs RUNNING |
| `Tokens.ReachableOrderly` | internal/events/service.go:78-92 | the token invariant holds in every reachable fault-free state: status is written before publishing, results before acknowledging |
| `Truth.VerifiedIsProven` | worker/internal/runner/runner.go:76-109 | whatever fails, a VERIFIED row has exit code 0, and the history shows a connectivity check of that job followed by a run of the task's script with the event's configuration that exited 0 and left the node as the task promises |
| `Truth.VerifiedMeans` | worker/internal/runner/runner.go:76-109 | the same task by task: after a VERIFIED deploy the node's file and its running service have the event's valid configuration, after a VERIFIED rollback the node's valid backup, after a stop the service is down, and so on |
| `Truth.CompletedIsTruthful` | internal/db/store.go:389-423 | fault-free, torn rollups, any consumers and reruns: while an event is COMPLETED all its jobs are VERIFIED |
| `Witness.TruthfulExactly` | internal/db/store.go:389-423 | with the real rollup and a consumer, every COMPLETED event has all its jobs VERIFIED in every reachable state if and only if no call is refused, no reply lost and nothing crashes |
| `Witness.CompletedThenRunning` | internal/queue/rabbitmq.go:118-144 | in every other such setup a legal run ends with an event COMPLETED and one of its jobs RUNNING again |
| `Truth.CompletedEndToEnd` | worker/internal/runner/runner.go:76-110 | fault-free: each target of a COMPLETED event has exactly one job, that job is VERIFIED, and its target was reached and then served successfully with the event's configuration |
| `Truth.EveryTargetServed` | internal/db/store.go:389-423 | the same for all targets at once: while an event is COMPLETED no target is left out |
| `Coverage.ReachableCovered` | internal/db/store.go:190-206 | whatever fails, every event has exactly one job for each of its targets in every reachable state |
| `Structure.ReachableStructured` | internal/db/store.go:384-424 | whatever fails and however rollups interleave: keys hold, an event's total is its number of jobs, verified and failed fit in it, COMPLETED means all verified, FAILED all failed, PARTIAL neither |
| `Structure.HandlerHolds` | worker/internal/runner/runner.go:24-36 | in every reachable state a handler past its loads works on its job's event and instance with the event's task, and holds the event's configuration if the task is to deploy or validate one and none otherwise |
| `Conservation.MessagesAreConserved` | internal/queue/rabbitmq.go:104-146 | whatever fails, each published message has a copy queued, held or dead-lettered, or was acknowledged after a run that returned nil; every copy carries a published body and a count in 0..2 |
| `Conservation.CopiesAreExact` | internal/queue/rabbitmq.go:118-143 | without lost replies, and without crashes or without refused calls, each message has exactly one copy until acknowledged, and its header equals the number of its failed handler runs |
| `Witness.SingleExactly` | internal/queue/rabbitmq.go:131-141 | a message is never duplicated in any run if and only if no reply is lost and crashes do not meet refused calls; the other half is a run for each |
| `Conservation.CountsAreExact` | internal/queue/retry.go:5-23 | lost replies included, a message has at most one copy that is queued or being served, and that copy's header equals the number of its failed handler runs |
| `Witness.CountsExactly` | internal/queue/rabbitmq.go:118-130 | the headers count the failed runs in every reachable state if and only if nothing crashes or nothing but crashes goes wrong |
| `Conservation.ThirdFailureIsDeadLettered` | internal/queue/rabbitmq.go:120-130 | in those setups, after a failed run the count is one less than the failures so far; dead-lettering is what happens exactly at the third failure, republishing before it |
| `Conservation.AckFollowsResult` | internal/queue/rabbitmq.go:144 | whatever fails, a delivery is acknowledged as done only when its handler's result has been written |
| `Conservation.DeadLettersStay` | internal/queue/rabbitmq.go:56-68 | a dead-lettered message stays where it is and is never queued again |
| `Drain.DrainingIsFinite` | internal/queue/rabbitmq.go:118-145 | from any reachable state a run without new API calls is no longer than the work there is plus 60 steps for each crash in it and one for each consumer that quits |
| `Drain.NeverBlocked` | internal/queue/rabbitmq.go:104-111 | while one consumer has not quit, some step other than a new call or a crash is possible until no call, message or delivery is left |
| `Drain.StoppedExactly` | worker/cmd/worker/main.go:50-61 | no such step is possible if and only if nothing is left, or no call is in flight and every consumer is idle and has quit |
| `Drain.DrainedJobs` | worker/internal/runner/runner.go:24-126 | where draining ends with a consumer that has not quit, a job that is still pending is one whose message was dead-lettered or whose API call reported an error or died |
| `Drain.DrainedRunsSettle` | worker/internal/runner/runner.go:107-125 | fault-free, a run that nothing but a new call could continue has every job VERIFIED or FAILED and every event row in agreement |
| `Drain.DrainStep` | internal/queue/rabbitmq.go:104-146 | every consumer, handler and API step other than a new call lowers the measure of remaining work; only a crash raises it, by less than 60, and a consumer's quitting leaves it as it is |
| `Retry.LoopStops` | internal/queue/retry.go:5-23 | for every header table at all, 64-bit wrap-around and truncation to int32 included, the message is dead-lettered within 2^31 + 4 failures; after exactly three when the count reads 0 |
| `Retry.BoundIsTight` | internal/queue/retry.go:13-22 | a table that takes exactly 2^31 + 4 failures |
| `Retry.NextKeepsOthers` | internal/queue/rabbitmq.go:126-130 | a republish neither adds, drops nor changes any header but the retry count, which it sends as a 32-bit integer |
| `Retry.CountReads` | internal/queue/retry.go:5-23 | a count is read back from each of the three integer types; another type, no table and no such key count as 0 |
| `Broker.Broker.Declare` | internal/queue/rabbitmq.go:43-70 | declares exchange, queues and bindings in the code's order, stopping at the first failure, and keeps every queue's content |
| `Broker.DeclaredRoutes` | internal/queue/rabbitmq.go:50-68 | after a successful declaration, however far earlier ones got, key `job` reaches the job queue alone, key `dlq` and rejected deliveries the dead-letter queue alone, any other key nothing; declaring again changes nothing |
| `Broker.RoutesInTheEnd` | internal/queue/rabbitmq.go:43-70 | from an empty broker, whatever attempts were cut off after whichever operation, one that gets through all five operations succeeds and leaves exactly those routes |
| `Broker.AttemptsDoNoHarm` | internal/queue/rabbitmq.go:43-70 | after any such attempts a further one succeeds if and only if it gets through all five operations |
| `Broker.Broker.Publish` | internal/queue/rabbitmq.go:72-88 | a fresh message without headers goes to the end of the queues bound with the job key |
| `Broker.DroppedExactly` | internal/queue/rabbitmq.go:83-87 | a publish changes nothing, though it reports success, exactly when no existing queue is bound to its route |
| `Broker.Broker.Consume` | internal/queue/rabbitmq.go:90-147 | from a channel that may not open, over any deliveries, arrivals from other publishers, cancellation and closing of the channel, undecodable bodies included: the queues, what was acked for good and how the call returns |
| `Broker.ReturnsExactly` | internal/queue/rabbitmq.go:104-111 | the call returns exactly at the first cancellation or closing of its channel, and says which of the two it was |
| `Broker.Broker.Settle` | internal/queue/rabbitmq.go:111-145 | one delivery of the loop, header copy and republish included, computes one round |
| `Broker.OneRound` | internal/queue/rabbitmq.go:112-145 | in each round the head of the queue is acked for good, or returns at the end with the same body and the next count, or joins the dead letters, and which of these happens when |
| `Broker.BodiesAreConserved` | internal/queue/rabbitmq.go:104-146 | over any signals no copy of any body that was there or arrives is lost, none is duplicated unless a republish's reply is lost, and dead letters only accumulate |
| `Broker.RepeatedFailure` | internal/queue/rabbitmq.go:118-143 | a message whose handler keeps failing, anywhere among any others, is dead-lettered with its body intact at exactly the attempt its header table allows, and before that is queued with exactly its unused attempts left |
| `Runner.Runner.Handle` | worker/internal/runner/runner.go:24-111 | Handle, early returns and all, leaves database, nodes and log exactly as a whole run of the handler machine and returns nil iff that run does |
| `Runner.Runner.Finish` | worker/internal/runner/runner.go:107-126 | writing a result and rolling up, as failJob does, is the machine's run from that point |
| `Runner.Runner.Serve` | worker/internal/runner/runner.go:38-82 | from marking the job to the end, with every early return through fail and failJob |
| `Runner.Runner.Execute` | worker/internal/runner/runner.go:84-111 | from the script lookup to the end: exit 0 gives VERIFIED, anything else FAILED |
| `Runner.Runner.TestConnectivity` | internal/ssh/client.go:122-131 | the check's connection is made, pinned and logged as the machine's step |
| `Runner.HandleExactly` | worker/internal/runner/runner.go:24-126 | whichever calls fail: a row that cannot be read ends Handle with an error and no change, a job that cannot be marked ends it before any connection, a failed mark of the event is ignored; after that the job has its result if that write ran and is RUNNING if not, and an error is returned exactly if the write or the rollup reports one |
| `Runner.CalmRun` | worker/internal/runner/runner.go:24-126 | when no database call fails, Handle returns nil and its job is VERIFIED with exit status 0 exactly if secrets and both connections are fine, the task has a script, that script has all it needs (`Collector.Works`, task by task) and reports back; otherwise it is FAILED with the script's exit status if there is one and 1 if not; only a script that was started changes its node, no other job changes, and the event's row is what a rollup of its jobs would write |
| `Runner.RollupRun` | internal/db/store.go:389-424 | the three statements with nothing in between equal the atomic rollup, for every way each of them may fail |
| `Runner.HandleIsARun` | worker/internal/runner/runner.go:24-111 | in every setup that allows the replies it got, fault-free ones and atomic rollups included, Handle's effect is reached by a legal run of the machine |
| `Worker.WorkerIsARun` | worker/cmd/worker/main.go:48-61 | the worker's whole loop, Consume with Handle as its handler over the broker's two queues, in every setup that allows the replies it meets: database, nodes, job queue in its order and dead letters are those a legal run of the machine leaves |
| `Worker.RoundIsARun` | internal/queue/rabbitmq.go:111-145 | one round: the broker's turn on the head of the queue, with Handle's own return value, is fetching, handling and settling that message in the machine |
| `Worker.SettleIsARun` | internal/queue/rabbitmq.go:118-144 | after the handler has returned, acking, dead-lettering, or republishing with an ack or a dead letter, are legal steps with the broker's effect |
| `Worker.PublishArrives` | internal/queue/rabbitmq.go:72-88 | a publish of the API is an arrival at the end of the broker's job queue |
| `Runner.Runner.Dial` | internal/ssh/client.go:31-44 | a connection pins on first use and accepts or refuses the key as the callback's specification says |
| `Runner.Runner.RunScript` | internal/ssh/client.go:95-120 | the script runs on the node only behind an accepted connection, and its exit status becomes the job's result |
| `Service.Service.Create` | internal/events/service.go:36-94 | validation, ownership checks, transaction, status and publishes are the machine's steps of one call; the event is returned exactly if there is a target, a task that deploys or validates has a configuration that is not empty and parses, and ownership, keys and every call succeed |
| `Service.Service.RerunFailed` | internal/events/service.go:96-122 | only the owner or an administrator resets; exactly the failed jobs are reset and republished in the order returned |
| `Service.Service.Clone` | internal/events/service.go:124-159 | only the owner clones; the new call is the source's record with the non-empty overrides |
| `Service.Service.RollbackJob` | api/internal/handlers/events.go:141-164 | only for a job of that event, and for its owner or an administrator, a rollback of the job's instance is created |
| `Service.CreatedEvent` | internal/events/service.go:55-94 | a Create that succeeds, undisturbed: the row has every field of the input, its digest and all its targets, and is RUNNING; for each target in order there is one QUEUED job and behind the queue one message with the ids of job, event and instance and the task; nothing else changes |
| `Service.ClonedEvent` | internal/events/service.go:134-157 | the event a clone leaves: task and owner, and each other field, configuration and targets included, overridden if given and the source's if not |
| `Service.RollbackEvent` | api/internal/handlers/events.go:153-163 | the event a rollback leaves: a rollback task without configuration on the job's one instance, tied to the job's event with scope "instance", with its job and its message |
| `Service.RerunEvent` | internal/events/service.go:96-122 | a rerun that succeeds, undisturbed: exactly the FAILED jobs are QUEUED without an exit status, each has one message with its ids and the event's task, the event is RUNNING, and nothing else changes |
| `Service.Service.PublishAll` | internal/events/service.go:83-92 | one message per returned row in order, with the row's ids, up to the first publish that fails |
| `Service.Service.CheckOwners` | internal/events/service.go:48-53 | passes exactly if the caller owns every target and every query succeeds |
| `Service.Service.Launch` | internal/events/service.go:62-93 | transaction, RUNNING, publishes: what each failure leaves behind |
| `Service.Service.ResetAndPublish` | internal/events/service.go:103-121 | reset, status write, read-back, publishes: what each failure leaves behind, a reset error that shows only after the status write included |
| `Service.Service.CloneRecord` | internal/events/service.go:134-157 | the record built field by field is the source's with the non-empty overrides |
| `Service.Queue.Publish` | internal/queue/rabbitmq.go:72-88 | one new delivery without headers, or none |
| `Service.CallIsARun` | internal/events/service.go:36-122 | in every setup that allows the replies it got, fault-free ones included, a request's effect is reached by a legal run of the machine |
| `Store.Store.CreateEventWithJobs` | internal/db/store.go:170-212 | the loop of inserts commits one event with one link and one job per target, or, on a violated key or an error, leaves every table as it was |
| `Store.Store.RollupEvent` | internal/db/store.go:389-424 | undisturbed, the two reads and the write amount to the atomic rollup; a failed read writes nothing |
| `Store.Store.ResetFailedJobs` | internal/db/store.go:426-448 | exactly the event's FAILED jobs become QUEUED and their rows are returned once each; the status write happens even when there are none, and before an error that shows only while the rows are read |
| `Store.Store.ResetReturning` | internal/db/store.go:427-443 | the UPDATE and its RETURNING rows: each reset job once, with its own event and instance |
| `Store.Store.UpdateJobRunning` | internal/db/store.go:354-360 | the unguarded UPDATE: one row at most, whatever its status, and only its status changes |
| `Store.Store.UpdateJobResult` | internal/db/store.go:369-375 | the unguarded UPDATE of status and exit code: one row at most |
| `Store.Store.UpdateInstanceHostKeyFingerprint` | internal/db/store.go:138-144 | the guarded pin; no error when the guard matches no row |
| `Store.Store.DeleteInstance` | internal/db/store.go:146-155 | deletes only an owned row that nothing references, and reports every other case |
| `Store.Store.GetEvent` | internal/db/store.go:269-293 | the row with each of its targets listed exactly once |
| `Store.Store.CreateInstance` | internal/db/store.go:57-69 | a new row without a pin |
| `Store.Store.UpdateEventStatus` | internal/db/store.go:384-387 | the unguarded UPDATE of the status column: one row at most |
| `Store.Store.UserOwnsInstance` | internal/db/store.go:450-457 | true only for an existing row of this owner |
| `Store.Store.UserOwnsEvent` | internal/db/store.go:459-466 | true only for an existing row of this owner |
| `Sql.Counts` | internal/db/store.go:391-404 | an event's verified, failed and pending jobs add up to all of them, and all are VERIFIED when the counts are equal |
| `Ownership.ReachableOwned` | internal/events/service.go:48-60 | whatever fails and despite concurrent deletes: every event passed validation and all its targets exist and belong to its owner |
| `Ownership.EventsAreValidated` | internal/events/service.go:37-60 | whatever fails, every event has a target, the digest of its configuration, if it deploys or validates, a configuration that is not empty and parses, and the event it is related to, if any, exists |
| `Ownership.JobsBelongToOwner` | internal/db/migrations/001_initial.sql:46-49 | every job's instance exists and belongs to the owner of the job's event |
| `Ownership.OwnTargetsPass` | internal/events/service.go:48-76 | a call of an event's owner on targets of that event is never refused by an ownership check or a key, whatever happens in between, and commits one QUEUED job for each target |
| `Ownership.CloneWithoutOverrides` | internal/events/service.go:124-158 | a clone without overrides keeps task, configuration, checksum and targets and always passes validation; it passes the ownership checks exactly for the event's owner |
| `Ownership.RollbackOfAJob` | api/internal/handlers/events.go:153-163 | the rollback of any job is a rollback task on that job's instance alone, passes validation without a configuration, and its ownership check exactly for the event's owner |
| `Ownership.DeletedForGood` | internal/db/store.go:146-155 | a delete removes one owned row and nothing else, and in no later state is there an instance with that id again |
| `Pins.PinIsWriteOnce` | internal/db/store.go:138-144 | whatever fails, a stored host key never changes while its instance exists |
| `Pins.PinIsFirstStored` | internal/ssh/hostkey.go:17-23 | a stored key is the one presented in the first pin call on its instance that ran |
| `Pins.LoadedAt` | worker/internal/runner/runner.go:33-53 | every handler past its loads read its instance row at one earlier step, took the pin it found there, and has held the same message since |
| `Pins.TrustsOnlyThePin` | worker/internal/runner/runner.go:33-53 | a handler that read its instance row after the pin was stored accepts a key, on its check and on its script run, exactly if it is the pinned one |
| `Pins.MismatchExactly` | internal/ssh/hostkey.go:14-31 | in every reachable state, whatever fails, a key other than the stored one is accepted exactly by a handler that read the row before the pin was stored and whose own pin call reports no error; the stored key stays |
| `Witness.SecondKeyAccepted` | worker/internal/runner/runner.go:43-53 | a legal run of one handler without any fault: its check pins one key, its script connection takes another, and the job is about to be VERIFIED |
| `Witness.RejectsExactly` | internal/db/store.go:138-144 | a deployment turns other keys away in all its runs if and only if it has no consumer |
| `HostKey.MismatchAccepted` | internal/ssh/hostkey.go:14-31 | of the callback of one connection, whose snapshot is empty or the stored key: another key is accepted exactly if the snapshot is empty and the pin call reports no error |
| `Collector.Host.RunDeploy` | scripts/bash/deploy.sh:3-12 | the script's commands in place, any of them failing, compute the deploy specification, which `DeployExactly` writes out |
| `Collector.Host.RunRollback` | scripts/bash/rollback.sh:3-12 | the script's commands in place compute the rollback specification |
| `Collector.Host.RunInstall` | scripts/bash/install.sh:19-90 | both branches of the installer in place compute the install specification |
| `Collector.Host.RunRestart` | scripts/bash/restart.sh:3-4 | restart, then the check that the service is up |
| `Collector.Host.RunStop` | scripts/bash/stop.sh:3-4 | stops the service and changes no file |
| `Collector.Host.RunValidate` | scripts/bash/validate.sh:3-4 | validates the given file and changes nothing on the node |
| `Collector.Host.RunActivate` | scripts/bash/deploy.sh:10-12 | validate, restart and check, as deploy and rollback end |
| `Collector.Host.RunScriptOf` | internal/tasks/scripts.go:11-29 | the script of each task, run on the node |
| `Collector.DeployExactly` | scripts/bash/deploy.sh:3-12 | a deploy exits 0 if and only if all five commands run, collector and unit are installed, the configuration is valid and the service stays up; otherwise with the failing command's status; and for each file, the loaded configuration and the service, what is left after a failure at any command |
| `Collector.RollbackExactly` | scripts/bash/rollback.sh:3-12 | the same for a rollback: exit 0 if and only if there is a backup, it is valid, everything is installed, all commands run and the service stays up |
| `Collector.RestartExactly` | scripts/bash/restart.sh:3-4 | the same for a restart |
| `Collector.StopExactly` | scripts/bash/stop.sh:3-4 | the same for a stop |
| `Collector.ValidateExactly` | scripts/bash/validate.sh:3-4 | the same for a validation, which never changes the node |
| `Collector.InstalledExactly` | scripts/bash/install.sh:19-24 | the installer on an installed node: a stopped service is started with the file that is there, a running one left alone, and when it exits 0 |
| `Collector.FreshInstallExactly` | scripts/bash/install.sh:26-90 | the installer elsewhere: exit 0 if and only if all commands run, the file is valid and the service stays up; and what each failure leaves |
| `Collector.TaskExactly` | internal/tasks/scripts.go:11-29 | for every task, its script exits 0 if and only if the node has what the task needs; the tasks that only read leave the node alone |
| `Collector.ExitZeroMeans` | scripts/bash/deploy.sh:6-12 | exit status 0 of each task says what it should of the node: a deploy's configuration is valid, installed and loaded and the service up, a rollback's is the backup, and so on |
| `Collector.RejectedConfigIsNotLoaded` | scripts/bash/deploy.sh:9-11 | a deploy of a configuration that fails validation exits non-zero and changes neither the loaded configuration nor whether the service runs |
| `Collector.RejectedConfigIsLoadedLater` | scripts/bash/restart.sh:3-4 | after a deploy past its copy whose configuration fails validation, a restart that can start the service loads that configuration |
| `Collector.InstallKeepsConfig` | scripts/bash/install.sh:49-90 | an existing configuration and the backup survive an install; a fresh install that exits 0 runs the file it left |
| `Collector.BackupIsLatestSave` | scripts/bash/deploy.sh:6-8 | over any tasks and command failures, a backup implies a configuration, and is the one present just before the latest deploy that completed its backup copy |
| `Collector.FilesComeFromDeploys` | scripts/bash/deploy.sh:9 | over any tasks, a text that gets into a node's files or its running service is the installer's or came with a deploy |
| `Fleet.NodeIsItsRuns` | worker/internal/runner/runner.go:76-105 | in every reachable state, whatever fails and however handlers interleave, a node is its first state after exactly the scripts started on it, and the results that workers got are those of these runs, in order |
| `Fleet.NodeBackup` | scripts/bash/deploy.sh:6-8 | the same for the node of any instance in any run of the system: there is a backup exactly if some deploy on it completed its copy, and it is the file that was there when the latest of these started |
| `Fleet.RunsAreOrdered` | worker/internal/runner/runner.go:24-36 | whatever fails, every script run on a node has the task and the configuration of some event with that instance among its targets |
| `Fleet.OnlyOrderedFiles` | internal/events/service.go:48-60 | whatever fails, a text in a node's files or running service that was neither there at the start nor is the installer's is the configuration of a deployment to that instance by its owner |
| `Collector.RollbacksAreIdempotent` | scripts/bash/rollback.sh:9 | a rollback past its copy restores exactly the backup, and any further rollbacks change no file |
| `Collector.RollbackUndoesDeploy` | scripts/bash/rollback.sh:5-9 | a rollback after a deploy gives the file back exactly if there was one |
| `Collector.SecondDeployLosesBackup` | scripts/bash/deploy.sh:6-9 | after two deploys a rollback installs the first deploy's file, which is the original exactly if they were the same |
| `EventQuery.ListEvents` | internal/db/store.go:214-267 | the text and arguments the builder produces, read back word by word as SQL: the 15 scanned columns in order, from the events table, of exactly the rows that satisfy the filter, ordered by creation time, latest first |
| `EventQuery.TextReadBack` | internal/db/store.go:214-249 | any query's text, split into words and parsed, gives back its select list and exactly its conditions: column, operator and placeholder number |
| `EventQuery.QueryMeansFilter` | internal/db/store.go:219-248 | for every filter and row, the built conditions with their arguments hold exactly if every set field does |
| `EventQuery.PlaceholdersInOrder` | internal/db/store.go:216-249 | read back from the whole text, select list included, the placeholders are $1 up to the number of arguments, in order |
| `EventQuery.ContainmentExactly` | internal/db/store.go:224-228 | for all texts `%s%` under ILIKE is containment, letter case aside, if and only if s has no %, _ or backslash |
| `EventQuery.ListFilter` | api/internal/handlers/events.go:58-81 | who may filter by what: a user's own id alone, an administrator's given parameters |
| `EventQuery.OwnEventsExactly` | api/internal/handlers/events.go:61-63 | a user's list is exactly their own events if and only if the user id is not empty |
| `RemoteCommand.RunScript` | internal/ssh/client.go:102-117 | for any script bytes and configuration, a shell that splits and runs the command makes the directory, decodes exactly these bytes into the two files in it, and runs the script with the configuration's path, if there is one, as its only argument; a line that fails would have ended it |
| `RemoteCommand.Payload` | internal/ssh/client.go:103-113 | a quoted payload holds no quote, line break or space |
| `Base64.RoundTrip` | internal/ssh/client.go:103-111 | decoding the encoding of any bytes gives them back (section 4 of RFC 4648) |
| `Base64.AlphabetInOrder` | internal/ssh/client.go:103-111 | the alphabet: A to Z, a to z, 0 to 9, + and / in this order |
| `Base64.EncodesGroups` | internal/ssh/client.go:103-111 | each three bytes are written as the four letters of their 24 bits, a last group of one or two bytes with = for what is missing (section 4 of RFC 4648) |

## Left out

- HTTP routing, JWT, password hashing, CORS, the web interface, bulk CSV import, configuration, seeding, the migrations runner and Docker files: plumbing without a hard property.
- SSH, TCP, AMQP and Postgres themselves: a call is an atomic step with one of three outcomes. A publish that reports success is taken to have reached the broker.
- A handler that keeps working after the broker has dropped its connection and redelivered its message: a crash ends the handler at once.
- Two scripts interleaving on one node, and shells on the node other than the scripts': a script run is one step.
- A copy command that fails is taken to leave its target as it was; a partly written file is not modelled.
- Timestamps other than an event's creation time, log text of jobs, job checks and instance addresses and credentials: no modelled decision reads them. Decryption and credential checks are one step that succeeds or fails.
- Identifiers are counters instead of random UUIDs: they are never reused either way.
- JSON and YAML parsing, `otelcol validate` and SHA-256: uninterpreted predicates, and a digest that keeps its content. Host key fingerprints stand for keys.
- The installer's architecture check, download and checksum: commands that succeed or fail.
- `UpdateInstance`, which clears a pin: no handler calls it. `UpdateInstanceSSH` touches credentials only.
- The read-only scripts `status.sh`, `logs.sh` and `ssh_test.sh` change nothing on a node; each is one command that succeeds or fails.
- Two instances with the same address, and a change of an instance's address: each instance is taken to be a node of its own.
- Several consumers on one queue are the machine's; the broker class serves one, with arrivals from outside.
- Orderings of result lists are arbitrary; ORDER BY is part of the query text only. ILIKE folds ASCII letters.
