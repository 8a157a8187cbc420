# Scheduler and SSE core: a verified model

This project models the two stateful cores of the library and proves what they promise over whole runs.

**The scheduler** (`pypepper/scheduler`, `pypepper/fsm`). A `Job` has a state machine, a status and a version. A
dispatcher moves it to Scheduled, puts it on a bounded, stoppable `Channel` and saves it. A `Worker` takes it from the
channel, makes sure that its row exists, claims it by saving InProgress, runs its workflows, and completes, fails,
restores or re-queues it. The durable row is guarded by a status fence and an optimistic version check.

- `Lifecycle`, `JobStore`: the fence, the atomic in-memory store, and every history of puts.
- `StoreProtocols`: the SQL and Mongo puts as interleaved statements, and their linearizability.
- `Fsm`, `SchedulerEvents`: the table-driven machine and the scheduler's transition table.
- `Protocol`: what one job instance may do, as an automaton over its events (accepted transitions, decisions and their
  carrying out, roll-backs, the snapshot, put and refresh of each save, reads, workflow starts), and a world of any number
  of instances that share one row.
- `Job`, `Worker`: the objects themselves. Each job carries the ghost history of its events; its invariant says that the
  history is a run of the automaton, so the theorems of `Protocol` hold of every run of the methods.
- `Channel`: the channel as an object, and as a world of interleaved senders, receivers and `request_stop`.
- `Workflow`: retry rounds, and soft timeouts against an adversarial thread pool.
- `Payload`: storing and rebuilding a job's workflows.

**Server-sent events** (`pypepper/network/http/sse`, `pypepper/common/cache.py`). `Sse` models the bounded event ring with
Last-Event-ID replay (section 9.2.4 of the WHATWG HTML standard), the connection caps and broadcast; `RateLimit` models the
per-key counter over a TTL cache.

## How the environment is modelled

- Every store `put` may apply, be skipped, or raise without writing; `get` never raises (`worker.py:219` reads outside any
  `try`). When a store is `shared`, other clients may change rows between any two calls, as puts can (`Evolves`); they never
  delete there.
- `FSM.on` is one atomic step. A job keeps its machine's current state in `fsm`; `SchedulerEvents.TableIsNext` ties the
  transition function it uses to the machine built from the table.
- `Job.cancel()` may fire around every put and get of a job, between RUN and the save that follows it, while a workflow
  runs, and wherever a decision is outstanding:
  between the scheduling events and the send of a dispatch, between a look at `is_cancelled()` and what follows it (the
  forced move to Failed, the start of a workflow, COMPLETE, FAIL, CANCEL), and on both sides of the re-queue `send`.
  Each job counts the cancels that land in this way (`outside`), so that a contract can say that a job is Cancelled only
  because somebody else cancelled it, or because it adopted a durable Cancelled.
- Timestamps, identifiers, executors and event handlers are arbitrary values or arbitrary choices. A stored status is one of
  the seven known ones or any other text. An `executor_id` of `None` and of `""` are the same value.
- Numbers are unbounded; the columns of a real database have a width.

## Where a promise does not hold

- *A winning cancel is kept.* The worker looks at `is_cancelled()` and then moves the job to Failed whatever it has become
  (`pypepper/scheduler/worker.py:166-168`), and to Failed again when the re-queue `send` is refused
  (`pypepper/scheduler/worker.py:143-150`); a dispatch whose send is refused rolls back likewise
  (`pypepper/scheduler/job.py:204-211`), and a workflow starts after such a look (`pypepper/scheduler/worker.py:242-247`). A
  CANCEL accepted in between does not stop what was decided. `Protocol.LostCancelRuns` gives a run, from every Scheduled job
  in step with a Scheduled or InProgress row, in which a workflow starts after an accepted CANCEL;
  `docs/guides/scheduler.md:211` promises the opposite. `Protocol.CancelIsKeptExactlyWhenClosed` proves that an accepted
  CANCEL is kept against everything that may follow, short of following a durable row, exactly when no such decision was
  outstanding when it was accepted.
- *Retrying the save is all it takes* to store a job's state (`pypepper/scheduler/worker.py:60-70`), for the only writer of a
  row, unless an overwritten cancel had been stored: then the job is Failed over a row that is Cancelled, and every later save
  is skipped (`Protocol.StoredCancelEndsOutOfStep`). Whatever is done with such a job, it carries the version of its row, and
  its state can be stored exactly when the row is not Cancelled or the job is (`Worker.UseOnce`, `Job.Job.AlignedIsInStep`).
- *At-most-once execution* fails in two ways, and holds otherwise (`Protocol.AtMostOneInstanceRuns`).
  - A claim in the middle of a save. `save` is a put followed by a read that refreshes the version
    (`pypepper/scheduler/job.py:426-434`). When another instance's claim lands in between, the refresh hands out the version
    that claim produced, and InProgress may be written over InProgress: `Protocol.TornSaveRunsTwice`. The first claim is safe
    against all that may follow exactly when every other instance with a refresh outstanding is already Cancelled
    (`Protocol.ClaimIsSafeExactlyWhenUndisturbed`); this is always so in runs in which each save refreshes its version right
    after its put (`Protocol.OneStepSavesAreUndisturbed`).
  - A job rebuilt from the record of its own claim. `Job.from_record` takes over the version of any record; rebuilt from a
    record that shows InProgress, a job is scheduled again, its Scheduled saves are skipped, and its own InProgress write is
    applied: `Protocol.RebuiltJobRunsAgain`. Once a job is claimed and its row is InProgress, rebuilding it is safe against
    all that may follow exactly when the record is older than the row (`Protocol.RebuildIsSafeExactlyWhenReadBefore`).

  What may follow a claim, in the first condition, includes jobs rebuilt from records older than the claim, and no others.
- *Atomic puts.* A delete between a failed INSERT and the statements after it makes the SQL put answer False, and the Mongo
  put report a missing document, although an atomic put would have applied at every moment
  (`StoreProtocols.DeleteBreaksAtomicity`; `StoreProtocols.FalseIsWrongExactlyWhenRecreated` says when the SQL answer is wrong
  towards every table its statements met). Linearizability is proved with every other delete allowed, and for Mongo's
  missing-document error `StoreProtocols.DeleteIsSafeExactlyWhenTimely` proves that condition exact.
- *The rate bound.* Eviction of a counter that has not expired doubles the rate (`RateLimit.EvictionDoublesTheRate`), and
  `RateLimit.EvictionIsSafeExactlyWhenExpired` proves that an eviction leaves the bound intact, whatever follows, exactly
  when the entry had expired. `RateLimit.Limiter.Check` shows that nothing is evicted while the cache has room.
- *No accepted item is lost between send and receive.* A `receive` whose caller is cancelled leaves its get task alive
  (`pypepper/scheduler/channel.py:72-81`), and that task may take an item that nobody gets. Without abandoned receives
  nothing is lost (`Channel.NothingIsLost`, `Channel.NothingIsSwallowed`); abandoning one is harmless against all that may
  follow exactly when it holds no item and the channel is stopped and empty (`Channel.AbandonIsSafeExactlyWhenDry`).
- *A job survives storage* exactly when each of its tasks is restorable: named by a registered executor, with an id, a
  version other than 0, and numbers that the constructor accepts (`Payload.PayloadRoundTrip`). The rebuilt task of version 0
  has version 1.

## Model

| member | source | states |
|---|---|---|
| Lifecycle.FenceIsTheLifecycleOrder | pypepper/scheduler/store/lifecycle.py:17-40 | a put may replace a status exactly when it keeps it or moves it strictly later; another text replaces only itself |
| Lifecycle.LifecycleOrderIsPartialOrder | pypepper/scheduler/store/interfaces.py:36-42 | the fence is a partial order; Failed, Completed and Cancelled are mutually incomparable maxima above every other known status |
| JobStore.InMemoryJobStore.PutRecord | pypepper/scheduler/store/memory.py:19-32 | the in-place put is the atomic `Put`: insert, skip, or replace keeping `created` and adding one to the version |
| JobStore.OnePutClimbs | pypepper/scheduler/store/memory.py:19-32 | after any put every old row is still there, with the same `created`, a status no earlier, and a changed row has a larger version |
| JobStore.HistoryOnlyClimbs | pypepper/scheduler/store/interfaces.py:31-42 | the same over every history of puts by any clients |
| JobStore.VersionCountsUpdates | pypepper/scheduler/store/memory.py:27-31 | over every history a row's version is its inserted version plus the number of applied updates, and `created` is the inserted one |
| JobStore.OneUpdatePerVersion | pypepper/scheduler/store/lifecycle.py:43-54 | the versions carried by the applied updates of a row strictly increase, so none is applied twice |
| JobStore.TerminalRowsStay | pypepper/scheduler/store/interfaces.py:37-40 | a row in a terminal status keeps that status through every later history |
| StoreProtocols.MatchedUpdateIsPut | pypepper/scheduler/store/sql.py:102-112 | a gated UPDATE that matches, and an INSERT that succeeds, are the atomic put at that moment; when neither would, the put would be skipped |
| StoreProtocols.DbJobStore.SqlPut | pypepper/scheduler/store/sql.py:150-187 | against arbitrary other clients the three statements take effect at one moment of the call, with the atomic put's answer and rows |
| StoreProtocols.DbJobStore.MongoPut | pypepper/scheduler/store/mongodb.py:105-154 | the same for update, insert, update and look-up, and the missing-document error is never raised |
| StoreProtocols.StepKeepsInv | pypepper/scheduler/store/sql.py:185-187 | every statement of any client keeps that a call past a failed INSERT finds a row |
| StoreProtocols.StepRefines | pypepper/scheduler/store/sql.py:178-187 | one statement of either protocol is zero, one or two steps of the atomic store, with the same calls and answers seen outside |
| StoreProtocols.PutsAreLinearizable | pypepper/scheduler/store/mongodb.py:119-154 | every interleaving of any number of puts, and of deletes that meet no call of their id past a failed INSERT, has the external history and the rows of a run of the atomic store |
| StoreProtocols.NoDeleteIsTimely | pypepper/scheduler/store/mongodb.py:105-154 | runs without deletes meet the condition on deletes, so they are linearizable unconditionally |
| StoreProtocols.NoDocumentGoesMissing | pypepper/scheduler/store/mongodb.py:145-149 | in those runs no client is ever told that its document is missing |
| StoreProtocols.DeleteIsSafeExactlyWhenTimely | pypepper/scheduler/store/mongodb.py:145-165 | a delete keeps every later Mongo put from reporting a missing document exactly when no call of its id is past a failed INSERT |
| StoreProtocols.DeleteBreaksAtomicity | pypepper/scheduler/store/mongodb.py:163-165 | with one delete a put is refused, or reports a missing document, though the atomic put would have applied throughout |
| Fsm.Machine.constructor | pypepper/fsm/fsm.py:99-115 | the nested loops build, for each event and state, the last listed matching transition, and the set of events |
| Fsm.LastMatchIsLast | pypepper/fsm/fsm.py:106-115 | what the table holds is a listed transition that matches, no later one does, and there is none only when nothing matches |
| Fsm.Machine.On | pypepper/fsm/fsm.py:149-206 | the state changes exactly when no error is reported; both handlers that there are run in order until one raises, and the error is theirs exactly when one did; an unknown event or a raising handler leaves or restores the state; a closed machine raises |
| SchedulerEvents.TableIsNext | pypepper/scheduler/events.py:18-53 | the machine built from the six transitions is the function `Next`, for every status and event |
| SchedulerEvents.LifeOfAJob | pypepper/scheduler/events.py:18-53 | the accepted event sequences of a new job are exactly the prefixes of INIT SCHEDULE CANCEL and of INIT SCHEDULE RUN followed by FAIL, COMPLETE or CANCEL, and the last event names the state |
| SchedulerEvents.AcceptedRunsPassTheFence | pypepper/scheduler/store/lifecycle.py:17-40 | along every run of accepted events each later status may be stored over each earlier one, and never the other way round |
| Protocol.AdvanceKeepsLocalInv | pypepper/scheduler/worker.py:158-277 | every event a job instance may produce keeps its invariant: no work without a claim, no claim without a row, a snapshot shows the state or a cancel has landed since, and each outstanding decision fits the state |
| Protocol.CancelIsKept | pypepper/scheduler/job.py:290-299 | after a CANCEL accepted with no decision outstanding, until a durable status is followed, the machine stays Cancelled; no COMPLETE or FAIL is accepted, no workflow starts, nothing restores or forces it |
| Protocol.CancelIsKeptExactlyWhenClosed | pypepper/scheduler/worker.py:158-192 | an accepted CANCEL is kept against everything that may follow, short of following a durable row, exactly when no decision was outstanding |
| Protocol.LossNeedsAWindow | pypepper/scheduler/worker.py:141-192 | over every run, an accepted CANCEL that was overwritten was accepted while a decision was outstanding |
| Protocol.LostCancelRuns | pypepper/scheduler/worker.py:165-188 | from every Scheduled job in step with a Scheduled or InProgress row there is a run with an accepted CANCEL that is overwritten, and a workflow that starts later |
| Protocol.StoredCancelEndsOutOfStep | pypepper/scheduler/worker.py:141-192 | from each such job there is a run in which a cancel is stored and then overwritten: it ends Failed over a Cancelled row of its version, where a put of Failed is never taken and every save leaves row and state as they are |
| Protocol.FollowNeedsADurableRow | pypepper/scheduler/worker.py:218-229 | a durable status is followed, or a durable Cancelled adopted, only after RUN was accepted, the put of the save that follows it was skipped, and the row was then seen to hold that status |
| Protocol.WorkNeedsAClaim | pypepper/scheduler/worker.py:211-247 | a workflow starts only after an applied InProgress write of that instance |
| Protocol.WorkflowsStartOnceInOrder | pypepper/scheduler/worker.py:238-262 | over its whole life an instance starts each workflow at most once, in order, and none after one raised |
| Protocol.JoinKeepsWorldInv | pypepper/scheduler/job.py:391-404 | an instance created, or rebuilt from any stored record but the one of the claim itself, keeps the invariant of the shared row |
| Protocol.AppliedPut | pypepper/scheduler/store/lifecycle.py:43-54 | an applied put meets a row with its own version and no later status; if another instance has claimed the job, the row was finished or is being cancelled |
| Protocol.ReachKeepsWorldInv | pypepper/scheduler/job.py:406-436 | over every interleaving that meets the two conditions, versions never run ahead of the row's, and every other instance is stale or stuck in Cancelled once one has claimed |
| Protocol.AtMostOneInstanceRuns | pypepper/scheduler/worker.py:211-247 | over every interleaving of any instances of one job, if no claim tears another's save apart and no job is rebuilt from the record of its own claim, at most one has an InProgress write applied, and all workflows started are its |
| Protocol.ClaimIsSafeExactlyWhenUndisturbed | pypepper/scheduler/job.py:426-434 | the first claim excludes a second one, whatever follows short of a job rebuilt from the record of the claim, exactly when no other uncancelled instance has a version refresh outstanding |
| Protocol.OneStepSavesAreUndisturbed | pypepper/scheduler/job.py:426-434 | in every run in which each applied put is followed at once by its version refresh, no claim falls into another's save |
| Protocol.RebuildIsSafeExactlyWhenReadBefore | pypepper/scheduler/job.py:390-404 | once a job is claimed and its row InProgress, rebuilding it from a record is safe against all that may follow exactly when the record is older than the row |
| Protocol.RebuiltJobRunsAgain | pypepper/scheduler/job.py:397-404 | a job rebuilt from the record of its own claim is claimed a second time and starts workflow 0, with no other instance taking a step |
| Protocol.TornSaveRunsTwice | pypepper/scheduler/job.py:426-434 | with the put and the version refresh torn apart there is a run in which two instances start workflow 0 |
| Job.Job.ApplyEvent | pypepper/scheduler/job.py:284-288 | an accepted event moves state and status together, a rejected one changes nothing |
| Job.Job.Cancel | pypepper/scheduler/job.py:290-299 | cancel is accepted from Scheduled and InProgress only; then the job is Cancelled whatever the save does, and a sole writer's save is never skipped |
| Job.Job.Save | pypepper/scheduler/job.py:406-436 | for a sole writer a put is applied exactly when the instance is in step with its row, unless it raises; an applied one makes the row this job's identity, category, channel, state, workflow count, payload and `updated`, with the `created` and version rule of the store, and touches no other row; in step, it is never skipped unless a cancel was stored meanwhile; a failed one keeps the version; the state changes only by somebody else's cancel |
| Job.Job.Snapshot | pypepper/scheduler/job.py:406-425 | the record of a save holds, field by field, what the job was when the save began, whatever cancel lands after |
| Job.Job.AlignedIsInStep | pypepper/scheduler/store/lifecycle.py:43-54 | an aligned job carries the version of its row, and the row takes its state exactly when the row is not Cancelled or the job is |
| Job.Job.Write | pypepper/scheduler/job.py:426-428 | whoever else writes, a put agrees with the row it meets, and has the effect on it, that the protocol's store gives it |
| Job.Job.HistoryIsPath | pypepper/scheduler/job.py:284-299 | the history of every job object is a path of the protocol automaton from a fresh instance to its present state |
| Job.AcceptedCancelShows | pypepper/scheduler/job.py:290-299 | a job object whose CANCEL was ever accepted with no decision outstanding is Cancelled unless it has since followed a durable row |
| Job.LostCancelShows | pypepper/scheduler/job.py:290-299 | a job object that has lost an accepted CANCEL accepted it while a decision was outstanding |
| Job.FromRecord | pypepper/scheduler/job.py:390-404 | identity, `created`, `updated` and version are the record's, the state is Unknown, the workflows are those rebuilt, or the first task's error is raised |
| Job.RecordAndRebuild | pypepper/scheduler/job.py:301-313 | a job recorded and rebuilt has its id, category, channel, `created` and version and the given `updated`, its state is Unknown, and it has all its workflows exactly when all its tasks are restorable |
| Job.Enqueue | pypepper/scheduler/job.py:79-108 | the job is sent, once, or the queue is untouched and the refusal says why |
| Job.PersistScheduled | pypepper/scheduler/job.py:188-203 | up to three saves: returns normally exactly when one of them applied, and otherwise all three were made, and the store's error is raised if one raised, else that they were skipped |
| Job.Dispatch | pypepper/scheduler/job.py:159-213 | either state, status and queue are exactly as before and the reason is raised, with version and store as before too unless a cancel landed before the send; or the job is on the channel exactly once and is never rolled back; it returns normally exactly when one save applied; a job that is Cancelled was cancelled by somebody else |
| Payload.WorkflowsPayload | pypepper/scheduler/job.py:315-347 | the loops produce the payload of all tasks in order, or none when one task has no executor id |
| Payload.WorkflowsFromPayload | pypepper/scheduler/job.py:349-388 | every task is loaded in its place, or the first that cannot be is reported |
| Payload.TaskRoundTrip | pypepper/scheduler/job.py:359-383 | a stored task is loaded back unchanged, its executor resolved by id, exactly when it is restorable |
| Payload.LoadsExactlyWhen | pypepper/scheduler/job.py:359-383 | which error each defect of a stored task gives, and that it is rebuilt exactly when it has none |
| Payload.LoadsFromRequiredKeys | pypepper/scheduler/job.py:359-383 | the task that the required keys alone are rebuilt as, with every default |
| Payload.ZeroIsAbsent | pypepper/scheduler/job.py:373-384 | a number stored as zero, and an empty id, are rebuilt like absent ones |
| Payload.PayloadRoundTrip | pypepper/scheduler/job.py:315-388 | storing and rebuilding returns all workflows and tasks in order exactly when all are restorable, and the payload of the result is the same payload |
| Worker.Worker.ForceFailed | pypepper/scheduler/worker.py:32-40 | the job ends Failed whatever its state, by FAIL or by restoring, and an overwritten cancel is recorded as lost |
| Worker.Worker.FailWhateverIsNow | pypepper/scheduler/worker.py:165-168 | a decision to move to Failed is carried out over a cancel that lands before it; a sole writer stays aligned with its row, which is unchanged or holds the overwritten cancel |
| Worker.Worker.EnsureCancelledPersisted | pypepper/scheduler/worker.py:73-89 | a cancelled job stays Cancelled; for a sole writer, returning normally means that the row is Cancelled |
| Worker.Worker.Heal | pypepper/scheduler/worker.py:203-209 | healing succeeds only when the row is known to exist; when it fails none of its puts was applied |
| Worker.Worker.RequeueAfterRunRestore | pypepper/scheduler/worker.py:141-156 | the job is sent exactly when the channel is live and has room, in its state or Cancelled; else it is Failed, a Failed put was made, and the error names it and says whether the channel was full or stopped |
| Worker.Worker.FailOrRestoreAfterRunPersist | pypepper/scheduler/worker.py:158-192 | always raises: re-queued in the state it was dequeued in or Cancelled since, after a put of Failed that was not applied; or Failed and stored as such, or it could not be put back either; or, when found cancelled, Cancelled |
| Worker.Worker.ResolveSkippedRun | pypepper/scheduler/worker.py:218-236 | a skipped put of the save that follows RUN, of InProgress or of a Cancelled that landed since, ends in a terminal state, in the durable status just seen, or with the job re-queued; it fails or goes back only over a row that was read and is none of those to follow |
| Worker.Worker.Claim | pypepper/scheduler/worker.py:211-236 | after RUN and whatever cancel lands before the save: the job may run exactly when its own InProgress write applied; a job not claimed had a put that was not applied, and its outcome is one of the errors of a run that could not be recorded, or a durable status was followed |
| Worker.Worker.RunWorkflows | pypepper/scheduler/worker.py:238-277 | a claimed job ends Completed with all workflows run and none raised, Failed when one raised, or Cancelled, and then only if somebody else cancelled it; the terminal put is always made, once, and its failure changes none of this |
| Worker.Worker.TransitionAndSaveTerminal | pypepper/scheduler/worker.py:60-70 | the terminal event is applied and its put made, and the state stays whatever becomes of the put; the event is rejected only over a cancel |
| Worker.Worker.RunHealed | pypepper/scheduler/worker.py:211-277 | from Scheduled: claimed and run to Completed or Failed with two puts, unless a put was not applied or somebody else cancelled it; else re-queued, terminal, or following a durable InProgress, each error with its cause; from any other state RUN is rejected and nothing changes |
| Worker.Worker.Process | pypepper/scheduler/worker.py:194-277 | no dequeued job is lost: back on the channel as dequeued or Cancelled since, or terminal, or following a durable InProgress. Unless a put was not applied, a Scheduled job that nobody else cancels is claimed, run and ends Completed or Failed, in two puts when its row was known to exist, and one in any other state but Cancelled is refused. It is put back only after two puts that were not applied, the last of them of Failed; every other error has its cause as well: such a put, a workflow that raised, somebody else's cancel or the state. A new Cancelled is somebody else's cancel or the row's. A sole writer stays aligned with its row, which shows its state on normal return |
| Worker.Worker.RunOnce | pypepper/scheduler/worker.py:98-104 | takes the head of the queue, and puts it back only when JobRequeuedError is raised, after two puts that were not applied; otherwise a job found Scheduled ends terminal or following a durable InProgress, and it was claimed and ran unless a put failed or somebody cancelled it; None only on a stopped and empty channel; the call is logged with what became of the job |
| Worker.Worker.RunForever | pypepper/scheduler/worker.py:106-139 | terminates; the first call that puts its job back, or finds the channel full when it would, is the last one, and its error is raised on the live channel; otherwise the channel is drained, and the verdict on the logged calls since the stop is raised or returned; every job queued as Scheduled at the call ends terminal or following, or is still queued; all jobs queued on a stopped channel are taken |
| Worker.TakesAllInOrder | pypepper/scheduler/worker.py:108-139 | the calls of a drain take n queued jobs in the order of the queue, in n + 1 calls |
| Worker.VerdictIsTheFirst | pypepper/scheduler/worker.py:116-139 | the verdict is the first job that could not be put back because of the stop, and normal return exactly when there was none |
| Worker.UseOnce | pypepper/scheduler/worker.py:60-70 | a dispatch, processing, cancel or save of a job that alone writes its row keeps it aligned with the row, overwritten cancels included |
| Worker.UseAlone | pypepper/scheduler/worker.py:60-70 | a new job that alone writes its row is aligned with it after any list of such uses; saving once more is skipped only over a stored cancel, and else makes the row show the state |
| Channel.Chan.TrySend | pypepper/scheduler/channel.py:34-49 | stopped beats full; refused as full exactly when live, bounded and holding at least the bound; an accepted item is appended, a refused one leaves the queue alone |
| Channel.StepKeepsDelivered | pypepper/scheduler/channel.py:66-88 | every step, the get/stop race included, keeps each item that left the queue with exactly one receive call |
| Channel.StepKeepsConserved | pypepper/scheduler/channel.py:42-96 | every step keeps dequeued items plus queue equal to accepted sends in order, and the bound; after stop nothing is accepted |
| Channel.NothingIsLost | pypepper/scheduler/channel.py:34-96 | over every interleaving nothing accepted is lost from the queue, duplicated or reordered, each item taken is with one receive call, and None is returned only once the channel is stopped and everything accepted was taken |
| Channel.RefusedExactlyWhenStoppedOrFull | pypepper/scheduler/channel.py:34-49 | after every interleaving a send is refused exactly when the channel is stopped, or it is bounded and holds exactly as many items as its bound |
| Channel.UnboundedAcceptsAll | pypepper/scheduler/channel.py:34-49 | in every interleaving without stop on an unbounded channel exactly the items of all sends are accepted, in order |
| Channel.NothingIsSwallowed | pypepper/scheduler/channel.py:72-88 | without an abandoned receive no item is with a call that will not return it |
| Channel.AbandonIsSafeExactlyWhenDry | pypepper/scheduler/channel.py:72-81 | abandoning a receive loses no item, whatever follows, exactly when it holds none and the channel is stopped and empty |
| Channel.StopIsFinal | pypepper/scheduler/channel.py:90-96 | after stop no interleaving accepts another item |
| Workflow.Pool.ExecuteOnce | pypepper/scheduler/workflow.py:99-167 | at most one execute of a task is queued or running, and it is the one in `_inflight`; while one is, nothing is submitted; otherwise exactly one is, and it explains the result; without a timeout the calling thread makes it; one is left going only by a timeout with a bounded join |
| Workflow.Pool.AwaitResult | pypepper/scheduler/workflow.py:118-167 | a result comes from the finished execute, a timeout before start from a withdrawn one, and a timeout while running leaves it registered or finished |
| Workflow.DelayStep | pypepper/scheduler/workflow.py:184-185 | after any number of failures, one more is followed by a delay exactly when its round has attempts left: k - floor(k / attempts) in all |
| Workflow.ExhaustedDelays | pypepper/scheduler/workflow.py:169-185 | when every attempt fails there are rounds * attempts attempts and rounds * (attempts - 1) delays |
| Workflow.BudgetFromFields | pypepper/scheduler/workflow.py:91-97 | the attempts and delays of an exhausted task from its fields, in every retry mode and for fields that are too small |
| Workflow.EveryAttemptExecutes | pypepper/scheduler/workflow.py:108-117 | with an unbounded join and nothing going at the start, each attempt at a pooled task is an execute of its own: a future in the order of the attempts that explains it |
| Workflow.NothingLingers | pypepper/scheduler/workflow.py:108-117 | over a whole run with unbounded joins and nothing going at the start no attempt finds an earlier execute going |
| Workflow.Runner.RunTask | pypepper/scheduler/workflow.py:169-191 | it stops at the first success, with the result of the last attempt; when all fail there are round_times * (retry_count + 1) attempts, or round_times * retry_until_max, and a delay after each but the last of a round; the attempts are, in order, the task's new futures or its direct executes, each explained by its own, with no others; only an attempt that is first after a start that was not quiet, or follows one that may have left an execute going, may find it still running instead |
| Workflow.Runner.Run | pypepper/scheduler/workflow.py:78-89 | one result per task in order, or the first exhausted task that is not optional ends the run and no later task is attempted; the attempts are executes of their task, in the order of the tasks, or find an execute that was going at the start or was left by an earlier attempt |
| RateLimit.StepKeepsLatestRun | pypepper/network/http/sse/security.py:123-128 | every request, and every eviction of an expired entry, keeps that the counter is the length of the latest run of acceptances less than a TTL apart, which began a full TTL after the one before |
| RateLimit.AcceptancesAreSpread | pypepper/network/http/sse/security.py:113-128 | any limit + 1 accepted requests of a key span at least the TTL |
| RateLimit.WindowBound | pypepper/network/http/sse/security.py:113-128 | every half-open window of the TTL holds at most `limit` accepted requests of a key that is not evicted before it expires |
| RateLimit.RefusedExactlyWhenCrowded | pypepper/network/http/sse/security.py:113-128 | a request is refused exactly when the last `limit` acceptances and the request follow each other within less than a TTL each: the limiter refuses no more than that |
| RateLimit.EvictionDoublesTheRate | pypepper/network/http/sse/security.py:89-90 | with one eviction twice the limit passes at a single instant |
| RateLimit.EvictionIsSafeExactlyWhenExpired | pypepper/network/http/sse/security.py:123-128 | an eviction leaves the bound intact, whatever requests follow, exactly when the evicted entry had expired |
| RateLimit.Cache.Set | pypepper/common/cache.py:28-40 | the entry is stored with a renewed lifetime; others go only when expired or to make room; the size bound is kept |
| RateLimit.Limiter.Check | pypepper/network/http/sse/security.py:113-128 | the answer is acceptance in the key's own history, a refusal exactly when the request is crowded; other keys change only by eviction, and only when the cache is full |
| RateLimit.LimiterKeepsTheBound | pypepper/network/http/sse/security.py:113-128 | the window bound holds of the limiter object, for every key not evicted before its entry expired |
| Sse.Manager.RecordEvent | pypepper/network/http/sse/connection.py:141-146 | the ring is always the last 128 of all recorded events |
| Sse.Manager.EventsAfter | pypepper/network/http/sse/connection.py:148-161 | the loop with its flag returns what follows the first event with that id |
| Sse.ResumeHasNoGap | pypepper/network/http/sse/connection.py:148-161 | with distinct ids the replay is exactly the recorded history after the id while that id is in the ring, and empty otherwise, be it forgotten or never recorded |
| Sse.Manager.Connect | pypepper/network/http/sse/connection.py:189-256 | refused exactly at a cap, counted over all connections or those of the client's address; otherwise registered, an old connection of that id closed, caps kept, and the queue is the longest prefix of the missed events that fits |
| Sse.Manager.Send | pypepper/network/http/sse/connection.py:57-81 | queued when open and not full, else counted as dropped; recorded only when queued, asked for and carrying an id |
| Sse.Manager.Broadcast | pypepper/network/http/sse/connection.py:294-318 | recorded once, offered to each registered connection once, and the count is the number of connections whose queue grew |
| Sse.Manager.Disconnect | pypepper/network/http/sse/connection.py:258-273 | the connection is closed and removed, no other changes |

## Left out

- Job.Job.Save: a `get` that raises. One that raises in the refresh (`pypepper/scheduler/job.py:431`) after an applied put
  leaves the instance one version behind its row, so that its later saves are skipped.
- Worker.Worker.Process: the same. A `get` that raises after a skipped put of the save that follows RUN
  (`pypepper/scheduler/worker.py:219`) leaves the job InProgress and off the channel.
- Protocol.AtMostOneInstanceRuns: the instances of the world act on the row of the protocol; `Job.Job.Write` ties each put of
  a job object to the table it meets, but no theorem is stated about several job objects on one store.
- StoreProtocols.PutsAreLinearizable: for SQL the condition on deletes is sufficient only, since a put refused at its INSERT
  may also be refused by the atomic store.
- StoreProtocols.FalseIsWrongExactlyWhenRecreated: exact for the three tables that the statements of one call meet, not for
  every table during the call.
- Worker.UseAlone: one job and its own row, used by one thread; `RunForever` on many jobs does not say that each stays aligned
  with its row.
- RateLimit.WindowBound: proved for a fixed limit and request times that do not decrease.
- Worker.Worker.RunForever: a receive on a live channel is one `Wait` for arrivals or stop, and stop is requested after some
  number of receives; the race inside `receive` is in `Channel`.
- Worker.Worker.RunWorkflow: a workflow is an arbitrary success or failure, with a cancel possible while it runs; the runner
  is modelled apart, in `Workflow`, and `share_cancel_event` is not.
- Job.Dispatch: the registries of channels and processors are not modelled, only the refusals of an empty channel id and of a
  running event loop. A worker that takes the job while its dispatcher is still saving the same object is not modelled,
  another instance of the job is; there a stale version refresh can leave the object behind its row.
- RateLimit.Cache.Set: the library evicts the least recently used entry; here any entry may be the victim.
- Fsm.Machine.On: a handler does not use the machine it runs under; handler results and contexts are not kept, nor is the
  table of known states, which nothing reads.
- Payload.WorkflowsFromPayload: values of a wrong type and their coercion to text or number.
- Database engines, schema migration, connection setup, column widths and JSON encoding: foreign calls. Reading a row back
  with a zero version or an empty payload replaced by a default is not modelled.
- asyncio, threads and the pool's 32 workers: explicit steps and arbitrary choice.
- Logging, tracing, the deferred job-store guard, singletons and configuration look-ups: easy members.
- The HTTP server, the SSE stream loop, API keys, `list` and statistics: no hard property.
