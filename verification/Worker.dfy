/** The channel consumer (`scheduler/worker.py`): heal, claim, run, fail, restore or re-queue a job; drain after stop. */
module Worker {
  import opened Wrappers
  import opened Lifecycle
  import opened SchedulerEvents
  import opened Protocol
  import opened Job
  import S = JobStore
  import C = Channel
  import P = Payload

  // What became of a job while it was processed: its state before and after, whether it holds its claim, the owner's
  // puts that were not applied, and the cancels accepted from elsewhere.
  datatype Fate = Fate(was: Status, now: Status, claimed: bool, failed: nat, cancels: nat)

  // One call of `run_once`: the queue and the stop flag it found, what became of the job at the head of the queue, if
  // any, and how the call ended.
  datatype Call = Call(queued: seq<Job>, stopped: bool, fate: Option<Fate>, outcome: Outcome)

  class Worker {
    const channel: C.Chan<Job>
    const store: Store
    ghost var log: seq<Call>   // extended by `RunOnce` alone

    constructor (channel: C.Chan<Job>, store: Store)
      ensures this.channel == channel && this.store == store && log == []
    {
      this.channel, this.store := channel, store;
      log := [];
    }

    // Between two calls of this worker nothing is half done.
    ghost predicate Ready(job: Job)
      reads job, store
    {
      job.Valid(store) && job.Calm() && job.local.window != Sending
    }

    // No work was started or finished, no claim made, the channel not stopped.
    twostate predicate Idle(job: Job)
      reads job, channel
    {
      SameWork(job) && channel.stop == old(channel.stop)
    }

    // What is on record of the job stays there; a cancel is somebody else's, or the row's.
    twostate predicate RecordKept(job: Job)
      reads job
    {
      Mounts(old(job.local.tally), job.local.tally) && job.CancelsExplained()
    }

    // A put of the job was not applied.
    twostate predicate PutFailed(job: Job)
      reads job
    {
      job.local.tally.failed > old(job.local.tally.failed)
    }

    // So was a second one.
    twostate predicate TwoPutsFailed(job: Job)
      reads job
    {
      job.local.tally.failed >= old(job.local.tally.failed) + 2
    }

    // How many puts the owner has made of the job.
    ghost function SavedTimes(job: Job): nat
      reads job
    {
      job.local.tally.stored + job.local.tally.failed
    }

    // No row goes away.
    twostate predicate RowsKept()
      reads store
    {
      old(store.rows).Keys <= store.rows.Keys
    }

    // An error about a job that could not be put back names that job and says why.
    ghost predicate TruthfulReason(r: Outcome, job: Job)
      reads channel
    {
      r.Threw? && r.error.JobRedelivery? ==>
        && r.error.job == job && r.error.reason == (if channel.stop then Stopped else Full)
        && (channel.stop || (channel.maxsize > 0 && |channel.queue| >= channel.maxsize))
    }

    // A job that failed before its run: Failed is stored, or was tried when the job could not be put back either.
    ghost predicate FailureSettled(job: Job, r: Outcome)
      reads job
    {
      job.fsm == Failed ==> job.Tried(Failed) && (job.Stores(Failed) || (r.Threw? && r.error.JobRedelivery?))
    }

    // A job that was put back uncancelled: the latest put was of Failed, and it was not applied.
    ghost predicate RestoredLast(job: Job, prev: Status)
      reads job
    {
      job.fsm == prev ==> job.Tried(Failed) && !job.Stores(Failed)
    }

    // An error has its cause: a put that was not applied, a workflow that raised, a cancel from elsewhere, or a job that
    // was not Scheduled.
    twostate predicate ErrorExplained(new r: Outcome, job: Job)
      reads job
    {
      && (r == Done || BeforeRun(r) || r in {Threw(WorkflowFailure), Threw(InvalidEvent)})
      && (BeforeRun(r) ==> PutFailed(job)) && (r == Threw(JobRequeued) ==> TwoPutsFailed(job))
      && (r == Threw(WorkflowFailure) ==> job.local.work.broken)
      && (r == Threw(InvalidEvent) ==> job.outside > old(job.outside) || old(job.fsm) !in {Scheduled, Cancelled})
    }

    // How processing ends when the job is not claimed.
    twostate predicate NotRun(new r: Outcome, job: Job)
      reads job
    {
      r == Done || BeforeRun(r) || (r == Threw(InvalidEvent) && job.outside > old(job.outside))
    }

    // The row shows the job's state.
    ghost predicate StoredStatus(job: Job)
      reads job, store
    {
      S.RowStatus(store.rows, job.id) == Some(job.fsm)
    }

    // The row, if any, is one that the state prev may replace.
    ghost predicate CanRestore(job: Job, prev: Status)
      reads job, store
    {
      job.id in store.rows ==>
        store.rows[job.id].version == job.version && PutApplies(Some(store.rows[job.id].status), prev)
    }

    // The same, or the row is Cancelled by a cancel that was overwritten.
    ghost predicate Restorable(job: Job, prev: Status)
      reads job, store
    {
      CanRestore(job, prev) || (job.Holds(store, Cancelled) && job.local.tally.lost)
    }

    // The durable row holds a status that was adopted without running.
    ghost predicate FollowedRow(job: Job)
      reads job
    {
      !job.local.claimed && job.local.tally.followed && job.local.lastSeen == Some(job.fsm) && job.fsm in FOLLOW_WITHOUT_RUN
    }

    // Nothing is left to do for this job here: it has ended, or somebody else runs it.
    ghost predicate Concluded(job: Job)
      reads job
    {
      Terminal(job.fsm) || (job.fsm == InProgress && job.local.tally.followed && !job.local.claimed)
    }

    // A row that a job's state may replace may also become Failed, unless the state is Completed, or both are Cancelled.
    lemma {:induction false} FailedFits(job: Job)
      requires job.fsm != Completed && !job.fsm.Other?
      ensures job.Synced(store) ==> CanRestore(job, Failed) || (job.IsCancelled() && job.Holds(store, Cancelled))
    {
      if job.id in store.rows {
        FenceIsTheLifecycleOrder(store.rows[job.id].status, job.fsm);
        FenceIsTheLifecycleOrder(store.rows[job.id].status, Failed);
      }
    }

    // Move the machine to Failed, whatever it is by now: FAIL where it is accepted, otherwise by restoring.
    method ForceFailed(job: Job)
      requires Ready(job) && !job.local.claimed && job.local.window in {Forcing, Resending}
      modifies job
      ensures Ready(job) && job.fsm == Failed && job.version == old(job.version)
      ensures job.puts == old(job.puts) && job.outside == old(job.outside)
      ensures job.local == old(job.local).(
                fsm := Failed, window := if old(job.fsm) == Failed then old(job.local.window) else Closed,
                tally := if old(job.IsCancelled()) then old(job.local.tally).(lost := true) else old(job.local.tally))
      ensures !store.shared && old(job.fsm) != Completed && old(job.Aligned(store)) ==> job.Aligned(store)
    {
      if job.fsm == Failed {
        return;
      }
      if job.fsm != Completed {
        FailedFits(job);
      }
      var accepted := job.ApplyEvent(FAIL, store);
      if !accepted {
        job.Log(ForcedFailed);
        job.fsm := Failed;
        job.status := Failed;
      }
    }

    // Nobody else writes: nothing was written, or a cancel was stored and overwritten.
    twostate predicate RowsSameOrLost(job: Job)
      reads job, store
    {
      || (store.rows == old(store.rows) && job.version == old(job.version))
      || (job.Holds(store, Cancelled) && job.local.tally.lost)
    }

    // Carry out the decision to move to Failed; a cancel that lands before that is overwritten.
    method FailWhateverIsNow(job: Job)
      requires Ready(job) && !job.local.claimed && job.local.window in {Forcing, Resending} && job.fsm != Completed
      modifies job, store
      ensures Ready(job) && SameWork(job) && RowsKept() && job.fsm == Failed
      ensures job.local.target == old(job.local.target) && job.local.window in {Closed, old(job.local.window)}
      ensures job.local.lastSeen == old(job.local.lastSeen)
      ensures !store.shared ==> RowsSameOrLost(job) && (old(job.Aligned(store)) ==> job.Aligned(store))
    {
      job.CancelPoint(store, true);
      ForceFailed(job);
    }

    // Retry the Cancelled snapshot when the store lags.
    method EnsureCancelledPersisted(job: Job) returns (r: Outcome)
      requires Ready(job) && job.IsCancelled()
      modifies job, store
      ensures Ready(job) && job.IsCancelled() && Idle(job) && RowsKept() && r in {Done, Threw(StoreFailure)}
      ensures job.local.tally.lost == old(job.local.tally.lost) && (r == Threw(StoreFailure) ==> PutFailed(job))
      ensures !store.shared && old(job.Synced(store)) ==> job.Synced(store) && (r == Done ==> StoredStatus(job))
    {
      var saved := job.GetSaved(store);
      if saved.Some? && saved.value.status == Cancelled {
        return Done;
      }
      var again := job.Save(store, Owner);
      return if again == Raised then Threw(StoreFailure) else Done;
    }

    // Put a restored job back on the channel, or persist Failed when that is impossible. A cancel that is accepted
    // while the job is being put back is kept if the send succeeds, and overwritten otherwise.
    method RequeueAfterRunRestore(job: Job) returns (r: Outcome)
      requires Ready(job) && job.local.window == Resending && job.fsm in {Unknown, Initializing, Scheduled, Failed}
      modifies job, store, channel
      ensures Ready(job) && Idle(job) && RowsKept() && TruthfulReason(r, job)
      ensures job.local.lastSeen == old(job.local.lastSeen)
      ensures r == Threw(JobRequeued) <==>
                !old(channel.stop) && (channel.maxsize <= 0 || |old(channel.queue)| < channel.maxsize)
      ensures r == Threw(JobRequeued) ==>
                channel.queue == old(channel.queue) + [job] && job.OnlyCancelled() &&
                job.local.tally.lost == old(job.local.tally.lost) &&
                (job.fsm == old(job.fsm) ==> job.puts == old(job.puts))
      ensures r != Threw(JobRequeued) ==>
                channel.queue == old(channel.queue) && job.fsm == Failed && job.Tried(Failed) &&
                r == Threw(JobRedelivery(if channel.stop then Stopped else Full, job))
      ensures !store.shared && old(job.Aligned(store)) ==> job.Aligned(store)
    {
      var result := SendBack(job);
      if result == C.SendOk {
        return Threw(JobRequeued);
      }
      var reason := if result == C.SendFull then Full else Stopped;
      MarkUndeliverableFailed(job);
      return Threw(JobRedelivery(reason, job));
    }

    // The send, before which a cancel may land.
    method SendBack(job: Job) returns (result: C.SendResult)
      requires Ready(job) && job.local.window == Resending
      modifies job, store, channel
      ensures Ready(job) && Idle(job) && RowsKept() && job.OnlyCancelled() && job.local.tally == old(job.local.tally)
      ensures job.fsm == old(job.fsm) ==> job.puts == old(job.puts)
      ensures job.local.lastSeen == old(job.local.lastSeen)
      ensures result == C.SendStopped <==> old(channel.stop)
      ensures result == C.SendFull <==>
                !old(channel.stop) && channel.maxsize > 0 && |old(channel.queue)| >= channel.maxsize
      ensures channel.queue == if result == C.SendOk then old(channel.queue) + [job] else old(channel.queue)
      ensures result != C.SendOk ==> job.local.window == Resending
      ensures !store.shared && old(job.Aligned(store)) ==> job.Aligned(store)
    {
      job.CancelPoint(store, true);
      result := channel.TrySend(job);
      if result == C.SendOk {
        job.Log(Sent);
      }
    }

    // The job cannot be put back: Failed, and tried to be stored as such.
    method MarkUndeliverableFailed(job: Job)
      requires Ready(job) && job.local.window == Resending
      requires job.fsm in {Unknown, Initializing, Scheduled, Failed, Cancelled}
      modifies job, store
      ensures Ready(job) && SameWork(job) && RowsKept() && job.fsm == Failed && job.Tried(Failed)
      ensures job.local.lastSeen == old(job.local.lastSeen)
      ensures !store.shared && old(job.Aligned(store)) ==> job.Aligned(store)
    {
      FailWhateverIsNow(job);
      var saved := job.Save(store, Owner);
    }

    // Move to Failed and persist that; a skipped write counts as a failure to persist. A cancel that is accepted
    // before the move is overwritten.
    method PersistFailedSnapshot(job: Job) returns (persisted: bool)
      requires Ready(job) && job.local.window == Forcing && job.fsm !in {Completed, Cancelled}
      modifies job, store
      ensures Ready(job) && Idle(job) && RowsKept() && job.fsm == Failed && job.Tried(Failed)
      ensures job.Stores(Failed) == persisted && job.local.lastSeen == old(job.local.lastSeen)
      ensures persisted && !store.shared ==> job.Stored(store)
      ensures !persisted ==> PutFailed(job) && job.local.window == Restoring && job.local.target == old(job.local.target)
      ensures !persisted && !store.shared ==> RowsSameOrLost(job)
      ensures !store.shared && old(job.Aligned(store)) ==> job.Aligned(store)
    {
      FailWhateverIsNow(job);
      var saved := job.Save(store, Owner);
      return saved == Applied;
    }

    // The job could not be persisted before running: prefer a Failed snapshot, else restore and re-queue,
    // unless the job was found cancelled. Always raises.
    method FailOrRestoreAfterRunPersist(job: Job, prevState: Status, prevStatus: Status, error: Error)
      returns (r: Outcome)
      requires Ready(job) && !job.local.claimed && job.local.window in {Closed, Restoring}
      requires job.local.target == Some(prevState) && job.local.asking != Asked
      requires prevStatus == prevState && prevState in {Unknown, Initializing, Scheduled, Failed}
      requires job.fsm in {prevState, InProgress, Cancelled} && error in {StoreFailure, PersistSkipped}
      modifies job, store, channel
      ensures Ready(job) && Idle(job) && RowsKept() && TruthfulReason(r, job)
      ensures BeforeRun(r) && (r == Threw(JobRequeued) ==> !channel.stop)
      ensures r == Threw(JobRequeued) ==>
                channel.queue == old(channel.queue) + [job] && MayFindCancelled(prevState, job.fsm) &&
                !old(job.IsCancelled()) && PutFailed(job) && RestoredLast(job, prevState)
      ensures r != Threw(JobRequeued) ==>
                channel.queue == old(channel.queue) && job.fsm == (if old(job.IsCancelled()) then Cancelled else Failed) &&
                FailureSettled(job, r)
      ensures !old(job.IsCancelled()) ==> job.local.lastSeen == old(job.local.lastSeen)
      ensures !store.shared && old(job.Aligned(store)) &&
              (!old(job.IsCancelled()) ==> old(Restorable(job, prevState))) ==>
                job.Aligned(store)
    {
      if job.IsCancelled() {
        r := EnsureCancelledPersisted(job);
        return if r == Done then Threw(error) else r;
      }
      job.Log(Checked(Forcing));
      r := FailOrRestore(job, prevState, prevStatus, error);
    }

    // The job was found not to be cancelled.
    method FailOrRestore(job: Job, prevState: Status, prevStatus: Status, error: Error) returns (r: Outcome)
      requires Ready(job) && job.local.window == Forcing && job.local.target == Some(prevState)
      requires prevStatus == prevState && prevState in {Unknown, Initializing, Scheduled, Failed}
      requires job.fsm in {prevState, InProgress} && error in {StoreFailure, PersistSkipped}
      modifies job, store, channel
      ensures Ready(job) && Idle(job) && RowsKept() && TruthfulReason(r, job)
      ensures BeforeRun(r) && (r == Threw(JobRequeued) ==> !channel.stop)
      ensures r == Threw(JobRequeued) ==>
                channel.queue == old(channel.queue) + [job] && MayFindCancelled(prevState, job.fsm) &&
                PutFailed(job) && RestoredLast(job, prevState)
      ensures r != Threw(JobRequeued) ==>
                channel.queue == old(channel.queue) && job.fsm == Failed && FailureSettled(job, r)
      ensures job.local.lastSeen == old(job.local.lastSeen)
      ensures !store.shared && old(job.Aligned(store)) && old(Restorable(job, prevState)) ==> job.Aligned(store)
    {
      var persisted := PersistFailedSnapshot(job);
      if persisted {
        return Threw(error);
      }
      r := RestoreAndRequeue(job, prevState, prevStatus);
    }

    method RestoreAndRequeue(job: Job, prevState: Status, prevStatus: Status) returns (r: Outcome)
      requires Ready(job) && job.local.window == Restoring && job.local.target == Some(prevState)
      requires job.Tried(Failed) && !job.Stores(Failed)
      requires prevStatus == prevState && prevState in {Unknown, Initializing, Scheduled, Failed}
      modifies job, store, channel
      ensures Ready(job) && Idle(job) && RowsKept() && TruthfulReason(r, job)
      ensures BeforeRun(r) && (r == Threw(JobRequeued) ==> !channel.stop)
      ensures r == Threw(JobRequeued) ==>
                channel.queue == old(channel.queue) + [job] && MayFindCancelled(prevState, job.fsm) &&
                RestoredLast(job, prevState)
      ensures r != Threw(JobRequeued) ==>
                channel.queue == old(channel.queue) && job.fsm == Failed && job.Tried(Failed) && r.error.JobRedelivery?
      ensures job.local.lastSeen == old(job.local.lastSeen)
      ensures !store.shared && old(Restorable(job, prevState)) ==> job.Aligned(store)
    {
      job.RestoreLifecycle(prevState, prevStatus, store);
      r := RequeueAfterRunRestore(job);
    }

    // Make sure the store has a row before RUN; None when it has. When this fails none of its puts was applied.
    method Heal(job: Job) returns (failure: Option<Error>)
      requires Ready(job) && job.local.window == Closed && job.local.asking == Unasked
      modifies job, store
      ensures Ready(job) && Idle(job) && job.OnlyCancelled() && RowsKept()
      ensures job.local.window in {Closed, Restoring} && job.local.tally.lost == old(job.local.tally.lost)
      ensures failure == None ==> job.local.sawRow && (job.fsm == Scheduled ==> job.local.target == old(job.local.target))
      ensures failure != None ==>
                failure in {Some(StoreFailure), Some(PersistSkipped)} && !old(job.local.sawRow) &&
                job.local.target == old(job.local.target) && job.local.asking == Unasked
      ensures failure != None ==> job.local.tally.stored == old(job.local.tally.stored) && PutFailed(job)
      ensures old(job.local.sawRow) ==> SavedTimes(job) == old(SavedTimes(job))
      ensures !store.shared && old(job.Aligned(store)) ==> job.Aligned(store)
      ensures !store.shared && job.fsm == old(job.fsm) && failure != None ==>
                store.rows == old(store.rows) && job.version == old(job.version)
    {
      var saved := job.GetSaved(store);
      if saved.Some? {
        return None;
      }
      failure := SaveMissingRow(job);
    }

    // A save before the run, as far as healing needs it.
    method SaveAligned(job: Job) returns (r: PutOutcome)
      requires Ready(job) && job.local.window == Closed && job.local.asking == Unasked && job.fsm != InProgress
      modifies job, store
      ensures Ready(job) && Idle(job) && job.OnlyCancelled() && RowsKept()
      ensures job.local.window in {Closed, Restoring} && job.local.tally.lost == old(job.local.tally.lost)
      ensures job.local.asking == Unasked && (r == Applied ==> job.local.sawRow)
      ensures job.local.target == old(job.local.target) || (r == Applied && job.fsm == Failed)
      ensures r != Applied ==> job.local.tally.stored == old(job.local.tally.stored) && PutFailed(job)
      ensures !store.shared && old(job.Aligned(store)) ==> job.Aligned(store)
      ensures !store.shared && job.fsm == old(job.fsm) && r != Applied ==>
                store.rows == old(store.rows) && job.version == old(job.version)
    {
      r := job.Save(store, Owner);
    }

    // No row was found: save one, and look again when that is skipped.
    method SaveMissingRow(job: Job) returns (failure: Option<Error>)
      requires Ready(job) && job.local.window == Closed && job.local.asking == Unasked && job.fsm != InProgress
      modifies job, store
      ensures Ready(job) && Idle(job) && job.OnlyCancelled() && RowsKept()
      ensures job.local.window in {Closed, Restoring} && job.local.tally.lost == old(job.local.tally.lost)
      ensures failure == None ==> job.local.sawRow && (job.fsm == Scheduled ==> job.local.target == old(job.local.target))
      ensures failure != None ==>
                failure in {Some(StoreFailure), Some(PersistSkipped)} && job.local.asking == Unasked &&
                job.local.target == old(job.local.target)
      ensures failure != None ==> job.local.tally.stored == old(job.local.tally.stored) && PutFailed(job)
      ensures !store.shared && old(job.Aligned(store)) ==> job.Aligned(store)
      ensures !store.shared && job.fsm == old(job.fsm) && failure != None ==>
                store.rows == old(store.rows) && job.version == old(job.version)
    {
      var r := SaveAligned(job);
      if r == Raised {
        return Some(StoreFailure);
      }
      if r == Applied {
        return None;
      }
      var saved := job.GetSaved(store);
      return if saved.None? then Some(PersistSkipped) else None;
    }

    // After RUN: persist InProgress. When the put is applied the workflows are next: the job has claimed its row, or a
    // cancel has landed since RUN and Cancelled was stored instead. Otherwise `r` is how processing ends.
    method Claim(job: Job, prevState: Status, prevStatus: Status) returns (applied: bool, r: Outcome)
      requires Ready(job) && job.fsm == InProgress && !job.local.claimed && prevState == prevStatus == Scheduled
      requires job.local.window == Closed && job.local.target == Some(Scheduled) && job.local.asking == Asked
      modifies job, store, channel
      ensures Ready(job) && channel.stop == old(channel.stop) && job.local.work == old(job.local.work)
      ensures RowsKept() && RecordKept(job) && (!applied ==> TruthfulReason(r, job))
      ensures if applied then job.local.claimed || job.IsCancelled() else !job.local.claimed
      ensures applied ==> channel.queue == old(channel.queue) && job.fsm in {InProgress, Cancelled} &&
                          job.local.window == Closed && job.CancelledByOthers() &&
                          SavedTimes(job) == old(SavedTimes(job)) + 1
      ensures !applied && r == Threw(JobRequeued) ==>
                job.fsm in {Scheduled, Cancelled} && channel.queue == old(channel.queue) + [job] && !channel.stop &&
                TwoPutsFailed(job) && RestoredLast(job, Scheduled)
      ensures !applied && r != Threw(JobRequeued) ==>
                && channel.queue == old(channel.queue)
                && (Terminal(job.fsm) || (job.fsm == InProgress && r == Done && FollowedRow(job)))
                && (job.fsm == Completed ==> FollowedRow(job)) && (FailureSettled(job, r) || FollowedRow(job))
      ensures !applied ==> PutFailed(job) && NotRun(r, job)
      ensures !store.shared && old(job.Aligned(store)) && old(Restorable(job, prevState)) ==>
                && job.Aligned(store) && (applied ==> job.Synced(store))
                && job.fsm != Completed && (job.fsm == InProgress ==> applied)
                && (!applied && r == Done ==> StoredStatus(job))
    {
      job.CancelPoint(store, true);
      applied, r := SaveClaim(job, prevState, prevStatus);
    }

    // The save that follows RUN, and what becomes of the job when that is not applied.
    method SaveClaim(job: Job, prevState: Status, prevStatus: Status) returns (applied: bool, r: Outcome)
      requires Ready(job) && job.fsm in {InProgress, Cancelled} && !job.local.claimed
      requires prevState == prevStatus == Scheduled
      requires job.local.window == Closed && job.local.target == Some(Scheduled) && job.local.asking == Asked
      modifies job, store, channel
      ensures Ready(job) && channel.stop == old(channel.stop) && job.local.work == old(job.local.work)
      ensures RowsKept() && RecordKept(job) && (!applied ==> TruthfulReason(r, job))
      ensures if applied then job.local.claimed || job.IsCancelled() else !job.local.claimed
      ensures applied ==> channel.queue == old(channel.queue) && job.fsm in {InProgress, Cancelled} &&
                          job.local.window == Closed && job.CancelledByOthers() &&
                          SavedTimes(job) == old(SavedTimes(job)) + 1
      ensures !applied && r == Threw(JobRequeued) ==>
                job.fsm in {Scheduled, Cancelled} && channel.queue == old(channel.queue) + [job] && !channel.stop &&
                TwoPutsFailed(job) && RestoredLast(job, Scheduled)
      ensures !applied && r != Threw(JobRequeued) ==>
                && channel.queue == old(channel.queue)
                && (Terminal(job.fsm) || (job.fsm == InProgress && r == Done && FollowedRow(job)))
                && (job.fsm == Completed ==> FollowedRow(job)) && (FailureSettled(job, r) || FollowedRow(job))
      ensures !applied ==> PutFailed(job) && NotRun(r, job)
      ensures !store.shared && old(job.Aligned(store)) && (!old(job.IsCancelled()) ==> old(Restorable(job, prevState))) ==>
                && job.Aligned(store) && (applied ==> job.Synced(store))
                && job.fsm != Completed && (job.fsm == InProgress ==> applied)
                && (!applied && r == Done ==> StoredStatus(job))
    {
      var saved := job.Save(store, Owner);
      if saved == Applied {
        return true, Done;
      }
      r := NotClaimed(job, prevState, prevStatus, saved);
      return false, r;
    }

    // The save that follows RUN raised, or was skipped.
    method NotClaimed(job: Job, prevState: Status, prevStatus: Status, saved: PutOutcome) returns (r: Outcome)
      requires Ready(job) && job.fsm in {InProgress, Cancelled} && !job.local.claimed
      requires prevState == prevStatus == Scheduled
      requires job.local.window == Closed && job.local.target == Some(Scheduled)
      requires saved != Applied && job.local.asking == if saved == Skipped then Refused else Unasked
      modifies job, store, channel
      ensures Ready(job) && channel.stop == old(channel.stop) && job.local.work == old(job.local.work)
      ensures RowsKept() && RecordKept(job) && TruthfulReason(r, job) && !job.local.claimed && NotRun(r, job)
      ensures r == Threw(JobRequeued) ==>
                job.fsm in {Scheduled, Cancelled} && channel.queue == old(channel.queue) + [job] && !channel.stop &&
                PutFailed(job) && RestoredLast(job, Scheduled)
      ensures r != Threw(JobRequeued) ==>
                && channel.queue == old(channel.queue)
                && (Terminal(job.fsm) || (job.fsm == InProgress && r == Done && FollowedRow(job)))
                && (job.fsm == Completed ==> FollowedRow(job)) && (FailureSettled(job, r) || FollowedRow(job))
      ensures !store.shared && (if saved == Skipped then old(job.Holds(store, Cancelled))
                                else old(job.Aligned(store)) && (old(job.IsCancelled()) || old(Restorable(job, prevState)))) ==>
                && job.Aligned(store) && job.fsm !in {Completed, InProgress} && (r == Done ==> StoredStatus(job))
    {
      if saved == Raised {
        r := FailOrRestoreAfterRunPersist(job, prevState, prevStatus, StoreFailure);
        return;
      }
      r := ResolveSkippedRun(job, prevState, prevStatus);
    }

    method FollowDurableStatus(job: Job, status: Status)
      requires Ready(job) && Allowed(job.local, Followed(status))
      modifies job
      ensures Ready(job) && job.fsm == status && job.version == old(job.version) && job.outside == old(job.outside)
      ensures job.local == Advance(old(job.local), Followed(status)) && FollowedRow(job)
    {
      job.Log(Followed(status));
      job.fsm := status;
      job.status := status;
    }

    // The durable row says Cancelled. A cancel that lands after the look at the state makes the event fail.
    method AdoptCancelled(job: Job) returns (r: Outcome)
      requires Ready(job) && job.fsm in {InProgress, Cancelled} && job.local.window == Closed
      requires job.local.asking == Refused && job.local.lastSeen == Some(Cancelled)
      modifies job, store
      ensures Ready(job) && Idle(job) && RowsKept() && job.IsCancelled()
      ensures r in {Done, Threw(StoreFailure), Threw(InvalidEvent)}
      ensures (r == Threw(InvalidEvent) ==> job.outside > old(job.outside)) && (r == Threw(StoreFailure) ==> PutFailed(job))
      ensures job.local.tally.lost == old(job.local.tally.lost)
      ensures !store.shared && old(job.Holds(store, Cancelled)) ==> job.Synced(store) && (r == Done ==> StoredStatus(job))
    {
      FenceIsTheLifecycleOrder(Cancelled, Cancelled);
      if !job.IsCancelled() {
        var adopted := AdoptStatus(job);
        if !adopted {
          return Threw(InvalidEvent);
        }
      }
      r := EnsureCancelledPersisted(job);
    }

    // CANCEL, unless somebody else's is faster.
    method AdoptStatus(job: Job) returns (adopted: bool)
      requires Ready(job) && job.fsm == InProgress && job.local.window == Closed
      requires job.local.asking == Refused && job.local.lastSeen == Some(Cancelled)
      modifies job, store
      ensures Ready(job) && Idle(job) && RowsKept() && job.IsCancelled()
      ensures !adopted ==> job.outside > old(job.outside)
      ensures job.local.tally.lost == old(job.local.tally.lost)
      ensures !store.shared && old(job.Holds(store, Cancelled)) ==> job.Synced(store)
    {
      FenceIsTheLifecycleOrder(Cancelled, Cancelled);
      job.CancelPoint(store, true);
      if job.IsCancelled() {
        return false;
      }
      job.Log(Adopted);
      job.fsm := Cancelled;
      job.status := Cancelled;
      return true;
    }

    // The InProgress write was skipped: follow the durable row where it has moved on, else fail or restore.
    method ResolveSkippedRun(job: Job, prevState: Status, prevStatus: Status) returns (r: Outcome)
      requires Ready(job) && !job.local.claimed && job.local.asking == Refused && job.fsm in {InProgress, Cancelled}
      requires prevState == prevStatus == Scheduled && job.local.window == Closed && job.local.target == Some(Scheduled)
      modifies job, store, channel
      ensures Ready(job) && job.local.work == old(job.local.work) && channel.stop == old(channel.stop)
      ensures RowsKept() && RecordKept(job) && TruthfulReason(r, job) && !job.local.claimed && NotRun(r, job)
      ensures r == Threw(JobRequeued) ==>
                job.fsm in {Scheduled, Cancelled} && channel.queue == old(channel.queue) + [job] && !channel.stop &&
                PutFailed(job) && RestoredLast(job, Scheduled)
      ensures r != Threw(JobRequeued) ==>
                && channel.queue == old(channel.queue)
                && (Terminal(job.fsm) || (job.fsm == InProgress && r == Done && FollowedRow(job)))
                && (job.fsm == Completed ==> FollowedRow(job)) && (FailureSettled(job, r) || FollowedRow(job))
      ensures old(job.IsCancelled()) ==> job.IsCancelled() || FollowedRow(job)
      // It fails, or goes back, only over a row that it has read and that is none of those to follow.
      ensures r == Threw(JobRequeued) || (job.fsm == Failed && !FollowedRow(job)) ==>
                job.local.lastSeen.Some? && job.local.lastSeen.value !in FOLLOW_WITHOUT_RUN
      ensures !store.shared && old(job.Holds(store, Cancelled)) ==>
                job.Synced(store) && job.IsCancelled() && (r == Done ==> StoredStatus(job))
    {
      var durable := job.GetSaved(store);
      if durable.Some? && durable.value.status == Cancelled {
        r := AdoptCancelled(job);
        return;
      }
      if durable.Some? && durable.value.status in FOLLOW_WITHOUT_RUN {
        FollowDurableStatus(job, durable.value.status);
        return Done;
      }
      r := FailOrRestoreAfterRunPersist(job, prevState, prevStatus, PersistSkipped);
    }

    // One workflow: its executors are foreign code; a cancel may land while it runs, and it may raise.
    method RunWorkflow(job: Job, k: nat) returns (ok: bool)
      requires Ready(job) && job.local.window == Starting && job.local.work.started == k
      modifies job, store
      ensures Ready(job) && job.OnlyCancelled() && job.local.claimed && RowsKept() && job.local.window == Closed
      ensures job.local.work == Work(k + 1, false, !ok) && job.local.tally == old(job.local.tally)
      ensures !store.shared && old(job.Synced(store)) ==> job.Synced(store)
    {
      job.Log(Started(k));
      job.CancelPoint(store, true);
      ok := *;
      job.Log(Finished(ok));
    }

    // The job was found not to be cancelled, and is going to start a workflow; a cancel may land in between.
    method AboutToStart(job: Job)
      requires Ready(job) && job.fsm == InProgress && job.local.claimed && !job.local.work.broken
      requires job.local.window == Closed
      modifies job, store
      ensures Ready(job) && job.OnlyCancelled() && job.local.claimed && RowsKept() && job.local.window == Starting
      ensures job.local.work == old(job.local.work) && job.local.tally == old(job.local.tally)
      ensures !store.shared && old(job.Synced(store)) ==> job.Synced(store)
    {
      job.Log(Checked(Starting));
      job.CancelPoint(store, true);
    }

    method StartAndRun(job: Job, k: nat) returns (ok: bool)
      requires Ready(job) && job.fsm == InProgress && job.local.claimed && !job.local.work.broken
      requires job.local.window == Closed && job.local.work.started == k
      modifies job, store
      ensures Ready(job) && job.OnlyCancelled() && job.local.claimed && RowsKept() && job.local.window == Closed
      ensures job.local.work == Work(k + 1, false, !ok) && job.local.tally == old(job.local.tally)
      ensures !store.shared && old(job.Synced(store)) ==> job.Synced(store)
    {
      AboutToStart(job);
      ok := RunWorkflow(job, k);
    }

    // The exception of a failed save is caught by the handler around the loop, which saves again.
    method CancelledBetweenWorkflows(job: Job) returns (r: Outcome)
      requires Ready(job) && job.IsCancelled()
      modifies job, store
      ensures Ready(job) && job.IsCancelled() && Idle(job) && RowsKept() && r in {Done, Threw(StoreFailure)}
      ensures job.local.tally.lost == old(job.local.tally.lost) && (r == Threw(StoreFailure) ==> PutFailed(job))
      ensures !store.shared && old(job.Synced(store)) ==> job.Synced(store) && (r == Done ==> StoredStatus(job))
    {
      r := EnsureCancelledPersisted(job);
      if r != Done {
        r := EnsureCancelledPersisted(job);
      }
    }

    // How a claimed job ends: Completed when all workflows ran without error, Failed when one raised,
    // Cancelled when a cancel landed first (the event that the worker then still applies is rejected).
    ghost predicate Ended(job: Job, r: Outcome)
      reads job
    {
      match job.fsm
      case Completed => job.local.work.started == |job.workflows| && !job.local.work.broken &&
                        r in {Done, Threw(StoreFailure)} && job.Tried(Completed)
      case Failed => job.local.work.broken && r == Threw(WorkflowFailure) && job.Tried(Failed)
      case Cancelled =>
        && r in {Done, Threw(StoreFailure), Threw(InvalidEvent), Threw(WorkflowFailure)}
        && (r == Threw(WorkflowFailure) ==> job.local.work.broken)
        && (r == Threw(InvalidEvent) ==> job.local.work.started == |job.workflows| && !job.local.work.broken)
      case _ => false
    }

    method RunWorkflows(job: Job) returns (r: Outcome)
      requires Ready(job) && job.local.work == Work(0, false, false) && job.local.window == Closed
      requires job.fsm == Cancelled || (job.fsm == InProgress && job.local.claimed)
      modifies job, store
      ensures Ready(job) && Ended(job, r) && job.local.claimed == old(job.local.claimed) && RowsKept()
      ensures RecordKept(job) && job.CancelledByOthers()
      ensures old(job.IsCancelled()) ==> job.IsCancelled() && job.local.work.started == 0
      ensures !job.IsCancelled() ==> SavedTimes(job) == old(SavedTimes(job)) + 1
      ensures (r == Threw(StoreFailure) ==> PutFailed(job)) &&
              (r == Threw(InvalidEvent) ==> job.outside > old(job.outside))
      ensures job.local.tally.lost == old(job.local.tally.lost)
      ensures !store.shared && old(job.Synced(store)) ==> job.Synced(store) && (r == Done ==> StoredStatus(job))
    {
      for k := 0 to |job.workflows|
        invariant Ready(job) && job.local.claimed == old(job.local.claimed) && job.local.work == Work(k, false, false)
        invariant RowsKept() && job.local.window == Closed && RecordKept(job) && job.CancelledByOthers()
        invariant job.fsm == Cancelled || (job.fsm == InProgress && job.local.claimed)
        invariant job.local.tally.lost == old(job.local.tally.lost)
        invariant !job.IsCancelled() ==> SavedTimes(job) == old(SavedTimes(job))
        invariant old(job.IsCancelled()) ==> k == 0 && job.IsCancelled()
        invariant !store.shared && old(job.Synced(store)) ==> job.Synced(store)
      {
        if job.IsCancelled() {
          r := CancelledBetweenWorkflows(job);
          return;
        }
        var ok := StartAndRun(job, k);
        if !ok {
          r := FailAfterWorkflow(job);
          return;
        }
      }
      r := CompleteAfterWorkflows(job);
    }

    // All workflows ran without error: Completed, unless a cancel landed; the state is kept even when the snapshot
    // cannot be written.
    method CompleteAfterWorkflows(job: Job) returns (r: Outcome)
      requires Ready(job) && !job.local.work.broken && job.local.window == Closed
      requires job.local.work.started == |job.workflows|
      requires job.fsm == Cancelled || (job.fsm == InProgress && job.local.claimed)
      modifies job, store
      ensures job.local.claimed == old(job.local.claimed) && RecordKept(job) && job.CancelledByOthers()
      ensures Ready(job) && Ended(job, r) && RowsKept() && job.fsm in {Completed, Cancelled}
      ensures job.local.work == old(job.local.work) && job.local.tally.lost == old(job.local.tally.lost)
      ensures old(job.IsCancelled()) ==> job.IsCancelled() && r in {Done, Threw(StoreFailure)}
      ensures !job.IsCancelled() ==> SavedTimes(job) == old(SavedTimes(job)) + 1
      ensures (r == Threw(StoreFailure) ==> PutFailed(job)) &&
              (r == Threw(InvalidEvent) ==> job.outside > old(job.outside))
      ensures !store.shared && old(job.Synced(store)) ==> job.Synced(store) && (r == Done ==> StoredStatus(job))
    {
      if job.IsCancelled() {
        r := EnsureCancelledPersisted(job);
        return;
      }
      r := TransitionAndSaveTerminal(job, COMPLETE);
    }

    // A workflow raised: a cancelled job stays cancelled, any other becomes Failed and keeps that state even when
    // the snapshot cannot be written.
    method FailAfterWorkflow(job: Job) returns (r: Outcome)
      requires Ready(job) && job.local.claimed && job.local.work.broken && job.local.window == Closed
      requires job.fsm in {InProgress, Cancelled}
      modifies job, store
      ensures Ready(job) && Ended(job, r) && job.local.claimed && RowsKept() && job.fsm in {Failed, Cancelled}
      ensures RecordKept(job) && job.CancelledByOthers()
      ensures job.local.tally.lost == old(job.local.tally.lost)
      ensures old(job.IsCancelled()) ==>
                job.IsCancelled() && job.local.work == old(job.local.work) && r in {Done, Threw(StoreFailure)}
      ensures !job.IsCancelled() ==> SavedTimes(job) == old(SavedTimes(job)) + 1
      ensures (r == Threw(StoreFailure) ==> PutFailed(job)) &&
              (r == Threw(InvalidEvent) ==> job.outside > old(job.outside))
      ensures !store.shared && old(job.Synced(store)) ==> job.Synced(store) && (r == Done ==> StoredStatus(job))
    {
      if job.IsCancelled() {
        r := EnsureCancelledPersisted(job);
        return;
      }
      var ignored := TransitionAndSaveTerminal(job, FAIL);
      return Threw(WorkflowFailure);
    }

    // Apply the event that ends the work, then persist; the state is kept when that fails. A cancel that has landed
    // since the job was last looked at makes the event fail.
    method TransitionAndSaveTerminal(job: Job, event: Event) returns (r: Outcome)
      requires Ready(job) && job.local.claimed && job.fsm == InProgress && job.local.window == Closed
      requires event == if job.local.work.broken then FAIL else COMPLETE
      modifies job, store
      ensures Ready(job) && job.local.claimed && RowsKept() && RecordKept(job) && job.CancelledByOthers()
      ensures job.local.work == old(job.local.work) && job.local.tally.lost == old(job.local.tally.lost)
      ensures r == Threw(StoreFailure) ==> PutFailed(job)
      ensures if r == Threw(InvalidEvent) then job.IsCancelled()
              else r in {Done, Threw(StoreFailure)} && Next(InProgress, event) == Some(job.fsm) && job.Tried(job.fsm) &&
                   SavedTimes(job) == old(SavedTimes(job)) + 1
      ensures !store.shared && old(job.Synced(store)) ==> job.Synced(store) && (r == Done ==> StoredStatus(job))
    {
      var accepted := FireTerminal(job, event);
      if !accepted {
        return Threw(InvalidEvent);
      }
      var saved := job.Save(store, Owner);
      return if saved == Raised then Threw(StoreFailure) else Done;
    }

    method FireTerminal(job: Job, event: Event) returns (accepted: bool)
      requires Ready(job) && job.local.claimed && job.fsm == InProgress && job.local.window == Closed
      requires event == if job.local.work.broken then FAIL else COMPLETE
      modifies job, store
      ensures Ready(job) && job.local.claimed && RowsKept() && job.local.window == Closed
      ensures RecordKept(job) && job.CancelledByOthers()
      ensures job.local.work == old(job.local.work) && job.local.tally.lost == old(job.local.tally.lost)
      ensures if accepted then Next(InProgress, event) == Some(job.fsm) else job.IsCancelled()
      ensures SavedTimes(job) == old(SavedTimes(job))
      ensures !store.shared && old(job.Synced(store)) ==> job.Synced(store)
    {
      job.CancelPoint(store, true);
      TerminalFits(job);
      accepted := job.ApplyEvent(event, store);
    }

    // A row that InProgress may replace, every terminal state may replace as well.
    lemma TerminalFits(job: Job)
      ensures job.fsm == InProgress && job.Synced(store) ==> CanRestore(job, Completed) && CanRestore(job, Failed)
    {
    }

    // The row exists: RUN, claim, run the workflows. A cancel may have landed since the job was dequeued in `prevState`;
    // then, as in any state but Scheduled, RUN is rejected and nothing happens.
    method RunHealed(job: Job, prevState: Status, prevStatus: Status) returns (r: Outcome)
      requires Ready(job) && job.local.sawRow && prevState == prevStatus && job.local.window in {Closed, Restoring}
      requires job.fsm == prevState || job.IsCancelled()
      requires job.fsm == Scheduled ==> job.local.target == Some(Scheduled)
      modifies job, store, channel
      ensures Ready(job) && RowsKept() && channel.stop == old(channel.stop) && TruthfulReason(r, job)
      ensures channel.queue == if r == Threw(JobRequeued) then old(channel.queue) + [job] else old(channel.queue)
      ensures r == Threw(JobRequeued) ==>
                !channel.stop && old(job.fsm) == Scheduled && job.fsm in {Scheduled, Cancelled} &&
                RestoredLast(job, Scheduled)
      ensures RecordKept(job)
      ensures old(job.fsm) == Scheduled ==> ErrorExplained(r, job)
      // Claimed and run to its end, unless a put failed or somebody cancelled it.
      ensures old(job.fsm) == Scheduled && job.outside == old(job.outside) ==>
                if job.local.claimed then job.fsm in {Completed, Failed} && SavedTimes(job) == old(SavedTimes(job)) + 2 else PutFailed(job)
      ensures old(job.fsm) == Scheduled ==>
                && (r != Threw(JobRequeued) ==>
                      Terminal(job.fsm) || (job.fsm == InProgress && r == Done && FollowedRow(job)))
                && (job.local.work.started > old(job.local.work.started) ==> job.local.claimed)
                && (job.local.claimed ==> Ended(job, r))
                && (job.fsm == Completed ==> job.local.claimed || FollowedRow(job))
                && (FailureSettled(job, r) || FollowedRow(job) || job.local.claimed || r == Threw(JobRequeued))
                && (job.fsm == Failed && !job.local.claimed && !FollowedRow(job) ==> PutFailed(job))
      ensures old(job.fsm) != Scheduled ==>
                r == Threw(InvalidEvent) && job.fsm == old(job.fsm) && job.local == old(job.local) &&
                job.outside == old(job.outside)
      ensures !store.shared && old(job.Aligned(store)) ==>
                && job.Aligned(store) && (r == Done ==> StoredStatus(job))
                && (old(job.fsm) == Scheduled && r != Threw(JobRequeued) ==> Terminal(job.fsm))
    {
      RunFits(job);
      var accepted := job.ApplyEvent(RUN, store);
      if !accepted {
        return Threw(InvalidEvent);
      }
      r := ClaimAndRun(job, prevState, prevStatus);
    }

    // RUN was accepted.
    method ClaimAndRun(job: Job, prevState: Status, prevStatus: Status) returns (r: Outcome)
      requires Ready(job) && job.fsm == InProgress && !job.local.claimed && prevState == prevStatus == Scheduled
      requires job.local.window == Closed && job.local.target == Some(Scheduled) && job.local.asking == Asked
      requires job.local.work == Work(0, false, false)
      modifies job, store, channel
      ensures Ready(job) && RowsKept() && RecordKept(job) && channel.stop == old(channel.stop) && TruthfulReason(r, job)
      ensures channel.queue == if r == Threw(JobRequeued) then old(channel.queue) + [job] else old(channel.queue)
      ensures if r == Threw(JobRequeued) then
                !channel.stop && job.fsm in {Scheduled, Cancelled} && RestoredLast(job, Scheduled)
              else Terminal(job.fsm) || (job.fsm == InProgress && r == Done && FollowedRow(job))
      ensures ErrorExplained(r, job) && (r == Threw(InvalidEvent) ==> job.outside > old(job.outside))
      ensures job.outside == old(job.outside) ==>
                if job.local.claimed then job.fsm in {Completed, Failed} && SavedTimes(job) == old(SavedTimes(job)) + 2
                else PutFailed(job)
      ensures job.local.work.started > 0 ==> job.local.claimed
      ensures job.local.claimed ==> Ended(job, r)
      ensures job.fsm == Completed ==> job.local.claimed || FollowedRow(job)
      ensures FailureSettled(job, r) || FollowedRow(job) || job.local.claimed || r == Threw(JobRequeued)
      ensures job.fsm == Failed && !job.local.claimed && !FollowedRow(job) ==> PutFailed(job)
      ensures !store.shared && old(job.Aligned(store)) && old(Restorable(job, prevState)) ==>
                && job.Aligned(store) && (r == Done ==> StoredStatus(job))
                && (r != Threw(JobRequeued) ==> Terminal(job.fsm))
    {
      var applied;
      applied, r := Claim(job, prevState, prevStatus);
      if applied {
        r := RunWorkflows(job);
      }
    }

    // A row that Scheduled may replace, InProgress may replace as well.
    lemma RunFits(job: Job)
      ensures job.fsm == Scheduled && job.Synced(store) ==> CanRestore(job, InProgress)
    {
    }

    // One dequeued job.
    method Process(job: Job) returns (r: Outcome)
      requires Ready(job)
      modifies job, store, channel
      ensures Ready(job) && RowsKept() && channel.stop == old(channel.stop) && TruthfulReason(r, job)
      // The queue gets the job back exactly when JobRequeuedError is raised, in the state in which it was dequeued,
      // or Cancelled.
      ensures channel.queue == if r == Threw(JobRequeued) then old(channel.queue) + [job] else old(channel.queue)
      ensures r == Threw(JobRequeued) ==>
                !channel.stop && MayFindCancelled(old(job.fsm), job.fsm) && job.status == job.fsm && !old(job.IsCancelled())
      // That takes two puts that were not applied, and unless it was cancelled the latest one was of Failed. Every other
      // error has its cause as well.
      ensures ErrorExplained(r, job) && (r == Threw(JobRequeued) ==> RestoredLast(job, old(job.fsm)))
      // A job dequeued as Scheduled that nobody else cancels is claimed, run, and ends Completed or Failed (`Ended`),
      // unless a put failed before that; when the row was known to exist that takes two puts. One dequeued in any other
      // state is refused, unless a put failed.
      ensures old(job.fsm) == Scheduled && job.outside == old(job.outside) ==>
                if job.local.claimed then job.fsm in {Completed, Failed} else PutFailed(job)
      ensures old(job.fsm) == Scheduled && old(job.local.sawRow) && job.outside == old(job.outside) && job.local.claimed ==>
                SavedTimes(job) == old(SavedTimes(job)) + 2
      ensures old(job.fsm) !in {Scheduled, Cancelled} && !PutFailed(job) ==>
                r == Threw(InvalidEvent) && job.OnlyCancelled()
      ensures RecordKept(job)
      // A job dequeued as Scheduled is put back, or reaches a terminal state, or follows a durable InProgress.
      ensures old(job.fsm) == Scheduled && r != Threw(JobRequeued) ==>
                Terminal(job.fsm) || (job.fsm == InProgress && r == Done && FollowedRow(job))
      ensures old(Concluded(job)) ==> Concluded(job)
      // Work is only ever done for a job this call has claimed, and then the outcome says how it went.
      ensures job.local.work.started > old(job.local.work.started) ==> old(job.fsm) == Scheduled && job.local.claimed
      ensures old(job.fsm) == Scheduled && job.local.claimed ==> Ended(job, r)
      ensures old(job.fsm) == Scheduled && job.fsm == Completed ==> job.local.claimed || FollowedRow(job)
      // A job that fails without having run could not be stored before, and then Failed was, or it could not be put back.
      ensures old(job.fsm) == Scheduled && job.fsm == Failed && !job.local.claimed && !FollowedRow(job) ==>
                PutFailed(job) && FailureSettled(job, r)
      ensures old(job.IsCancelled()) ==> job.IsCancelled() && r in {Done, Threw(StoreFailure)}
      // Alone with its row, a job stays aligned with it, and never meets a durable InProgress that is not its own.
      ensures !store.shared && old(job.Aligned(store)) ==>
                && job.Aligned(store) && (r == Done ==> StoredStatus(job))
                && (old(job.fsm) in {Scheduled, Cancelled} && r != Threw(JobRequeued) ==> Terminal(job.fsm))
    {
      if job.IsCancelled() {
        r := EnsureCancelledPersisted(job);
        return;
      }
      r := ProcessUncancelled(job);
    }

    // A dequeued job that was found not to be cancelled; the contract is that of `Process`.
    method ProcessUncancelled(job: Job) returns (r: Outcome)
      requires Ready(job) && !job.IsCancelled()
      modifies job, store, channel
      ensures Ready(job) && RowsKept() && channel.stop == old(channel.stop) && TruthfulReason(r, job)
      ensures channel.queue == if r == Threw(JobRequeued) then old(channel.queue) + [job] else old(channel.queue)
      ensures r == Threw(JobRequeued) ==>
                !channel.stop && MayFindCancelled(old(job.fsm), job.fsm)
      ensures ErrorExplained(r, job) && (r == Threw(JobRequeued) ==> RestoredLast(job, old(job.fsm)))
      ensures old(job.fsm) == Scheduled && job.outside == old(job.outside) ==>
                if job.local.claimed then job.fsm in {Completed, Failed} else PutFailed(job)
      ensures old(job.fsm) == Scheduled && old(job.local.sawRow) && job.outside == old(job.outside) && job.local.claimed ==>
                SavedTimes(job) == old(SavedTimes(job)) + 2
      ensures old(job.fsm) != Scheduled && !PutFailed(job) ==> r == Threw(InvalidEvent) && job.OnlyCancelled()
      ensures RecordKept(job)
      ensures old(job.fsm) == Scheduled && r != Threw(JobRequeued) ==>
                Terminal(job.fsm) || (job.fsm == InProgress && r == Done && FollowedRow(job))
      ensures old(Concluded(job)) ==> Concluded(job)
      ensures job.local.work.started > old(job.local.work.started) ==> old(job.fsm) == Scheduled && job.local.claimed
      ensures old(job.fsm) == Scheduled && job.local.claimed ==> Ended(job, r)
      ensures old(job.fsm) == Scheduled && job.fsm == Completed ==> job.local.claimed || FollowedRow(job)
      ensures old(job.fsm) == Scheduled && job.fsm == Failed && !job.local.claimed && !FollowedRow(job) ==>
                PutFailed(job) && FailureSettled(job, r)
      ensures !store.shared && old(job.Aligned(store)) ==>
                && job.Aligned(store) && (r == Done ==> StoredStatus(job))
                && (old(job.fsm) in {Scheduled, Cancelled} && r != Threw(JobRequeued) ==> Terminal(job.fsm))
    {
      var prevState, prevStatus := job.fsm, job.status;
      var healed;
      healed, r := HealOrFail(job, prevState, prevStatus);
      if healed {
        r := RunHealed(job, prevState, prevStatus);
      }
    }

    // Heal the missing row, or end like any other failure before the run.
    method HealOrFail(job: Job, prevState: Status, prevStatus: Status) returns (healed: bool, r: Outcome)
      requires Ready(job) && !job.IsCancelled() && prevState == prevStatus == job.fsm
      modifies job, store, channel
      ensures Ready(job) && Idle(job) && RowsKept()
      ensures healed ==>
                && channel.queue == old(channel.queue) && job.OnlyCancelled() && job.local.sawRow
                && (old(job.local.sawRow) ==> SavedTimes(job) == old(SavedTimes(job)))
                && job.local.window in {Closed, Restoring} && (job.fsm == Scheduled ==> job.local.target == Some(Scheduled))
      ensures !healed ==>
                && TruthfulReason(r, job) && BeforeRun(r) && !job.local.claimed && PutFailed(job)
                && (if r == Threw(JobRequeued) then
                      channel.queue == old(channel.queue) + [job] && MayFindCancelled(old(job.fsm), job.fsm) &&
                      !channel.stop && TwoPutsFailed(job) && RestoredLast(job, old(job.fsm))
                    else channel.queue == old(channel.queue) && job.fsm in {Failed, Cancelled} && FailureSettled(job, r))
                && (old(job.fsm) == Failed ==> job.fsm == Failed) && (Early(old(job.fsm)) || old(job.fsm) == Failed)
      ensures !store.shared && old(job.Aligned(store)) ==> job.Aligned(store)
    {
      job.Log(Began(false));
      var failure := Heal(job);
      if failure.None? {
        return true, Done;
      }
      r := FailOrRestoreAfterRunPersist(job, prevState, prevStatus, failure.value);
      return false, r;
    }

    // What happens while a live receive waits: jobs arrive, or the channel is stopped. A receive on an empty live
    // channel does not return before one of the two.
    method Wait(jobs: set<Job>, mustStop: bool)
      requires forall j :: j in channel.queue ==> j in jobs
      modifies channel
      ensures old(channel.queue) <= channel.queue && (old(channel.stop) ==> channel.Now() == old(channel.Now()))
      ensures forall j :: j in channel.queue ==> j in jobs
      ensures mustStop || channel.queue == [] ==> channel.stop
    {
      if channel.stop {
        return;
      }
      var arrivals: nat := *;
      while arrivals > 0 && jobs != {}
        invariant !channel.stop && old(channel.queue) <= channel.queue
        invariant forall j :: j in channel.queue ==> j in jobs
        decreases arrivals
      {
        var job :| job in jobs;
        var sent := channel.TrySend(job);
        arrivals := arrivals - 1;
      }
      var stops: bool := *;
      if mustStop || stops || channel.queue == [] {
        channel.RequestStop();
      }
    }

    ghost predicate AllReady(jobs: set<Job>)
      reads jobs, store
    {
      forall j :: j in jobs ==> Ready(j)
    }

    ghost predicate Queued(jobs: set<Job>)
      reads channel
    {
      forall j :: j in channel.queue ==> j in jobs
    }

    // What a call did to its job: put back, or, if it was Scheduled, ended or left to whoever runs it.
    ghost predicate Handled(call: Call)
      requires call.queued != []
      reads call.queued[0]
    {
      && call.fate.Some? && Accounted(call.fate.value, call.outcome)
      && (call.fate.value.was == Scheduled && call.outcome != Threw(JobRequeued) ==> Concluded(call.queued[0]))
    }

    // A job as it is now, since it had this state, these failed puts and these cancels from elsewhere.
    ghost predicate IsFate(fate: Fate, job: Job, was: Status, failed: nat, outside: nat)
      reads job
    {
      && fate.was == was && fate.now == job.fsm && fate.claimed == job.local.claimed
      && failed + fate.failed == job.local.tally.failed && outside + fate.cancels == job.outside
    }

    // Jobs that were concluded still are.
    twostate predicate StillConcluded(jobs: set<Job>)
      reads jobs
    {
      forall j :: j in jobs && old(Concluded(j)) ==> Concluded(j)
    }

    // One `run_once`; `owed` are jobs that are to be concluded. None when the channel is stopped and empty.
    method RunOnce(ghost jobs: set<Job>, ghost owed: set<Job>) returns (job: Option<Job>, r: Outcome, ghost fate: Option<Fate>)
      requires owed <= jobs && AllReady(jobs) && Queued(jobs) && (channel.queue == [] ==> channel.stop)
      modifies if channel.queue == [] then {} else {channel.queue[0]}, store, channel, this`log
      ensures job == if old(channel.queue) == [] then None else Some(old(channel.queue)[0])
      ensures log == old(log) + [Call(old(channel.queue), old(channel.stop), fate, r)] && (fate == None <==> job == None)
      ensures job != None ==> IsFate(fate.value, job.value, old(channel.queue[0].fsm),
                                      old(channel.queue[0].local.tally.failed), old(channel.queue[0].outside))
      ensures channel.stop == old(channel.stop) && RowsKept() && (job != None ==> TruthfulReason(r, job.value))
      ensures job == None ==> r == Done && channel.queue == [] && store.rows == old(store.rows)
      ensures AllReady(jobs) && StillConcluded(jobs) && (old(NoneLost(owed)) ==> NoneLost(owed))
      ensures job != None ==>
                && channel.queue == old(channel.queue)[1..] + (if r == Threw(JobRequeued) then [job.value] else [])
                && Handled(log[|old(log)|])
      ensures r == Threw(JobRequeued) ==> !channel.stop
    {
      ghost var queued, stopped := channel.queue, channel.stop;
      var raw := channel.TryGet();
      if raw.None? {
        log := log + [Call(queued, stopped, None, Done)];
        return None, Done, None;
      }
      assert old(NoneLost(owed)) ==> NoneLostBut(owed, raw.value);
      ghost var became;
      r, became := ProcessOneOf(raw.value, jobs, owed);
      log := log + [Call(queued, stopped, Some(became), r)];
      return raw, r, Some(became);
    }

    // One of these jobs is processed, and the others are left alone.
    method ProcessOneOf(job: Job, ghost jobs: set<Job>, ghost owed: set<Job>) returns (r: Outcome, ghost fate: Fate)
      requires AllReady(jobs) && job in jobs && owed <= jobs
      modifies job, store, channel
      ensures AllReady(jobs) && StillConcluded(jobs) && (old(NoneLostBut(owed, job)) ==> NoneLost(owed))
      ensures RowsKept() && channel.stop == old(channel.stop) && TruthfulReason(r, job)
      ensures channel.queue == if r == Threw(JobRequeued) then old(channel.queue) + [job] else old(channel.queue)
      ensures r == Threw(JobRequeued) ==> !channel.stop && MayFindCancelled(old(job.fsm), job.fsm)
      ensures IsFate(fate, job, old(job.fsm), old(job.local.tally.failed), old(job.outside)) && Accounted(fate, r)
      ensures old(job.fsm) == Scheduled && r != Threw(JobRequeued) ==> Concluded(job)
    {
      r := Process(job);
      fate := Fate(old(job.fsm), job.fsm, job.local.claimed, job.local.tally.failed - old(job.local.tally.failed),
                    job.outside - old(job.outside));
      forall j | j in jobs
        ensures Ready(j)
      {
        assert j == job || j.status == j.fsm;
      }
    }

    // All these calls put their job back, or saw it conclude.
    ghost predicate AllHandled(calls: seq<Call>, jobs: set<Job>)
      reads jobs
    {
      forall k :: 0 <= k < |calls| && calls[k].queued != [] ==> calls[k].queued[0] in jobs && Handled(calls[k])
    }

    // These jobs have concluded, or are still in the queue as Scheduled.
    ghost predicate NoneLost(owed: set<Job>)
      reads owed, channel
    {
      forall j :: j in owed ==> Concluded(j) || (j.fsm == Scheduled && j in channel.queue)
    }

    // The same, while one job has been taken from the queue.
    ghost predicate NoneLostBut(owed: set<Job>, taken: Job)
      reads owed, channel
    {
      forall j :: j in owed ==> Concluded(j) || (j.fsm == Scheduled && (j in channel.queue || j == taken))
    }

    // Wait, then `run_once`. `owed` are jobs that are to be concluded.
    method Turn(jobs: set<Job>, mustStop: bool, ghost owed: set<Job>)
      returns (job: Option<Job>, r: Outcome, ghost call: Call)
      requires AllReady(jobs) && Queued(jobs) && owed <= jobs
      modifies jobs, store, channel, this`log
      ensures AllReady(jobs) && Queued(jobs) && StillConcluded(jobs)
      ensures log == old(log) + [call] && call.outcome == r && call.stopped == channel.stop
      ensures mustStop || old(channel.stop) ==> channel.stop
      ensures old(channel.stop) ==> call.queued == old(channel.queue)
      ensures old(NoneLost(owed)) ==> NoneLost(owed)
      ensures if call.queued == [] then job == None && r == Done && channel.stop && channel.queue == []
              else job == Some(call.queued[0]) && job.value in jobs && Handled(call) && TruthfulReason(r, job.value) &&
                   (channel.stop ==> channel.queue == call.queued[1..])
      ensures r == Threw(JobRequeued) ==> !channel.stop
    {
      Wait(jobs, mustStop);
      ghost var logged := log;
      ghost var fate;
      job, r, fate := RunOnce(jobs, owed);
      call := log[|logged|];
    }

    // The log since `first`: calls that found the channel live, then calls that found it stopped; these take the
    // jobs of one queue in order, and what is left of it is still queued.
    ghost predicate Books(first: seq<Call>, live: seq<Call>, drained: seq<Call>)
      reads this, channel
    {
      && log == first + live + drained && AllLive(live) && AllStopped(drained)
      && if channel.stop then Draining(drained, channel.queue) else drained == []
    }

    // The books at the end of a drain: the channel is stopped and empty, and from the stop on everything in the queue
    // was taken, in order, in one call each and one more.
    ghost predicate Emptied(first: seq<Call>, live: seq<Call>, drained: seq<Call>)
      reads this, channel
    {
      channel.stop && channel.queue == [] && TakeAll(drained) &&
      log == first + live + drained && AllLive(live) && AllStopped(drained)
    }

    // A turn; earlier calls stay handled, and its own is.
    method HandledTurn(jobs: set<Job>, mustStop: bool, ghost live: seq<Call>, ghost drained: seq<Call>,
                       ghost owed: set<Job>)
      returns (job: Option<Job>, r: Outcome, ghost call: Call)
      requires AllReady(jobs) && Queued(jobs) && AllHandled(live, jobs) && AllHandled(drained, jobs) && owed <= jobs
      modifies jobs, store, channel, this`log
      ensures AllReady(jobs) && Queued(jobs) && (old(NoneLost(owed)) ==> NoneLost(owed))
      ensures AllHandled(live, jobs) && AllHandled(drained, jobs)
      ensures AllHandled(live + [call], jobs) && AllHandled(drained + [call], jobs)
      ensures log == old(log) + [call] && call.outcome == r && call.stopped == channel.stop
      ensures mustStop || old(channel.stop) ==> channel.stop
      ensures old(channel.stop) ==> call.queued == old(channel.queue)
      ensures if call.queued == [] then job == None && r == Done && channel.stop && channel.queue == []
              else job != None && (channel.stop ==> channel.queue == call.queued[1..])
      ensures r == Threw(JobRequeued) || GaveUp(r, Full) ==> !channel.stop
      ensures GaveUp(r, Stopped) ==> channel.stop
    {
      job, r, call := Turn(jobs, mustStop, owed);
      assert AllHandled(live, jobs);
      assert AllHandled(drained, jobs);
    }

    // A turn, and what it adds to the books.
    method BookedTurn(jobs: set<Job>, mustStop: bool, ghost first: seq<Call>, ghost live0: seq<Call>,
                      ghost drained0: seq<Call>, ghost owed: set<Job>)
      returns (job: Option<Job>, r: Outcome, ghost live: seq<Call>, ghost drained: seq<Call>)
      requires AllReady(jobs) && Queued(jobs) && AllHandled(live0, jobs) && AllHandled(drained0, jobs) && owed <= jobs
      requires Books(first, live0, drained0)
      modifies jobs, store, channel, this`log
      ensures AllReady(jobs) && Queued(jobs) && AllHandled(live, jobs) && AllHandled(drained, jobs)
      ensures if job == None then r == Done && Emptied(first, live, drained) else Books(first, live, drained)
      ensures mustStop || old(channel.stop) ==> channel.stop
      ensures old(NoneLost(owed)) ==> NoneLost(owed)
      ensures old(channel.stop) ==>
                && live == live0 && FirstQueue(drained, channel.queue) == FirstQueue(drained0, old(channel.queue))
      ensures (channel.stop ==> live == live0) && (!channel.stop ==> drained == [])
      ensures NoneQuits(live0) ==>
                if r == Threw(JobRequeued) || GaveUp(r, Full) then QuitsLast(live, r) else NoneQuits(live)
      ensures NoneQuits(drained0) ==> NoneQuits(drained)
      ensures old(channel.stop) && job != None ==> |channel.queue| < |old(channel.queue)|
      ensures Verdict(drained) == if Verdict(drained0) == Done && channel.stop && GaveUp(r, Stopped) then r
                                  else Verdict(drained0)
      ensures r == Threw(JobRequeued) || GaveUp(r, Full) ==> !channel.stop
      ensures GaveUp(r, Stopped) ==> channel.stop
    {
      ghost var call;
      job, r, call := HandledTurn(jobs, mustStop, live0, drained0, owed);
      if channel.stop {
        OneMoreCall(drained0, call, channel.queue);
        StoppedCall(first, live0, drained0, call);
        live, drained := live0, drained0 + [call];
      } else {
        LiveCall(first, live0, call);
        if NoneQuits(live0) {
          OneQuits(live0, call);
        }
        live, drained := live0 + [call], [];
      }
    }

    // Consume until the channel is stopped and empty, or until a job had to be put back, or could not be because the
    // channel was full. Stop is requested after at most `patience` more receives on the live channel.
    // `live` are this loop's calls that found the channel live, `drained` those that found it stopped.
    method RunForever(jobs: set<Job>, patience: nat) returns (r: Outcome, ghost live: seq<Call>, ghost drained: seq<Call>)
      requires AllReady(jobs) && Queued(jobs)
      modifies jobs, store, channel, this`log
      // Every job that was taken is back on the channel, or it has ended or is left to whoever runs it.
      ensures AllReady(jobs) && AllHandled(live, jobs) && AllHandled(drained, jobs)
      // Either the channel was drained, no call put its job back or found the channel full, and the verdict on the calls
      // since the stop is what the loop reports; or the loop left early with the channel still live, on the first call
      // that did one of the two, with the error of that call.
      ensures if channel.stop then Emptied(old(log), live, drained) && r == Verdict(drained) &&
                                   NoneQuits(live) && NoneQuits(drained)
              else Books(old(log), live, drained) && drained == [] && QuitsLast(live, r)
      // No job that was queued as Scheduled is lost: it has ended, or is left to whoever runs it, or is still queued.
      ensures forall j :: j in old(channel.queue) && old(j.fsm) == Scheduled ==>
                            Concluded(j) || (j.fsm == Scheduled && j in channel.queue)
      // All of a queue that was already stopped is taken.
      ensures old(channel.stop) ==> channel.stop && live == [] && FirstQueue(drained, []) == old(channel.queue)
    {
      ghost var owed := set j | j in channel.queue && j.fsm == Scheduled;
      var remaining := patience;
      var stoppedRedelivery: Option<Outcome> := None;
      live, drained := [], [];
      while true
        invariant AllReady(jobs) && Queued(jobs) && AllHandled(live, jobs) && AllHandled(drained, jobs) && owed <= jobs
        invariant Books(old(log), live, drained) && NoneQuits(live) && NoneQuits(drained)
        invariant stoppedRedelivery == if Verdict(drained) == Done then None else Some(Verdict(drained))
        invariant NoneLost(owed)
        invariant old(channel.stop) ==>
                    channel.stop && live == [] && FirstQueue(drained, channel.queue) == old(channel.queue)
        decreases if channel.stop then 0 else remaining + 1, |channel.queue|
      {
        var job;
        job, r, live, drained := BookedTurn(jobs, remaining == 0, old(log), live, drained, owed);
        if !channel.stop {
          remaining := remaining - 1;
        }
        if job.None? {
          r := if stoppedRedelivery.Some? then stoppedRedelivery.value else Done;
          return;
        }
        if r == Threw(JobRequeued) || GaveUp(r, Full) {
          return;
        }
        if GaveUp(r, Stopped) && stoppedRedelivery.None? {
          stoppedRedelivery := Some(r);
        }
      }
    }
  }

  // What may be done with a job, by one thread.
  datatype Use = DispatchIt(runningLoop: bool) | ProcessIt | CancelIt | SaveIt

  // A new job that alone writes its row, whatever is done with it and in whatever order: its version is always that of
  // the row, and it is in step with the row exactly when the row is not Cancelled or the job is. So saving once more is
  // all it takes to store its state, unless an accepted cancel was stored and then overwritten.
  method UseAlone(worker: Worker, id: string, channelId: string, workflows: seq<P.Workflow>, uses: seq<Use>)
    returns (job: Job, saved: PutOutcome)
    requires !worker.store.shared && S.Keyed(worker.store.rows) && id !in worker.store.rows
    modifies worker.store, worker.channel
    ensures fresh(job) && job.id == id && worker.Ready(job) && job.Aligned(worker.store)
    ensures saved == Skipped ==> job.Holds(worker.store, Cancelled)
    ensures saved == Applied ==> job.Synced(worker.store) && (job.Stored(worker.store) || job.IsCancelled())
  {
    var now: string := *;
    job := new Job(id, None, channelId, workflows, now, now, FIRST_VERSION);
    for k := 0 to |uses|
      invariant fresh(job) && worker.Ready(job) && job.id == id && job.Aligned(worker.store)
    {
      UseOnce(worker, job, uses[k]);
    }
    saved := job.Save(worker.store, Owner);
  }

  // One use of a job that alone writes its row keeps it aligned with the row.
  method UseOnce(worker: Worker, job: Job, use: Use)
    requires !worker.store.shared && worker.Ready(job) && job.Aligned(worker.store)
    modifies job, worker.store, worker.channel
    ensures worker.Ready(job) && job.Aligned(worker.store)
  {
    match use {
      case DispatchIt(runningLoop) =>
        var r := Dispatch(job, worker.store, worker.channel, runningLoop);
      case ProcessIt =>
        var r := worker.Process(job);
      case CancelIt =>
        var accepted, r := job.Cancel(worker.store);
      case SaveIt =>
        var r := job.Save(worker.store, Owner);
    }
  }

  // A job is put back only after two puts that were not applied. A Scheduled job that nobody else cancels is claimed
  // and ends Completed or Failed, unless a put was not applied; one in another state is refused, unless a put was not.
  predicate Accounted(fate: Fate, r: Outcome) {
    && (r == Threw(JobRequeued) ==> fate.failed >= 2)
    && (fate.was == Scheduled && fate.cancels == 0 ==>
          if fate.claimed then fate.now in {Completed, Failed} else fate.failed > 0)
    && (fate.was !in {Scheduled, Cancelled} && fate.failed == 0 ==> r == Threw(InvalidEvent))
  }

  // None of these calls put its job back, and none found the channel full when it would have.
  ghost predicate NoneQuits(calls: seq<Call>) {
    forall k :: 0 <= k < |calls| ==> calls[k].outcome != Threw(JobRequeued) && !GaveUp(calls[k].outcome, Full)
  }

  // The last call did, with this error, and no call before it.
  ghost predicate QuitsLast(calls: seq<Call>, r: Outcome) {
    && calls != [] && calls[|calls| - 1].outcome == r && (r == Threw(JobRequeued) || GaveUp(r, Full))
    && NoneQuits(calls[..|calls| - 1])
  }

  lemma OneQuits(calls: seq<Call>, call: Call)
    requires NoneQuits(calls)
    ensures if call.outcome == Threw(JobRequeued) || GaveUp(call.outcome, Full)
            then QuitsLast(calls + [call], call.outcome) else NoneQuits(calls + [call])
  {
    assert (calls + [call])[..|calls|] == calls;
  }

  predicate AllLive(calls: seq<Call>) {
    forall k :: 0 <= k < |calls| ==> !calls[k].stopped
  }

  predicate AllStopped(calls: seq<Call>) {
    forall k :: 0 <= k < |calls| ==> calls[k].stopped
  }

  lemma StoppedCall(first: seq<Call>, live: seq<Call>, drained: seq<Call>, call: Call)
    requires AllStopped(drained) && call.stopped
    ensures first + live + drained + [call] == first + live + (drained + [call]) && AllStopped(drained + [call])
  {
  }

  lemma LiveCall(first: seq<Call>, live: seq<Call>, call: Call)
    requires AllLive(live) && !call.stopped
    ensures first + live + [] + [call] == first + (live + [call]) + [] && AllLive(live + [call])
  {
  }

  // The errors of a job whose run could not be recorded.
  predicate BeforeRun(r: Outcome) {
    r in {Threw(StoreFailure), Threw(PersistSkipped), Threw(JobRequeued)} || (r.Threw? && r.error.JobRedelivery?)
  }

  // A job could not be put back, for this reason.
  predicate GaveUp(r: Outcome, reason: Reason) {
    r.Threw? && r.error.JobRedelivery? && r.error.reason == reason
  }

  // Calls that take the jobs of one queue one by one, with `left` still to take.
  predicate Draining(calls: seq<Call>, left: seq<Job>) {
    calls != [] ==>
      var last := calls[|calls| - 1];
      last.queued != [] && left == last.queued[1..] && Draining(calls[..|calls| - 1], last.queued)
  }

  // Calls that take all the jobs of one queue one by one, and one more that finds nothing.
  predicate TakeAll(calls: seq<Call>) {
    calls != [] && calls[|calls| - 1].queued == [] && Draining(calls[..|calls| - 1], [])
  }

  // The queue that these calls started from.
  function FirstQueue(calls: seq<Call>, now: seq<Job>): seq<Job> {
    if calls == [] then now else calls[0].queued
  }

  lemma {:induction false} DrainingInOrder(calls: seq<Call>, left: seq<Job>)
    requires Draining(calls, left)
    ensures |FirstQueue(calls, left)| == |calls| + |left| && FirstQueue(calls, left)[|calls|..] == left
    ensures forall k :: 0 <= k < |calls| ==> calls[k].queued == calls[0].queued[k..]
  {
    if calls != [] {
      var n := |calls| - 1;
      DrainingInOrder(calls[..n], calls[n].queued);
      assert forall k :: 0 <= k < n ==> calls[..n][k] == calls[k];
      assert FirstQueue(calls[..n], calls[n].queued) == calls[0].queued;
    }
  }

  // A drain takes n queued jobs in n + 1 calls, in the order of the queue.
  lemma {:induction false} TakesAllInOrder(calls: seq<Call>)
    requires TakeAll(calls)
    ensures |calls| == |calls[0].queued| + 1
    ensures forall k :: 0 <= k < |calls| ==> calls[k].queued == calls[0].queued[k..]
  {
    var n := |calls| - 1;
    DrainingInOrder(calls[..n], []);
    assert forall k :: 0 <= k < n ==> calls[..n][k] == calls[k];
    assert calls[0].queued == FirstQueue(calls[..n], []);
  }

  lemma {:induction false} OneMoreCall(calls: seq<Call>, call: Call, left: seq<Job>)
    requires Draining(calls, call.queued) && left == if call.queued == [] then [] else call.queued[1..]
    ensures if call.queued == [] then TakeAll(calls + [call]) else Draining(calls + [call], left)
    ensures FirstQueue(calls + [call], left) == FirstQueue(calls, call.queued)
    ensures Verdict(calls + [call]) ==
            if Verdict(calls) == Done && GaveUp(call.outcome, Stopped) then call.outcome else Verdict(calls)
  {
    assert (calls + [call])[..|calls|] == calls;
  }

  // What a drained worker reports: the first job that could not be put back because the channel was stopped.
  function Verdict(calls: seq<Call>): (r: Outcome) {
    if calls == [] then Done
    else
      var n := |calls| - 1;
      var earlier := Verdict(calls[..n]);
      if earlier == Done && GaveUp(calls[n].outcome, Stopped) then calls[n].outcome else earlier
  }

  lemma {:induction false} VerdictIsTheFirst(calls: seq<Call>)
    ensures Verdict(calls) == Done <==> forall i :: 0 <= i < |calls| ==> !GaveUp(calls[i].outcome, Stopped)
    ensures Verdict(calls) != Done ==>
              exists k :: 0 <= k < |calls| && calls[k].outcome == Verdict(calls) && GaveUp(calls[k].outcome, Stopped) &&
                          forall i :: 0 <= i < k ==> !GaveUp(calls[i].outcome, Stopped)
  {
    if calls != [] {
      var n := |calls| - 1;
      VerdictIsTheFirst(calls[..n]);
      assert forall i :: 0 <= i < n ==> calls[..n][i] == calls[i];
      if Verdict(calls[..n]) != Done {
        var k :| 0 <= k < n && calls[..n][k].outcome == Verdict(calls[..n]) && GaveUp(calls[..n][k].outcome, Stopped) &&
                 forall i :: 0 <= i < k ==> !GaveUp(calls[..n][i].outcome, Stopped);
        assert calls[k].outcome == Verdict(calls);
        assert forall i :: 0 <= i < k ==> calls[..n][i] == calls[i];
      }
    }
  }
}
