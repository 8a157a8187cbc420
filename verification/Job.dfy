/** A job instance, the store it saves to, and its dispatch (`scheduler/job.py`). */
module Job {
  import opened Wrappers
  import opened Lifecycle
  import opened SchedulerEvents
  import opened Protocol
  import S = JobStore
  import C = Channel
  import P = Payload

  // Any IJobStore. Other clients may put between two calls when the store is shared; they never delete.
  // A put may raise, and then it has not written.
  class Store {
    var rows: S.Rows
    const shared: bool

    constructor (rows: S.Rows, shared: bool)
      ensures this.rows == rows && this.shared == shared
    {
      this.rows := rows;
      this.shared := shared;
    }

    method Interfere()
      requires S.Keyed(rows)
      modifies this
      ensures S.Keyed(rows) && S.Evolves(old(rows), rows)
      ensures !shared ==> rows == old(rows)
    {
      S.HistoryOnlyClimbs(rows, []);
      if shared {
        var others: S.Rows := *;
        if S.Keyed(others) && S.Evolves(rows, others) {
          rows := others;
        }
      }
    }

    // `at` is the table when the put takes effect.
    method Put(r: S.JobRecord) returns (outcome: PutOutcome, ghost at: S.Rows)
      requires S.Keyed(rows)
      modifies this
      ensures S.Keyed(rows) && S.Keyed(at) && S.Evolves(old(rows), at) && S.Evolves(old(rows), rows)
      ensures !shared ==> at == old(rows)
      ensures outcome == Raised ==> rows == at
      ensures outcome != Raised ==> (rows, outcome == Applied) == S.Put(at, r)
    {
      Interfere();
      at := rows;
      var raises: bool := *;
      if raises {
        return Raised, at;
      }
      var (after, applied) := S.Put(rows, r);
      S.OnePutClimbs(rows, r);
      S.EvolvesIsTransitive(old(rows), at, after);
      rows := after;
      return if applied then Applied else Skipped, at;
    }

    method Get(id: string) returns (r: Option<S.JobRecord>)
      requires S.Keyed(rows)
      modifies this
      ensures S.Keyed(rows) && S.Evolves(old(rows), rows) && (!shared ==> rows == old(rows))
      ensures r == if id in rows then Some(rows[id]) else None
    {
      Interfere();
      return if id in rows then Some(rows[id]) else None;
    }
  }

  datatype Reason = Full | Stopped

  datatype Error =
    | InvalidEvent
    | InvalidChannel
    | RunningLoop
    | ChannelFull
    | ChannelStopped
    | StoreFailure
    | PersistSkipped
    | AlreadyCancelled
    | WorkflowFailure
    | JobRequeued
    | JobRedelivery(reason: Reason, job: Job)

  datatype Outcome = Done | Threw(error: Error)

  // A put of a job, and what became of it.
  datatype Put = Put(status: Status, outcome: PutOutcome)

  // The row of a job in the protocol's terms.
  function RowIn(rows: S.Rows, id: string): Option<Row> {
    if id in rows then Some(Row(rows[id].status, rows[id].version)) else None
  }

  // The record is in its row, except that a row keeps its `created` and counts its rewrites; no other row is touched.
  ghost predicate Rewritten(before: S.Rows, record: S.JobRecord, after: S.Rows) {
    && record.id in after && after == before[record.id := after[record.id]]
    && (if record.id in before then
          after[record.id] == record.(created := before[record.id].created, version := before[record.id].version + 1)
        else after[record.id] == record)
  }

  // The atomic put is what the protocol's store does.
  lemma {:induction false} PutAgrees(at: S.Rows, record: S.JobRecord, actor: By, r: PutOutcome)
    requires r == Raised || (r == Applied <==> S.Put(at, record).1)
    ensures var e := Wrote(actor, record.status, record.version, r);
            var after := if r == Raised then at else S.Put(at, record).0;
            StoreAgrees(RowIn(at, record.id), e) && RowIn(after, record.id) == RowAfter(RowIn(at, record.id), e)
  {
  }

  class Job {
    const id: string
    const category: Option<string>
    const channelId: string
    const workflows: seq<P.Workflow>
    const created: string
    var fsm: Status
    var status: Status
    var updated: string
    var version: int
    var cancelEvent: bool

    // What this instance has done, in the terms of the protocol.
    ghost var run: Run
    ghost var local: Local
    ghost var puts: seq<Put>   // every put of this job
    ghost var outside: nat     // the cancels accepted at a `CancelPoint`: by somebody else, while the owner was at work

    ghost predicate Valid(store: Store)
      reads this, store
    {
      && status == fsm
      && S.Keyed(store.rows)
      && StateOf(run) == Some(local) && LocalInv(local)
      && local.fsm == fsm && local.version == version
      && (local.sawRow ==> id in store.rows)
      && (IsCancelled() ==> cancelEvent || local.tally.adopted > 0)
    }

    // No save and no workflow of this job is under way.
    ghost predicate Calm()
      reads this
    {
      Free(local) && local.theirs.Quiet?
    }

    // The row, if any, carries this instance's version and a status that its state may replace.
    ghost predicate Synced(store: Store)
      reads this, store
    {
      id in store.rows ==>
        store.rows[id].version == version && PutApplies(Some(store.rows[id].status), fsm)
    }

    // What is left of that when an accepted cancel was stored and then overwritten: the row is Cancelled, the version
    // still fits.
    ghost predicate Aligned(store: Store)
      reads this, store
    {
      Synced(store) || (Holds(store, Cancelled) && local.tally.lost)
    }

    // An aligned job always carries the version of its row, and it is in step with the row exactly when the row is not
    // Cancelled, or its own state is.
    lemma {:induction false} AlignedIsInStep(store: Store)
      requires Aligned(store) && id in store.rows
      ensures store.rows[id].version == version
      ensures Synced(store) <==> store.rows[id].status != Cancelled || IsCancelled()
    {
      FenceIsTheLifecycleOrder(store.rows[id].status, fsm);
    }

    // The state is as before, or somebody else's CANCEL was accepted meanwhile.
    twostate predicate OnlyCancelled()
      reads this
    {
      if outside == old(outside) then fsm == old(fsm)
      else outside > old(outside) && fsm == Cancelled && Next(old(fsm), CANCEL).Some?
    }

    // The job is not Cancelled unless it was, or somebody else has cancelled it meanwhile.
    twostate predicate CancelledByOthers()
      reads this
    {
      old(outside) <= outside && (IsCancelled() && outside == old(outside) ==> old(IsCancelled()))
    }

    // The same, or unless it has adopted a durable Cancelled.
    twostate predicate CancelsExplained()
      reads this
    {
      && old(outside) <= outside && old(local.tally.adopted) <= local.tally.adopted
      && (IsCancelled() && outside == old(outside) && local.tally.adopted == old(local.tally.adopted) ==>
            old(IsCancelled()))
    }

    // The rest of the local state is that of l; no row goes away, and what was known of the row is still known.
    twostate predicate Keeps(store: Store, l: Local)
      reads this, store
    {
      && local == Meanwhile(l, local)
      && (l.sawRow ==> local.sawRow)
      && old(store.rows).Keys <= store.rows.Keys
    }

    // The latest put was of this status.
    ghost predicate Tried(s: Status)
      reads this
    {
      puts != [] && puts[|puts| - 1].status == s
    }

    // And it was applied.
    ghost predicate Stores(s: Status)
      reads this
    {
      Tried(s) && puts[|puts| - 1].outcome == Applied
    }

    constructor (id: string, category: Option<string>, channelId: string, workflows: seq<P.Workflow>,
                 created: string, updated: string, version: int)
      ensures fsm == status == Unknown && this.version == version && this.updated == updated && !cancelEvent
      ensures this.id == id && this.category == category && this.channelId == channelId
      ensures this.workflows == workflows && this.created == created
      ensures run == Made(version) && local == Fresh(version)
    {
      this.id, this.category, this.channelId, this.workflows := id, category, channelId, workflows;
      this.created, this.updated, this.version := created, updated, version;
      fsm, status, cancelEvent := Unknown, Unknown, false;
      run, local := Made(version), Fresh(version);
      puts, outside := [], 0;
    }

    ghost method Log(e: Ev)
      requires StateOf(run) == Some(local) && LocalInv(local) && Allowed(local, e)
      modifies this`run, this`local
      ensures run == Then(old(run), e) && local == Advance(old(local), e)
      ensures StateOf(run) == Some(local) && LocalInv(local)
    {
      AdvanceKeepsLocalInv(local, e);
      run, local := Then(run, e), Advance(local, e);
    }

    // The history of a job is a path of the protocol automaton.
    lemma {:induction false} HistoryIsPath(store: Store)
      requires Valid(store)
      ensures var states, trace := StatesOf(run), TraceOf(run);
              Path(states, trace) && states[|trace|] == local && LocalInv(states[0]) &&
              states[0] == Fresh(states[0].version)
    {
      RunIsPath(run);
    }

    predicate IsCancelled()
      reads this`fsm
    {
      fsm == Cancelled
    }

    function ToRecord(updated: string): S.JobRecord
      reads this
    {
      S.JobRecord(id, category, channelId, fsm, created, updated, |workflows|, version, P.PayloadOf(workflows))
    }

    method ApplyEvent(event: Event, ghost store: Store) returns (accepted: bool)
      requires Valid(store)
      requires Next(fsm, event).Some? ==> Allowed(local, Fired(event)) && (event == CANCEL ==> cancelEvent)
      modifies this`fsm, this`status, this`run, this`local
      ensures Valid(store)
      ensures accepted <==> Next(old(fsm), event).Some?
      ensures accepted ==> fsm == Next(old(fsm), event).value && local == Advance(old(local), Fired(event)) &&
                           run == Then(old(run), Fired(event))
      ensures !accepted ==> fsm == old(fsm) && local == old(local) && run == old(run)
    {
      var next := Next(fsm, event);
      if next.None? {
        return false;
      }
      Log(Fired(event));
      fsm := next.value;
      status := fsm;
      return true;
    }

    method RestoreLifecycle(state: Status, status: Status, ghost store: Store)
      requires Valid(store) && status == state && Allowed(local, RolledBack(state))
      modifies this`fsm, this`status, this`run, this`local
      ensures Valid(store) && fsm == state && local == Advance(old(local), RolledBack(state))
      ensures run == Then(old(run), RolledBack(state))
    {
      Log(RolledBack(state));
      fsm := state;
      this.status := status;
    }

    // The row carries status s and this instance's version.
    ghost predicate Holds(store: Store, s: Status)
      reads this, store
    {
      id in store.rows && store.rows[id].status == s && store.rows[id].version == version
    }

    // The row is a snapshot of this state, of where the job belongs and of its workflows.
    ghost predicate Stored(store: Store)
      reads this, store
    {
      id in store.rows &&
      var row := store.rows[id];
      && row.id == id && row.category == category && row.channelId == channelId && row.status == fsm
      && row.workflowCount == |workflows| && row.payload == P.PayloadOf(workflows)
    }

    // This job's row was inserted or rewritten, dated `now`, and no other was touched. The row keeps the `created` that
    // it was inserted with, and counts the rewrites in its version.
    twostate predicate Recorded(store: Store, now: string)
      reads this, store
    {
      && Stored(store) && store.rows[id].updated == now && store.rows == old(store.rows)[id := store.rows[id]]
      && (if id in old(store.rows) then
            store.rows[id].created == old(store.rows[id].created) &&
            store.rows[id].version == old(store.rows[id].version) + 1
          else store.rows[id].created == created && store.rows[id].version == old(version))
    }

    // Nobody else writes: either nothing was written, or the row now holds Cancelled.
    twostate predicate CancelledOrSame(store: Store)
      reads this, store
    {
      || (store.rows == old(store.rows) && version == old(version))
      || (IsCancelled() && Holds(store, Cancelled))
    }

    twostate predicate Unmoved(store: Store)
      reads this, store
    {
      fsm == old(fsm) && version == old(version) && updated == old(updated) && local == old(local) &&
      run == old(run) && store.rows == old(store.rows) && puts == old(puts) && outside == old(outside)
    }

    // Cancel the job and persist Cancelled; a failed save leaves the state Cancelled.
    method Cancel(store: Store) returns (accepted: bool, saved: PutOutcome)
      requires Valid(store) && local.theirs.Quiet?
      modifies this, store
      ensures Valid(store) && Keeps(store, old(local)) && cancelEvent
      ensures accepted <==> Next(old(fsm), CANCEL).Some?
      ensures if accepted then IsCancelled() && puts == old(puts) + [Put(Cancelled, saved)] else Unmoved(store)
      ensures outside == old(outside)
      ensures !store.shared ==> CancelledOrSame(store)
      ensures !store.shared && accepted && old(Synced(store)) ==>
                saved != Skipped && (saved == Applied ==> Holds(store, Cancelled)) && Synced(store)
      decreases 1, 0
    {
      cancelEvent := true;
      accepted := ApplyEvent(CANCEL, store);
      if !accepted {
        return false, Skipped;
      }
      saved := SaveCancelled(store);
    }

    // The save of a canceller: it changes nothing that the owner decides on.
    method SaveCancelled(store: Store) returns (saved: PutOutcome)
      requires Valid(store) && local.theirs.Quiet? && IsCancelled()
      modifies this, store
      ensures Valid(store) && Keeps(store, old(local)) && IsCancelled()
      ensures cancelEvent == old(cancelEvent) && outside == old(outside) && puts == old(puts) + [Put(Cancelled, saved)]
      ensures !store.shared ==> CancelledOrSame(store)
      ensures !store.shared && old(Synced(store)) ==>
                saved != Skipped && (saved == Applied ==> Holds(store, Cancelled)) && Synced(store)
      decreases 0, 5
    {
      saved := Save(store, Canceller);
    }

    // A moment at which, if `open`, somebody else may cancel the job.
    method CancelPoint(store: Store, open: bool)
      requires Valid(store) && (open ==> local.theirs.Quiet?)
      modifies this, store
      ensures Valid(store) && Keeps(store, old(local))
      ensures (open && Next(old(fsm), CANCEL).Some? && IsCancelled() && outside == old(outside) + 1) || Unmoved(store)
      ensures !open ==> cancelEvent == old(cancelEvent)
      ensures !store.shared ==> CancelledOrSame(store)
      ensures !store.shared && old(Synced(store)) ==> Synced(store)
      decreases if open then 2 else 0, 0
    {
      var now: bool := *;
      if open && now {
        var accepted, saved := Cancel(store);
        outside := outside + if accepted then 1 else 0;
      }
    }

    // What a save needs: the owner is free to save, or a canceller has just cancelled the job.
    ghost predicate MaySave(actor: By)
      reads this
    {
      if actor == Owner then Calm() && local.window != Sending else local.theirs.Quiet? && IsCancelled()
    }

    // Put the current snapshot and, when it applied, adopt the durable version.
    // During a save of the owner a cancel may land around the put and the get.
    method Save(store: Store, actor: By) returns (r: PutOutcome)
      requires Valid(store) && MaySave(actor)
      modifies this, store
      ensures Valid(store) && OnlyCancelled() && Keeps(store, AfterSave(old(local), actor, r))
      ensures actor == Canceller ==> fsm == old(fsm) && cancelEvent == old(cancelEvent)
      ensures r == Applied ==> local.sawRow
      ensures fsm == old(fsm) ==> puts == old(puts) + [Put(fsm, r)]
      ensures r != Applied && fsm == old(fsm) ==> version == old(version) && updated == old(updated)
      // Nobody else writes and no cancel landed: the row holds the state, or nothing was written; and the put is
      // applied exactly when the instance was in step with the row, unless it raised.
      ensures !store.shared && fsm == old(fsm) ==>
                if r == Applied then Recorded(store, updated) && Holds(store, fsm)
                else store.rows == old(store.rows)
      ensures !store.shared && fsm == old(fsm) && r != Raised ==> (r == Applied <==> old(Synced(store)))
      ensures !store.shared && r == Applied ==> Synced(store)
      ensures !store.shared && r != Applied ==> CancelledOrSame(store)
      // In step with the row, a save is never skipped, unless a cancel was stored meanwhile.
      ensures !store.shared && old(Synced(store)) ==> Synced(store)
      ensures !store.shared && old(Synced(store)) && r == Skipped ==> IsCancelled() && Holds(store, Cancelled)
      decreases if actor == Owner then 3 else 0, 4
    {
      var now: string := *;
      ghost var before := local;
      r := Attempt(store, now, actor);
      if r == Applied {
        Adopt(store, now, actor, before);
      }
    }

    // The row, if any, is one that this snapshot may replace.
    ghost predicate Takes(store: Store, record: S.JobRecord)
      reads this, store
    {
      id in store.rows ==>
        store.rows[id].version == record.version && PutApplies(Some(store.rows[id].status), record.status)
    }

    // The put of a save, with the cancels that may land around it.
    method Attempt(store: Store, now: string, actor: By) returns (r: PutOutcome)
      requires Valid(store) && MaySave(actor)
      modifies this, store
      ensures Valid(store) && OnlyCancelled() && Keeps(store, AfterPutBy(old(local), actor, r))
      ensures actor == Canceller ==> fsm == old(fsm) && cancelEvent == old(cancelEvent)
      ensures r == Applied ==> id in store.rows
      ensures fsm == old(fsm) ==>
                version == old(version) && updated == old(updated) && puts == old(puts) + [Put(fsm, r)]
      ensures !store.shared && fsm == old(fsm) ==>
                if r == Applied then Recorded(store, now) else store.rows == old(store.rows)
      ensures !store.shared && fsm == old(fsm) && r != Raised ==> (r == Applied <==> old(Synced(store)))
      ensures !store.shared && r != Applied ==> CancelledOrSame(store)
      ensures !store.shared && r == Applied ==> PutApplies(Some(store.rows[id].status), fsm)
      ensures !store.shared && r != Applied && old(Synced(store)) ==> Synced(store)
      ensures !store.shared && r == Skipped && old(Synced(store)) ==> IsCancelled() && Holds(store, Cancelled)
      decreases if actor == Owner then 3 else 0, 3
    {
      ghost var before := local;
      var record := Snapshot(store, now, actor);
      ghost var mid := local;
      r := WriteThenPoint(store, record, actor);
      SaveInTwoSteps(before, mid, local, actor, r);
    }

    // The snapshot that a save is going to put; a cancel may land once it is taken.
    method Snapshot(store: Store, now: string, actor: By) returns (record: S.JobRecord)
      requires Valid(store) && MaySave(actor)
      modifies this, store
      ensures Valid(store) && OnlyCancelled() && Keeps(store, Advance(old(local), Took(actor)))
      ensures record.id == id && record.category == category && record.channelId == channelId
      ensures record.status == old(fsm) && record.created == created && record.updated == now
      ensures record.workflowCount == |workflows| && record.payload == P.PayloadOf(workflows)
      ensures record.version == old(version)
      ensures actor == Canceller ==> fsm == old(fsm) && cancelEvent == old(cancelEvent)
      ensures fsm == old(fsm) ==>
                version == old(version) && updated == old(updated) && puts == old(puts) && store.rows == old(store.rows)
      ensures !store.shared ==> CancelledOrSame(store)
      ensures !store.shared && old(Synced(store)) ==> Synced(store)
      decreases if actor == Owner then 3 else 0, 1
    {
      record := ToRecord(now);
      Log(Took(actor));
      CancelPoint(store, actor == Owner);
    }

    // The second half of Attempt: the snapshot is taken, a cancel may have landed since.
    method WriteThenPoint(store: Store, record: S.JobRecord, actor: By) returns (r: PutOutcome)
      requires Valid(store) && record.id == id && SaveOf(local, actor) == Taken(record.status, record.version)
      requires (actor == Owner ==> local.theirs.Quiet?) && MayFindCancelled(record.status, fsm)
      modifies this, store
      ensures Valid(store) && OnlyCancelled()
      ensures Keeps(store, Advance(old(local), Wrote(actor, record.status, record.version, r)))
      ensures actor == Canceller ==> fsm == old(fsm) && cancelEvent == old(cancelEvent)
      ensures r == Applied ==> id in store.rows
      ensures fsm == old(fsm) ==>
                version == old(version) && updated == old(updated) && puts == old(puts) + [Put(record.status, r)]
      ensures !store.shared && r != Raised ==> (r == Applied <==> old(Takes(store, record)))
      ensures !store.shared && r == Applied ==>
                PutApplies(Some(store.rows[id].status), fsm) &&
                (fsm == old(fsm) ==> Rewritten(old(store.rows), record, store.rows))
      ensures !store.shared && r != Applied ==>
                CancelledOrSame(store) && (fsm == old(fsm) ==> store.rows == old(store.rows))
      ensures !store.shared && r != Applied && old(Synced(store)) ==> Synced(store)
      decreases if actor == Owner then 3 else 0, 2
    {
      FenceIsTheLifecycleOrder(record.status, record.status);
      FenceIsTheLifecycleOrder(record.status, Cancelled);
      ghost var at;
      r, at := Write(store, record, actor);
      CancelPoint(store, actor == Owner);
    }

    // The put of a snapshot taken earlier. `at` is the table that it met: towards that table, and whoever else writes,
    // the logged event is one that the protocol's store agrees with, and it has the effect that the protocol gives it.
    method Write(store: Store, record: S.JobRecord, actor: By) returns (r: PutOutcome, ghost at: S.Rows)
      requires Valid(store) && record.id == id && SaveOf(local, actor) == Taken(record.status, record.version)
      modifies this`run, this`local, this`puts, store
      ensures Valid(store) && old(store.rows).Keys <= store.rows.Keys
      ensures puts == old(puts) + [Put(record.status, r)]
      ensures local == Advance(old(local), Wrote(actor, record.status, record.version, r))
      ensures run == Then(old(run), Wrote(actor, record.status, record.version, r))
      ensures S.Evolves(old(store.rows), at) && StoreAgrees(RowIn(at, id), run.ev)
      ensures RowIn(store.rows, id) == RowAfter(RowIn(at, id), run.ev)
      ensures r == Applied ==> id in store.rows
      ensures !store.shared && r != Raised ==> (r == Applied <==> old(Takes(store, record)))
      ensures (r == Applied ==> Rewritten(at, record, store.rows)) && (!store.shared ==> at == old(store.rows))
      ensures !store.shared && r != Applied ==> store.rows == old(store.rows)
    {
      r, at := store.Put(record);
      PutAgrees(at, record, actor, r);
      Log(Wrote(actor, record.status, record.version, r));
      puts := puts + [Put(record.status, r)];
    }

    // Read the durable record of this job; a cancel may land on either side of the read.
    method GetSaved(store: Store) returns (durable: Option<S.JobRecord>)
      requires Valid(store) && Calm()
      modifies this, store
      ensures Valid(store) && OnlyCancelled()
      ensures Keeps(store, old(local).(lastSeen := if durable.Some? then Some(durable.value.status) else None))
      ensures durable.Some? ==> local.sawRow
      ensures durable.None? ==> !old(local.sawRow)
      ensures fsm == old(fsm) ==> version == old(version)
      ensures !store.shared ==> CancelledOrSame(store)
      ensures !store.shared && old(Holds(store, Cancelled)) ==> durable.Some? && durable.value.status == Cancelled
      ensures !store.shared && old(Synced(store)) ==> Synced(store)
      ensures !store.shared && fsm == old(fsm) ==>
                store.rows == old(store.rows) && S.RowStatus(store.rows, id) == local.lastSeen
    {
      CancelPoint(store, true);
      durable := store.Get(id);
      Log(Saw(if durable.Some? then Some(durable.value.status) else None));
      CancelPoint(store, true);
    }

    // After an applied put of a save that began in the state `before`: take over the version that is now durable.
    method Adopt(store: Store, now: string, actor: By, ghost before: Local)
      requires Valid(store) && id in store.rows && SaveOf(local, actor).Unrefreshed?
      requires local == Meanwhile(AfterPutBy(before, actor, Applied), local)
      modifies this`run, this`local, this`version, this`updated, store
      ensures (actor == Owner ==> local.tally.stored == before.tally.stored + 1) && local.sawRow
      ensures Valid(store) && old(store.rows).Keys <= store.rows.Keys
      ensures version == store.rows[id].version && updated == now
      ensures local == Meanwhile(AfterSave(before, actor, Applied), local)
      ensures local.fsm == old(local.fsm) && run == Then(old(run), Refreshed(actor, version))
      ensures !store.shared ==> store.rows == old(store.rows)
    {
      var durable := store.Get(id);
      if durable.Some? {
        version := durable.value.version;
        RefreshEndsSave(before, local, actor, version);
        Log(Refreshed(actor, version));
      }
      updated := now;
    }
  }

  // A job whose CANCEL was accepted while no decision was outstanding is Cancelled, unless it has since followed a
  // durable row that had moved on.
  lemma {:induction false} AcceptedCancelShows(job: Job, store: Store, i: nat)
    requires job.Valid(store) && i < |TraceOf(job.run)| && TraceOf(job.run)[i] == Fired(CANCEL)
    requires StatesOf(job.run)[i].window == Closed
    ensures job.IsCancelled() || exists k :: i < k < |TraceOf(job.run)| && TraceOf(job.run)[k].Followed?
  {
    var states, trace := StatesOf(job.run), TraceOf(job.run);
    job.HistoryIsPath(store);
    if forall k :: i < k < |trace| ==> !trace[k].Followed? {
      CancelIsKept(states, trace, i, |trace|);
    }
  }

  // A job has lost an accepted CANCEL only if a decision was outstanding when that was accepted.
  lemma {:induction false} LostCancelShows(job: Job, store: Store)
    requires job.Valid(store) && job.local.tally.lost
    ensures var states, trace := StatesOf(job.run), TraceOf(job.run);
            exists i :: 0 <= i < |trace| && trace[i] == Fired(CANCEL) && states[i].window != Closed
  {
    job.HistoryIsPath(store);
    LossNeedsAWindow(StatesOf(job.run), TraceOf(job.run), |TraceOf(job.run)|);
  }

  // Rebuild a job from a stored record: same identity, `created` and version, state Unknown whatever the
  // recorded status was.
  method FromRecord(record: S.JobRecord, registry: map<string, nat>, newIds: (nat, nat) -> P.Uuid)
    returns (r: P.Loaded<Job>)
    ensures r.Ok? ==>
              && fresh(r.value) && r.value.id == record.id && r.value.category == record.category
              && r.value.channelId == record.channelId && r.value.created == record.created
              && r.value.updated == record.updated && r.value.version == record.version
              && r.value.fsm == r.value.status == Unknown && r.value.local == Fresh(record.version)
              && P.Rebuilt(record.payload, registry, newIds, P.Ok(r.value.workflows))
    ensures r.Err? ==> P.Rebuilt(record.payload, registry, newIds, P.Err(r.error))
  {
    var workflows: P.Loaded<seq<P.Workflow>> := P.Ok([]);
    if record.payload.Some? {
      workflows := P.WorkflowsFromPayload(record.payload.value, registry, newIds);
    }
    if workflows.Err? {
      return P.Err(workflows.error);
    }
    var job := new Job(record.id, record.category, record.channelId, workflows.value, record.created, record.updated,
                       record.version);
    return P.Ok(job);
  }

  // Record a job and rebuild it: everything but the state survives exactly when every task can be restored.
  method RecordAndRebuild(job: Job, updated: string, registry: map<string, nat>, newIds: (nat, nat) -> P.Uuid)
    returns (r: P.Loaded<Job>)
    ensures r.Ok? && r.value.workflows == P.ResolvedAll(job.workflows, registry) <==>
            P.AllRestorable(job.workflows, registry)
    ensures r.Ok? ==>
              && r.value.id == job.id && r.value.category == job.category && r.value.channelId == job.channelId
              && r.value.created == job.created && r.value.updated == updated && r.value.version == job.version
              && r.value.fsm == r.value.status == Unknown && r.value.local == Fresh(job.version)
  {
    var record := job.ToRecord(updated);
    r := FromRecord(record, registry, newIds);
    ghost var ws := if r.Ok? then P.Ok(r.value.workflows) else P.Err(r.error);
    P.PayloadRoundTrip(job.workflows, registry, newIds, ws);
  }

  const DISPATCH_SAVE_ATTEMPTS := 3

  // Would the channel take a job now, and may this caller dispatch at all?
  ghost predicate Accepts(chan: C.Chan<Job>, job: Job, runningLoop: bool)
    reads chan
  {
    job.channelId != "" && !runningLoop && !chan.stop && (chan.maxsize <= 0 || |chan.queue| < chan.maxsize)
  }

  // Schedule a job, put it on the channel, then persist Scheduled.
  // `runningLoop`: the caller is inside a running event loop, which the processor refuses.
  method Dispatch(job: Job, store: Store, chan: C.Chan<Job>, runningLoop: bool) returns (r: Outcome)
    requires job.Valid(store) && job.Calm()
    modifies job, store, chan
    ensures job.Valid(store) && job.Calm() && chan.stop == old(chan.stop) && old(store.rows).Keys <= store.rows.Keys
    // Either the job is on the channel, once, and is never rolled back whatever the saves did ...
    ensures old(job.fsm) == Unknown && old(Accepts(chan, job, runningLoop)) ==>
              && chan.queue == old(chan.queue) + [job]
              && job.fsm in {Scheduled, Cancelled} && job.local.tally.lost == old(job.local.tally.lost)
              && r in {Done, Threw(StoreFailure), Threw(PersistSkipped)}
              && (r == Done ==> job.id in store.rows)
              && (r != Done && job.fsm == Scheduled ==> SavedInVain(old(job.puts), job.puts, r))
    // ... or the job and the channel are as before, and the caller is told why; the store is as before as well,
    // unless a cancel landed before the send and was rolled back.
    ensures !(old(job.fsm) == Unknown && old(Accepts(chan, job, runningLoop))) ==>
              && chan.queue == old(chan.queue) && job.fsm == old(job.fsm) && job.status == old(job.status)
              && (job.local.tally.lost || (store.rows == old(store.rows) && job.version == old(job.version) &&
                                     job.updated == old(job.updated)))
              && r == Threw(if old(job.fsm) != Unknown then InvalidEvent
                            else if job.channelId == "" then InvalidChannel
                            else if runningLoop then RunningLoop
                            else if old(chan.stop) then ChannelStopped else ChannelFull)
    // It returns normally exactly when one of its saves was applied, and then makes no further one.
    ensures job.local.tally.stored == old(job.local.tally.stored) + if r == Done then 1 else 0
    ensures SameWork(job) && job.CancelledByOthers() && job.local.window != Sending
    ensures !store.shared && old(job.Aligned(store)) ==> job.Aligned(store)
    // A sole writer that returns normally has stored the state it is in, unless a cancel has landed since.
    ensures !store.shared && old(job.Synced(store)) && r == Done && job.fsm == Scheduled ==> job.Holds(store, Scheduled)
    ensures !store.shared && old(job.Synced(store)) && r == Threw(PersistSkipped) ==> job.IsCancelled()
  {
    var prevState, prevStatus := job.fsm, job.status;
    var accepted := ScheduleEvents(job, store);
    if !accepted {
      return Threw(InvalidEvent);
    }
    r := SendOrRollBack(job, store, chan, runningLoop, prevState, prevStatus);
  }

  // A job that is scheduled but not sent: send it and persist that, or roll it back, whatever it is by now.
  method SendOrRollBack(job: Job, store: Store, chan: C.Chan<Job>, runningLoop: bool, prevState: Status,
                        prevStatus: Status) returns (r: Outcome)
    requires job.Valid(store) && job.Calm() && job.fsm in {Scheduled, Cancelled} && job.local.window == Sending
    requires prevState == prevStatus == Unknown && job.local.target == Some(Unknown)
    modifies job, store, chan
    ensures job.Valid(store) && job.Calm() && chan.stop == old(chan.stop) && old(store.rows).Keys <= store.rows.Keys
    ensures old(Accepts(chan, job, runningLoop)) ==>
              && chan.queue == old(chan.queue) + [job]
              && job.fsm in {Scheduled, Cancelled} && job.local.tally.lost == old(job.local.tally.lost)
              && r in {Done, Threw(StoreFailure), Threw(PersistSkipped)} && (r == Done ==> job.id in store.rows)
              && (job.fsm == Scheduled ==> old(job.fsm) == Scheduled)
              && (r != Done && job.fsm == Scheduled ==> SavedInVain(old(job.puts), job.puts, r))
    ensures !old(Accepts(chan, job, runningLoop)) ==>
              && chan.queue == old(chan.queue) && job.fsm == prevState && job.status == prevStatus
              && (job.local.tally.lost || old(job.fsm) == Scheduled)
              && store.rows == old(store.rows) && job.version == old(job.version) && job.updated == old(job.updated)
              && r == Threw(if job.channelId == "" then InvalidChannel
                            else if runningLoop then RunningLoop
                            else if old(chan.stop) then ChannelStopped else ChannelFull)
    ensures job.local.tally.stored == old(job.local.tally.stored) + if r == Done then 1 else 0
    ensures SameWork(job) && job.CancelledByOthers() && job.local.window != Sending
    ensures !store.shared && old(Accepts(chan, job, runningLoop)) && old(job.Aligned(store)) ==> job.Aligned(store)
    ensures !store.shared && old(job.Synced(store)) && r == Done && job.fsm == Scheduled ==> job.Holds(store, Scheduled)
    ensures !store.shared && old(job.Synced(store)) && r == Threw(PersistSkipped) ==> job.IsCancelled()
  {
    var rejection := Enqueue(job, chan, runningLoop);
    if rejection.Some? {
      job.RestoreLifecycle(prevState, prevStatus, store);
      return Threw(rejection.value);
    }
    job.Log(Sent);
    r := PersistScheduled(job, store);
  }

  // Apply INIT and SCHEDULE, or roll back; then, before the job is sent, a cancel may land.
  method ScheduleEvents(job: Job, store: Store) returns (accepted: bool)
    requires job.Valid(store) && job.Calm()
    modifies job, store
    ensures job.Valid(store) && job.Calm() && accepted == (old(job.fsm) == Unknown)
    ensures job.CancelsExplained() && job.CancelledByOthers()
    ensures job.Keeps(store, if accepted then old(job.local).(target := Some(Unknown), window := Sending, asking := Unasked)
                             else old(job.local).(target := None, window := Closed, asking := Unasked))
    ensures if accepted then job.fsm in {Scheduled, Cancelled} else job.fsm == old(job.fsm)
    ensures job.fsm in {Scheduled, old(job.fsm)} ==>
              store.rows == old(store.rows) && job.version == old(job.version) && job.updated == old(job.updated) &&
              job.puts == old(job.puts)
    ensures !store.shared ==> job.CancelledOrSame(store)
    ensures !store.shared && old(job.Synced(store)) ==> job.Synced(store)
  {
    var prevState, prevStatus := job.fsm, job.status;
    job.Log(Began(true));
    accepted := job.ApplyEvent(INIT, store);
    if accepted {
      accepted := job.ApplyEvent(SCHEDULE, store);
    }
    if !accepted {
      job.RestoreLifecycle(prevState, prevStatus, store);
      return;
    }
    SchedulingKeepsSync(job, store);
    job.CancelPoint(store, true);
  }

  // A row that Unknown may replace, Scheduled may replace as well.
  lemma SchedulingKeepsSync(job: Job, store: Store)
    ensures forall s :: PutApplies(Some(s), Unknown) ==> PutApplies(Some(s), Scheduled)
  {
  }

  // What is on record stays there.
  predicate Mounts(before: Tally, after: Tally) {
    before.stored <= after.stored && before.failed <= after.failed && (before.lost ==> after.lost)
  }

  // No work was started or finished, no claim made; a cancel is somebody else's, or the row's.
  twostate predicate SameWork(job: Job)
    reads job
  {
    job.local.work == old(job.local.work) && job.local.claimed == old(job.local.claimed) &&
    job.local.tally.followed == old(job.local.tally.followed) && Mounts(old(job.local.tally), job.local.tally) &&
    job.CancelsExplained()
  }

  // The part of dispatch that can still be rolled back: find the channel, send.
  method Enqueue(job: Job, chan: C.Chan<Job>, runningLoop: bool) returns (rejection: Option<Error>)
    modifies chan
    ensures chan.stop == old(chan.stop)
    ensures rejection.None? <==> old(Accepts(chan, job, runningLoop))
    ensures chan.queue == if rejection.None? then old(chan.queue) + [job] else old(chan.queue)
    ensures rejection.Some? ==>
              rejection.value == if job.channelId == "" then InvalidChannel else if runningLoop then RunningLoop
                                 else if old(chan.stop) then ChannelStopped else ChannelFull
  {
    if job.channelId == "" {
      return Some(InvalidChannel);
    }
    if runningLoop {
      return Some(RunningLoop);
    }
    var result := chan.TrySend(job);
    if result == C.SendStopped {
      return Some(ChannelStopped);
    }
    if result != C.SendOk {
      return Some(ChannelFull);
    }
    return None;
  }

  // n more puts, all of Scheduled, and none of them applied.
  ghost predicate AllInVain(before: seq<Put>, after: seq<Put>, n: nat) {
    && |after| == |before| + n && before <= after
    && forall k :: |before| <= k < |after| ==> after[k].status == Scheduled && after[k].outcome != Applied
  }

  ghost predicate NoneRaised(before: seq<Put>, after: seq<Put>) {
    forall k :: |before| <= k < |after| ==> after[k].outcome != Raised
  }

  // Three such puts. The error is that of the store when one of them raised; otherwise all were skipped.
  ghost predicate SavedInVain(before: seq<Put>, after: seq<Put>, r: Outcome) {
    AllInVain(before, after, 3) && r == Threw(if NoneRaised(before, after) then PersistSkipped else StoreFailure)
  }

  lemma OneMoreInVain(before: seq<Put>, mid: seq<Put>, outcome: PutOutcome, n: nat)
    requires AllInVain(before, mid, n) && outcome != Applied
    ensures AllInVain(before, mid + [Put(Scheduled, outcome)], n + 1)
    ensures NoneRaised(before, mid + [Put(Scheduled, outcome)]) <==> NoneRaised(before, mid) && outcome != Raised
  {
    var after := mid + [Put(Scheduled, outcome)];
    assert after[|mid|].outcome == outcome;
    assert forall k :: 0 <= k < |mid| ==> after[k] == mid[k];
  }

  // The bounded loop of saves after a successful send.
  method PersistScheduled(job: Job, store: Store) returns (r: Outcome)
    requires job.Valid(store) && job.Calm() && job.fsm in {Scheduled, Cancelled} && job.local.window == Closed
    modifies job, store
    ensures job.Valid(store) && job.Calm() && job.fsm in {Scheduled, Cancelled}
    ensures SameWork(job) && job.CancelledByOthers() && job.local.window != Sending
    ensures job.local.tally.lost == old(job.local.tally.lost) && old(store.rows).Keys <= store.rows.Keys
    ensures r in {Done, Threw(StoreFailure), Threw(PersistSkipped)}
    ensures r == Done ==> job.id in store.rows
    ensures job.local.tally.stored == old(job.local.tally.stored) + if r == Done then 1 else 0
    ensures job.fsm == Scheduled ==> old(job.fsm) == Scheduled
    ensures r != Done && job.fsm == Scheduled ==> SavedInVain(old(job.puts), job.puts, r)
    ensures !store.shared && old(job.Aligned(store)) ==> job.Aligned(store)
    ensures !store.shared && old(job.Synced(store)) && r == Done && job.fsm == Scheduled ==> job.Holds(store, Scheduled)
    ensures !store.shared && old(job.Synced(store)) && r == Threw(PersistSkipped) ==> job.IsCancelled()
  {
    var lastSaveError: Option<Error> := None;
    for attempt := 0 to DISPATCH_SAVE_ATTEMPTS
      invariant job.Valid(store) && job.Calm() && job.fsm in {Scheduled, Cancelled} && job.local.window == Closed
      invariant SameWork(job) && job.CancelledByOthers() && job.local.tally.lost == old(job.local.tally.lost)
      invariant old(store.rows).Keys <= store.rows.Keys
      invariant old(job.local.tally.stored) == job.local.tally.stored
      invariant job.fsm == Scheduled ==> old(job.fsm) == Scheduled && AllInVain(old(job.puts), job.puts, attempt)
      invariant job.fsm == Scheduled ==> (lastSaveError == None <==> NoneRaised(old(job.puts), job.puts))
      invariant lastSaveError in {None, Some(StoreFailure)}
      invariant !store.shared && old(job.Aligned(store)) ==> job.Aligned(store)
      invariant !store.shared && old(job.Synced(store)) ==> job.Synced(store)
      invariant !store.shared && old(job.Synced(store)) && lastSaveError == None && attempt > 0 ==> job.IsCancelled()
    {
      ghost var earlier := job.puts;
      var saved := job.Save(store, Owner);
      if saved == Applied {
        return Done;
      }
      if job.fsm == Scheduled {
        OneMoreInVain(old(job.puts), earlier, saved, attempt);
      }
      if saved == Raised {
        lastSaveError := Some(StoreFailure);
      }
    }
    if lastSaveError.Some? {
      return Threw(lastSaveError.value);
    }
    return Threw(PersistSkipped);
  }
}
