/**
 The protocol one job instance follows towards the shared store, as an automaton over the events it produces.
 `Job` and `Worker` are proved to produce only legal traces; the theorems here are about all legal traces,
 of one instance and of many instances that share a row.
 */
module Protocol {
  import opened Wrappers
  import opened Lifecycle
  import opened SchedulerEvents

  datatype PutOutcome = Applied | Skipped | Raised

  // Who acts on the instance: the one thread that dispatches or processes it, or a caller of `cancel`.
  datatype By = Owner | Canceller

  // A decision the owner has taken and not yet carried out. It is carried out whatever the state has become.
  datatype Window =
    | Closed
    | Sending      // dispatch: send the job, or else roll it back
    | Forcing      // not cancelled when last looked at: move to Failed
    | Restoring    // Failed could not be stored: roll back
    | Resending    // rolled back: send the job again, or else move to Failed
    | Starting     // not cancelled when last looked at: start a workflow

  // A save under way: a snapshot is taken, or it has been put and the version is still to be refreshed.
  datatype Save = Quiet | Taken(status: Status, version: int) | Unrefreshed(status: Status)

  datatype Ev =
    | Began(dispatch: bool)                      // dispatch or processing notes the state it may go back to
    | Fired(event: Event)                        // an accepted machine event
    | Sent                                       // the job is on the channel
    | RolledBack(to: Status)                     // restore_lifecycle
    | Checked(window: Window)                    // not cancelled; the owner is about to act on that
    | ForcedFailed                               // restore to Failed when FAIL is rejected
    | Followed(to: Status)                       // adopt the durable status
    | Adopted                                    // CANCEL, because the durable status is Cancelled
    | Took(actor: By)                            // the snapshot of a save
    | Wrote(actor: By, status: Status, version: int, outcome: PutOutcome)
    | Saw(durable: Option<Status>)               // one get of the durable status
    | Refreshed(actor: By, version: int)         // adopt the durable version after an applied put
    | Started(workflow: nat)
    | Finished(ok: bool)

  // Its workflows: how many were started, whether one is running, whether one raised.
  datatype Work = Work(started: nat, busy: bool, broken: bool)

  // For the record: the owner's puts, applied and not; how often it adopted a durable Cancelled; whether it adopted
  // another durable status; and whether an accepted CANCEL was overwritten.
  datatype Tally = Tally(stored: nat, failed: nat, adopted: nat, followed: bool, lost: bool)

  const NO_TALLY: Tally := Tally(0, 0, 0, false, false)

  // The latest attempt to claim the job: RUN was accepted and the save that follows it is not put yet, or that put was
  // skipped.
  datatype Asking = Unasked | Asked | Refused

  // What an instance has done so far, as far as it matters for what it may do next.
  datatype Local = Local(
    fsm: Status,
    version: int,
    own: Save,                  // the owner's save
    theirs: Save,               // a canceller's save
    target: Option<Status>,     // where a roll-back would go
    window: Window,
    sawRow: bool,               // it knows that the row exists
    claimed: bool,              // an InProgress write of its own was applied
    asking: Asking,
    lastSeen: Option<Status>,   // the latest durable status seen since the latest refusal
    work: Work,
    tally: Tally)

  function Fresh(version: int): Local {
    Local(Unknown, version, Quiet, Quiet, None, Closed, false, false, Unasked, None,
          Work(0, false, false), NO_TALLY)
  }

  const FOLLOW_WITHOUT_RUN: set<Status> := {InProgress, Failed, Completed, Cancelled}

  function SaveOf(l: Local, actor: By): Save {
    if actor == Owner then l.own else l.theirs
  }

  // The owner is between two steps: no save and no workflow of its own is under way.
  predicate Free(l: Local) {
    l.own.Quiet? && !l.work.busy
  }

  predicate MayFire(l: Local, event: Event) {
    match event
    case CANCEL => true
    case RUN => Free(l) && l.sawRow && l.target == Some(Scheduled) && l.window == Closed
    case COMPLETE => Free(l) && l.claimed && !l.work.broken && l.window == Closed
    case FAIL => Free(l) && if l.claimed then l.work.broken && l.window == Closed else l.window in {Forcing, Resending}
    case _ => Free(l)
  }

  predicate Allowed(l: Local, e: Ev) {
    match e
    case Began(_) => Free(l)
    case Fired(event) => Next(l.fsm, event).Some? && MayFire(l, event)
    case Sent => l.window in {Sending, Resending}
    case RolledBack(to) => Free(l) && l.target == Some(to) && l.window in {Sending, Restoring}
    case Checked(w) =>
      && Free(l) && l.fsm != Cancelled && l.asking != Asked
      && ((w == Forcing && l.window in {Closed, Restoring} && !l.claimed && l.target.Some?) ||
          (w == Starting && l.window == Closed && l.claimed && !l.work.broken && l.fsm == InProgress))
    case ForcedFailed => Free(l) && !l.claimed && l.window in {Forcing, Resending} && l.fsm !in {InProgress, Failed}
    case Followed(to) =>
      && Free(l) && l.window == Closed && !l.claimed && l.asking == Refused
      && l.lastSeen == Some(to) && to in FOLLOW_WITHOUT_RUN - {Cancelled}
    case Adopted =>
      Free(l) && l.window == Closed && l.asking == Refused && l.lastSeen == Some(Cancelled) && l.fsm == InProgress
    case Took(actor) => if actor == Owner then Free(l) && l.window != Sending else l.theirs.Quiet? && l.fsm == Cancelled
    case Wrote(actor, s, v, _) => SaveOf(l, actor) == Taken(s, v)
    case Saw(_) => Free(l)
    case Refreshed(actor, _) => SaveOf(l, actor).Unrefreshed?
    case Started(k) => Free(l) && l.window == Starting && k == l.work.started
    case Finished(_) => l.work.busy
  }

  // A put by the owner: the refusal of a claim is remembered, and a Failed snapshot that is not stored opens the way back.
  function AfterPut(l: Local, s: Status, outcome: PutOutcome): Local {
    var refused := l.asking == Asked && outcome == Skipped;
    l.(own := if outcome == Applied then Unrefreshed(s) else Quiet,
       sawRow := l.sawRow || outcome == Applied,
       tally := if outcome == Applied then l.tally.(stored := l.tally.stored + 1)
                else l.tally.(failed := l.tally.failed + 1),
       claimed := l.claimed || (s == InProgress && outcome == Applied),
       asking := if refused then Refused else Unasked,
       lastSeen := if refused then None else l.lastSeen,
       target := if s == Failed && outcome == Applied then None else l.target,
       window := if s == Failed == l.fsm && outcome != Applied && l.target.Some? && !l.claimed then Restoring
                 else l.window)
  }

  // A save closes every decision, and any refusal is over.
  function Saving(l: Local): Local {
    l.(window := Closed, asking := if l.asking == Asked then Asked else Unasked)
  }

  function AfterTheirPut(l: Local, s: Status, outcome: PutOutcome): Local {
    if outcome == Applied then l.(theirs := Unrefreshed(s), sawRow := true)
    else l.(theirs := Quiet)
  }

  function Advance(l: Local, e: Ev): Local
    requires Allowed(l, e)
  {
    match e
    case Began(dispatch) =>
      l.(target := Some(l.fsm), window := if dispatch then Sending else Closed, asking := Unasked)
    case Fired(event) =>
      l.(fsm := Next(l.fsm, event).value, window := if event == FAIL then Closed else l.window,
         asking := if event == RUN then Asked else l.asking)
    case Sent => l.(target := None, window := Closed)
    case RolledBack(to) =>
      l.(fsm := to, target := None, window := if l.window == Restoring then Resending else Closed,
         tally := if l.fsm == Cancelled && to != Cancelled then l.tally.(lost := true) else l.tally)
    case Checked(w) => l.(window := w)
    case ForcedFailed =>
      l.(fsm := Failed, window := Closed, tally := if l.fsm == Cancelled then l.tally.(lost := true) else l.tally)
    case Followed(to) => l.(fsm := to, target := None, asking := Unasked, tally := l.tally.(followed := true))
    case Adopted => l.(fsm := Cancelled, asking := Unasked, tally := l.tally.(adopted := l.tally.adopted + 1))
    case Took(actor) =>
      if actor == Owner then Saving(l).(own := Taken(l.fsm, l.version))
      else l.(theirs := Taken(l.fsm, l.version))
    case Wrote(actor, s, _, outcome) =>
      if actor == Owner then AfterPut(l, s, outcome)
      else AfterTheirPut(l, s, outcome)
    case Saw(s) => l.(sawRow := l.sawRow || s.Some?, lastSeen := s)
    case Refreshed(actor, v) =>
      if actor == Owner then l.(own := Quiet, version := v) else l.(theirs := Quiet, version := v)
    case Started(_) => l.(work := l.work.(started := l.work.started + 1, busy := true), window := Closed)
    case Finished(ok) => l.(work := l.work.(busy := false, broken := l.work.broken || !ok))
  }

  // A save of an instance in state l, from its snapshot to the end of its put, as far as no cancel lands meanwhile.
  function AfterPutBy(l: Local, actor: By, outcome: PutOutcome): Local {
    if actor == Owner then AfterPut(Saving(l), l.fsm, outcome)
    else AfterTheirPut(l, l.fsm, outcome)
  }

  // The same up to the end of the save.
  function AfterSave(l: Local, actor: By, outcome: PutOutcome): Local {
    if actor == Owner then AfterPutBy(l, actor, outcome).(own := Quiet)
    else AfterPutBy(l, actor, outcome).(theirs := Quiet)
  }

  // What an accepted cancel, its save and its refresh may change; the rest stays as in l.
  function Meanwhile(l: Local, now: Local): Local {
    l.(fsm := now.fsm, version := now.version, sawRow := now.sawRow)
  }

  predicate MayFindCancelled(before: Status, after: Status) {
    after == before || (after == Cancelled && Next(before, CANCEL).Some?)
  }

  lemma SaveInTwoSteps(l: Local, mid: Local, end: Local, actor: By, outcome: PutOutcome)
    requires Allowed(l, Took(actor)) && mid == Meanwhile(Advance(l, Took(actor)), mid)
    requires MayFindCancelled(l.fsm, mid.fsm) && (actor == Canceller ==> mid.fsm == l.fsm)
    requires var e := Wrote(actor, l.fsm, l.version, outcome); Allowed(mid, e) && end == Meanwhile(Advance(mid, e), end)
    ensures end == Meanwhile(AfterPutBy(l, actor, outcome), end)
  {
  }

  lemma RefreshEndsSave(l: Local, put: Local, actor: By, version: int)
    requires put == Meanwhile(AfterPutBy(l, actor, Applied), put) && SaveOf(put, actor).Unrefreshed?
    ensures var end := Advance(put, Refreshed(actor, version)); end == Meanwhile(AfterSave(l, actor, Applied), end)
  {
  }

  // A run: an instance made with some version, and what it has done since.
  datatype Run = Made(version: int) | Then(before: Run, ev: Ev)

  // The state at the end of a run, or None when some event was not allowed.
  function StateOf(run: Run): Option<Local> {
    match run
    case Made(version) => Some(Fresh(version))
    case Then(before, e) =>
      match StateOf(before)
      case None => None
      case Some(l) => if Allowed(l, e) then Some(Advance(l, e)) else None
  }

  // A trace together with the states it goes through.
  ghost predicate Path(states: seq<Local>, trace: seq<Ev>) {
    |states| == |trace| + 1 &&
    forall k {:trigger trace[k]} :: 0 <= k < |trace| ==>
                                      Allowed(states[k], trace[k]) && states[k + 1] == Advance(states[k], trace[k])
  }

  function TraceOf(run: Run): seq<Ev> {
    match run
    case Made(_) => []
    case Then(before, e) => TraceOf(before) + [e]
  }

  function StatesOf(run: Run): (states: seq<Local>)
    requires StateOf(run).Some?
    ensures |states| == |TraceOf(run)| + 1
  {
    match run
    case Made(version) => [Fresh(version)]
    case Then(before, _) => StatesOf(before) + [StateOf(run).value]
  }

  // A run is a path of the automaton from a fresh instance to the state it ends in.
  lemma {:induction false} RunIsPath(run: Run)
    requires StateOf(run).Some?
    ensures Path(StatesOf(run), TraceOf(run)) && StatesOf(run)[|TraceOf(run)|] == StateOf(run).value
    ensures exists version :: StatesOf(run)[0] == Fresh(version)
  {
    match run
    case Made(version) => assert StatesOf(run)[0] == Fresh(version);
    case Then(before, e) =>
      RunIsPath(before);
      var states, trace := StatesOf(run), TraceOf(run);
      var version :| StatesOf(before)[0] == Fresh(version);
      assert states[0] == Fresh(version);
      forall k {:trigger trace[k]} | 0 <= k < |trace|
        ensures Allowed(states[k], trace[k]) && states[k + 1] == Advance(states[k], trace[k])
      {
        if k < |TraceOf(before)| {
          assert trace[k] == TraceOf(before)[k];
        }
      }
  }

  predicate Early(s: Status) {
    s in {Unknown, Initializing, Scheduled}
  }

  // What is known of the row, and in which states.
  predicate RowInv(l: Local) {
    && (l.fsm in {InProgress, Completed} || l.target in {Some(InProgress), Some(Completed)} ==> l.sawRow)
    && (l.claimed || l.lastSeen.Some? || l.own.Unrefreshed? || l.theirs.Unrefreshed? ==> l.sawRow)
  }

  // Machine states, and what has been done by then.
  predicate StatesInv(l: Local) {
    && !l.fsm.Other? && (l.target.Some? ==> !l.target.value.Other?)
    && (l.target == Some(Cancelled) ==> l.fsm == Cancelled)
    && (l.claimed || l.tally.followed ==> !Early(l.fsm))
    && (l.tally.followed && l.target.Some? ==> !Early(l.target.value))
    && (l.work.started > 0 || l.work.busy || l.work.broken ==> l.claimed)
  }

  // Saves: a snapshot shows the current state, or a cancel has landed since it was taken.
  predicate SavesInv(l: Local) {
    && (l.own.Quiet? || l.own.status == l.fsm || l.fsm == Cancelled)
    && (l.own.Unrefreshed? && l.own.status == InProgress ==> l.claimed)
    && (l.own.Taken? && l.own.status == InProgress ==> l.sawRow)
    && (l.theirs.Quiet? || l.theirs.status == Cancelled)
    && (l.asking == Refused || l.work.busy ==> l.own.Quiet?)
    && (l.own.Unrefreshed? ==> l.asking == Unasked)
    && (l.own.Taken? && l.asking == Asked ==> l.own.status in {InProgress, Cancelled})
    && (l.asking == Asked ==> l.window == Closed && l.fsm in {InProgress, Cancelled} && !l.claimed && !l.work.busy)
  }

  predicate WindowInv(l: Local) {
    match l.window
    case Closed => true
    case Sending =>
      && Free(l) && l.target.Some?
      && (l.claimed ==> !Early(l.target.value))
    case Forcing => Free(l) && !l.claimed && l.target.Some? && l.target != Some(Cancelled)
    case Restoring => Free(l) && !l.claimed && l.fsm == Failed && l.target.Some?
    case Resending => Free(l) && !l.claimed && l.target.None?
    case Starting => Free(l) && l.claimed && !l.work.broken && l.fsm in {InProgress, Cancelled}
  }

  predicate LocalInv(l: Local) {
    RowInv(l) && StatesInv(l) && SavesInv(l) && WindowInv(l)
  }

  lemma AdvanceKeepsRow(l: Local, e: Ev)
    requires LocalInv(l) && Allowed(l, e)
    ensures RowInv(Advance(l, e))
  {
  }

  lemma AdvanceKeepsStates(l: Local, e: Ev)
    requires LocalInv(l) && Allowed(l, e)
    ensures StatesInv(Advance(l, e))
  {
  }

  lemma AdvanceKeepsSaves(l: Local, e: Ev)
    requires LocalInv(l) && Allowed(l, e)
    ensures SavesInv(Advance(l, e))
  {
  }

  lemma AdvanceKeepsWindow(l: Local, e: Ev)
    requires LocalInv(l) && Allowed(l, e)
    ensures WindowInv(Advance(l, e))
  {
  }

  lemma {:induction false} AdvanceKeepsLocalInv(l: Local, e: Ev)
    requires LocalInv(l) && Allowed(l, e)
    ensures LocalInv(Advance(l, e))
  {
    AdvanceKeepsRow(l, e);
    AdvanceKeepsStates(l, e);
    AdvanceKeepsSaves(l, e);
    AdvanceKeepsWindow(l, e);
  }

  // ---- One instance ----

  lemma {:induction false} PathKeepsLocalInv(states: seq<Local>, trace: seq<Ev>, k: nat)
    requires Path(states, trace) && LocalInv(states[0]) && k <= |trace|
    ensures LocalInv(states[k])
  {
    if k > 0 {
      PathKeepsLocalInv(states, trace, k - 1);
      assert Allowed(states[k - 1], trace[k - 1]);
      AdvanceKeepsLocalInv(states[k - 1], trace[k - 1]);
    }
  }

  // Cancelled, and no outstanding decision could change that.
  predicate SafelyCancelled(l: Local) {
    l.fsm == Cancelled && (l.window == Closed || (l.window == Sending && l.target == Some(Cancelled)))
  }

  // The events that would go against a cancel.
  predicate AgainstCancel(e: Ev) {
    e.Fired? || e.Adopted? || e.Started? || e.ForcedFailed? || (e.RolledBack? && e.to != Cancelled)
  }

  lemma {:induction false} CancelledStep(l: Local, e: Ev)
    requires LocalInv(l) && SafelyCancelled(l) && Allowed(l, e) && !e.Followed?
    ensures SafelyCancelled(Advance(l, e)) && !AgainstCancel(e) && Advance(l, e).tally.lost == l.tally.lost
  {
  }

  // A CANCEL that is accepted while no decision is outstanding is kept, as long as no durable status is followed:
  // the machine stays Cancelled, no other event is accepted (neither COMPLETE nor FAIL), no workflow starts, nothing
  // restores or forces another state.
  lemma {:induction false} CancelIsKept(states: seq<Local>, trace: seq<Ev>, i: nat, j: nat)
    requires Path(states, trace) && LocalInv(states[0]) && i < j <= |trace|
    requires trace[i] == Fired(CANCEL) && states[i].window == Closed
    requires forall k :: i < k < j ==> !trace[k].Followed?
    ensures SafelyCancelled(states[j]) && states[j].tally.lost == states[i].tally.lost
    ensures forall k :: i < k < j ==> !AgainstCancel(trace[k])
  {
    assert Allowed(states[j - 1], trace[j - 1]);
    if i + 1 < j {
      CancelIsKept(states, trace, i, j - 1);
      PathKeepsLocalInv(states, trace, j - 1);
      CancelledStep(states[j - 1], trace[j - 1]);
    }
  }

  // Nothing that follows, short of following a durable status, goes against a cancel.
  ghost predicate Kept(states: seq<Local>, trace: seq<Ev>)
    requires |states| == |trace| + 1
  {
    && (forall k :: 0 <= k < |trace| ==> !AgainstCancel(trace[k]))
    && (forall k :: 0 <= k < |states| ==> states[k].fsm == Cancelled)
  }

  predicate NothingFollowed(trace: seq<Ev>) {
    forall k :: 0 <= k < |trace| ==> !trace[k].Followed?
  }

  lemma {:induction false} KeptWhenClosed(states: seq<Local>, trace: seq<Ev>)
    requires Path(states, trace) && LocalInv(states[0]) && SafelyCancelled(states[0]) && NothingFollowed(trace)
    ensures Kept(states, trace) && SafelyCancelled(states[|trace|])
  {
    if trace != [] {
      var n := |trace| - 1;
      assert forall k {:trigger trace[..n][k]} :: 0 <= k < n ==> trace[..n][k] == trace[k];
      KeptWhenClosed(states[..|trace|], trace[..n]);
      PathKeepsLocalInv(states, trace, n);
      assert Allowed(states[n], trace[n]);
      CancelledStep(states[n], trace[n]);
    }
  }

  // What carries out an outstanding decision.
  function Carry(l: Local): Ev {
    match l.window
    case Sending => RolledBack(if l.target.Some? then l.target.value else l.fsm)
    case Starting => Started(l.work.started)
    case _ => ForcedFailed
  }

  // The condition is exact: an accepted CANCEL is kept against everything that may follow it, short of following a
  // durable status, if and only if no decision was outstanding when it was accepted.
  lemma {:induction false} CancelIsKeptExactlyWhenClosed(l: Local)
    requires LocalInv(l) && Next(l.fsm, CANCEL).Some?
    ensures var c := Advance(l, Fired(CANCEL));
            (forall states, trace :: Path(states, trace) && states[0] == c && NothingFollowed(trace) ==>
                                       Kept(states, trace)) <==>
            l.window == Closed
  {
    var c := Advance(l, Fired(CANCEL));
    AdvanceKeepsLocalInv(l, Fired(CANCEL));
    if l.window == Closed {
      forall states, trace | Path(states, trace) && states[0] == c && NothingFollowed(trace)
        ensures Kept(states, trace)
      {
        KeptWhenClosed(states, trace);
      }
    } else {
      var e := Carry(c);
      assert Allowed(c, e) && AgainstCancel(e);
      var states, trace := [c, Advance(c, e)], [e];
      assert Path(states, trace) && NothingFollowed(trace);
      assert AgainstCancel(trace[0]) && !Kept(states, trace);
    }
  }

  // An accepted CANCEL is only ever overwritten if a decision was outstanding when it was accepted.
  lemma {:induction false} LossNeedsAWindow(states: seq<Local>, trace: seq<Ev>, k: nat)
    requires Path(states, trace) && LocalInv(states[0]) && k <= |trace|
    requires !states[0].tally.lost && states[0].fsm != Cancelled && states[k].tally.lost
    ensures exists i :: 0 <= i < k && trace[i] == Fired(CANCEL) && states[i].window != Closed
  {
    assert Allowed(states[k - 1], trace[k - 1]);
    if states[k - 1].tally.lost {
      LossNeedsAWindow(states, trace, k - 1);
    } else {
      PathKeepsLocalInv(states, trace, k - 1);
      CancelledSince(states, trace, k - 1);
    }
  }

  // A Cancelled machine is safely cancelled, or was cancelled under an outstanding decision.
  lemma {:induction false} CancelledSince(states: seq<Local>, trace: seq<Ev>, k: nat)
    requires Path(states, trace) && LocalInv(states[0]) && k <= |trace|
    requires states[0].fsm != Cancelled && states[k].fsm == Cancelled && !SafelyCancelled(states[k])
    ensures exists i :: 0 <= i < k && trace[i] == Fired(CANCEL) && states[i].window != Closed
  {
    assert Allowed(states[k - 1], trace[k - 1]);
    PathKeepsLocalInv(states, trace, k - 1);
    if states[k - 1].fsm == Cancelled {
      if SafelyCancelled(states[k - 1]) {
        CancelledStep(states[k - 1], trace[k - 1]);
      } else {
        CancelledSince(states, trace, k - 1);
      }
    } else {
      CancelledHow(states[k - 1], trace[k - 1]);
    }
  }

  lemma {:induction false} CancelledHow(l: Local, e: Ev)
    requires LocalInv(l) && Allowed(l, e) && l.fsm != Cancelled && Advance(l, e).fsm == Cancelled
    ensures SafelyCancelled(Advance(l, e)) || (e == Fired(CANCEL) && l.window != Closed)
  {
  }

  // The put of a save that follows RUN is skipped; a cancel may have landed before its snapshot.
  predicate SkippedClaim(e: Ev) {
    e.Wrote? && e.actor == Owner && e.status in {InProgress, Cancelled} && e.outcome == Skipped
  }

  lemma RefusedStep(l: Local, e: Ev)
    requires LocalInv(l) && Allowed(l, e) && Advance(l, e).asking == Refused
    ensures (SkippedClaim(e) && l.asking == Asked && Advance(l, e).lastSeen == None) ||
            (l.asking == Refused && (Advance(l, e).lastSeen == l.lastSeen || e == Saw(Advance(l, e).lastSeen)))
  {
  }

  lemma AskedStep(l: Local, e: Ev)
    requires Allowed(l, e) && Advance(l, e).asking == Asked
    ensures e == Fired(RUN) || l.asking == Asked
  {
  }

  // A durable status is only followed, and a durable Cancelled only adopted, when RUN was accepted, the put of the
  // save that follows it was skipped, and afterwards the row was seen to hold that status.
  lemma {:induction false} FollowNeedsADurableRow(states: seq<Local>, trace: seq<Ev>, k: nat)
    requires Path(states, trace) && LocalInv(states[0]) && k < |trace| && (trace[k].Followed? || trace[k].Adopted?)
    requires states[0].asking == Unasked && states[0].lastSeen == None
    ensures var to := if trace[k].Followed? then trace[k].to else Cancelled;
            && to in FOLLOW_WITHOUT_RUN
            && exists p, q :: 0 <= p < q < k && SkippedClaim(trace[p]) && trace[q] == Saw(Some(to))
    ensures exists o :: 0 <= o < k && trace[o] == Fired(RUN)
  {
    assert Allowed(states[k], trace[k]);
    SeenAfterRefusal(states, trace, k);
    AskedAfterRun(states, trace, k);
  }

  lemma {:induction false} SeenAfterRefusal(states: seq<Local>, trace: seq<Ev>, k: nat)
    requires Path(states, trace) && LocalInv(states[0]) && k <= |trace|
    requires states[0].asking == Unasked && states[0].lastSeen == None
    ensures states[k].asking == Refused ==> exists p :: 0 <= p < k && SkippedClaim(trace[p])
    ensures states[k].asking == Refused && states[k].lastSeen.Some? ==>
              exists p, q :: 0 <= p < q < k && SkippedClaim(trace[p]) && trace[q] == Saw(states[k].lastSeen)
  {
    if k > 0 && states[k].asking == Refused {
      var e := trace[k - 1];
      assert Allowed(states[k - 1], e);
      PathKeepsLocalInv(states, trace, k - 1);
      RefusedStep(states[k - 1], e);
      SeenAfterRefusal(states, trace, k - 1);
    }
  }

  lemma {:induction false} AskedAfterRun(states: seq<Local>, trace: seq<Ev>, k: nat)
    requires Path(states, trace) && LocalInv(states[0]) && k <= |trace| && states[0].asking == Unasked
    ensures states[k].asking != Unasked ==> exists o :: 0 <= o < k && trace[o] == Fired(RUN)
  {
    if k > 0 && states[k].asking != Unasked {
      var e := trace[k - 1];
      assert Allowed(states[k - 1], e);
      PathKeepsLocalInv(states, trace, k - 1);
      if states[k].asking == Asked {
        AskedStep(states[k - 1], e);
      } else {
        RefusedStep(states[k - 1], e);
      }
      AskedAfterRun(states, trace, k - 1);
    }
  }

  predicate AppliedClaim(e: Ev) {
    e.Wrote? && e.status == InProgress && e.outcome == Applied
  }

  lemma ClaimedStep(l: Local, e: Ev)
    requires LocalInv(l) && Allowed(l, e)
    ensures Advance(l, e).claimed ==> l.claimed || AppliedClaim(e)
    ensures e.Started? ==> l.claimed
  {
  }

  // Work is done only after an InProgress write of the instance was applied.
  lemma {:induction false} WorkNeedsAClaim(states: seq<Local>, trace: seq<Ev>, k: nat)
    requires Path(states, trace) && LocalInv(states[0]) && k <= |trace| && !states[0].claimed
    ensures states[k].claimed ==> exists p :: 0 <= p < k && AppliedClaim(trace[p])
    ensures k < |trace| && trace[k].Started? ==> exists p :: 0 <= p < k && AppliedClaim(trace[p])
  {
    if k > 0 {
      assert Allowed(states[k - 1], trace[k - 1]);
      WorkNeedsAClaim(states, trace, k - 1);
      PathKeepsLocalInv(states, trace, k - 1);
      ClaimedStep(states[k - 1], trace[k - 1]);
    }
    if k < |trace| {
      PathKeepsLocalInv(states, trace, k);
      assert Allowed(states[k], trace[k]);
      ClaimedStep(states[k], trace[k]);
    }
  }

  lemma StartedAndBrokenStep(l: Local, e: Ev)
    requires Allowed(l, e)
    ensures Advance(l, e).work.started == if e.Started? then l.work.started + 1 else l.work.started
    ensures l.work.broken ==> Advance(l, e).work.broken
  {
  }

  lemma {:induction false} StartedAndBrokenGrow(states: seq<Local>, trace: seq<Ev>, i: nat, j: nat)
    requires Path(states, trace) && i <= j <= |trace|
    ensures states[i].work.started <= states[j].work.started && (states[i].work.broken ==> states[j].work.broken)
  {
    if i < j {
      StartedAndBrokenGrow(states, trace, i, j - 1);
      assert Allowed(states[j - 1], trace[j - 1]);
      StartedAndBrokenStep(states[j - 1], trace[j - 1]);
    }
  }

  // Over its whole life an instance starts each workflow at most once, in order, and none after one raised.
  lemma {:induction false} WorkflowsStartOnceInOrder(states: seq<Local>, trace: seq<Ev>, i: nat, j: nat)
    requires Path(states, trace) && LocalInv(states[0]) && i < j < |trace| && trace[j].Started?
    ensures trace[i].Started? ==> trace[i].workflow < trace[j].workflow
    ensures trace[i] != Finished(false)
  {
    assert Allowed(states[i], trace[i]) && Allowed(states[j], trace[j]);
    PathKeepsLocalInv(states, trace, j);
    StartedAndBrokenGrow(states, trace, i + 1, j);
  }

  // ---- Many instances sharing one row ----

  datatype Row = Row(status: Status, version: int)

  datatype World = World(row: Option<Row>, locals: map<nat, Local>)

  // An instance appears (created, or rebuilt from a record read earlier), or an instance produces an event.
  datatype Act = Join(who: nat, version: int) | Do(who: nat, ev: Ev)

  const FIRST_VERSION := 1

  predicate MayPut(row: Option<Row>, s: Status, v: int) {
    row.None? || PutMayWrite(Some(row.value.status), row.value.version, s, v)
  }

  // The store answers truthfully; a put may also raise without writing.
  predicate StoreAgrees(row: Option<Row>, e: Ev) {
    match e
    case Wrote(_, s, v, Applied) => MayPut(row, s, v)
    case Wrote(_, s, v, Skipped) => !MayPut(row, s, v)
    case Saw(s) => s == (if row.None? then None else Some(row.value.status))
    case Refreshed(_, v) => row.Some? && v == row.value.version
    case _ => true
  }

  function RowAfter(row: Option<Row>, e: Ev): Option<Row> {
    match e
    case Wrote(_, s, v, Applied) => if row.None? then Some(Row(s, v)) else Some(Row(s, row.value.version + 1))
    case _ => row
  }

  // A new job, or one rebuilt from any record of this row that was ever stored.
  predicate JoinAllowed(w: World, who: nat, version: int) {
    who !in w.locals && if w.row.None? then version == FIRST_VERSION else version <= w.row.value.version
  }

  predicate Possible(w: World, a: Act) {
    match a
    case Join(who, version) => JoinAllowed(w, who, version)
    case Do(who, e) => who in w.locals && Allowed(w.locals[who], e) && StoreAgrees(w.row, e)
  }

  function WorldAfter(w: World, a: Act): World
    requires Possible(w, a)
  {
    match a
    case Join(who, version) => w.(locals := w.locals[who := Fresh(version)])
    case Do(who, e) => World(RowAfter(w.row, e), w.locals[who := Advance(w.locals[who], e)])
  }

  ghost predicate Claimed(w: World) {
    exists i :: i in w.locals && w.locals[i].claimed
  }

  // A job that has been claimed is not rebuilt from a record of that claim.
  ghost predicate ReadBeforeClaim(w: World, a: Act) {
    a.Join? && Claimed(w) && w.row.Some? && w.row.value.status == InProgress ==> a.version < w.row.value.version
  }

  // No claim is applied between another instance's put and its version refresh, unless that instance is cancelled.
  // When `save` is one step towards the others this always holds.
  predicate Undisturbed(w: World, a: Act) {
    a.Do? && AppliedClaim(a.ev) ==>
      forall j :: j in w.locals && j != a.who && w.locals[j].own.Unrefreshed? ==> w.locals[j].fsm == Cancelled
  }

  datatype Rule = Anything | ReadBefore | Careful

  ghost predicate Keeps(rule: Rule, w: World, a: Act) {
    (rule != Anything ==> ReadBeforeClaim(w, a)) && (rule == Careful ==> Undisturbed(w, a))
  }

  ghost function Reach(w: World, acts: seq<Act>, rule: Rule): Option<World> {
    if acts == [] then Some(w)
    else
      match Reach(w, acts[..|acts| - 1], rule)
      case None => None
      case Some(mid) =>
        var a := acts[|acts| - 1];
        if Possible(mid, a) && Keeps(rule, mid, a) then Some(WorldAfter(mid, a)) else None
  }

  predicate RowFinished(w: World) {
    w.row.Some? && Terminal(w.row.value.status)
  }

  // All versions an instance could put are no larger than v.
  predicate KnowsUpTo(l: Local, v: int) {
    l.version <= v && (l.own.Taken? ==> l.own.version <= v) && (l.theirs.Taken? ==> l.theirs.version <= v)
  }

  // An instance whose puts are all stale, and stay so.
  predicate Behind(w: World, j: nat)
    requires j in w.locals
  {
    w.row.Some? && KnowsUpTo(w.locals[j], w.row.value.version - 1) &&
    !w.locals[j].own.Unrefreshed? && !w.locals[j].theirs.Unrefreshed?
  }

  // A cancelled instance that can put nothing but Cancelled.
  predicate Stuck(l: Local) {
    SafelyCancelled(l) && l.asking == Unasked && (l.own.Taken? ==> l.own.status == Cancelled)
  }

  // Each instance knows no more than the row: its versions are not ahead of the row's.
  predicate InStep(w: World, i: nat)
    requires i in w.locals
  {
    var l := w.locals[i];
    && LocalInv(l) && (l.sawRow ==> w.row.Some?)
    && KnowsUpTo(l, if w.row.None? then FIRST_VERSION else w.row.value.version)
    && (w.row.None? ==> l.version == FIRST_VERSION && (l.own.Taken? ==> l.own.version == FIRST_VERSION) &&
                        (l.theirs.Taken? ==> l.theirs.version == FIRST_VERSION))
    && (l.theirs.Unrefreshed? || (l.own.Unrefreshed? && Terminal(l.own.status)) ==> RowFinished(w))
  }

  // If i has claimed the job, j has not, and j can never claim it.
  predicate Excludes(w: World, i: nat, j: nat)
    requires i in w.locals && j in w.locals
  {
    i != j && w.locals[i].claimed ==> !w.locals[j].claimed && (RowFinished(w) || Behind(w, j) || Stuck(w.locals[j]))
  }

  predicate ClaimShows(w: World, i: nat)
    requires i in w.locals
  {
    w.locals[i].claimed ==> w.row.Some? && (RowFinished(w) || w.row.value.status == InProgress)
  }

  predicate WorldInv(w: World) {
    && (forall i :: i in w.locals ==> InStep(w, i) && ClaimShows(w, i))
    && (forall i, j :: i in w.locals && j in w.locals ==> Excludes(w, i, j))
  }

  lemma {:induction false} JoinKeepsWorldInv(w: World, who: nat, version: int)
    requires WorldInv(w) && JoinAllowed(w, who, version) && ReadBeforeClaim(w, Join(who, version))
    ensures WorldInv(WorldAfter(w, Join(who, version)))
  {
    var after := WorldAfter(w, Join(who, version));
    forall i | i in after.locals
      ensures InStep(after, i) && ClaimShows(after, i)
    {
      assert i != who ==> InStep(w, i) && ClaimShows(w, i);
    }
    forall i, j | i in after.locals && j in after.locals
      ensures Excludes(after, i, j)
    {
      assert i != who && j != who ==> Excludes(w, i, j);
      assert i != who ==> ClaimShows(w, i);
    }
  }

  // What an applied put does to the row.
  lemma {:induction false} AppliedPut(w: World, who: nat, e: Ev)
    requires WorldInv(w) && Possible(w, Do(who, e)) && e.Wrote? && e.outcome == Applied
    ensures w.row.Some? ==> NoEarlier(w.row.value.status, e.status) && w.row.value.version == e.version
    ensures w.row.Some? ==> RowAfter(w.row, e).value.version == w.row.value.version + 1
    ensures w.row.None? ==> e.version == FIRST_VERSION && e.status != InProgress
    ensures forall i :: i in w.locals && i != who && w.locals[i].claimed ==> RowFinished(w) || e.status == Cancelled
  {
    assert InStep(w, who);
    if w.row.Some? {
      FenceIsTheLifecycleOrder(w.row.value.status, e.status);
    }
    forall i | i in w.locals && i != who && w.locals[i].claimed
      ensures RowFinished(w) || e.status == Cancelled
    {
      assert Excludes(w, i, who) && ClaimShows(w, i);
    }
  }

  lemma {:induction false} OwnPutKeepsInStep(w: World, who: nat, e: Ev)
    requires WorldInv(w) && Possible(w, Do(who, e)) && e.Wrote?
    ensures InStep(WorldAfter(w, Do(who, e)), who) && ClaimShows(WorldAfter(w, Do(who, e)), who)
  {
    assert InStep(w, who) && ClaimShows(w, who);
    AdvanceKeepsLocalInv(w.locals[who], e);
    if e.outcome == Applied {
      AppliedPut(w, who, e);
    }
  }

  lemma {:induction false} OwnStepKeepsInStep(w: World, who: nat, e: Ev)
    requires WorldInv(w) && Possible(w, Do(who, e)) && !e.Wrote?
    ensures InStep(WorldAfter(w, Do(who, e)), who) && ClaimShows(WorldAfter(w, Do(who, e)), who)
  {
    assert InStep(w, who) && ClaimShows(w, who);
    AdvanceKeepsLocalInv(w.locals[who], e);
    QuietStep(w.locals[who], e);
  }

  // What an event other than a put does to what an instance knows of the row.
  lemma QuietStep(l: Local, e: Ev)
    requires LocalInv(l) && Allowed(l, e) && !e.Wrote?
    ensures Advance(l, e).claimed == l.claimed
    ensures Advance(l, e).sawRow ==> l.sawRow || (e.Saw? && e.durable.Some?)
    ensures Advance(l, e).version == if e.Refreshed? then e.version else l.version
    ensures Advance(l, e).own in {l.own, Quiet, Taken(l.fsm, l.version)}
    ensures Advance(l, e).theirs in {l.theirs, Quiet, Taken(l.fsm, l.version)}
  {
  }

  lemma {:induction false} OthersKeepInStep(w: World, who: nat, e: Ev, i: nat)
    requires WorldInv(w) && Possible(w, Do(who, e)) && i in w.locals && i != who
    ensures InStep(WorldAfter(w, Do(who, e)), i) && ClaimShows(WorldAfter(w, Do(who, e)), i)
  {
    assert InStep(w, i) && ClaimShows(w, i);
    if e.Wrote? && e.outcome == Applied {
      AppliedPut(w, who, e);
    }
  }

  lemma {:induction false} StuckStep(l: Local, e: Ev)
    requires LocalInv(l) && Stuck(l) && Allowed(l, e)
    ensures Stuck(Advance(l, e)) && Advance(l, e).claimed == l.claimed
  {
    CancelledStep(l, e);
  }

  // Another instance stays excluded, whoever acts; it acts itself ...
  lemma {:induction false} ExcludedActs(w: World, e: Ev, i: nat, j: nat)
    requires WorldInv(w) && Possible(w, Do(j, e)) && i in w.locals && i != j && w.locals[i].claimed
    ensures Excludes(WorldAfter(w, Do(j, e)), i, j)
  {
    assert Excludes(w, i, j) && InStep(w, j) && ClaimShows(w, i);
    if Stuck(w.locals[j]) {
      StuckStep(w.locals[j], e);
    }
    if e.Wrote? && e.outcome == Applied {
      AppliedPut(w, j, e);
    }
  }

  // ... or it stands still.
  lemma {:induction false} ExcludedStands(w: World, who: nat, e: Ev, i: nat, j: nat)
    requires WorldInv(w) && Possible(w, Do(who, e)) && Undisturbed(w, Do(who, e))
    requires i in w.locals && j in w.locals && j != who
    ensures Excludes(WorldAfter(w, Do(who, e)), i, j)
  {
    assert Excludes(w, i, j) && Excludes(w, j, i) && InStep(w, j) && ClaimShows(w, i);
    if e.Wrote? && e.outcome == Applied {
      AppliedPut(w, who, e);
    }
  }

  lemma {:induction false} DoKeepsExclusion(w: World, who: nat, e: Ev, i: nat, j: nat)
    requires WorldInv(w) && Possible(w, Do(who, e)) && Undisturbed(w, Do(who, e))
    requires i in w.locals && j in w.locals
    ensures Excludes(WorldAfter(w, Do(who, e)), i, j)
  {
    if j != who {
      ExcludedStands(w, who, e, i, j);
    } else if i != j && w.locals[i].claimed {
      ExcludedActs(w, e, i, j);
    }
  }

  lemma {:induction false} DoKeepsWorldInv(w: World, who: nat, e: Ev)
    requires WorldInv(w) && Possible(w, Do(who, e)) && Undisturbed(w, Do(who, e))
    ensures WorldInv(WorldAfter(w, Do(who, e)))
  {
    var after := WorldAfter(w, Do(who, e));
    forall i | i in after.locals
      ensures InStep(after, i) && ClaimShows(after, i)
    {
      if i == who {
        if e.Wrote? {
          OwnPutKeepsInStep(w, who, e);
        } else {
          OwnStepKeepsInStep(w, who, e);
        }
      } else {
        OthersKeepInStep(w, who, e, i);
      }
    }
    forall i, j | i in after.locals && j in after.locals
      ensures Excludes(after, i, j)
    {
      DoKeepsExclusion(w, who, e, i, j);
    }
  }

  lemma {:induction false} ActKeepsWorldInv(w: World, a: Act)
    requires WorldInv(w) && Possible(w, a) && Keeps(Careful, w, a)
    ensures WorldInv(WorldAfter(w, a))
  {
    match a
    case Join(who, version) => JoinKeepsWorldInv(w, who, version);
    case Do(who, e) => DoKeepsWorldInv(w, who, e);
  }

  lemma {:induction false} ReachKeepsWorldInv(w: World, acts: seq<Act>)
    requires WorldInv(w) && Reach(w, acts, Careful).Some?
    ensures WorldInv(Reach(w, acts, Careful).value)
  {
    if acts != [] {
      var n := |acts| - 1;
      ReachKeepsWorldInv(w, acts[..n]);
      ActKeepsWorldInv(Reach(w, acts[..n], Careful).value, acts[n]);
    }
  }

  // Who started a workflow is known to have claimed the job, for ever.
  lemma {:induction false} StartedIsRemembered(w: World, acts: seq<Act>, k: nat)
    requires WorldInv(w) && k < |acts| && Reach(w, acts, Careful).Some? && acts[k].Do? && acts[k].ev.Started?
    ensures var end := Reach(w, acts, Careful).value; acts[k].who in end.locals && end.locals[acts[k].who].claimed
  {
    var n := |acts| - 1;
    var mid := Reach(w, acts[..n], Careful).value;
    ReachKeepsWorldInv(w, acts[..n]);
    if k == n {
      assert InStep(mid, acts[n].who);
      ClaimedStep(mid.locals[acts[n].who], acts[n].ev);
    } else {
      StartedIsRemembered(w, acts[..n], k);
    }
    ClaimIsRemembered(mid, acts[n], acts[k].who);
  }

  lemma ClaimIsRemembered(w: World, a: Act, i: nat)
    requires Possible(w, a) && i in w.locals && w.locals[i].claimed
    ensures i in WorldAfter(w, a).locals && WorldAfter(w, a).locals[i].claimed
  {
    if a.Do? && a.who == i {
      ClaimIsKept(w.locals[i], a.ev);
    }
  }

  lemma ClaimIsKept(l: Local, e: Ev)
    requires Allowed(l, e) && l.claimed
    ensures Advance(l, e).claimed
  {
  }

  predicate AtMostOneClaims(w: World) {
    forall i, j :: i in w.locals && j in w.locals && w.locals[i].claimed && w.locals[j].claimed ==> i == j
  }

  lemma WorldInvExcludes(w: World)
    requires WorldInv(w)
    ensures AtMostOneClaims(w)
  {
    forall i, j | i in w.locals && j in w.locals && w.locals[i].claimed && w.locals[j].claimed
      ensures i == j
    {
      assert Excludes(w, i, j);
    }
  }

  // At-most-once execution: whatever the interleaving of instances that share a row, if no job is rebuilt from a
  // record of its own claim and no claim tears a save apart, then at most one instance ever gets an InProgress write
  // applied, and all the workflows that are ever started are started by that instance.
  lemma {:induction false} AtMostOneInstanceRuns(row: Option<Row>, acts: seq<Act>, i: nat, j: nat)
    requires Reach(World(row, map[]), acts, Careful).Some?
    ensures AtMostOneClaims(Reach(World(row, map[]), acts, Careful).value)
    ensures i < |acts| && j < |acts| && acts[i].Do? && acts[j].Do? && acts[i].ev.Started? && acts[j].ev.Started? ==>
              acts[i].who == acts[j].who
  {
    ReachKeepsWorldInv(World(row, map[]), acts);
    WorldInvExcludes(Reach(World(row, map[]), acts, Careful).value);
    if i < |acts| && j < |acts| && acts[i].Do? && acts[j].Do? && acts[i].ev.Started? && acts[j].ev.Started? {
      StartedIsRemembered(World(row, map[]), acts, i);
      StartedIsRemembered(World(row, map[]), acts, j);
    }
  }

  // Once an instance has claimed the job, only that instance can have an InProgress write applied.
  lemma {:induction false} ClaimedIsUndisturbed(w: World, i: nat, a: Act)
    requires WorldInv(w) && i in w.locals && w.locals[i].claimed && Possible(w, a)
    ensures Undisturbed(w, a)
  {
    if a.Do? && AppliedClaim(a.ev) {
      AppliedPut(w, a.who, a.ev);
      forall j | j in w.locals && j != a.who && w.locals[j].own.Unrefreshed?
        ensures w.locals[j].fsm == Cancelled
      {
        assert Excludes(w, i, j) && !RowFinished(w);
      }
    }
  }

  lemma {:induction false} OneClaimExcludesOthers(w: World, i: nat, acts: seq<Act>)
    requires WorldInv(w) && i in w.locals && w.locals[i].claimed && Reach(w, acts, ReadBefore).Some?
    ensures var end := Reach(w, acts, ReadBefore).value;
            WorldInv(end) && i in end.locals && end.locals[i].claimed && AtMostOneClaims(end)
  {
    WorldInvExcludes(w);
    if acts != [] {
      var n := |acts| - 1;
      var mid := Reach(w, acts[..n], ReadBefore).value;
      OneClaimExcludesOthers(w, i, acts[..n]);
      ClaimedIsUndisturbed(mid, i, acts[n]);
      ActKeepsWorldInv(mid, acts[n]);
      ClaimIsRemembered(mid, acts[n], i);
      WorldInvExcludes(WorldAfter(mid, acts[n]));
    }
  }

  // ---- When saves are one step ----

  predicate IsAppliedPut(a: Act) {
    a.Do? && a.ev.Wrote? && a.ev.outcome == Applied
  }

  // Every applied put is followed at once by the version refresh of its save.
  predicate OneStepSaves(acts: seq<Act>) {
    forall k :: 0 < k < |acts| && IsAppliedPut(acts[k - 1]) ==>
                  acts[k].Do? && acts[k].who == acts[k - 1].who && acts[k].ev.Refreshed? &&
                  acts[k].ev.actor == acts[k - 1].ev.actor
  }

  // A refresh is only outstanding right after its put.
  predicate RefreshedBut(w: World, acts: seq<Act>) {
    forall i :: i in w.locals ==>
                  (w.locals[i].own.Unrefreshed? ==>
                     acts != [] && IsAppliedPut(acts[|acts| - 1]) && acts[|acts| - 1].who == i &&
                     acts[|acts| - 1].ev.actor == Owner) &&
                  (w.locals[i].theirs.Unrefreshed? ==>
                     acts != [] && IsAppliedPut(acts[|acts| - 1]) && acts[|acts| - 1].who == i &&
                     acts[|acts| - 1].ev.actor == Canceller)
  }

  lemma UnrefreshedStep(l: Local, e: Ev)
    requires Allowed(l, e)
    ensures Advance(l, e).own.Unrefreshed? ==>
              (l.own.Unrefreshed? && !(e.Refreshed? && e.actor == Owner)) ||
              (e.Wrote? && e.outcome == Applied && e.actor == Owner)
    ensures Advance(l, e).theirs.Unrefreshed? ==>
              (l.theirs.Unrefreshed? && !(e.Refreshed? && e.actor == Canceller)) ||
              (e.Wrote? && e.outcome == Applied && e.actor == Canceller)
  {
  }

  // In such runs no claim falls into another's save, so the condition on claims holds of itself.
  lemma {:induction false} OneStepSavesAreUndisturbed(row: Option<Row>, acts: seq<Act>)
    requires Reach(World(row, map[]), acts, ReadBefore).Some? && OneStepSaves(acts)
    ensures Reach(World(row, map[]), acts, Careful) == Reach(World(row, map[]), acts, ReadBefore)
    ensures RefreshedBut(Reach(World(row, map[]), acts, ReadBefore).value, acts)
  {
    if acts != [] {
      var n := |acts| - 1;
      var w := Reach(World(row, map[]), acts[..n], ReadBefore).value;
      OneStepSavesAreUndisturbed(row, acts[..n]);
      if n > 0 {
        assert acts[..n][n - 1] == acts[n - 1];
      }
      if acts[n].Do? {
        UnrefreshedStep(w.locals[acts[n].who], acts[n].ev);
      }
    }
  }

  // ---- One instance running alone against the row ----

  datatype View = View(local: Local, row: Option<Row>)

  function StepOf(v: View, e: Ev): Option<View> {
    if Allowed(v.local, e) && StoreAgrees(v.row, e) then Some(View(Advance(v.local, e), RowAfter(v.row, e))) else None
  }

  function Steps(v: View, evs: seq<Ev>): Option<View> {
    if evs == [] then Some(v)
    else
      match Steps(v, evs[..|evs| - 1])
      case None => None
      case Some(mid) => StepOf(mid, evs[|evs| - 1])
  }

  lemma {:induction false} StepsAlong(views: seq<View>, evs: seq<Ev>)
    requires |views| == |evs| + 1
    requires forall k {:trigger evs[k]} :: 0 <= k < |evs| ==> StepOf(views[k], evs[k]) == Some(views[k + 1])
    ensures Steps(views[0], evs) == Some(views[|evs|])
  {
    if evs != [] {
      var n := |evs| - 1;
      assert forall k {:trigger evs[..n][k]} :: 0 <= k < n ==> evs[..n][k] == evs[k];
      StepsAlong(views[..|evs|], evs[..n]);
      assert StepOf(views[n], evs[n]) == Some(views[n + 1]);
    }
  }

  lemma {:induction false} StepsThen(v: View, first: seq<Ev>, second: seq<Ev>)
    requires Steps(v, first).Some?
    ensures Steps(v, first + second) == Steps(Steps(v, first).value, second)
  {
    if second == [] {
      assert first + second == first;
    } else {
      var n := |second| - 1;
      StepsThen(v, first, second[..n]);
      assert (first + second)[..|first| + n] == first + second[..n];
    }
  }

  lemma {:induction false} StepsToStep(v: View, v1: View, v2: View, first: seq<Ev>, second: seq<Ev>)
    requires Steps(v, first) == Some(v1) && Steps(v1, second) == Some(v2)
    ensures Steps(v, first + second) == Some(v2)
  {
    StepsThen(v, first, second);
  }

  function Acts(who: nat, evs: seq<Ev>): seq<Act> {
    seq(|evs|, k requires 0 <= k < |evs| => Do(who, evs[k]))
  }

  // What an instance can do alone it can do in the world, while the others stand still.
  lemma {:induction false} StepsReach(w: World, who: nat, evs: seq<Ev>, rule: Rule)
    requires who in w.locals && Steps(View(w.locals[who], w.row), evs).Some? && rule != Careful
    ensures var end := Steps(View(w.locals[who], w.row), evs).value;
            Reach(w, Acts(who, evs), rule) == Some(World(end.row, w.locals[who := end.local]))
  {
    if evs == [] {
      assert w.locals[who := w.locals[who]] == w.locals;
    } else {
      var n := |evs| - 1;
      StepsReach(w, who, evs[..n], rule);
      assert Acts(who, evs)[..n] == Acts(who, evs[..n]);
      var mid := Steps(View(w.locals[who], w.row), evs[..n]).value;
      var end := Steps(View(w.locals[who], w.row), evs).value;
      assert w.locals[who := mid.local][who := end.local] == w.locals[who := end.local];
    }
  }

  lemma {:induction false} ReachThen(w: World, first: seq<Act>, second: seq<Act>, rule: Rule)
    requires Reach(w, first, rule).Some?
    ensures Reach(w, first + second, rule) == Reach(Reach(w, first, rule).value, second, rule)
  {
    if second == [] {
      assert first + second == first;
    } else {
      var n := |second| - 1;
      ReachThen(w, first, second[..n], rule);
      assert (first + second)[..|first| + n] == first + second[..n];
    }
  }

  // ---- Passages: what the code does in a row, undisturbed ----

  predicate Idle(l: Local) {
    Free(l) && l.window == Closed && !l.claimed && !l.work.broken && l.asking != Asked
  }

  // Unclaimed, and in step with a row that an InProgress write may still replace.
  predicate Claimable(v: View) {
    && Idle(v.local) && !v.local.claimed && v.row.Some?
    && v.row.value.version == v.local.version && v.row.value.status in {Scheduled, InProgress}
  }

  const DISPATCHING: seq<Ev> := [Began(true), Fired(INIT), Fired(SCHEDULE), Sent]

  lemma {:induction false} Dispatches(v: View)
    requires Idle(v.local) && v.local.fsm == Unknown
    ensures Steps(v, DISPATCHING) ==
            Some(v.(local := v.local.(fsm := Scheduled, target := None, window := Closed, asking := Unasked)))
  {
    var l1 := v.local.(target := Some(Unknown), window := Sending, asking := Unasked);
    var l2 := l1.(fsm := Initializing);
    var l3 := l1.(fsm := Scheduled);
    var sent := v.(local := l3.(target := None, window := Closed));
    StepsAlong([v, v.(local := l1), v.(local := l2), v.(local := l3), sent], DISPATCHING);
  }

  function Putting(l: Local, outcome: PutOutcome): seq<Ev> {
    [Took(Owner), Wrote(Owner, l.fsm, l.version, outcome)]
  }

  // One more put that was not applied, or n more.
  function Missed(l: Local, n: nat): Local {
    l.(tally := l.tally.(failed := l.tally.failed + n))
  }

  // A save of Scheduled, skipped because the row is InProgress.
  lemma {:induction false} SavesNothing(v: View)
    requires Claimable(v) && v.row.value.status == InProgress && v.local.fsm == Scheduled && v.local.asking == Unasked
    ensures Steps(v, Putting(v.local, Skipped)) == Some(v.(local := Missed(v.local, 1)))
  {
    var mid := View(Advance(v.local, Took(Owner)), v.row);
    FenceIsTheLifecycleOrder(InProgress, Scheduled);
    StepsAlong([v, mid, v.(local := Missed(v.local, 1))], Putting(v.local, Skipped));
  }

  // The first put of Scheduled, or one over a Scheduled row.
  lemma {:induction false} StoresScheduled(v: View)
    requires Idle(v.local) && v.local.fsm == Scheduled && (v.row.None? || v.row == Some(Row(Scheduled, v.local.version)))
    ensures Steps(v, Putting(v.local, Applied)) ==
            Some(View(v.local.(own := Unrefreshed(Scheduled), sawRow := true, asking := Unasked,
                               tally := v.local.tally.(stored := v.local.tally.stored + 1)),
                      Some(Row(Scheduled, if v.row.None? then v.local.version else v.local.version + 1))))
  {
    var e := Wrote(Owner, Scheduled, v.local.version, Applied);
    var l1 := Advance(v.local, Took(Owner));
    FenceIsTheLifecycleOrder(Scheduled, Scheduled);
    StepsAlong([v, v.(local := l1), View(Advance(l1, e), RowAfter(v.row, e))], Putting(v.local, Applied));
  }

  function Refreshing(v: View): seq<Ev> {
    [Refreshed(Owner, if v.row.Some? then v.row.value.version else 0)]
  }

  lemma {:induction false} Refreshes(v: View)
    requires v.local.own.Unrefreshed? && v.row.Some?
    ensures Steps(v, Refreshing(v)) == Some(v.(local := v.local.(own := Quiet, version := v.row.value.version)))
  {
    StepsAlong([v, v.(local := v.local.(own := Quiet, version := v.row.value.version))], Refreshing(v));
  }

  // The async way: the events are applied and the job is sent and saved by hand.
  function ScheduleByHand(l: Local): seq<Ev> {
    (if l.fsm == Unknown then [Fired(INIT), Fired(SCHEDULE)] else [Fired(SCHEDULE)]) +
    Putting(l.(fsm := Scheduled), Skipped)
  }

  lemma {:induction false} SchedulesByHand(v: View)
    requires Claimable(v) && v.row.value.status == InProgress
    requires v.local.fsm in {Unknown, Initializing} && v.local.asking == Unasked
    ensures Steps(v, ScheduleByHand(v.local)) == Some(v.(local := Missed(v.local, 1).(fsm := Scheduled)))
  {
    var scheduled := v.(local := v.local.(fsm := Scheduled));
    if v.local.fsm == Unknown {
      var mid := v.(local := v.local.(fsm := Initializing));
      StepsAlong([v, mid, scheduled], [Fired(INIT), Fired(SCHEDULE)]);
      StepsThen(v, [Fired(INIT), Fired(SCHEDULE)], Putting(scheduled.local, Skipped));
    } else {
      StepsAlong([v, scheduled], [Fired(SCHEDULE)]);
      StepsThen(v, [Fired(SCHEDULE)], Putting(scheduled.local, Skipped));
    }
    SavesNothing(scheduled);
  }

  // The claim of a job that is being processed, and how its put ends.
  function Claiming(version: int, outcome: PutOutcome): seq<Ev> {
    [Fired(RUN), Took(Owner), Wrote(Owner, InProgress, version, outcome)]
  }

  // The view after such a claim.
  function AfterClaim(v: View, outcome: PutOutcome): View
    requires v.row.Some?
  {
    var l := v.local.(fsm := InProgress, asking := Unasked);
    if outcome == Applied then
      View(l.(own := Unrefreshed(InProgress), claimed := true, tally := l.tally.(stored := l.tally.stored + 1)),
           Some(Row(InProgress, v.row.value.version + 1)))
    else v.(local := Missed(l, 1))
  }

  lemma {:induction false} Claims(v: View, outcome: PutOutcome)
    requires Claimable(v) && v.local.fsm == Scheduled && v.local.sawRow && v.local.target == Some(Scheduled)
    requires outcome != Skipped
    ensures Steps(v, Claiming(v.local.version, outcome)) == Some(AfterClaim(v, outcome))
  {
    FenceIsTheLifecycleOrder(v.row.value.status, InProgress);
    var l1 := v.local.(fsm := InProgress, asking := Asked);
    var l2 := l1.(own := Taken(InProgress, l1.version));
    StepsAlong([v, v.(local := l1), v.(local := l2), AfterClaim(v, outcome)], Claiming(v.local.version, outcome));
  }

  // Processing a Scheduled job: heal sees the row, then the claim.
  function Processing(v: View, outcome: PutOutcome): seq<Ev> {
    Looking(v) + Claiming(v.local.version, outcome)
  }

  function Looking(v: View): seq<Ev> {
    [Began(false), Saw(if v.row.Some? then Some(v.row.value.status) else None)]
  }

  function Looked(v: View): View
    requires v.row.Some?
  {
    v.(local := v.local.(target := Some(v.local.fsm), sawRow := true, asking := Unasked,
                         lastSeen := Some(v.row.value.status)))
  }

  lemma {:induction false} Processes(v: View, outcome: PutOutcome)
    requires Claimable(v) && v.local.fsm == Scheduled && outcome != Skipped
    ensures Steps(v, Processing(v, outcome)) == Some(AfterClaim(Looked(v), outcome))
  {
    var l1 := v.local.(target := Some(Scheduled), asking := Unasked);
    StepsAlong([v, v.(local := l1), Looked(v)], Looking(v));
    Claims(Looked(v), outcome);
    StepsThen(v, Looking(v), Claiming(v.local.version, outcome));
  }

  // After a claim: its refresh, the check before the first workflow, and its start.
  function Starts(v: View): seq<Ev> {
    Refreshing(v) + [Checked(Starting), Started(0)]
  }

  lemma {:induction false} StartsFirst(v: View)
    requires v.row.Some? && v.local.own.Unrefreshed? && v.local.claimed && v.local.fsm == InProgress
    requires v.local.window == Closed && v.local.asking != Asked
    requires v.local.work.started == 0 && !v.local.work.busy && !v.local.work.broken
    ensures var end := Steps(v, Starts(v)); end.Some? && end.value.local.claimed && end.value.row == v.row
  {
    var l1 := v.local.(own := Quiet, version := v.row.value.version);
    var l2 := l1.(window := Starting);
    var refreshed := v.(local := l1);
    Refreshes(v);
    StepsAlong([refreshed, v.(local := l2), v.(local := Advance(l2, Started(0)))], [Checked(Starting), Started(0)]);
    StepsThen(v, Refreshing(v), [Checked(Starting), Started(0)]);
  }

  // ---- The conditions are exact ----

  // How an instance with an outstanding refresh goes on to claim a job that another has just claimed: it takes over
  // the version of that claim, gets to Scheduled if it is not there yet, and is processed.
  function SecondClaim(v: View): seq<Ev>
    requires v.row.Some?
  {
    var refreshed := v.(local := v.local.(own := Quiet, version := v.row.value.version));
    var byHand := refreshed.(local := Missed(refreshed.local, 1).(fsm := Scheduled));
    Refreshing(v) +
    (if v.local.fsm != Scheduled then ScheduleByHand(refreshed.local) + Processing(byHand, Applied)
     else if v.local.target == Some(Scheduled) then Claiming(v.row.value.version, Applied)
     else Processing(refreshed, Applied))
  }

  lemma {:induction false} SchedulesAndClaims(v: View)
    requires Claimable(v) && v.row.value.status == InProgress
    requires v.local.fsm in {Unknown, Initializing} && v.local.asking == Unasked
    ensures var byHand := v.(local := Missed(v.local, 1).(fsm := Scheduled));
            var end := Steps(v, ScheduleByHand(v.local) + Processing(byHand, Applied));
            end.Some? && end.value.local.claimed
  {
    var byHand := v.(local := Missed(v.local, 1).(fsm := Scheduled));
    SchedulesByHand(v);
    Processes(byHand, Applied);
    StepsThen(v, ScheduleByHand(v.local), Processing(byHand, Applied));
  }

  lemma {:induction false} SecondClaimSucceeds(v: View)
    requires LocalInv(v.local) && v.local.own.Unrefreshed? && Early(v.local.fsm) && !v.local.claimed
    requires v.row.Some? && v.row.value.status == InProgress
    ensures var end := Steps(v, SecondClaim(v)); end.Some? && end.value.local.claimed
  {
    var refreshed := v.(local := v.local.(own := Quiet, version := v.row.value.version));
    Refreshes(v);
    if v.local.fsm != Scheduled {
      var byHand := refreshed.(local := Missed(refreshed.local, 1).(fsm := Scheduled));
      SchedulesAndClaims(refreshed);
      StepsThen(v, Refreshing(v), ScheduleByHand(refreshed.local) + Processing(byHand, Applied));
    } else if v.local.target == Some(Scheduled) {
      Claims(refreshed, Applied);
      StepsThen(v, Refreshing(v), Claiming(v.row.value.version, Applied));
    } else {
      Processes(refreshed, Applied);
      StepsThen(v, Refreshing(v), Processing(refreshed, Applied));
    }
  }

  lemma {:induction false} TwoClaims(w: World, i: nat, j: nat, evs: seq<Ev>)
    requires i in w.locals && j in w.locals && i != j && w.locals[i].claimed
    requires var end := Steps(View(w.locals[j], w.row), evs); end.Some? && end.value.local.claimed
    ensures var end := Reach(w, Acts(j, evs), ReadBefore); end.Some? && !AtMostOneClaims(end.value)
  {
    StepsReach(w, j, evs, ReadBefore);
    var end := Reach(w, Acts(j, evs), ReadBefore).value;
    assert end.locals[i].claimed && end.locals[j].claimed;
  }

  // No run from here on, with jobs only rebuilt from records older than the claim, sees two instances claim the job.
  ghost predicate SafeFrom(w: World) {
    forall acts :: Reach(w, acts, ReadBefore).Some? ==> AtMostOneClaims(Reach(w, acts, ReadBefore).value)
  }

  // Exact for claims: the first claim of a job is safe against everything that may follow if and only if it falls
  // between no other live instance's put and its version refresh.
  lemma {:induction false} ClaimIsSafeExactlyWhenUndisturbed(w: World, who: nat, version: int)
    requires WorldInv(w) && !Claimed(w)
    requires Possible(w, Do(who, Wrote(Owner, InProgress, version, Applied)))
    ensures var claim := Do(who, Wrote(Owner, InProgress, version, Applied));
            SafeFrom(WorldAfter(w, claim)) <==> Undisturbed(w, claim)
  {
    var claim := Do(who, Wrote(Owner, InProgress, version, Applied));
    var after := WorldAfter(w, claim);
    if Undisturbed(w, claim) {
      DoKeepsWorldInv(w, who, claim.ev);
      forall acts | Reach(after, acts, ReadBefore).Some?
        ensures AtMostOneClaims(Reach(after, acts, ReadBefore).value)
      {
        OneClaimExcludesOthers(after, who, acts);
      }
    } else {
      var j :| j in w.locals && j != who && w.locals[j].own.Unrefreshed? && w.locals[j].fsm != Cancelled;
      assert InStep(w, j) && !w.locals[j].claimed;
      AppliedPut(w, who, claim.ev);
      SecondClaimSucceeds(View(w.locals[j], after.row));
      TwoClaims(after, who, j, SecondClaim(View(w.locals[j], after.row)));
      assert !SafeFrom(after);
    }
  }

  // A job rebuilt from the record of its own claim: dispatched, its three saves skipped, then processed.
  function Rebuilt(version: int): View {
    View(Fresh(version), Some(Row(InProgress, version)))
  }

  function Redispatched(version: int): View {
    View(Missed(Fresh(version), 3).(fsm := Scheduled), Some(Row(InProgress, version)))
  }

  function Redispatch(version: int): seq<Ev> {
    var skip := Putting(Fresh(version).(fsm := Scheduled), Skipped);
    DISPATCHING + (skip + (skip + skip))
  }

  lemma {:induction false} ThreeSavesNothing(version: int)
    ensures var sent := View(Fresh(version).(fsm := Scheduled), Some(Row(InProgress, version)));
            var skip := Putting(sent.local, Skipped);
            Steps(sent, skip + (skip + skip)) == Some(Redispatched(version))
  {
    var sent := View(Fresh(version).(fsm := Scheduled), Some(Row(InProgress, version)));
    var once := sent.(local := Missed(sent.local, 1));
    var skip := Putting(sent.local, Skipped);
    SavesNothing(sent);
    TwoSavesNothing(once);
    StepsThen(sent, skip, skip + skip);
  }

  lemma {:induction false} TwoSavesNothing(v: View)
    requires Claimable(v) && v.row.value.status == InProgress && v.local.fsm == Scheduled && v.local.asking == Unasked
    ensures var skip := Putting(v.local, Skipped); Steps(v, skip + skip) == Some(v.(local := Missed(v.local, 2)))
  {
    var once := v.(local := Missed(v.local, 1));
    var skip := Putting(v.local, Skipped);
    SavesNothing(v);
    SavesNothing(once);
    StepsThen(v, skip, skip);
  }

  lemma {:induction false} Redispatches(version: int)
    ensures Steps(Rebuilt(version), Redispatch(version)) == Some(Redispatched(version))
  {
    var skip := Putting(Fresh(version).(fsm := Scheduled), Skipped);
    Dispatches(Rebuilt(version));
    ThreeSavesNothing(version);
    StepsThen(Rebuilt(version), DISPATCHING, skip + (skip + skip));
  }

  function Rerun(version: int): seq<Ev> {
    Redispatch(version) + Processing(Redispatched(version), Applied)
  }

  lemma {:induction false} RebuiltJobReclaims(version: int)
    ensures Steps(Rebuilt(version), Rerun(version)) == Some(AfterClaim(Looked(Redispatched(version)), Applied))
  {
    Redispatches(version);
    Processes(Redispatched(version), Applied);
    StepsThen(Rebuilt(version), Redispatch(version), Processing(Redispatched(version), Applied));
  }

  // Exact for rebuilt jobs: once a job is claimed and its row is InProgress, rebuilding it from a record is safe
  // against everything that may follow if and only if that record is older than the row.
  lemma {:induction false} RebuildIsSafeExactlyWhenReadBefore(w: World, i: nat, who: nat, version: int)
    requires WorldInv(w) && i in w.locals && w.locals[i].claimed && w.row.Some? && w.row.value.status == InProgress
    requires JoinAllowed(w, who, version)
    ensures SafeFrom(WorldAfter(w, Join(who, version))) <==> version < w.row.value.version
  {
    var after := WorldAfter(w, Join(who, version));
    if version < w.row.value.version {
      JoinKeepsWorldInv(w, who, version);
      forall acts | Reach(after, acts, ReadBefore).Some?
        ensures AtMostOneClaims(Reach(after, acts, ReadBefore).value)
      {
        OneClaimExcludesOthers(after, i, acts);
      }
    } else {
      RebuiltJobReclaims(version);
      TwoClaims(after, i, who, Rerun(version));
      assert !SafeFrom(after);
    }
  }

  // What goes wrong otherwise, with no other instance taking a step meanwhile: a job rebuilt from the record of its
  // own claim is claimed a second time and starts its workflows.
  function RerunAndStart(version: int): seq<Ev> {
    Rerun(version) + Starts(AfterClaim(Looked(Redispatched(version)), Applied))
  }

  lemma {:induction false} RebuiltJobStarts(version: int)
    ensures var end := Steps(Rebuilt(version), RerunAndStart(version)); end.Some? && end.value.local.claimed
  {
    var reclaimed := AfterClaim(Looked(Redispatched(version)), Applied);
    RebuiltJobReclaims(version);
    StartsFirst(reclaimed);
    StepsThen(Rebuilt(version), Rerun(version), Starts(reclaimed));
  }

  function RunAgain(who: nat, version: int): seq<Act> {
    [Join(who, version)] + Acts(who, RerunAndStart(version))
  }

  lemma ReachOne(w: World, a: Act, rule: Rule)
    requires Possible(w, a) && Keeps(rule, w, a)
    ensures Reach(w, [a], rule) == Some(WorldAfter(w, a))
  {
    assert [a][..0] == [];
  }

  lemma {:induction false} RebuiltJobRunsAgain(w: World, i: nat, who: nat)
    requires i in w.locals && w.locals[i].claimed && who !in w.locals
    requires w.row.Some? && w.row.value.status == InProgress
    ensures var acts := RunAgain(who, w.row.value.version);
            && acts[|acts| - 1] == Do(who, Started(0))
            && Reach(w, acts, Anything).Some? && !AtMostOneClaims(Reach(w, acts, Anything).value)
  {
    var version := w.row.value.version;
    var joined := WorldAfter(w, Join(who, version));
    RebuiltJobStarts(version);
    StepsReach(joined, who, RerunAndStart(version), Anything);
    ReachOne(w, Join(who, version), Anything);
    ReachThen(w, [Join(who, version)], Acts(who, RerunAndStart(version)), Anything);
    var end := Reach(w, RunAgain(who, version), Anything).value;
    assert end.locals[i].claimed && end.locals[who].claimed;
  }

  // A job that has been dispatched is processed and starts its first workflow.
  function RunNow(v: View): seq<Ev>
    requires v.row.Some?
  {
    Processing(v, Applied) + Starts(AfterClaim(Looked(v), Applied))
  }

  lemma {:induction false} RunsNow(v: View)
    requires Claimable(v) && v.local.fsm == Scheduled && v.local.work.started == 0
    ensures var end := Steps(v, RunNow(v));
            end.Some? && end.value.local.claimed && end.value.row == Some(Row(InProgress, v.local.version + 1))
    ensures RunNow(v)[|RunNow(v)| - 1] == Started(0)
  {
    Processes(v, Applied);
    StartsFirst(AfterClaim(Looked(v), Applied));
    StepsThen(v, Processing(v, Applied), Starts(AfterClaim(Looked(v), Applied)));
  }

  // ---- A claim in the middle of a save ----

  // A world with one more passage played in it.
  lemma {:induction false} Continues(w: World, acts: seq<Act>, who: nat, evs: seq<Ev>)
    requires Reach(w, acts, Anything).Some? && who in Reach(w, acts, Anything).value.locals
    requires var mid := Reach(w, acts, Anything).value; Steps(View(mid.locals[who], mid.row), evs).Some?
    ensures var mid := Reach(w, acts, Anything).value;
            var end := Steps(View(mid.locals[who], mid.row), evs).value;
            Reach(w, acts + Acts(who, evs), Anything) == Some(World(end.row, mid.locals[who := end.local]))
  {
    StepsReach(Reach(w, acts, Anything).value, who, evs, Anything);
    ReachThen(w, acts, Acts(who, evs), Anything);
  }

  lemma {:induction false} Joins(w: World, acts: seq<Act>, who: nat, version: int)
    requires Reach(w, acts, Anything).Some? && JoinAllowed(Reach(w, acts, Anything).value, who, version)
    ensures Reach(w, acts + [Join(who, version)], Anything) ==
            Some(WorldAfter(Reach(w, acts, Anything).value, Join(who, version)))
  {
    ReachOne(Reach(w, acts, Anything).value, Join(who, version), Anything);
    ReachThen(w, acts, [Join(who, version)], Anything);
  }

  // A job that is scheduled and has just put that, at first or over the record it was rebuilt from.
  function Put(version: int): Local {
    Fresh(version).(fsm := Scheduled, own := Unrefreshed(Scheduled), sawRow := true,
                   tally := NO_TALLY.(stored := 1))
  }

  function PutScheduled(version: int): seq<Ev> {
    DISPATCHING + Putting(Fresh(version).(fsm := Scheduled), Applied)
  }

  lemma {:induction false} PutsScheduled(v: View)
    requires v.local == Fresh(v.local.version) && (v.row.None? || v.row == Some(Row(Scheduled, v.local.version)))
    ensures Steps(v, PutScheduled(v.local.version)) ==
            Some(View(Put(v.local.version),
                      Some(Row(Scheduled, if v.row.None? then v.local.version else v.local.version + 1))))
  {
    var sent := v.(local := v.local.(fsm := Scheduled));
    Dispatches(v);
    StoresScheduled(sent);
    StepsThen(v, DISPATCHING, Putting(sent.local, Applied));
  }

  // From its put on, an instance takes over whatever version the row now has, and runs.
  function Caught(l: Local, row: Row): View {
    View(l.(own := Quiet, version := row.version), Some(row))
  }

  function CatchUpAndRun(l: Local, row: Row): seq<Ev> {
    Refreshing(View(l, Some(row))) + RunNow(Caught(l, row))
  }

  lemma {:induction false} CatchesUpAndRuns(l: Local, row: Row)
    requires l.own.Unrefreshed? && Claimable(Caught(l, row)) && l.fsm == Scheduled && l.work.started == 0
    ensures var end := Steps(View(l, Some(row)), CatchUpAndRun(l, row));
            end.Some? && end.value.local.claimed && end.value.row == Some(Row(InProgress, row.version + 1))
    ensures CatchUpAndRun(l, row)[|CatchUpAndRun(l, row)| - 1] == Started(0)
  {
    Refreshes(View(l, Some(row)));
    RunsNow(Caught(l, row));
    StepsThen(View(l, Some(row)), Refreshing(View(l, Some(row))), RunNow(Caught(l, row)));
  }

  // Instance 0 has put Scheduled but not yet refreshed its version when instance 1 is dispatched and claims the job.
  // The refresh then hands instance 0 the version of that claim, and its own InProgress write is applied as well.
  function TornPuts(): seq<Act> {
    [Join(0, 1)] + Acts(0, PutScheduled(1)) + [Join(1, 1)] + Acts(1, PutScheduled(1))
  }

  function TornSave(): seq<Act> {
    TornPuts() + Acts(1, FIRST_RUN) + Acts(0, SECOND_RUN)
  }

  const NOTHING: World := World(None, map[])

  lemma {:induction false} PutsFirst()
    ensures Reach(NOTHING, [Join(0, 1)] + Acts(0, PutScheduled(1)), Anything) ==
            Some(World(Some(Row(Scheduled, 1)), map[0 := Put(1)]))
  {
    ReachOne(NOTHING, Join(0, 1), Anything);
    PutsScheduled(View(Fresh(1), None));
    Continues(NOTHING, [Join(0, 1)], 0, PutScheduled(1));
    assert map[][0 := Fresh(1)][0 := Put(1)] == map[0 := Put(1)];
  }

  lemma {:induction false} PutsAreTorn()
    ensures Reach(NOTHING, TornPuts(), Anything) ==
            Some(World(Some(Row(Scheduled, 2)), map[0 := Put(1), 1 := Put(1)]))
  {
    PutsFirst();
    var first := [Join(0, 1)] + Acts(0, PutScheduled(1));
    Joins(NOTHING, first, 1, 1);
    PutsScheduled(View(Fresh(1), Some(Row(Scheduled, 1))));
    Continues(NOTHING, first + [Join(1, 1)], 1, PutScheduled(1));
    assert Reach(NOTHING, TornPuts(), Anything).value.locals == map[0 := Put(1), 1 := Put(1)];
  }

  const FIRST_RUN: seq<Ev> := CatchUpAndRun(Put(1), Row(Scheduled, 2))

  const SECOND_RUN: seq<Ev> := CatchUpAndRun(Put(1), Row(InProgress, 3))

  lemma {:induction false} FirstRuns()
    ensures var w := Reach(NOTHING, TornPuts() + Acts(1, FIRST_RUN), Anything);
            w.Some? && w.value.row == Some(Row(InProgress, 3)) && w.value.locals.Keys == {0, 1} &&
            w.value.locals[0] == Put(1) && w.value.locals[1].claimed
    ensures FIRST_RUN[|FIRST_RUN| - 1] == Started(0)
  {
    PutsAreTorn();
    CatchesUpAndRuns(Put(1), Row(Scheduled, 2));
    Continues(NOTHING, TornPuts(), 1, FIRST_RUN);
  }

  lemma {:induction false} SecondRuns()
    ensures var w := Reach(NOTHING, TornSave(), Anything);
            w.Some? && w.value.locals.Keys == {0, 1} && w.value.locals[0].claimed && w.value.locals[1].claimed
    ensures SECOND_RUN[|SECOND_RUN| - 1] == Started(0)
  {
    FirstRuns();
    CatchesUpAndRuns(Put(1), Row(InProgress, 3));
    Continues(NOTHING, TornPuts() + Acts(1, FIRST_RUN), 0, SECOND_RUN);
  }

  lemma {:induction false} TornSaveRunsTwice()
    ensures Reach(NOTHING, TornSave(), Anything).Some?
    ensures !AtMostOneClaims(Reach(NOTHING, TornSave(), Anything).value)
    ensures Do(1, Started(0)) in TornSave() && Do(0, Started(0)) in TornSave()
    ensures Reach(NOTHING, TornSave(), Careful).None?
  {
    FirstRuns();
    SecondRuns();
    var i, j := |TornPuts() + Acts(1, FIRST_RUN)| - 1, |TornSave()| - 1;
    assert TornSave()[i] == Do(1, Started(0)) && TornSave()[j] == Do(0, Started(0));
    if Reach(NOTHING, TornSave(), Careful).Some? {
      AtMostOneInstanceRuns(None, TornSave(), i, j);
    }
  }

  // ---- A cancel in the middle of a decision ----

  // The claim raises and the worker finds the job not cancelled. CANCEL is accepted, its save raises; Failed is forced
  // over it, that save raises too, and the job goes back to the channel as Scheduled. The next time it runs.
  function OverwriteCancel(version: int): seq<Ev> {
    [Checked(Forcing), Fired(CANCEL), Took(Canceller), Wrote(Canceller, Cancelled, version, Raised), ForcedFailed]
  }

  function GoBack(version: int): seq<Ev> {
    [Took(Owner), Wrote(Owner, Failed, version, Raised), RolledBack(Scheduled), Sent]
  }

  lemma {:induction false} OverwritesCancel(v: View)
    requires Idle(v.local) && v.local.fsm == InProgress && v.local.target.Some? && v.local.theirs.Quiet?
    ensures Steps(v, OverwriteCancel(v.local.version)) ==
            Some(v.(local := v.local.(fsm := Failed, tally := v.local.tally.(lost := true))))
  {
    var l1 := v.local.(window := Forcing);
    var l2 := l1.(fsm := Cancelled);
    var l3 := l2.(theirs := Taken(Cancelled, v.local.version));
    StepsAlong([v, v.(local := l1), v.(local := l2), v.(local := l3), v.(local := l2),
                v.(local := v.local.(fsm := Failed, tally := v.local.tally.(lost := true)))],
               OverwriteCancel(v.local.version));
  }

  lemma {:induction false} GoesBack(v: View)
    requires Idle(v.local) && v.local.fsm == Failed && v.local.target == Some(Scheduled)
    ensures Steps(v, GoBack(v.local.version)) ==
            Some(v.(local := Missed(v.local, 1).(fsm := Scheduled, target := None, asking := Unasked)))
  {
    var l1 := v.local.(own := Taken(Failed, v.local.version), asking := Unasked);
    var l2 := Missed(v.local, 1).(window := Restoring, asking := Unasked);
    var l3 := l2.(fsm := Scheduled, target := None, window := Resending);
    StepsAlong([v, v.(local := l1), v.(local := l2), v.(local := l3), v.(local := l3.(window := Closed))],
               GoBack(v.local.version));
  }

  // The job after it went back: as it was, but for what it has seen and for the cancel it has lost.
  function Uncancelled(v: View): View
    requires v.row.Some?
  {
    v.(local := v.local.(sawRow := true, target := None, asking := Unasked, lastSeen := Some(v.row.value.status),
                         tally := v.local.tally.(lost := true, failed := v.local.tally.failed + 2)))
  }

  function LoseCancel(v: View): seq<Ev> {
    Processing(v, Raised) + (OverwriteCancel(v.local.version) + GoBack(v.local.version))
  }

  lemma {:induction false} LosesCancelOnceRunning(v: View)
    requires Idle(v.local) && v.local.fsm == InProgress && v.local.target == Some(Scheduled) && v.local.theirs.Quiet?
    ensures var lost := v.local.(fsm := Scheduled, target := None, asking := Unasked,
                                 tally := v.local.tally.(lost := true, failed := v.local.tally.failed + 1));
            Steps(v, OverwriteCancel(v.local.version) + GoBack(v.local.version)) == Some(v.(local := lost))
  {
    var failed := v.(local := v.local.(fsm := Failed, tally := v.local.tally.(lost := true)));
    OverwritesCancel(v);
    GoesBack(failed);
    StepsThen(v, OverwriteCancel(v.local.version), GoBack(v.local.version));
  }

  // The claim raises: the view is a constant from here on.
  lemma {:induction false} ClaimRaises(v: View) returns (c: View)
    requires Claimable(v) && v.local.fsm == Scheduled
    ensures Steps(v, Processing(v, Raised)) == Some(c) && Claimable(c) && c.row == v.row
    ensures c.local.version == v.local.version && c.local.theirs == v.local.theirs && c.local.sawRow
    ensures c.local.fsm == InProgress && c.local.target == Some(Scheduled)
    ensures c.local == Missed(v.local, 1).(fsm := InProgress, target := Some(Scheduled), sawRow := true,
                                           asking := Unasked, lastSeen := Some(v.row.value.status))
  {
    Processes(v, Raised);
    c := AfterClaim(Looked(v), Raised);
  }

  lemma {:induction false} LosesCancel(v: View)
    requires Claimable(v) && v.local.fsm == Scheduled && v.local.theirs.Quiet?
    ensures Steps(v, LoseCancel(v)) == Some(Uncancelled(v))
  {
    var c := ClaimRaises(v);
    LosesCancelOnceRunning(c);
    StepsThen(v, Processing(v, Raised), OverwriteCancel(v.local.version) + GoBack(v.local.version));
  }

  function LoseCancelAndRun(v: View): seq<Ev>
    requires v.row.Some?
  {
    LoseCancel(v) + RunNow(Uncancelled(v))
  }

  // From every Scheduled job in step with a Scheduled or InProgress row that is about to be processed: an accepted
  // CANCEL, and later a workflow that starts.
  lemma {:induction false} LostCancelRuns(v: View)
    requires Claimable(v) && v.local.fsm == Scheduled && v.local.theirs.Quiet? && v.local.work.started == 0
    ensures Steps(v, LoseCancelAndRun(v)).Some?
    ensures var evs := LoseCancelAndRun(v); Fired(CANCEL) in evs && evs[|evs| - 1] == Started(0)
  {
    LosesCancel(v);
    RunsNow(Uncancelled(v));
    StepsThen(v, LoseCancel(v), RunNow(Uncancelled(v)));
    assert Fired(CANCEL) in OverwriteCancel(v.local.version) by {
      assert OverwriteCancel(v.local.version)[1] == Fired(CANCEL);
    }
    assert Fired(CANCEL) in LoseCancel(v);
  }

  // The same, but the cancel is stored before it is overwritten: the job is Failed over a row that is Cancelled.
  function OverwriteStoredCancel(version: int): seq<Ev> {
    [Checked(Forcing), Fired(CANCEL), Took(Canceller), Wrote(Canceller, Cancelled, version, Applied),
     Refreshed(Canceller, version + 1), ForcedFailed]
  }

  function OverStoredCancel(v: View): View {
    View(v.local.(fsm := Failed, version := v.local.version + 1, tally := v.local.tally.(lost := true)),
         Some(Row(Cancelled, v.local.version + 1)))
  }

  lemma {:induction false} OverwritesStoredCancel(v: View)
    requires Claimable(v) && v.local.fsm == InProgress && v.local.target.Some? && v.local.theirs.Quiet? && v.local.sawRow
    ensures Steps(v, OverwriteStoredCancel(v.local.version)) == Some(OverStoredCancel(v))
  {
    var version := v.local.version;
    var row := Some(Row(Cancelled, version + 1));
    FenceIsTheLifecycleOrder(v.row.value.status, Cancelled);
    var l1 := v.local.(window := Forcing);
    var l2 := l1.(fsm := Cancelled);
    var l3 := l2.(theirs := Taken(Cancelled, version));
    var l4 := l2.(theirs := Unrefreshed(Cancelled));
    var l5 := l2.(version := version + 1);
    StepsAlong([v, v.(local := l1), v.(local := l2), v.(local := l3), View(l4, row), View(l5, row), OverStoredCancel(v)],
               OverwriteStoredCancel(version));
  }

  // The Failed snapshot is skipped; the job goes back, its send is refused, it is Failed again, and again skipped.
  function GiveUp(version: int): seq<Ev> {
    [Took(Owner), Wrote(Owner, Failed, version, Skipped), RolledBack(Scheduled), ForcedFailed] +
    [Took(Owner), Wrote(Owner, Failed, version, Skipped)]
  }

  function GivenUp(v: View): View {
    v.(local := Missed(v.local, 2).(target := None, asking := Unasked))
  }

  lemma {:induction false} GivesUp(v: View)
    requires Idle(v.local) && v.local.fsm == Failed && v.local.target == Some(Scheduled)
    requires v.row == Some(Row(Cancelled, v.local.version))
    ensures Steps(v, GiveUp(v.local.version)) == Some(GivenUp(v))
  {
    var version := v.local.version;
    FenceIsTheLifecycleOrder(Cancelled, Failed);
    var l1 := v.local.(own := Taken(Failed, version), asking := Unasked);
    var l2 := Missed(v.local, 1).(window := Restoring, asking := Unasked);
    var l3 := l2.(fsm := Scheduled, target := None, window := Resending);
    var l4 := l2.(target := None, window := Closed);
    var l5 := l4.(own := Taken(Failed, version));
    var back := [Took(Owner), Wrote(Owner, Failed, version, Skipped), RolledBack(Scheduled), ForcedFailed];
    StepsAlong([v, v.(local := l1), v.(local := l2), v.(local := l3), v.(local := l4)], back);
    StepsAlong([v.(local := l4), v.(local := l5), GivenUp(v)], [Took(Owner), Wrote(Owner, Failed, version, Skipped)]);
    StepsThen(v, back, [Took(Owner), Wrote(Owner, Failed, version, Skipped)]);
  }

  // "Retry the save" is not enough then: the job ends Failed, and every further save of it is skipped and leaves the
  // row Cancelled.
  function EndOutOfStep(v: View): seq<Ev> {
    Processing(v, Raised) +
    (OverwriteStoredCancel(v.local.version) + GiveUp(v.local.version + 1))
  }

  // Failed over a Cancelled row: a save is skipped, and changes neither the row nor the state.
  predicate OutOfStep(v: View) {
    && v.local.fsm == Failed && v.row == Some(Row(Cancelled, v.local.version))
    && !MayPut(v.row, Failed, v.local.version)
    && Steps(v, Putting(v.local, Skipped)) == Some(v.(local := Missed(v.local, 1)))
  }

  lemma {:induction false} FailedIsSkipped(v: View)
    requires Idle(v.local) && v.local.fsm == Failed && v.local.target.None? && v.local.asking == Unasked
    requires v.row == Some(Row(Cancelled, v.local.version))
    ensures OutOfStep(v)
  {
    FenceIsTheLifecycleOrder(Cancelled, Failed);
    var mid := View(v.local.(own := Taken(Failed, v.local.version)), v.row);
    StepsAlong([v, mid, v.(local := Missed(v.local, 1))], Putting(v.local, Skipped));
  }

  lemma {:induction false} StoredAndOverwritten(v: View) returns (o: View)
    requires Claimable(v) && v.local.fsm == InProgress && v.local.target == Some(Scheduled) && v.local.theirs.Quiet?
    requires v.local.sawRow
    ensures Steps(v, OverwriteStoredCancel(v.local.version)) == Some(o)
    ensures Idle(o.local) && o.local.fsm == Failed && o.local.target == Some(Scheduled)
    ensures o.local.version == v.local.version + 1 && o.row == Some(Row(Cancelled, o.local.version))
  {
    OverwritesStoredCancel(v);
    o := OverStoredCancel(v);
  }

  lemma {:induction false} GivesUpForGood(v: View) returns (end: View)
    requires Idle(v.local) && v.local.fsm == Failed && v.local.target == Some(Scheduled)
    requires v.row == Some(Row(Cancelled, v.local.version))
    ensures Steps(v, GiveUp(v.local.version)) == Some(end) && OutOfStep(end)
  {
    GivesUp(v);
    end := GivenUp(v);
    FailedIsSkipped(end);
  }

  lemma {:induction false} EndsOnceRunning(v: View) returns (end: View)
    requires Claimable(v) && v.local.fsm == InProgress && v.local.target == Some(Scheduled) && v.local.theirs.Quiet?
    requires v.local.sawRow
    ensures Steps(v, OverwriteStoredCancel(v.local.version) + GiveUp(v.local.version + 1)) == Some(end)
    ensures OutOfStep(end)
  {
    var o := StoredAndOverwritten(v);
    end := GivesUpForGood(o);
    StepsToStep(v, o, end, OverwriteStoredCancel(v.local.version), GiveUp(v.local.version + 1));
  }

  lemma {:induction false} ClaimHasRaised(v: View) returns (c: View)
    requires Claimable(v) && v.local.fsm == Scheduled
    ensures Steps(v, Processing(v, Raised)) == Some(c) && Claimable(c)
    ensures c.local.version == v.local.version && c.local.theirs == v.local.theirs && c.local.sawRow
    ensures c.local.fsm == InProgress && c.local.target == Some(Scheduled)
  {
    c := ClaimRaises(v);
  }

  lemma {:induction false} StoredCancelEndsOutOfStep(v: View) returns (end: View)
    requires Claimable(v) && v.local.fsm == Scheduled && v.local.theirs.Quiet?
    ensures Steps(v, EndOutOfStep(v)) == Some(end) && OutOfStep(end)
  {
    var c := ClaimHasRaised(v);
    end := EndsOnceRunning(c);
    AfterProcessing(v, c, end);
  }

  lemma {:induction false} AfterProcessing(v: View, c: View, end: View)
    requires Steps(v, Processing(v, Raised)) == Some(c)
    requires Steps(c, OverwriteStoredCancel(v.local.version) + GiveUp(v.local.version + 1)) == Some(end)
    ensures Steps(v, EndOutOfStep(v)) == Some(end)
  {
    StepsToStep(v, c, end, Processing(v, Raised), OverwriteStoredCancel(v.local.version) + GiveUp(v.local.version + 1));
  }
}
