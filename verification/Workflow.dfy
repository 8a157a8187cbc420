/** The workflow runner (`scheduler/workflow.py`): retries in rounds, and soft timeouts over a shared thread pool. */
module Workflow {
  import opened Wrappers
  import P = Payload

  // How one run of an executor ends; a value of None is Python's None.
  datatype Execution = Returned(value: Option<int>) | Raised

  datatype Failure = ExecuteFailed | TimedOutBeforeStart | StillRunning | StillRunningFromBefore

  // How one attempt at a task ends.
  datatype Attempt = Success(value: Option<int>) | Failed(error: Failure)

  function AttemptOf(e: Execution): Attempt {
    match e
    case Returned(v) => Success(v)
    case Raised => Failed(ExecuteFailed)
  }

  // ---- The pool: futures are only ever queued, running, finished or withdrawn ----

  datatype FutureState = Queued | Running | Finished(execution: Execution) | Withdrawn

  datatype Future = Future(task: string, state: FutureState)

  predicate Live(s: FutureState) {
    s in {Queued, Running}
  }

  // What the pool may do to a future: start it, finish it, or leave it alone.
  predicate Progresses(a: Future, b: Future) {
    a.task == b.task &&
    match a.state
    case Queued => b.state != Withdrawn
    case Running => b.state != Withdrawn && b.state != Queued
    case _ => b.state == a.state
  }

  // Later, whoever acts on it: a future that is over stays as it is, and one that has started is not withdrawn.
  predicate Evolves(a: Future, b: Future) {
    && a.task == b.task && (!Live(a.state) ==> b.state == a.state)
    && (a.state == Running ==> b.state == Running || b.state.Finished?)
  }

  predicate AllEvolve(before: seq<Future>, after: seq<Future>) {
    |before| <= |after| && forall f :: 0 <= f < |before| ==> Evolves(before[f], after[f])
  }

  // The future that an attempt submitted explains the attempt's result.
  predicate ExplainedBy(futures: seq<Future>, task: P.Task, f: nat, r: Attempt) {
    f < |futures| && futures[f].task == task.id &&
    match r
    case Success(v) => futures[f].state == Finished(Returned(v))
    case Failed(ExecuteFailed) => futures[f].state == Finished(Execution.Raised)
    case Failed(TimedOutBeforeStart) => futures[f].state == Withdrawn
    case Failed(StillRunning) =>
      futures[f].state.Finished? || (task.roundTimeoutJoin > 0 && futures[f].state == Running)
    case Failed(StillRunningFromBefore) => false
  }

  // Attempts at a task and the futures in this range that belong to it: each attempt that found no earlier execute
  // going has submitted one, which explains it; they come in the order of the attempts, and there are no others.
  predicate Backed(futures: seq<Future>, task: P.Task, low: nat, high: nat, own: seq<Attempt>, subs: seq<Option<nat>>) {
    && low <= high <= |futures| && |own| == |subs|
    && (forall k :: 0 <= k < |subs| ==> (subs[k].Some? <==> UsesPool(task) && own[k] != Failed(StillRunningFromBefore)))
    && (forall k :: 0 <= k < |subs| && subs[k].Some? ==>
                      low <= subs[k].value < high && ExplainedBy(futures, task, subs[k].value, own[k]))
    && (forall i, k :: 0 <= i < k < |subs| && subs[i].Some? && subs[k].Some? ==> subs[i].value < subs[k].value)
    && (forall f :: low <= f < high && futures[f].task == task.id ==> Some(f) in subs)
  }

  // What was explained by futures stays explained.
  lemma {:induction false} BackedStays(before: seq<Future>, after: seq<Future>, task: P.Task, low: nat, high: nat,
                                       own: seq<Attempt>, subs: seq<Option<nat>>)
    requires Backed(before, task, low, high, own, subs) && AllEvolve(before, after)
    ensures Backed(after, task, low, high, own, subs)
  {
  }

  lemma {:induction false} BackedGrows(before: seq<Future>, after: seq<Future>, task: P.Task, low: nat,
                                       own: seq<Attempt>, subs: seq<Option<nat>>, r: Attempt, f: Option<nat>)
    requires Backed(before, task, low, |before|, own, subs) && AllEvolve(before, after)
    requires f.Some? <==> UsesPool(task) && r != Failed(StillRunningFromBefore)
    requires f.Some? ==> |before| <= f.value && ExplainedBy(after, task, f.value, r)
    requires forall g :: |before| <= g < |after| && after[g].task == task.id ==> f == Some(g)
    ensures Backed(after, task, low, |after|, own + [r], subs + [f])
  {
    BackedStays(before, after, task, low, |before|, own, subs);
    assert (subs + [f])[|subs|] == f;
  }

  // No execute of this task is queued or running.
  predicate QuietIn(futures: seq<Future>, task: string) {
    forall f :: 0 <= f < |futures| && futures[f].task == task ==> !Live(futures[f].state)
  }

  // How an attempt ends that may leave an execute going.
  predicate Lingers(task: P.Task, r: Attempt) {
    r == Failed(StillRunningFromBefore) || (r == Failed(StillRunning) && task.roundTimeoutJoin > 0)
  }

  // An attempt only finds an earlier execute going when one was going at the start, or when the attempt before it may
  // have left one.
  predicate Linked(task: P.Task, quiet: bool, own: seq<Attempt>) {
    forall k :: 0 <= k < |own| ==> LinkedAt(task, quiet, own, k)
  }

  predicate LinkedAt(task: P.Task, quiet: bool, own: seq<Attempt>, k: nat)
    requires k < |own|
  {
    own[k] == Failed(StillRunningFromBefore) ==> if k == 0 then !quiet else Lingers(task, own[k - 1])
  }

  // From `base` on only this task has got new futures among these tasks; its attempts are linked, and an execute of
  // it is only going if the last of them may have left it.
  predicate Continuous(tasks: set<string>, base: seq<Future>, futures: seq<Future>, task: P.Task, own: seq<Attempt>) {
    && |base| <= |futures|
    && (forall f :: |base| <= f < |futures| && futures[f].task in tasks ==> futures[f].task == task.id)
    && Linked(task, QuietIn(base, task.id), own)
    && (QuietIn(futures, task.id) ||
        (if own == [] || !UsesPool(task) then !QuietIn(base, task.id) else Lingers(task, own[|own| - 1])))
  }

  lemma {:induction false} ContinuousGrows(tasks: set<string>, base: seq<Future>, before: seq<Future>, after: seq<Future>,
                                           task: P.Task, own: seq<Attempt>, r: Attempt)
    requires Continuous(tasks, base, before, task, own) && AllEvolve(before, after)
    requires forall f :: |before| <= f < |after| && after[f].task in tasks ==> after[f].task == task.id
    requires r == Failed(StillRunningFromBefore) ==> UsesPool(task) && !QuietIn(before, task.id)
    requires if UsesPool(task) then QuietIn(after, task.id) || Lingers(task, r)
             else QuietIn(before, task.id) ==> QuietIn(after, task.id)
    ensures Continuous(tasks, base, after, task, own + [r])
  {
    var quiet := QuietIn(base, task.id);
    forall k | 0 <= k < |own| + 1
      ensures LinkedAt(task, quiet, own + [r], k)
    {
      assert k < |own| ==> LinkedAt(task, quiet, own, k);
    }
  }

  // With an unbounded join and nothing going at the start, no attempt finds an earlier execute going: each attempt at a
  // task that uses the pool is an execute of its own.
  lemma {:induction false} NoneFindsAnother(task: P.Task, own: seq<Attempt>, k: nat)
    requires Linked(task, true, own) && task.roundTimeoutJoin <= 0 && k < |own|
    ensures own[k] != Failed(StillRunningFromBefore)
  {
    assert LinkedAt(task, true, own, k);
    if k > 0 {
      NoneFindsAnother(task, own, k - 1);
    }
  }

  lemma {:induction false} EveryAttemptExecutes(
    futures: seq<Future>, task: P.Task, low: nat, high: nat, own: seq<Attempt>, subs: seq<Option<nat>>)
    requires Backed(futures, task, low, high, own, subs) && UsesPool(task)
    requires Linked(task, true, own) && task.roundTimeoutJoin <= 0
    ensures forall k :: 0 <= k < |own| ==> subs[k].Some? && ExplainedBy(futures, task, subs[k].value, own[k])
    ensures forall i, k :: 0 <= i < k < |own| ==> subs[i].value < subs[k].value
  {
    forall k | 0 <= k < |own|
      ensures subs[k].Some?
    {
      NoneFindsAnother(task, own, k);
    }
  }

  // An execute made by the calling thread itself.
  datatype DirectCall = DirectCall(task: string, execution: Execution)

  // The execute that a direct attempt was.
  function ExecutionOf(r: Attempt): Execution {
    match r
    case Success(v) => Returned(v)
    case Failed(_) => Execution.Raised
  }

  predicate UsesPool(task: P.Task) {
    task.executor.Some? && task.roundTimeout > 0
  }

  predicate CallsDirectly(task: P.Task) {
    task.executor.Some? && task.roundTimeout <= 0
  }

  class Pool {
    var futures: seq<Future>
    var inflight: map<string, nat>
    ghost var direct: seq<DirectCall>   // executes of the tasks being run that bypass the pool

    // Of each of these tasks, at most one execute is queued or running, and it is the one in flight.
    ghost predicate Solo(tasks: set<string>)
      reads this
    {
      && (forall t :: t in tasks && t in inflight ==> inflight[t] < |futures| && futures[inflight[t]].task == t)
      && (forall f :: 0 <= f < |futures| && futures[f].task in tasks && Live(futures[f].state) ==>
                        futures[f].task in inflight && inflight[futures[f].task] == f)
    }

    // No two executes of one of these tasks are queued or running.
    ghost predicate NoOverlap(tasks: set<string>)
      reads this
    {
      forall f, g :: 0 <= f < g < |futures| && futures[f].task == futures[g].task && futures[f].task in tasks ==>
                       !Live(futures[f].state) || !Live(futures[g].state)
    }

    // No execute of this task is queued or running.
    ghost predicate Quiet(task: string)
      reads this
    {
      QuietIn(futures, task)
    }

    ghost function QuietAmong(tasks: set<string>): set<string>
      reads this
    {
      set t | t in tasks && Quiet(t)
    }

    // Futures only progress, and the new ones belong to other tasks.
    twostate predicate Progressed(tasks: set<string>)
      reads this
    {
      && |old(futures)| <= |futures|
      && (forall f :: 0 <= f < |old(futures)| ==> Progresses(old(futures)[f], futures[f]))
      && (forall f :: |old(futures)| <= f < |futures| ==> futures[f].task !in tasks)
    }

    // Nor does the calling thread make an execute itself.
    twostate predicate OnlyProgress(tasks: set<string>)
      reads this
    {
      Progressed(tasks) && direct == old(direct)
    }

    // The futures there were are still there, and evolve.
    twostate predicate Grows()
      reads this
    {
      AllEvolve(old(futures), futures)
    }

    // No new futures of these tasks.
    twostate predicate Same(tasks: set<string>)
      reads this
    {
      Grows() && direct == old(direct) && forall f :: |old(futures)| <= f < |futures| ==> futures[f].task !in tasks
    }

    // The one new future of these tasks is f, of this task, or there is none.
    twostate predicate Submits(tasks: set<string>, task: P.Task, new f: Option<nat>)
      reads this
    {
      && Grows() && (f.Some? ==> |old(futures)| <= f.value < |futures| && futures[f.value].task == task.id)
      && forall g :: |old(futures)| <= g < |futures| && futures[g].task in tasks ==> f == Some(g)
    }

    twostate predicate SameInflight(tasks: set<string>)
      reads this
    {
      forall t :: t in tasks ==>
                    (t in inflight <==> t in old(inflight)) && (t in inflight ==> inflight[t] == old(inflight)[t])
    }

    // Time passes: the pool starts and finishes futures, other threads make attempts at other tasks.
    // These are the moments at which executes run, so the precondition is the promise that they never overlap.
    method Elapse(tasks: set<string>)
      requires NoOverlap(tasks)
      modifies this
      ensures OnlyProgress(tasks) && SameInflight(tasks)
    {
      var later: seq<Future> := *;
      var others: map<string, nat> := *;
      if |futures| <= |later|
         && (forall f :: 0 <= f < |futures| ==> Progresses(futures[f], later[f]))
         && (forall f :: |futures| <= f < |later| ==> later[f].task !in tasks)
         && (forall t :: t in tasks ==> (t in inflight <==> t in others))
         && (forall t :: t in tasks && t in inflight ==> others[t] == inflight[t])
      {
        futures, inflight := later, others;
      }
    }

    // Wait without a bound for a future that has not been withdrawn.
    method AwaitDone(tasks: set<string>, f: nat)
      requires f < |futures| && futures[f].state != Withdrawn && NoOverlap(tasks)
      modifies this
      ensures OnlyProgress(tasks) && SameInflight(tasks) && futures[f].state.Finished?
    {
      Elapse(tasks);
      if Live(futures[f].state) {
        var e: Execution := *;
        futures := futures[f := Future(futures[f].task, Finished(e))];
      }
    }

    predicate Done(f: nat)
      requires f < |futures|
      reads this
    {
      !Live(futures[f].state)
    }

    // Only ever called when no execute of the task is queued or running.
    method Submit(task: string) returns (f: nat)
      requires Quiet(task)
      modifies this
      ensures f == |old(futures)| && futures == old(futures) + [Future(task, Queued)]
      ensures inflight == old(inflight) && direct == old(direct)
    {
      f := |futures|;
      futures := futures + [Future(task, Queued)];
    }

    // Only a future that has not started can be cancelled.
    method CancelFuture(f: nat) returns (cancelled: bool)
      requires f < |futures| && futures[f].state != Withdrawn
      modifies this
      ensures inflight == old(inflight) && direct == old(direct) && (cancelled <==> old(futures)[f].state == Queued)
      ensures futures == if cancelled then old(futures)[f := old(futures)[f].(state := Withdrawn)] else old(futures)
    {
      cancelled := futures[f].state == Queued;
      if cancelled {
        futures := futures[f := futures[f].(state := Withdrawn)];
      }
    }

    // The `finally` clause: a future that is done is no longer in flight.
    method Settle(task: string, f: nat)
      requires f < |futures|
      modifies this
      ensures futures == old(futures) && direct == old(direct)
      ensures inflight == if old(Done(f)) then old(inflight) - {task} else old(inflight)
    {
      if Done(f) {
        inflight := inflight - {task};
      }
    }

    // One attempt. `tasks` are the tasks of the workflow being run: nobody else makes attempts at them meanwhile.
    // `f` is the future that was submitted, if any.
    method ExecuteOnce(task: P.Task, tasks: set<string>) returns (r: Attempt, ghost f: Option<nat>)
      requires task.id in tasks && Solo(tasks)
      modifies this
      ensures Solo(tasks) && Submits(tasks, task, f)
      // While an earlier execute is still going, nothing is submitted. Otherwise exactly one execute of the task is
      // submitted, and it determines the result.
      ensures UsesPool(task) ==> (f.None? <==> !old(Quiet(task.id))) && (f.None? <==> r == Failed(StillRunningFromBefore))
      ensures f.Some? ==> ExplainedBy(futures, task, f.value, r)
      ensures UsesPool(task) && f.None? ==> futures == old(futures) && inflight == old(inflight)
      // None is left behind, unless the join is bounded and the attempt reports a timeout.
      ensures UsesPool(task) ==> Quiet(task.id) || Lingers(task, r)
      // Without a timeout the calling thread makes the execute itself, and without an executor there is none.
      ensures !UsesPool(task) ==> f.None? && Progressed(tasks) && SameInflight(tasks)
      ensures direct == old(direct) + if CallsDirectly(task) then [DirectCall(task.id, ExecutionOf(r))] else []
      ensures CallsDirectly(task) ==> r.Success? || r == Failed(ExecuteFailed)
      ensures task.executor.None? ==> r == Success(None)
    {
      if task.executor.None? {
        return Success(None), None;
      }
      if task.roundTimeout <= 0 {
        r := ExecuteDirectly(task, tasks);
        return r, None;
      }
      r, f := ExecuteInPool(task, tasks);
    }

    method ExecuteDirectly(task: P.Task, tasks: set<string>) returns (r: Attempt)
      requires task.id in tasks && Solo(tasks)
      modifies this
      ensures Solo(tasks) && Progressed(tasks) && SameInflight(tasks)
      ensures direct == old(direct) + [DirectCall(task.id, ExecutionOf(r))] && (r.Success? || r == Failed(ExecuteFailed))
    {
      Elapse(tasks);
      var e := CallExecutor(task.id);
      r := AttemptOf(e);
    }

    // The executor is foreign code. The log of direct calls is extended here alone.
    method CallExecutor(task: string) returns (e: Execution)
      modifies this`direct
      ensures direct == old(direct) + [DirectCall(task, e)]
    {
      e := *;
      direct := direct + [DirectCall(task, e)];
    }

    method ExecuteInPool(task: P.Task, tasks: set<string>) returns (r: Attempt, ghost f: Option<nat>)
      requires task.id in tasks && Solo(tasks)
      modifies this
      ensures Solo(tasks) && Submits(tasks, task, f) && direct == old(direct)
      ensures (f.None? <==> !old(Quiet(task.id))) && (f.None? <==> r == Failed(StillRunningFromBefore))
      ensures f.Some? ==> ExplainedBy(futures, task, f.value, r)
      ensures f.None? ==> futures == old(futures) && inflight == old(inflight)
      ensures Quiet(task.id) || Lingers(task, r)
    {
      if task.id in inflight {
        if !Done(inflight[task.id]) {
          return Failed(StillRunningFromBefore), None;
        }
        inflight := inflight - {task.id};
      }
      var future := SubmitAndRegister(task, tasks);
      r := AwaitResult(task, tasks, future);
      f := Some(future);
    }

    method SubmitAndRegister(task: P.Task, tasks: set<string>) returns (f: nat)
      requires task.id in tasks && Solo(tasks) && Quiet(task.id)
      modifies this
      ensures Solo(tasks) && task.id in inflight && inflight[task.id] == f && futures[f].state != Withdrawn
      ensures Submits(tasks, task, Some(f)) && direct == old(direct)
    {
      Elapse(tasks);
      f := Submit(task.id);
      Elapse(tasks);
      inflight := inflight[task.id := f];
    }

    // Wait for the future for `round_timeout` seconds, then cancel it, or join it.
    method AwaitResult(task: P.Task, tasks: set<string>, f: nat) returns (r: Attempt)
      requires task.id in tasks && Solo(tasks) && task.id in inflight && inflight[task.id] == f
      requires futures[f].state != Withdrawn
      modifies this
      ensures Solo(tasks) && ExplainedBy(futures, task, f, r) && Same(tasks)
      ensures Quiet(task.id) || Lingers(task, r)
    {
      Elapse(tasks);
      if Done(f) {
        r := AttemptOf(futures[f].state.execution);
        Settle(task.id, f);
        return;
      }
      r := AfterTimeout(task, tasks, f);
    }

    method AfterTimeout(task: P.Task, tasks: set<string>, f: nat) returns (r: Attempt)
      requires task.id in tasks && Solo(tasks) && task.id in inflight && inflight[task.id] == f
      requires futures[f].state != Withdrawn
      modifies this
      ensures Solo(tasks) && ExplainedBy(futures, task, f, r) && Same(tasks)
      ensures Quiet(task.id) || Lingers(task, r)
    {
      Elapse(tasks);
      if Done(f) {
        r := AttemptOf(futures[f].state.execution);
        Settle(task.id, f);
        return;
      }
      var cancelled := CancelFuture(f);
      if cancelled {
        inflight := inflight - {task.id};
        Settle(task.id, f);
        return Failed(TimedOutBeforeStart);
      }
      r := JoinStarted(task, tasks, f);
    }

    // The execute has started: take its result if it is just done, else join it and report a timeout.
    method JoinStarted(task: P.Task, tasks: set<string>, f: nat) returns (r: Attempt)
      requires task.id in tasks && Solo(tasks) && task.id in inflight && inflight[task.id] == f
      requires futures[f].state !in {Queued, Withdrawn}
      modifies this
      ensures Solo(tasks) && ExplainedBy(futures, task, f, r) && Same(tasks)
      ensures Quiet(task.id) || Lingers(task, r)
    {
      Elapse(tasks);
      if Done(f) {
        r := AttemptOf(futures[f].state.execution);
        Settle(task.id, f);
        return;
      }
      if task.roundTimeoutJoin > 0 {
        Elapse(tasks);
      } else {
        AwaitDone(tasks, f);
      }
      Settle(task.id, f);
      return Failed(StillRunning);
    }
  }

  // ---- Retries in rounds ----

  function Max(a: int, b: int): int {
    if a >= b then a else b
  }

  function AttemptsPerRound(task: P.Task): (n: nat)
    ensures n >= 1
  {
    if task.retryUntilCompleted && task.retryCount == 0 then Max(1, task.retryUntilMax)
    else Max(1, task.retryCount + 1)
  }

  function Rounds(task: P.Task): (n: nat)
    ensures n >= 1
  {
    Max(1, if task.roundTimes == 0 then 1 else task.roundTimes)
  }

  // rounds * perRound, one round at a time.
  function Times(rounds: nat, perRound: nat): nat {
    if rounds == 0 then 0 else Times(rounds - 1, perRound) + perRound
  }

  lemma {:induction false} TimesIsProduct(rounds: nat, perRound: nat)
    ensures Times(rounds, perRound) == rounds * perRound
  {
    if rounds > 0 {
      TimesIsProduct(rounds - 1, perRound);
    }
  }

  lemma {:induction false} TimesGrows(few: nat, many: nat, perRound: nat)
    requires few < many
    ensures Times(few, perRound) + perRound <= Times(many, perRound)
  {
    if few + 1 < many {
      TimesGrows(few, many - 1, perRound);
    }
  }

  // All attempts a task may get, over all rounds.
  function Budget(task: P.Task): (n: nat)
    ensures n >= 1
  {
    assert Times(0, AttemptsPerRound(task)) == 0;
    TimesGrows(0, Rounds(task), AttemptsPerRound(task));
    Times(Rounds(task), AttemptsPerRound(task))
  }

  datatype TaskResult = Result(value: Option<int>) | Exhausted(error: Failure)

  // The attempts of one task seen as one flat loop: it stops at the first success, and fails only when the
  // whole budget is spent.
  predicate FlatLoop(task: P.Task, attempts: seq<Attempt>) {
    && 1 <= |attempts| <= Budget(task)
    && (forall i :: 0 <= i < |attempts| - 1 ==> attempts[i].Failed?)
    && (|attempts| < Budget(task) ==> attempts[|attempts| - 1].Success?)
  }

  function ResultOf(task: P.Task, attempts: seq<Attempt>): TaskResult
    requires attempts != []
  {
    match attempts[|attempts| - 1]
    case Success(v) => Result(v)
    case Failed(e) => if task.optional then Result(None) else Exhausted(e)
  }

  function Failures(attempts: seq<Attempt>): nat
    requires attempts != []
  {
    if attempts[|attempts| - 1].Success? then |attempts| - 1 else |attempts|
  }

  // A failure is followed by a delay unless it is the last attempt of its round.
  function Delays(task: P.Task, failures: nat): int {
    if task.retryDelay == 0 then 0 else failures - failures / AttemptsPerRound(task)
  }

  lemma {:induction false} DivisionByRounds(n: nat, round: nat, attempt: nat)
    requires n >= 1 && attempt < n
    ensures (Times(round, n) + attempt) / n == round
  {
    TimesIsProduct(round, n);
    var q, m := (round * n + attempt) / n, (round * n + attempt) % n;
    var gap := q - round;
    assert gap * n == attempt - m && -gap * n == m - attempt;
    if gap >= 1 {
      MulPositive(gap, n);
    } else if gap <= -1 {
      MulPositive(-gap, n);
    }
  }

  lemma MulPositive(a: nat, b: nat)
    requires a >= 1 && b >= 1
    ensures a * b >= b
  {
    assert a * b == (a - 1) * b + b;
  }

  // The delay rule: one more failure is followed by a delay exactly when its round has attempts left.
  lemma {:induction false} DelayStep(task: P.Task, round: nat, attempt: nat)
    requires task.retryDelay != 0 && attempt < AttemptsPerRound(task)
    ensures var n := AttemptsPerRound(task);
            Delays(task, Times(round, n) + attempt + 1) ==
            Delays(task, Times(round, n) + attempt) + if attempt + 1 < n then 1 else 0
  {
    var n := AttemptsPerRound(task);
    DivisionByRounds(n, round, attempt);
    if attempt + 1 < n {
      DivisionByRounds(n, round, attempt + 1);
    } else {
      DivisionByRounds(n, round + 1, 0);
    }
  }

  // When every attempt fails there are rounds * attempts executes and rounds * (attempts - 1) delays.
  lemma {:induction false} ExhaustedDelays(task: P.Task)
    requires task.retryDelay != 0
    ensures Budget(task) == Rounds(task) * AttemptsPerRound(task)
    ensures Delays(task, Budget(task)) == Rounds(task) * AttemptsPerRound(task) - Rounds(task)
  {
    TimesIsProduct(Rounds(task), AttemptsPerRound(task));
    DivisionByRounds(AttemptsPerRound(task), Rounds(task), 0);
  }

  // The same from the fields of the task: `round_times` rounds of `retry_count + 1` attempts, or of `retry_until_max`
  // for a task that retries until it completes and has no retry count. A field that is too small counts as the
  // smallest that is not.
  lemma {:induction false} BudgetFromFields(task: P.Task)
    ensures var rounds := if task.roundTimes < 1 then 1 else task.roundTimes;
            && (!task.retryUntilCompleted || task.retryCount > 0 ==>
                  Budget(task) == rounds * if task.retryCount < 0 then 1 else task.retryCount + 1)
            && (task.retryUntilCompleted && task.retryCount == 0 ==>
                  Budget(task) == rounds * if task.retryUntilMax < 1 then 1 else task.retryUntilMax)
            && (task.retryUntilCompleted && task.retryCount < 0 ==> Budget(task) == rounds)
            && Delays(task, Budget(task)) == if task.retryDelay == 0 then 0 else Budget(task) - rounds
  {
    TimesIsProduct(Rounds(task), AttemptsPerRound(task));
    if task.retryDelay != 0 {
      ExhaustedDelays(task);
    }
  }

  function TotalDelays(tasks: seq<P.Task>, segments: seq<seq<Attempt>>): int
    requires Transcript(tasks, segments)
  {
    if segments == [] then 0
    else
      var n := |segments| - 1;
      TotalDelays(tasks, segments[..n]) + Delays(tasks[n], Failures(segments[n]))
  }

  // The attempts made at the first tasks of a workflow, task by task.
  predicate Transcript(tasks: seq<P.Task>, segments: seq<seq<Attempt>>) {
    |segments| <= |tasks| && forall i :: 0 <= i < |segments| ==> segments[i] != [] && FlatLoop(tasks[i], segments[i])
  }

  // The results of the first tasks are those of their attempts.
  predicate Explained(tasks: seq<P.Task>, segments: seq<seq<Attempt>>, results: seq<Option<int>>)
    requires Transcript(tasks, segments)
  {
    |results| <= |segments| &&
    forall i :: 0 <= i < |results| ==> ResultOf(tasks[i], segments[i]) == Result(results[i])
  }

  lemma {:induction false} TranscriptGrows(
    tasks: seq<P.Task>, segments: seq<seq<Attempt>>, results: seq<Option<int>>, own: seq<Attempt>)
    requires Transcript(tasks, segments) && Explained(tasks, segments, results) && |results| == |segments| < |tasks|
    requires own != [] && FlatLoop(tasks[|segments|], own)
    ensures Transcript(tasks, segments + [own])
    ensures TotalDelays(tasks, segments + [own]) ==
            TotalDelays(tasks, segments) + Delays(tasks[|segments|], Failures(own))
    ensures Explained(tasks, segments + [own], results)
    ensures var r := ResultOf(tasks[|segments|], own);
            r.Result? ==> Explained(tasks, segments + [own], results + [r.value])
  {
    assert (segments + [own])[..|segments|] == segments;
  }

  // All these attempts failed, the last of them with this error.
  predicate AllFailed(own: seq<Attempt>, lastError: Option<Failure>) {
    (forall i :: 0 <= i < |own| ==> own[i].Failed?) &&
    lastError == if own == [] then None else Some(own[|own| - 1].error)
  }

  lemma {:induction false} FailsAgain(own: seq<Attempt>, lastError: Option<Failure>, outcome: Attempt)
    requires AllFailed(own, lastError) && outcome.Failed?
    ensures AllFailed(own + [outcome], Some(outcome.error))
  {
  }

  lemma {:induction false} SucceedsFlat(task: P.Task, own: seq<Attempt>, lastError: Option<Failure>, outcome: Attempt)
    requires AllFailed(own, lastError) && outcome.Success? && |own| < Budget(task)
    ensures FlatLoop(task, own + [outcome]) && ResultOf(task, own + [outcome]) == Result(outcome.value)
    ensures Failures(own + [outcome]) == |own|
  {
  }

  lemma {:induction false} ExhaustsFlat(task: P.Task, own: seq<Attempt>, lastError: Option<Failure>)
    requires AllFailed(own, lastError) && |own| == Budget(task)
    ensures FlatLoop(task, own) && Failures(own) == |own| && lastError.Some?
    ensures ResultOf(task, own) == if task.optional then Result(None) else Exhausted(lastError.value)
  {
  }

  // The direct executes that these attempts are.
  function DirectCalls(task: P.Task, own: seq<Attempt>): seq<DirectCall> {
    if CallsDirectly(task) then seq(|own|, k requires 0 <= k < |own| => DirectCall(task.id, ExecutionOf(own[k]))) else []
  }

  lemma OneMoreDirect(task: P.Task, own: seq<Attempt>, r: Attempt)
    ensures DirectCalls(task, own + [r]) ==
            DirectCalls(task, own) + if CallsDirectly(task) then [DirectCall(task.id, ExecutionOf(r))] else []
  {
  }

  function AllDirectCalls(tasks: seq<P.Task>, segments: seq<seq<Attempt>>): seq<DirectCall>
    requires |segments| <= |tasks|
  {
    if segments == [] then []
    else
      var n := |segments| - 1;
      AllDirectCalls(tasks, segments[..n]) + DirectCalls(tasks[n], segments[n])
  }

  // From the moment at which the pool held `base` and `calls`, these attempts are the executes of the task.
  ghost predicate Traced(pool: Pool, tasks: set<string>, base: seq<Future>, calls: seq<DirectCall>, task: P.Task,
                         own: seq<Attempt>, subs: seq<Option<nat>>)
    reads pool
  {
    && AllEvolve(base, pool.futures) && Backed(pool.futures, task, |base|, |pool.futures|, own, subs)
    && Continuous(tasks, base, pool.futures, task, own) && pool.direct == calls + DirectCalls(task, own)
  }

  // Where the executes of one task are in the pool.
  datatype Backing = Backing(low: nat, high: nat, subs: seq<Option<nat>>)

  // The attempts at the first tasks are, task by task, the executes in the pool from `low` on.
  predicate AllBacked(futures: seq<Future>, tasks: seq<P.Task>, segments: seq<seq<Attempt>>, backings: seq<Backing>,
                      low: nat)
    requires |segments| <= |tasks|
  {
    && |backings| == |segments|
    && (forall i :: 0 <= i < |backings| ==>
                      Backed(futures, tasks[i], backings[i].low, backings[i].high, segments[i], backings[i].subs))
    && (forall i :: 0 < i < |backings| ==> backings[i].low == backings[i - 1].high)
    && (if backings == [] then low == |futures| else backings[0].low == low && backings[|backings| - 1].high == |futures|)
  }

  lemma {:induction false} AllBackedGrows(
    before: seq<Future>, after: seq<Future>, tasks: seq<P.Task>, segments: seq<seq<Attempt>>, backings: seq<Backing>,
    low: nat, own: seq<Attempt>, subs: seq<Option<nat>>)
    requires |segments| < |tasks| && AllBacked(before, tasks, segments, backings, low) && AllEvolve(before, after)
    requires Backed(after, tasks[|segments|], |before|, |after|, own, subs)
    ensures AllBacked(after, tasks, segments + [own], backings + [Backing(|before|, |after|, subs)], low)
  {
    forall i | 0 <= i < |backings|
      ensures Backed(after, tasks[i], backings[i].low, backings[i].high, segments[i], backings[i].subs)
    {
      BackedStays(before, after, tasks[i], backings[i].low, backings[i].high, segments[i], backings[i].subs);
    }
  }

  // A run so far: its attempts and delays, its results, and the executes that the attempts are.
  datatype Story = Story(segments: seq<seq<Attempt>>, results: seq<Option<int>>, backings: seq<Backing>)

  // What the pool and the runner had counted when the run began, and the tasks of which no execute was going.
  datatype Start = Start(futures: nat, direct: seq<DirectCall>, delays: nat, quiet: set<string>)

  predicate Told(futures: seq<Future>, direct: seq<DirectCall>, delays: nat, tasks: seq<P.Task>, story: Story, start: Start)
  {
    && Transcript(tasks, story.segments) && Explained(tasks, story.segments, story.results)
    && AllBacked(futures, tasks, story.segments, story.backings, start.futures)
    && direct == start.direct + AllDirectCalls(tasks, story.segments)
    && delays == start.delays + TotalDelays(tasks, story.segments)
    && AllLinked(tasks, story.segments, start.quiet) && NoneStrays(futures, tasks, story.segments, start.quiet)
  }

  // One of the first n tasks has this id, and its last attempt may have left an execute going.
  predicate MayLinger(tasks: seq<P.Task>, segments: seq<seq<Attempt>>, n: nat, id: string)
    requires n <= |segments| <= |tasks|
  {
    exists j :: 0 <= j < n && tasks[j].id == id && segments[j] != [] && Lingers(tasks[j], segments[j][|segments[j]| - 1])
  }

  // The attempts of each task are linked, from the quiet start or from an earlier task of the same id.
  predicate AllLinked(tasks: seq<P.Task>, segments: seq<seq<Attempt>>, quiet: set<string>)
    requires |segments| <= |tasks|
  {
    forall i :: 0 <= i < |segments| ==>
                  Linked(tasks[i], tasks[i].id in quiet && !MayLinger(tasks, segments, i, tasks[i].id), segments[i])
  }

  // Executes are only going where one was at the start, or where an attempt may have left one.
  predicate NoneStrays(futures: seq<Future>, tasks: seq<P.Task>, segments: seq<seq<Attempt>>, quiet: set<string>)
    requires |segments| <= |tasks|
  {
    forall id :: id in quiet && !MayLinger(tasks, segments, |segments|, id) ==> QuietIn(futures, id)
  }

  lemma {:induction false} MayLingerGrows(tasks: seq<P.Task>, segments: seq<seq<Attempt>>, own: seq<Attempt>, n: nat,
                                          id: string)
    requires n <= |segments| < |tasks| && own != []
    ensures MayLinger(tasks, segments + [own], n, id) <==> MayLinger(tasks, segments, n, id)
    ensures MayLinger(tasks, segments + [own], |segments| + 1, id) <==>
            MayLinger(tasks, segments, |segments|, id) ||
            (tasks[|segments|].id == id && Lingers(tasks[|segments|], own[|own| - 1]))
  {
    var longer := segments + [own];
    assert forall j :: 0 <= j < |segments| ==> longer[j] == segments[j];
    assert longer[|segments|] == own;
  }

  lemma {:induction false} LinkedFromLess(task: P.Task, quiet: bool, still: bool, own: seq<Attempt>)
    requires Linked(task, quiet, own) && (still ==> quiet)
    ensures Linked(task, still, own)
  {
    forall k | 0 <= k < |own|
      ensures LinkedAt(task, still, own, k)
    {
      assert LinkedAt(task, quiet, own, k);
    }
  }

  lemma {:induction false} LinksGrow(
    before: seq<Future>, after: seq<Future>, tasks: seq<P.Task>, segments: seq<seq<Attempt>>, quiet: set<string>,
    ids: set<string>, own: seq<Attempt>)
    requires |segments| < |tasks| && own != [] && quiet <= ids && AllEvolve(before, after)
    requires AllLinked(tasks, segments, quiet) && NoneStrays(before, tasks, segments, quiet)
    requires Continuous(ids, before, after, tasks[|segments|], own)
    ensures AllLinked(tasks, segments + [own], quiet) && NoneStrays(after, tasks, segments + [own], quiet)
  {
    var n, longer := |segments|, segments + [own];
    forall i | 0 <= i <= n
      ensures Linked(tasks[i], tasks[i].id in quiet && !MayLinger(tasks, longer, i, tasks[i].id), longer[i])
    {
      MayLingerGrows(tasks, segments, own, i, tasks[i].id);
      if i == n {
        var still := tasks[n].id in quiet && !MayLinger(tasks, segments, n, tasks[n].id);
        LinkedFromLess(tasks[n], QuietIn(before, tasks[n].id), still, own);
      }
    }
    forall id | id in quiet && !MayLinger(tasks, segments + [own], n + 1, id)
      ensures QuietIn(after, id)
    {
      MayLingerGrows(tasks, segments, own, n, id);
    }
  }

  // When nothing is going at the start and every join is unbounded, no attempt of the whole run finds an earlier
  // execute going, so that each one is an execute of its own; and none is left going.
  lemma {:induction false} NothingLingers(tasks: seq<P.Task>, segments: seq<seq<Attempt>>, quiet: set<string>, i: nat)
    requires i <= |segments| <= |tasks| && AllLinked(tasks, segments, quiet)
    requires forall t :: t in tasks ==> t.id in quiet && t.roundTimeoutJoin <= 0
    ensures forall j, k :: 0 <= j < i && 0 <= k < |segments[j]| ==> segments[j][k] != Failed(StillRunningFromBefore)
    ensures forall id :: !MayLinger(tasks, segments, i, id)
  {
    if i > 0 {
      NothingLingers(tasks, segments, quiet, i - 1);
      var task, own := tasks[i - 1], segments[i - 1];
      assert task in tasks;
      forall k | 0 <= k < |own|
        ensures own[k] != Failed(StillRunningFromBefore)
      {
        NoneFindsAnother(task, own, k);
      }
    }
  }

  // The story with one more task in it; only a result lets it go on.
  function Longer(story: Story, own: seq<Attempt>, r: TaskResult, backing: Backing): Story {
    Story(story.segments + [own], if r.Result? then story.results + [r.value] else story.results,
          story.backings + [backing])
  }

  lemma {:induction false} ToldGrows(
    before: seq<Future>, direct: seq<DirectCall>, delays: nat, after: seq<Future>, tasks: seq<P.Task>, story: Story,
    start: Start, ids: set<string>, own: seq<Attempt>, subs: seq<Option<nat>>)
    requires |story.results| == |story.segments| < |tasks| && Told(before, direct, delays, tasks, story, start)
    requires start.quiet <= ids && Continuous(ids, before, after, tasks[|story.segments|], own)
    requires AllEvolve(before, after) && Backed(after, tasks[|story.segments|], |before|, |after|, own, subs)
    requires own != [] && FlatLoop(tasks[|story.segments|], own)
    requires delays + Delays(tasks[|story.segments|], Failures(own)) >= 0
    ensures var task := tasks[|story.segments|];
            Told(after, direct + DirectCalls(task, own), delays + Delays(task, Failures(own)), tasks,
                 Longer(story, own, ResultOf(task, own), Backing(|before|, |after|, subs)), start)
  {
    var segments, task := story.segments, tasks[|story.segments|];
    AllBackedGrows(before, after, tasks, segments, story.backings, start.futures, own, subs);
    TranscriptGrows(tasks, segments, story.results, own);
    DirectCallsGrow(start.direct, tasks, segments, own);
    LinksGrow(before, after, tasks, segments, start.quiet, ids, own);
  }

  lemma {:induction false} DirectCallsGrow(
    calls: seq<DirectCall>, tasks: seq<P.Task>, segments: seq<seq<Attempt>>, own: seq<Attempt>)
    requires |segments| < |tasks|
    ensures calls + AllDirectCalls(tasks, segments + [own]) ==
            calls + AllDirectCalls(tasks, segments) + DirectCalls(tasks[|segments|], own)
  {
    assert (segments + [own])[..|segments|] == segments;
    var earlier, mine := AllDirectCalls(tasks, segments), DirectCalls(tasks[|segments|], own);
    assert (calls + earlier) + mine == calls + (earlier + mine);
  }

  class Runner {
    const pool: Pool
    var delays: nat

    constructor (pool: Pool)
      ensures this.pool == pool && delays == 0
    {
      this.pool := pool;
      delays := 0;
    }

    // One attempt, as the next one of a task; time has passed since the one before.
    method TryOnce(task: P.Task, tasks: set<string>, ghost base: seq<Future>, ghost calls: seq<DirectCall>,
                   ghost own: seq<Attempt>, ghost subs: seq<Option<nat>>)
      returns (outcome: Attempt, ghost f: Option<nat>)
      requires task.id in tasks && pool.Solo(tasks) && Traced(pool, tasks, base, calls, task, own, subs)
      modifies pool
      ensures pool.Solo(tasks) && Traced(pool, tasks, base, calls, task, own + [outcome], subs + [f])
    {
      TimePasses(task, tasks, base, calls, own, subs);
      ghost var before := pool.futures;
      outcome, f := pool.ExecuteOnce(task, tasks);
      BackedGrows(before, pool.futures, task, |base|, own, subs, outcome, f);
      ContinuousGrows(tasks, base, before, pool.futures, task, own, outcome);
      OneMoreDirect(task, own, outcome);
    }

    method TimePasses(task: P.Task, tasks: set<string>, ghost base: seq<Future>, ghost calls: seq<DirectCall>,
                      ghost own: seq<Attempt>, ghost subs: seq<Option<nat>>)
      requires task.id in tasks && pool.Solo(tasks) && Traced(pool, tasks, base, calls, task, own, subs)
      modifies pool
      ensures pool.Solo(tasks) && Traced(pool, tasks, base, calls, task, own, subs)
    {
      ghost var before := pool.futures;
      pool.Elapse(tasks);
      BackedStays(before, pool.futures, task, |base|, |before|, own, subs);
    }

    // After a failed attempt, wait if the round has attempts left.
    method Pause(task: P.Task, ghost round: nat, attempt: nat, perRound: nat)
      requires attempt < perRound == AttemptsPerRound(task)
      modifies this
      ensures var n := Times(round, perRound) + attempt;
              delays == old(delays) + Delays(task, n + 1) - Delays(task, n)
    {
      if task.retryDelay != 0 {
        DelayStep(task, round, attempt);
      }
      if attempt + 1 < perRound && task.retryDelay != 0 {
        delays := delays + 1;
      }
    }

    lemma {:induction false} AllExecute(task: P.Task, tasks: set<string>, base: seq<Future>, calls: seq<DirectCall>,
                                        own: seq<Attempt>, subs: seq<Option<nat>>)
      requires Traced(pool, tasks, base, calls, task, own, subs)
      requires QuietIn(base, task.id) && task.roundTimeoutJoin <= 0 && own != []
      ensures pool.Quiet(task.id) && forall k :: 0 <= k < |own| ==> own[k] != Failed(StillRunningFromBefore)
    {
      forall k | 0 <= k < |own|
        ensures own[k] != Failed(StillRunningFromBefore)
      {
        NoneFindsAnother(task, own, k);
      }
    }

    // The nested loops of rounds and attempts, against the flat loop; `own` are the attempts, and each of them is an
    // execute of the task: a future of the pool or a direct call.
    method RunRounds(task: P.Task, tasks: set<string>)
      returns (r: TaskResult, ghost own: seq<Attempt>, ghost subs: seq<Option<nat>>)
      requires task.id in tasks && pool.Solo(tasks)
      modifies this, pool
      ensures pool.Solo(tasks) && Traced(pool, tasks, old(pool.futures), old(pool.direct), task, own, subs)
      ensures FlatLoop(task, own) && r == ResultOf(task, own)
      ensures delays == old(delays) + Delays(task, Failures(own))
    {
      var rounds := Rounds(task);
      var perRound := AttemptsPerRound(task);
      own, subs := [], [];
      ghost var base, calls := pool.futures, pool.direct;
      var lastError: Option<Failure> := None;
      DivisionByRounds(perRound, 0, 0);
      for round := 0 to rounds
        invariant pool.Solo(tasks) && Traced(pool, tasks, base, calls, task, own, subs)
        invariant |own| == Times(round, perRound) && AllFailed(own, lastError)
        invariant delays == old(delays) + Delays(task, |own|)
      {
        TimesGrows(round, rounds, perRound);
        for attempt := 0 to perRound
          invariant pool.Solo(tasks) && Traced(pool, tasks, base, calls, task, own, subs)
          invariant |own| == Times(round, perRound) + attempt && AllFailed(own, lastError)
          invariant delays == old(delays) + Delays(task, |own|)
          {
          var outcome;
          ghost var f;
          outcome, f := TryOnce(task, tasks, base, calls, own, subs);
          if outcome.Success? {
            SucceedsFlat(task, own, lastError, outcome);
          } else {
            FailsAgain(own, lastError, outcome);
          }
          own, subs := own + [outcome], subs + [f];
          if outcome.Success? {
            return Result(outcome.value), own, subs;
          }
          lastError := Some(outcome.error);
          Pause(task, round, attempt, perRound);
        }
      }
      ExhaustsFlat(task, own, lastError);
      if task.optional {
        return Result(None), own, subs;
      }
      return Exhausted(lastError.value), own, subs;
    }

    // One task: its loops, and what they come to when nothing is going at the start.
    method RunTask(task: P.Task, tasks: set<string>)
      returns (r: TaskResult, ghost own: seq<Attempt>, ghost subs: seq<Option<nat>>)
      requires task.id in tasks && pool.Solo(tasks)
      modifies this, pool
      ensures pool.Solo(tasks) && Traced(pool, tasks, old(pool.futures), old(pool.direct), task, own, subs)
      ensures FlatLoop(task, own) && r == ResultOf(task, own)
      ensures delays == old(delays) + Delays(task, Failures(own))
      // It stops at the first success, and its result is that of the last attempt.
      ensures own != [] && forall k :: 0 <= k < |own| - 1 ==> own[k].Failed?
      ensures match own[|own| - 1]
              case Success(v) => r == Result(v)
              case Failed(e) => r == if task.optional then Result(None) else Exhausted(e)
      // When all attempts fail, all that the task may get are made, with a delay after each but the last of a round.
      ensures own[|own| - 1].Failed? && task.roundTimes >= 1 && task.retryCount >= 0 &&
              !(task.retryUntilCompleted && task.retryCount == 0) ==>
                && |own| == task.roundTimes * (task.retryCount + 1)
                && delays == old(delays) + if task.retryDelay == 0 then 0 else |own| - task.roundTimes
      ensures own[|own| - 1].Failed? && task.roundTimes >= 1 && task.retryUntilCompleted && task.retryCount == 0 &&
              task.retryUntilMax >= 1 ==>
                && |own| == task.roundTimes * task.retryUntilMax
                && delays == old(delays) + if task.retryDelay == 0 then 0 else |own| - task.roundTimes
      // With an unbounded join and nothing going at the start every attempt is an execute, and none is left going.
      ensures old(pool.Quiet(task.id)) && task.roundTimeoutJoin <= 0 ==>
                pool.Quiet(task.id) && forall k :: 0 <= k < |own| ==> own[k] != Failed(StillRunningFromBefore)
    {
      ghost var base, calls := pool.futures, pool.direct;
      r, own, subs := RunRounds(task, tasks);
      BudgetFromFields(task);
      if QuietIn(base, task.id) && task.roundTimeoutJoin <= 0 {
        AllExecute(task, tasks, base, calls, own, subs);
      }
    }

    // One task of a workflow, after others.
    method RunNext(task: P.Task, ids: set<string>, ghost tasks: seq<P.Task>, ghost story: Story, ghost start: Start)
      returns (r: TaskResult, ghost longer: Story)
      requires |story.results| == |story.segments| < |tasks| && task == tasks[|story.segments|]
      requires task.id in ids && pool.Solo(ids) && start.quiet <= ids
      requires Told(pool.futures, pool.direct, delays, tasks, story, start)
      modifies this, pool
      ensures pool.Solo(ids) && Told(pool.futures, pool.direct, delays, tasks, longer, start)
      ensures exists own, backing :: own != [] && r == ResultOf(task, own) && longer == Longer(story, own, r, backing)
    {
      ghost var own, subs;
      ghost var before, direct, waited := pool.futures, pool.direct, delays;
      r, own, subs := RunTask(task, ids);
      ToldGrows(before, direct, waited, pool.futures, tasks, story, start, ids, own, subs);
      longer := Longer(story, own, r, Backing(|before|, |pool.futures|, subs));
    }

    // All tasks in order, one result each; the first exhausted task that is not optional aborts the run.
    // `ids` are the tasks nobody else makes attempts at meanwhile.
    method Run(tasks: seq<P.Task>, ids: set<string>)
      returns (results: seq<Option<int>>, error: Option<Failure>, ghost story: Story)
      requires pool.Solo(ids) && forall t :: t in tasks ==> t.id in ids
      modifies this, pool
      ensures pool.Solo(ids) && results == story.results
      // The results are those of the attempts, and the attempts are executes: futures of the pool, or direct calls.
      ensures Told(pool.futures, pool.direct, delays, tasks, story,
                   Start(old(|pool.futures|), old(pool.direct), old(delays), old(pool.QuietAmong(ids))))
      ensures error.None? ==> |results| == |story.segments| == |tasks|
      ensures error.Some? ==> |results| + 1 == |story.segments| && story.segments[|results|] != [] &&
                              ResultOf(tasks[|results|], story.segments[|results|]) == Exhausted(error.value)
    {
      results, error, story := [], None, Story([], [], []);
      ghost var start := Start(|pool.futures|, pool.direct, delays, pool.QuietAmong(ids));
      for i := 0 to |tasks|
        invariant pool.Solo(ids) && results == story.results && |results| == |story.segments| == i
        invariant Told(pool.futures, pool.direct, delays, tasks, story, start)
      {
        var r;
        r, story := RunNext(tasks[i], ids, tasks, story, start);
        if r.Exhausted? {
          return results, Some(r.error), story;
        }
        results := results + [r.value];
      }
    }
  }
}
