/** Serialising the workflows of a job and rebuilding them (`scheduler/job.py`, `scheduler/task.py`). */
module Payload {
  import opened Wrappers

  datatype Tag = Tag(key: string, value: string)

  // `executorId == ""` stands for a task without executor id; `executor` is an opaque reference to the executor.
  datatype Task = Task(
    id: string, channelId: string, dagId: string, fingerprint: string, name: string, category: string,
    description: string, tags: seq<Tag>, executorId: string, executor: Option<nat>,
    roundTimeout: int, roundTimeoutJoin: int, roundTimes: int, version: int,
    retryCount: int, retryDelay: int, retryUntilCompleted: bool, retryUntilMax: int, optional: bool)

  type Workflow = seq<Task>

  // A dictionary of a stored payload: a missing key, or a key holding null, is None. A required key that holds null
  // counts as present: the loader reads it as the text `None`.
  datatype TaskSpec = TaskSpec(
    id: Option<string>, channelId: Option<string>, dagId: Option<string>, fingerprint: Option<string>,
    name: Option<string>, category: Option<string>, description: Option<string>, tags: Option<seq<Tag>>,
    executorId: Option<string>, roundTimeout: Option<int>, roundTimeoutJoin: Option<int>,
    roundTimes: Option<int>, version: Option<int>, retryCount: Option<int>, retryDelay: Option<int>,
    retryUntilCompleted: Option<bool>, retryUntilMax: Option<int>, optional: Option<bool>)

  type Payload = seq<seq<TaskSpec>>

  datatype LoadError = MissingExecutorId | MissingKey | UnknownExecutor | InvalidTask

  datatype Loaded<+T> = Ok(value: T) | Err(error: LoadError)

  // The identifiers the library generates are never empty.
  type Uuid = s: string | s != "" witness "u"

  const DEFAULT_RETRY_UNTIL_MAX := 1000

  function SpecOf(t: Task): TaskSpec {
    TaskSpec(
      Some(t.id), Some(t.channelId), Some(t.dagId), Some(t.fingerprint), Some(t.name), Some(t.category),
      Some(t.description), Some(t.tags), Some(t.executorId), Some(t.roundTimeout), Some(t.roundTimeoutJoin),
      Some(t.roundTimes), Some(t.version), Some(t.retryCount), Some(t.retryDelay),
      Some(t.retryUntilCompleted), Some(t.retryUntilMax), Some(t.optional))
  }

  predicate AllNamed(ws: seq<Workflow>) {
    forall i, j :: 0 <= i < |ws| && 0 <= j < |ws[i]| ==> ws[i][j].executorId != ""
  }

  function SpecsOf(w: Workflow): seq<TaskSpec> {
    seq(|w|, j requires 0 <= j < |w| => SpecOf(w[j]))
  }

  // What is stored: nothing when there is no workflow or when one task cannot be named.
  function PayloadOf(ws: seq<Workflow>): Option<Payload> {
    if ws == [] || !AllNamed(ws) then None
    else Some(seq(|ws|, i requires 0 <= i < |ws| => SpecsOf(ws[i])))
  }

  // The `x or default` of the loader: a missing or zero number takes the default.
  function OrInt(x: Option<int>, default: int): int {
    if x.None? || x.value == 0 then default else x.value
  }

  // The argument checks of the Task constructor.
  predicate Constructible(t: Task) {
    t.retryUntilMax >= 1 && t.roundTimes >= 1 && t.roundTimeout >= 0 && t.roundTimeoutJoin >= 0 &&
    t.retryCount >= 0 && t.retryDelay >= 0
  }

  function Load(s: TaskSpec, registry: map<string, nat>, newId: Uuid): Loaded<Task> {
    if s.executorId.None? || s.executorId.value == "" then Err(MissingExecutorId)
    else if s.channelId.None? || s.dagId.None? || s.fingerprint.None? || s.name.None? || s.category.None? then
      Err(MissingKey)
    else if s.executorId.value !in registry then Err(UnknownExecutor)
    else
      var t := Task(
        if s.id.None? || s.id.value == "" then newId else s.id.value,
        s.channelId.value, s.dagId.value, s.fingerprint.value, s.name.value, s.category.value,
        if s.description.None? then "" else s.description.value,
        if s.tags.None? then [] else s.tags.value,
        s.executorId.value, Some(registry[s.executorId.value]),
        OrInt(s.roundTimeout, 0), OrInt(s.roundTimeoutJoin, 0), OrInt(s.roundTimes, 1), OrInt(s.version, 1),
        OrInt(s.retryCount, 0), OrInt(s.retryDelay, 0),
        s.retryUntilCompleted.Some? && s.retryUntilCompleted.value,
        OrInt(s.retryUntilMax, DEFAULT_RETRY_UNTIL_MAX), s.optional.Some? && s.optional.value);
      if Constructible(t) then Ok(t) else Err(InvalidTask)
  }

  predicate NotNegative(n: Option<int>) {
    n.None? || n.value >= 0
  }

  // A task is rebuilt exactly when it names a registered executor, has its five keys and holds no negative number
  // other than its version; otherwise the first of these that it lacks is the error.
  lemma {:induction false} LoadsExactlyWhen(s: TaskSpec, registry: map<string, nat>, newId: Uuid)
    ensures var named := s.executorId.Some? && s.executorId.value != "";
            var keyed := s.channelId.Some? && s.dagId.Some? && s.fingerprint.Some? && s.name.Some? && s.category.Some?;
            var sized := NotNegative(s.roundTimeout) && NotNegative(s.roundTimeoutJoin) && NotNegative(s.roundTimes) &&
                         NotNegative(s.retryCount) && NotNegative(s.retryDelay) && NotNegative(s.retryUntilMax);
            var r := Load(s, registry, newId);
            && (r == Err(MissingExecutorId) <==> !named)
            && (r == Err(MissingKey) <==> named && !keyed)
            && (r == Err(UnknownExecutor) <==> named && keyed && s.executorId.value !in registry)
            && (r == Err(InvalidTask) <==> named && keyed && s.executorId.value in registry && !sized)
            && (r.Ok? <==> named && keyed && s.executorId.value in registry && sized)
  {
  }

  // All that a task needs to have stored, and what it is then rebuilt as.
  lemma {:induction false} LoadsFromRequiredKeys(
    channelId: string, dagId: string, fingerprint: string, name: string, category: string, executorId: string,
    registry: map<string, nat>, newId: Uuid)
    requires executorId != "" && executorId in registry
    ensures Load(TaskSpec(None, Some(channelId), Some(dagId), Some(fingerprint), Some(name), Some(category), None, None,
                          Some(executorId), None, None, None, None, None, None, None, None, None), registry, newId) ==
            Ok(Task(newId, channelId, dagId, fingerprint, name, category, "", [], executorId, Some(registry[executorId]),
                    0, 0, 1, 1, 0, 0, false, 1000, false))
  {
  }

  // A number stored as zero is as good as absent, and so is an empty id.
  lemma {:induction false} ZeroIsAbsent(s: TaskSpec, registry: map<string, nat>, newId: Uuid)
    ensures var absent := (n: Option<int>) => if n == Some(0) then None else n;
            Load(s, registry, newId) ==
            Load(s.(id := if s.id == Some("") then None else s.id, version := absent(s.version),
                    roundTimeout := absent(s.roundTimeout), roundTimeoutJoin := absent(s.roundTimeoutJoin),
                    roundTimes := absent(s.roundTimes), retryCount := absent(s.retryCount),
                    retryDelay := absent(s.retryDelay), retryUntilMax := absent(s.retryUntilMax)), registry, newId)
  {
  }

  // The loops of `_workflows_payload`, with their early exit.
  method WorkflowsPayload(ws: seq<Workflow>) returns (p: Option<Payload>)
    ensures p == PayloadOf(ws)
  {
    if ws == [] {
      return None;
    }
    var workflowsOut: Payload := [];
    for i := 0 to |ws|
      invariant |workflowsOut| == i
      invariant forall k :: 0 <= k < i ==> workflowsOut[k] == SpecsOf(ws[k])
      invariant AllNamed(ws[..i])
    {
      var tasksOut: seq<TaskSpec> := [];
      for j := 0 to |ws[i]|
        invariant |tasksOut| == j
        invariant forall k :: 0 <= k < j ==> tasksOut[k] == SpecOf(ws[i][k])
        invariant forall k :: 0 <= k < j ==> ws[i][k].executorId != ""
      {
        if ws[i][j].executorId == "" {
          return None;
        }
        tasksOut := tasksOut + [SpecOf(ws[i][j])];
      }
      workflowsOut := workflowsOut + [tasksOut];
    }
    assert ws[..|ws|] == ws;
    assert workflowsOut == PayloadOf(ws).value;
    return Some(workflowsOut);
  }

  ghost predicate LoadsBefore(p: Payload, registry: map<string, nat>, newIds: (nat, nat) -> Uuid, i: nat, j: nat) {
    forall a: nat, b: nat :: a < |p| && b < |p[a]| && (a < i || (a == i && b < j)) ==>
                               Load(p[a][b], registry, newIds(a, b)).Ok?
  }

  // All tasks loaded, in their places; or the first task that does not load, and its error.
  ghost predicate LoadedInOrder(p: Payload, registry: map<string, nat>, newIds: (nat, nat) -> Uuid,
                                r: Loaded<seq<Workflow>>)
  {
    match r
    case Ok(ws) =>
      && |ws| == |p|
      && (forall i: nat :: i < |p| ==> |ws[i]| == |p[i]|)
      && (forall i: nat, j: nat :: i < |p| && j < |p[i]| ==> Load(p[i][j], registry, newIds(i, j)) == Ok(ws[i][j]))
    case Err(e) =>
      exists i: nat, j: nat :: i < |p| && j < |p[i]| && Load(p[i][j], registry, newIds(i, j)) == Err(e) &&
                               LoadsBefore(p, registry, newIds, i, j)
  }

  // The loops of `_workflows_from_payload`.
  method WorkflowsFromPayload(p: Payload, registry: map<string, nat>, newIds: (nat, nat) -> Uuid)
    returns (r: Loaded<seq<Workflow>>)
    ensures LoadedInOrder(p, registry, newIds, r)
  {
    var workflows: seq<Workflow> := [];
    for i := 0 to |p|
      invariant |workflows| == i
      invariant forall a: nat :: a < i ==> |workflows[a]| == |p[a]|
      invariant forall a: nat, b: nat :: a < i && b < |p[a]| ==>
                                           Load(p[a][b], registry, newIds(a, b)) == Ok(workflows[a][b])
    {
      var workflow: Workflow := [];
      for j := 0 to |p[i]|
        invariant |workflow| == j
        invariant forall b: nat :: b < j ==> Load(p[i][b], registry, newIds(i, b)) == Ok(workflow[b])
      {
        var task := Load(p[i][j], registry, newIds(i, j));
        if task.Err? {
          assert LoadsBefore(p, registry, newIds, i, j);
          return Err(task.error);
        }
        workflow := workflow + [task.value];
      }
      workflows := workflows + [workflow];
    }
    return Ok(workflows);
  }

  // A task that survives storage: named by a registered executor, with an id, a non-zero version
  // and fields that the constructor accepts.
  predicate Restorable(t: Task, registry: map<string, nat>) {
    t.executorId != "" && t.executorId in registry && t.id != "" && t.version != 0 && Constructible(t)
  }

  function Resolved(t: Task, registry: map<string, nat>): Task {
    if t.executorId in registry then t.(executor := Some(registry[t.executorId])) else t
  }

  function ResolvedAll(ws: seq<Workflow>, registry: map<string, nat>): seq<Workflow> {
    seq(|ws|, i requires 0 <= i < |ws| => seq(|ws[i]|, j requires 0 <= j < |ws[i]| => Resolved(ws[i][j], registry)))
  }

  predicate AllRestorable(ws: seq<Workflow>, registry: map<string, nat>) {
    forall i, j :: 0 <= i < |ws| && 0 <= j < |ws[i]| ==> Restorable(ws[i][j], registry)
  }

  lemma TaskRoundTrip(t: Task, registry: map<string, nat>, newId: Uuid)
    ensures Load(SpecOf(t), registry, newId) == Ok(Resolved(t, registry)) <==> Restorable(t, registry)
  {
  }

  // What rebuilding a stored payload gives: an absent payload leaves the job without workflows.
  ghost predicate Rebuilt(p: Option<Payload>, registry: map<string, nat>, newIds: (nat, nat) -> Uuid,
                          r: Loaded<seq<Workflow>>)
  {
    if p.None? then r == Ok([]) else LoadedInOrder(p.value, registry, newIds, r)
  }

  lemma {:induction false} RestorableIsRebuilt(ws: seq<Workflow>, registry: map<string, nat>, newIds: (nat, nat) -> Uuid,
                                               r: Loaded<seq<Workflow>>)
    requires Rebuilt(PayloadOf(ws), registry, newIds, r) && AllRestorable(ws, registry)
    ensures r == Ok(ResolvedAll(ws, registry))
  {
    forall i: nat, j: nat | i < |ws| && j < |ws[i]|
      ensures Load(SpecOf(ws[i][j]), registry, newIds(i, j)) == Ok(Resolved(ws[i][j], registry))
    {
      TaskRoundTrip(ws[i][j], registry, newIds(i, j));
    }
    var rs: seq<seq<Task>> := ResolvedAll(ws, registry);
    if PayloadOf(ws).Some? {
      var p := PayloadOf(ws).value;
      assert forall i: nat, j: nat :: i < |ws| && j < |ws[i]| ==> p[i][j] == SpecOf(ws[i][j]);
      assert r.Ok?;
      forall i: nat | i < |ws|
        ensures r.value[i] == rs[i]
      {
        assert forall j: nat :: j < |ws[i]| ==> r.value[i][j] == rs[i][j];
      }
    }
    assert r.value == rs;
  }

  // Storing and rebuilding gives back every workflow and task, in order, with executors resolved by id,
  // exactly when every task is restorable; storing the result again then gives the same payload.
  lemma {:induction false} PayloadRoundTrip(ws: seq<Workflow>, registry: map<string, nat>, newIds: (nat, nat) -> Uuid,
                                            r: Loaded<seq<Workflow>>)
    requires Rebuilt(PayloadOf(ws), registry, newIds, r)
    ensures r == Ok(ResolvedAll(ws, registry)) <==> AllRestorable(ws, registry)
    ensures AllRestorable(ws, registry) ==> PayloadOf(r.value) == PayloadOf(ws)
  {
    var p := PayloadOf(ws);
    if AllRestorable(ws, registry) {
      RestorableIsRebuilt(ws, registry, newIds, r);
      ResolvingKeepsThePayload(ws, registry);
    } else if p.Some? {
      var i: nat, j: nat :| i < |ws| && j < |ws[i]| && !Restorable(ws[i][j], registry);
      TaskRoundTrip(ws[i][j], registry, newIds(i, j));
      assert p.value[i][j] == SpecOf(ws[i][j]);
    }
  }

  lemma {:induction false} ResolvingKeepsThePayload(ws: seq<Workflow>, registry: map<string, nat>)
    ensures PayloadOf(ResolvedAll(ws, registry)) == PayloadOf(ws)
  {
    var rs: seq<seq<Task>> := ResolvedAll(ws, registry);
    assert forall i, j :: 0 <= i < |ws| && 0 <= j < |ws[i]| ==> rs[i][j].executorId == ws[i][j].executorId;
    assert AllNamed(rs) <==> AllNamed(ws) by {
      if !AllNamed(ws) {
        var i, j :| 0 <= i < |ws| && 0 <= j < |ws[i]| && ws[i][j].executorId == "";
        assert rs[i][j].executorId == "";
      }
    }
    assert forall i :: 0 <= i < |ws| ==> SpecsOf(rs[i]) == SpecsOf(ws[i]);
    if ws != [] && AllNamed(ws) {
      assert PayloadOf(rs).value == PayloadOf(ws).value;
    }
  }
}
