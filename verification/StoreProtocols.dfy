/**
 The multi-statement puts of the database backends (`scheduler/store/sql.py`, `scheduler/store/mongodb.py`).
 Each statement is one atomic effect on the table; statements of different clients interleave freely.
 */
module StoreProtocols {
  import opened Wrappers
  import opened Lifecycle
  import opened JobStore

  datatype Reply = Answer(applied: bool) | MissingDocument

  // UPDATE ... WHERE id = ? AND status IN (...) AND version = ?; true when a row matched.
  function GatedUpdate(rows: Rows, r: JobRecord): (Rows, bool) {
    if r.id in rows && rows[r.id].status in MayReplace(r.status) && rows[r.id].version == r.version then
      (rows[r.id := rows[r.id].(category := r.category, channelId := r.channelId, status := r.status,
       updated := r.updated, workflowCount := r.workflowCount, version := r.version + 1, payload := r.payload)], true)
    else (rows, false)
  }

  // INSERT; false on a duplicate key.
  function InsertRow(rows: Rows, r: JobRecord): (Rows, bool) {
    if r.id in rows then (rows, false) else (rows[r.id := r], true)
  }

  lemma {:induction false} MatchedUpdateIsPut(rows: Rows, r: JobRecord)
    requires Keyed(rows)
    ensures GatedUpdate(rows, r).1 ==> GatedUpdate(rows, r) == Put(rows, r)
    ensures InsertRow(rows, r).1 ==> InsertRow(rows, r) == Put(rows, r)
    ensures !GatedUpdate(rows, r).1 && !InsertRow(rows, r).1 ==> Put(rows, r) == (rows, false)
    ensures Keyed(Put(rows, r).0) && Evolves(rows, Put(rows, r).0)
  {
    OnePutClimbs(rows, r);
  }

  // ---- One put against arbitrary other clients ----

  // A connection to the shared table; between two of its statements any other clients may run theirs.
  class DbJobStore {
    var rows: Rows

    // Other clients run any number of statements, none of them a delete.
    method Interfere()
      requires Keyed(rows)
      modifies this
      ensures Keyed(rows) && Evolves(old(rows), rows)
    {
      OnlyClimbingIsReflexive(rows);
      var others: Rows := *;
      if Keyed(others) && Evolves(rows, others) {
        rows := others;
      }
    }

    method UpdateIfAllowed(r: JobRecord) returns (matched: bool)
      modifies this
      ensures (rows, matched) == GatedUpdate(old(rows), r)
    {
      matched := r.id in rows && rows[r.id].status in MayReplace(r.status) && rows[r.id].version == r.version;
      if matched {
        rows := rows[r.id := rows[r.id].(category := r.category, channelId := r.channelId, status := r.status,
        updated := r.updated, workflowCount := r.workflowCount, version := r.version + 1, payload := r.payload)];
      }
    }

    method Insert(r: JobRecord) returns (inserted: bool)
      modifies this
      ensures (rows, inserted) == InsertRow(old(rows), r)
    {
      inserted := r.id !in rows;
      if inserted {
        rows := rows[r.id := r];
      }
    }

    // The three statements of the SQL put. `at` is the table at the single moment the put takes effect.
    method SqlPut(r: JobRecord) returns (reply: Reply, ghost at: Rows)
      requires Keyed(rows)
      modifies this
      ensures Keyed(rows) && Keyed(at) && Evolves(old(rows), at)
      ensures reply == Answer(Put(at, r).1)
      ensures Evolves(Put(at, r).0, rows)
    {
      Interfere();
      at := rows;
      var updated := UpdateIfAllowed(r);
      MatchedUpdateIsPut(at, r);
      if !updated {
        Interfere();
        EvolvesIsTransitive(old(rows), at, rows);
        at := rows;
        updated := Insert(r);
        MatchedUpdateIsPut(at, r);
        if !updated {
          Interfere();
          EvolvesIsTransitive(old(rows), at, rows);
          at := rows;
          updated := UpdateIfAllowed(r);
          MatchedUpdateIsPut(at, r);
        }
      }
      Interfere();
      return Answer(updated), at;
    }

    // The Mongo put: the same statements, then a look-up that must find the document.
    method MongoPut(r: JobRecord) returns (reply: Reply, ghost at: Rows)
      requires Keyed(rows)
      modifies this
      ensures Keyed(rows) && Keyed(at) && Evolves(old(rows), at)
      ensures reply == Answer(Put(at, r).1)
      ensures Evolves(Put(at, r).0, rows)
    {
      Interfere();
      at := rows;
      var updated := UpdateIfAllowed(r);
      MatchedUpdateIsPut(at, r);
      if updated {
        Interfere();
        return Answer(true), at;
      }
      Interfere();
      EvolvesIsTransitive(old(rows), at, rows);
      at := rows;
      var inserted := Insert(r);
      MatchedUpdateIsPut(at, r);
      if inserted {
        Interfere();
        return Answer(true), at;
      }
      Interfere();
      EvolvesIsTransitive(old(rows), at, rows);
      at := rows;
      updated := UpdateIfAllowed(r);
      MatchedUpdateIsPut(at, r);
      Interfere();
      if updated {
        return Answer(true), at;
      }
      if r.id !in rows {
        return MissingDocument, at;
      }
      return Answer(false), at;
    }
  }

  lemma OnlyClimbingIsReflexive(rows: Rows)
    requires Keyed(rows)
    ensures Evolves(rows, rows)
  {
    HistoryOnlyClimbs(rows, []);
  }

  // ---- Any number of clients, interleaved statement by statement ----

  datatype Backend = Sql | Mongo

  datatype Stage = FirstUpdate | Insertion | SecondUpdate | Lookup

  datatype Call = Call(record: JobRecord, stage: Stage)

  datatype System = System(rows: Rows, calls: map<nat, Call>)

  datatype Action = Invoke(client: nat, record: JobRecord) | Statement(client: nat) | Delete(id: string)

  // What is seen of the store from outside: the calls of its clients, the answers they get, and deletes.
  datatype External =
    | Invoked(client: nat, record: JobRecord)
    | Replied(client: nat, reply: Reply)
    | Deleted(id: string)

  predicate Enabled(s: System, a: Action) {
    match a
    case Invoke(c, _) => c !in s.calls
    case Statement(c) => c in s.calls
    case Delete(_) => true
  }

  function Move(s: System, c: nat, rows: Rows, stage: Stage): (System, seq<External>)
    requires c in s.calls
  {
    (System(rows, s.calls[c := s.calls[c].(stage := stage)]), [])
  }

  function Answered(s: System, c: nat, rows: Rows, reply: Reply): (System, seq<External>) {
    (System(rows, s.calls - {c}), [Replied(c, reply)])
  }

  function RunStatement(b: Backend, s: System, c: nat): (System, seq<External>)
    requires c in s.calls
  {
    var r := s.calls[c].record;
    match s.calls[c].stage
    case FirstUpdate =>
      var (rows, matched) := GatedUpdate(s.rows, r);
      if matched then Answered(s, c, rows, Answer(true)) else Move(s, c, rows, Insertion)
    case Insertion =>
      var (rows, inserted) := InsertRow(s.rows, r);
      if inserted then Answered(s, c, rows, Answer(true)) else Move(s, c, rows, SecondUpdate)
    case SecondUpdate =>
      var (rows, matched) := GatedUpdate(s.rows, r);
      if matched then Answered(s, c, rows, Answer(true))
      else if b.Mongo? then Move(s, c, rows, Lookup)
      else Answered(s, c, rows, Answer(false))
    case Lookup =>
      Answered(s, c, s.rows, if r.id in s.rows then Answer(false) else MissingDocument)
  }

  function Step(b: Backend, s: System, a: Action): (System, seq<External>)
    requires Enabled(s, a)
  {
    match a
    case Invoke(c, r) => (s.(calls := s.calls[c := Call(r, FirstUpdate)]), [Invoked(c, r)])
    case Statement(c) => RunStatement(b, s, c)
    case Delete(id) => (s.(rows := s.rows - {id}), [Deleted(id)])
  }

  // A delete that meets no call of its id past a failed INSERT.
  predicate Timely(s: System, a: Action) {
    a.Delete? ==> forall c :: c in s.calls && s.calls[c].stage in {SecondUpdate, Lookup} ==> s.calls[c].record.id != a.id
  }

  // A run: the system it ends in and the external history, or None when an action was not possible.
  // With `timely`, an untimely delete is not possible either.
  function Run(b: Backend, s: System, actions: seq<Action>, timely: bool): Option<(System, seq<External>)> {
    if actions == [] then Some((s, []))
    else
      match Run(b, s, actions[..|actions| - 1], timely)
      case None => None
      case Some((mid, history)) =>
        var a := actions[|actions| - 1];
        if !Enabled(mid, a) || (timely && !Timely(mid, a)) then None
        else
          var (after, seen) := Step(b, mid, a);
          Some((after, history + seen))
  }

  // ---- The atomic store: every put takes effect in one step between its call and its answer ----

  datatype Operation = Waiting(record: JobRecord) | Effected(applied: bool)

  datatype Atomic = Atomic(rows: Rows, operations: map<nat, Operation>)

  datatype AtomicAction =
    | Begin(client: nat, record: JobRecord)
    | Effect(client: nat)
    | Return(client: nat)
    | Remove(id: string)

  predicate AtomicEnabled(s: Atomic, a: AtomicAction) {
    match a
    case Begin(c, _) => c !in s.operations
    case Effect(c) => c in s.operations && s.operations[c].Waiting?
    case Return(c) => c in s.operations && s.operations[c].Effected?
    case Remove(_) => true
  }

  function AtomicStep(s: Atomic, a: AtomicAction): (Atomic, seq<External>)
    requires AtomicEnabled(s, a)
  {
    match a
    case Begin(c, r) => (s.(operations := s.operations[c := Waiting(r)]), [Invoked(c, r)])
    case Effect(c) =>
      var (rows, applied) := Put(s.rows, s.operations[c].record);
      (Atomic(rows, s.operations[c := Effected(applied)]), [])
    case Return(c) =>
      (s.(operations := s.operations - {c}), [Replied(c, Answer(s.operations[c].applied))])
    case Remove(id) => (s.(rows := s.rows - {id}), [Deleted(id)])
  }

  function AtomicRun(s: Atomic, actions: seq<AtomicAction>): Option<(Atomic, seq<External>)> {
    if actions == [] then Some((s, []))
    else
      match AtomicRun(s, actions[..|actions| - 1])
      case None => None
      case Some((mid, history)) =>
        var a := actions[|actions| - 1];
        if !AtomicEnabled(mid, a) then None
        else
          var (after, seen) := AtomicStep(mid, a);
          Some((after, history + seen))
  }

  // ---- Forward simulation ----

  // Calls past a failed INSERT have a row: no delete is untimely.
  predicate Inv(s: System) {
    Keyed(s.rows) &&
    forall c :: c in s.calls && s.calls[c].stage in {SecondUpdate, Lookup} ==> s.calls[c].record.id in s.rows
  }

  function AbstractCall(call: Call): Operation {
    if call.stage == Lookup then Effected(false) else Waiting(call.record)
  }

  function Abstract(s: System): Atomic {
    Atomic(s.rows, map c | c in s.calls :: AbstractCall(s.calls[c]))
  }

  // The atomic steps that one concrete step stands for.
  function Witness(b: Backend, s: System, a: Action): seq<AtomicAction>
    requires Enabled(s, a)
  {
    match a
    case Invoke(c, r) => [Begin(c, r)]
    case Delete(id) => [Remove(id)]
    case Statement(c) =>
      var r := s.calls[c].record;
      match s.calls[c].stage
      case FirstUpdate => if GatedUpdate(s.rows, r).1 then [Effect(c), Return(c)] else []
      case Insertion => if InsertRow(s.rows, r).1 then [Effect(c), Return(c)] else []
      case SecondUpdate => if GatedUpdate(s.rows, r).1 || b.Sql? then [Effect(c), Return(c)] else [Effect(c)]
      case Lookup => [Return(c)]
  }

  function WitnessRun(b: Backend, s: System, actions: seq<Action>): seq<AtomicAction>
    requires Run(b, s, actions, true).Some?
  {
    if actions == [] then []
    else
      var earlier := actions[..|actions| - 1];
      WitnessRun(b, s, earlier) + Witness(b, Run(b, s, earlier, true).value.0, actions[|actions| - 1])
  }

  lemma {:induction false} StepKeepsInv(b: Backend, s: System, a: Action)
    requires Inv(s) && Enabled(s, a) && Timely(s, a)
    ensures Inv(Step(b, s, a).0)
  {
    if a.Statement? {
      MatchedUpdateIsPut(s.rows, s.calls[a.client].record);
    }
  }

  lemma RunOfOne(s: Atomic, a: AtomicAction)
    ensures AtomicEnabled(s, a) ==> AtomicRun(s, [a]) == Some(AtomicStep(s, a))
  {
    assert [a][..0] == [];
    assert AtomicEnabled(s, a) ==> [] + AtomicStep(s, a).1 == AtomicStep(s, a).1;
  }

  lemma RunOfTwo(s: Atomic, a: AtomicAction, b: AtomicAction)
    requires AtomicEnabled(s, a) && AtomicEnabled(AtomicStep(s, a).0, b)
    ensures AtomicRun(s, [a, b]) ==
            Some((AtomicStep(AtomicStep(s, a).0, b).0, AtomicStep(s, a).1 + AtomicStep(AtomicStep(s, a).0, b).1))
  {
    RunOfOne(s, a);
    assert [a, b][..1] == [a];
  }

  lemma {:induction false} AnsweredRefines(s: System, c: nat, rows: Rows, applied: bool)
    requires c in s.calls && s.calls[c].stage != Lookup
    requires Put(s.rows, s.calls[c].record) == (rows, applied)
    ensures AtomicRun(Abstract(s), [Effect(c), Return(c)]) ==
            Some((Abstract(Answered(s, c, rows, Answer(applied)).0), [Replied(c, Answer(applied))]))
  {
    var start := Abstract(s);
    RunOfTwo(start, Effect(c), Return(c));
    var effected := AtomicStep(start, Effect(c)).0;
    assert Abstract(System(rows, s.calls - {c})).operations == effected.operations - {c};
    assert [] + [Replied(c, Answer(applied))] == [Replied(c, Answer(applied))];
  }

  lemma {:induction false} MovedRefines(s: System, c: nat, stage: Stage)
    requires c in s.calls && s.calls[c].stage != Lookup
    ensures stage != Lookup ==> AtomicRun(Abstract(s), []) == Some((Abstract(Move(s, c, s.rows, stage).0), []))
    ensures stage == Lookup && Put(s.rows, s.calls[c].record) == (s.rows, false) ==>
              AtomicRun(Abstract(s), [Effect(c)]) == Some((Abstract(Move(s, c, s.rows, stage).0), []))
  {
    var start, after := Abstract(s), Abstract(Move(s, c, s.rows, stage).0);
    if stage == Lookup {
      RunOfOne(start, Effect(c));
      assert after.operations == start.operations[c := Effected(false)];
    } else {
      assert after.operations == start.operations;
    }
  }

  lemma {:induction false} LookupRefines(s: System, c: nat)
    requires c in s.calls && s.calls[c].stage == Lookup
    ensures AtomicRun(Abstract(s), [Return(c)]) ==
            Some((Abstract(Answered(s, c, s.rows, Answer(false)).0), [Replied(c, Answer(false))]))
  {
    var start := Abstract(s);
    RunOfOne(start, Return(c));
    assert Abstract(System(s.rows, s.calls - {c})).operations == start.operations - {c};
  }

  lemma {:induction false} StepRefines(b: Backend, s: System, a: Action)
    requires Inv(s) && Enabled(s, a) && Timely(s, a)
    ensures AtomicRun(Abstract(s), Witness(b, s, a)) == Some((Abstract(Step(b, s, a).0), Step(b, s, a).1))
  {
    match a
    case Invoke(c, r) =>
      var start := Abstract(s);
      RunOfOne(start, Begin(c, r));
      assert Abstract(Step(b, s, a).0).operations == start.operations[c := Waiting(r)];
    case Statement(c) =>
      var r := s.calls[c].record;
      MatchedUpdateIsPut(s.rows, r);
      match s.calls[c].stage {
        case FirstUpdate =>
          if GatedUpdate(s.rows, r).1 {
            AnsweredRefines(s, c, GatedUpdate(s.rows, r).0, true);
          } else {
            MovedRefines(s, c, Insertion);
          }
        case Insertion =>
          if InsertRow(s.rows, r).1 {
            AnsweredRefines(s, c, InsertRow(s.rows, r).0, true);
          } else {
            MovedRefines(s, c, SecondUpdate);
          }
        case SecondUpdate =>
          if GatedUpdate(s.rows, r).1 {
            AnsweredRefines(s, c, GatedUpdate(s.rows, r).0, true);
          } else if b.Sql? {
            AnsweredRefines(s, c, s.rows, false);
          } else {
            MovedRefines(s, c, Lookup);
          }
        case Lookup =>
          LookupRefines(s, c);
      }
    case Delete(id) =>
      RunOfOne(Abstract(s), Remove(id));
  }

  lemma {:induction false} AtomicRunSplits(s: Atomic, first: seq<AtomicAction>, second: seq<AtomicAction>)
    requires AtomicRun(s, first).Some? && AtomicRun(AtomicRun(s, first).value.0, second).Some?
    ensures AtomicRun(s, first + second) ==
            Some((AtomicRun(AtomicRun(s, first).value.0, second).value.0,
                  AtomicRun(s, first).value.1 + AtomicRun(AtomicRun(s, first).value.0, second).value.1))
  {
    var (mid, history) := AtomicRun(s, first).value;
    if second == [] {
      assert first + second == first;
      assert history + [] == history;
    } else {
      var n := |second| - 1;
      AtomicRunSplits(s, first, second[..n]);
      var (last, rest) := AtomicRun(mid, second[..n]).value;
      var seen := AtomicStep(last, second[n]).1;
      assert (history + rest) + seen == history + (rest + seen);
      assert (first + second)[..|first| + n] == first + second[..n];
      assert (first + second)[|first| + n] == second[n];
    }
  }

  // Linearizability. Every interleaving of any number of puts, and of timely deletes, has the same external history
  // (calls, answers, deletes, and their order) as a run of the atomic store from the same rows, and ends with the
  // same rows.
  lemma {:induction false} PutsAreLinearizable(b: Backend, s: System, actions: seq<Action>)
    requires Inv(s) && Run(b, s, actions, true).Some?
    ensures Inv(Run(b, s, actions, true).value.0)
    ensures AtomicRun(Abstract(s), WitnessRun(b, s, actions)) ==
            Some((Abstract(Run(b, s, actions, true).value.0), Run(b, s, actions, true).value.1))
  {
    if actions != [] {
      var n := |actions| - 1;
      PutsAreLinearizable(b, s, actions[..n]);
      var (mid, history) := Run(b, s, actions[..n], true).value;
      StepKeepsInv(b, mid, actions[n]);
      StepRefines(b, mid, actions[n]);
      AtomicRunSplits(Abstract(s), WitnessRun(b, s, actions[..n]), Witness(b, mid, actions[n]));
    }
  }

  // Without a delete among the actions there is no condition.
  lemma {:induction false} NoDeleteIsTimely(b: Backend, s: System, actions: seq<Action>)
    requires Run(b, s, actions, false).Some? && forall a :: a in actions ==> !a.Delete?
    ensures Run(b, s, actions, true) == Run(b, s, actions, false)
  {
    if actions != [] {
      NoDeleteIsTimely(b, s, actions[..|actions| - 1]);
      assert actions[|actions| - 1] in actions;
    }
  }

  // No client is told that its document is missing.
  predicate NoneMissing(history: seq<External>) {
    forall e :: e in history && e.Replied? ==> e.reply.Answer?
  }

  lemma {:induction false} NoDocumentGoesMissing(b: Backend, s: System, actions: seq<Action>)
    requires Inv(s) && Run(b, s, actions, true).Some?
    ensures NoneMissing(Run(b, s, actions, true).value.1)
  {
    PutsAreLinearizable(b, s, actions);
    AtomicRepliesAreAnswers(Abstract(s), WitnessRun(b, s, actions));
  }

  // An untimely delete under Mongo: the call it meets goes on to report its document missing.
  lemma {:induction false} UntimelyDeleteLosesDocument(s: System, c: nat)
    requires c in s.calls && s.calls[c].stage in {SecondUpdate, Lookup} && s.calls[c].record.id !in s.rows
    ensures var rest := if s.calls[c].stage == Lookup then [Statement(c)] else [Statement(c), Statement(c)];
            Run(Mongo, s, rest, true).Some? && !NoneMissing(Run(Mongo, s, rest, true).value.1)
  {
    var missing := Replied(c, MissingDocument);
    assert [Statement(c)][..0] == [] && [Statement(c), Statement(c)][..1] == [Statement(c)];
    if s.calls[c].stage == Lookup {
      assert [] + [missing] == [missing] && missing in [missing];
    } else {
      var s1 := Step(Mongo, s, Statement(c)).0;
      var nothing: seq<External> := [];
      assert nothing + nothing == nothing && Step(Mongo, s, Statement(c)) == (s1, nothing);
      assert Run(Mongo, s, [Statement(c)], true) == Some((s1, nothing));
      assert Step(Mongo, s1, Statement(c)).1 == [missing];
      assert [] + [missing] == [missing] && missing in [missing];
    }
  }

  // The condition on deletes is exact: a delete leaves Mongo puts correct, whatever timely actions follow it,
  // if and only if it meets no call of its id past a failed INSERT.
  lemma {:induction false} DeleteIsSafeExactlyWhenTimely(s: System, id: string)
    requires Inv(s)
    ensures var after := Step(Mongo, s, Delete(id)).0;
            (forall actions :: Run(Mongo, after, actions, true).Some? ==>
                                 NoneMissing(Run(Mongo, after, actions, true).value.1)) <==>
            Timely(s, Delete(id))
  {
    var after := Step(Mongo, s, Delete(id)).0;
    if Timely(s, Delete(id)) {
      StepKeepsInv(Mongo, s, Delete(id));
      forall actions | Run(Mongo, after, actions, true).Some?
        ensures NoneMissing(Run(Mongo, after, actions, true).value.1)
      {
        NoDocumentGoesMissing(Mongo, after, actions);
      }
    } else {
      var c :| c in s.calls && s.calls[c].stage in {SecondUpdate, Lookup} && s.calls[c].record.id == id;
      UntimelyDeleteLosesDocument(after, c);
    }
  }

  lemma {:induction false} AtomicRepliesAreAnswers(s: Atomic, actions: seq<AtomicAction>)
    requires AtomicRun(s, actions).Some?
    ensures NoneMissing(AtomicRun(s, actions).value.1)
  {
    if actions != [] {
      AtomicRepliesAreAnswers(s, actions[..|actions| - 1]);
    }
  }

  // Client 0 and client 1 race to insert the same record, and a delete lands before client 0's last statement.
  function RaceWithDelete(r: JobRecord): seq<Action> {
    [Invoke(0, r), Statement(0), Invoke(1, r), Statement(1), Statement(1), Statement(0), Delete(r.id), Statement(0)]
  }

  // The table before each of the race's actions, and after the last one.
  function RaceTable(r: JobRecord, k: nat): Rows {
    if 5 <= k <= 6 then map[r.id := r] else map[]
  }

  // Where the calls of clients 0 and 1 stand after the first k actions.
  function RaceCalls(b: Backend, r: JobRecord, k: nat): map<nat, Call> {
    if k == 0 then map[]
    else if k == 1 then map[0 := Call(r, FirstUpdate)]
    else if k == 2 then map[0 := Call(r, Insertion)]
    else if k == 3 then map[0 := Call(r, Insertion), 1 := Call(r, FirstUpdate)]
    else if k == 4 then map[0 := Call(r, Insertion), 1 := Call(r, Insertion)]
    else if k == 5 then map[0 := Call(r, Insertion)]
    else if k <= 7 then map[0 := Call(r, SecondUpdate)]
    else if b.Sql? then map[] else map[0 := Call(r, Lookup)]
  }

  lemma {:induction false} RaceReaches(b: Backend, r: JobRecord, k: nat)
    requires k <= 8
    ensures var reached := Run(b, System(map[], map[]), RaceWithDelete(r)[..k], false);
            reached.Some? && reached.value.0 == System(RaceTable(r, k), RaceCalls(b, r, k)) &&
            (k == 8 && b.Sql? ==> Replied(0, Answer(false)) in reached.value.1)
  {
    if k > 0 {
      RaceReaches(b, r, k - 1);
      assert RaceWithDelete(r)[..k][..k - 1] == RaceWithDelete(r)[..k - 1];
      var s := System(RaceTable(r, k - 1), RaceCalls(b, r, k - 1));
      RaceStep(b, r, k);
    }
  }

  lemma {:induction false} RaceStep(b: Backend, r: JobRecord, k: nat)
    requires 1 <= k <= 8
    ensures var s := System(RaceTable(r, k - 1), RaceCalls(b, r, k - 1));
            var a := RaceWithDelete(r)[k - 1];
            Enabled(s, a) && Step(b, s, a).0 == System(RaceTable(r, k), RaceCalls(b, r, k)) &&
            (k == 8 && b.Sql? ==> Step(b, s, a).1 == [Replied(0, Answer(false))])
  {
    var s := System(RaceTable(r, k - 1), RaceCalls(b, r, k - 1));
    var after := Step(b, s, RaceWithDelete(r)[k - 1]).0;
    assert after.rows == RaceTable(r, k);
    assert after.calls == RaceCalls(b, r, k);
  }

  // The condition on deletes is needed: here an atomic put would have applied at every moment of the call,
  // yet the SQL put answers False, and the Mongo put goes on to report a missing document.
  lemma {:induction false} DeleteBreaksAtomicity(r: JobRecord)
    ensures forall k: nat :: k <= 8 ==> Put(RaceTable(r, k), r).1
    ensures forall b: Backend, k: nat :: k <= 8 ==>
              var reached := Run(b, System(map[], map[]), RaceWithDelete(r)[..k], false);
              reached.Some? && reached.value.0.rows == RaceTable(r, k)
    ensures Replied(0, Answer(false)) in Run(Sql, System(map[], map[]), RaceWithDelete(r)[..8], false).value.1
    ensures var s := Run(Mongo, System(map[], map[]), RaceWithDelete(r)[..8], false).value.0;
            0 in s.calls && Step(Mongo, s, Statement(0)).1 == [Replied(0, MissingDocument)]
  {
    FenceIsTheLifecycleOrder(r.status, r.status);
    forall b: Backend, k: nat | k <= 8
      ensures var reached := Run(b, System(map[], map[]), RaceWithDelete(r)[..k], false);
              reached.Some? && reached.value.0.rows == RaceTable(r, k)
    {
      RaceReaches(b, r, k);
    }
    RaceReaches(Sql, r, 8);
    RaceReaches(Mongo, r, 8);
  }

  // What a delete can do to the SQL put: the answer False is wrong towards all three tables its statements met exactly
  // when the row was absent, then there as the put would have replaced it, then absent again.
  lemma {:induction false} FalseIsWrongExactlyWhenRecreated(r: JobRecord, first: Rows, second: Rows, third: Rows)
    requires !GatedUpdate(first, r).1 && !InsertRow(second, r).1 && !GatedUpdate(third, r).1
    ensures Put(first, r).1 && Put(second, r).1 && Put(third, r).1 <==>
            r.id !in first && GatedUpdate(second, r).1 && r.id !in third
  {
  }
}
