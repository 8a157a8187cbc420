/** The atomic job store (`scheduler/store/memory.py`), the specification of every backend, and its histories. */
module JobStore {
  import opened Wrappers
  import opened Lifecycle
  import P = Payload

  datatype JobRecord = JobRecord(
    id: string, category: Option<string>, channelId: string, status: Status, created: string,
    updated: string, workflowCount: nat, version: int, payload: Option<P.Payload>)

  type Rows = map<string, JobRecord>

  function RowStatus(rows: Rows, id: string): Option<Status> {
    if id in rows then Some(rows[id].status) else None
  }

  // One atomic put: the rows afterwards, and whether the write applied.
  function Put(rows: Rows, r: JobRecord): (Rows, bool) {
    if r.id !in rows then (rows[r.id := r], true)
    else
      var existing := rows[r.id];
      if !PutMayWrite(Some(existing.status), existing.version, r.status, r.version) then (rows, false)
      else (rows[r.id := r.(created := existing.created, version := existing.version + 1)], true)
  }

  class InMemoryJobStore {
    var store: Rows

    constructor ()
      ensures store == map[]
    {
      store := map[];
    }

    method PutRecord(record: JobRecord) returns (applied: bool)
      modifies this
      ensures (store, applied) == Put(old(store), record)
    {
      if record.id !in store {
        store := store[record.id := record];
        return true;
      }
      var existing := store[record.id];
      if !PutMayWrite(Some(existing.status), existing.version, record.status, record.version) {
        return false;
      }
      store := store[record.id := record.(created := existing.created, version := existing.version + 1)];
      return true;
    }

    method Get(id: string) returns (r: Option<JobRecord>)
      ensures r == if id in store then Some(store[id]) else None
    {
      if id in store {
        return Some(store[id]);
      }
      return None;
    }

    method Delete(id: string)
      modifies this
      ensures store == old(store) - {id}
    {
      store := store - {id};
    }

    method Clear()
      modifies this
      ensures store == map[]
    {
      store := map[];
    }
  }

  // ---- Histories of puts by any clients, without deletes ----

  function Replay(rows: Rows, puts: seq<JobRecord>): Rows {
    if puts == [] then rows else Put(Replay(rows, puts[..|puts| - 1]), puts[|puts| - 1]).0
  }

  // The i-th put of the history rewrites a row that already exists (rather than inserting or being skipped).
  predicate Updates(rows: Rows, puts: seq<JobRecord>, i: nat)
    requires i < |puts|
  {
    var before := Replay(rows, puts[..i]);
    puts[i].id in before && Put(before, puts[i]).1
  }

  function CountUpdates(rows: Rows, puts: seq<JobRecord>, id: string): nat {
    if puts == [] then 0
    else
      var n := |puts| - 1;
      CountUpdates(rows, puts[..n], id) + if puts[n].id == id && Updates(rows, puts, n) then 1 else 0
  }

  // The row as it was first stored: the initial one, or the first record put for this id.
  function Origin(rows: Rows, puts: seq<JobRecord>, id: string): Option<JobRecord> {
    if id in rows then Some(rows[id])
    else if puts == [] then None
    else
      var earlier := Origin(rows, puts[..|puts| - 1], id);
      if earlier.None? && puts[|puts| - 1].id == id then Some(puts[|puts| - 1]) else earlier
  }

  // How one row may change between two observations.
  predicate Climbs(a: JobRecord, b: JobRecord) {
    a.id == b.id && a.created == b.created && NoEarlier(a.status, b.status) &&
    a.version <= b.version && (a.version == b.version ==> a == b)
  }

  // How a whole store may change under the puts of other clients.
  predicate Evolves(before: Rows, after: Rows) {
    forall id :: id in before ==> id in after && Climbs(before[id], after[id])
  }

  // Every record is stored under its own id.
  predicate Keyed(rows: Rows) {
    forall id :: id in rows ==> rows[id].id == id
  }

  lemma OnePutClimbs(rows: Rows, r: JobRecord)
    requires Keyed(rows)
    ensures Keyed(Put(rows, r).0) && Evolves(rows, Put(rows, r).0)
  {
    if r.id in rows && Put(rows, r).1 {
      FenceOnRows(rows, r);
    }
    forall id | id in rows
      ensures NoEarlier(rows[id].status, rows[id].status)
    {
      LifecycleOrderIsPartialOrder(rows[id].status, rows[id].status, rows[id].status);
    }
  }

  lemma FenceOnRows(rows: Rows, r: JobRecord)
    requires r.id in rows && Put(rows, r).1
    ensures NoEarlier(rows[r.id].status, r.status) && rows[r.id].version == r.version
  {
    FenceIsTheLifecycleOrder(rows[r.id].status, r.status);
  }

  lemma EvolvesIsTransitive(a: Rows, b: Rows, c: Rows)
    requires Evolves(a, b) && Evolves(b, c)
    ensures Evolves(a, c)
  {
    forall id | id in a
      ensures id in c && Climbs(a[id], c[id])
    {
      LifecycleOrderIsPartialOrder(a[id].status, b[id].status, c[id].status);
    }
  }

  // Whatever the puts are, every row only climbs: status up the lifecycle order, `created` kept.
  lemma {:induction false} HistoryOnlyClimbs(rows: Rows, puts: seq<JobRecord>)
    requires Keyed(rows)
    ensures Keyed(Replay(rows, puts)) && Evolves(rows, Replay(rows, puts))
  {
    if puts == [] {
      forall id | id in rows
        ensures Climbs(rows[id], rows[id])
      {
        LifecycleOrderIsPartialOrder(rows[id].status, rows[id].status, rows[id].status);
      }
    } else {
      var earlier := puts[..|puts| - 1];
      HistoryOnlyClimbs(rows, earlier);
      OnePutClimbs(Replay(rows, earlier), puts[|puts| - 1]);
      EvolvesIsTransitive(rows, Replay(rows, earlier), Replay(rows, puts));
    }
  }

  // The version of a row is the version it was first stored with plus the number of applied updates,
  // and its `created` is the one it was first stored with.
  lemma {:induction false} VersionCountsUpdates(rows: Rows, puts: seq<JobRecord>, id: string)
    ensures id in Replay(rows, puts) <==> Origin(rows, puts, id).Some?
    ensures id in Replay(rows, puts) ==>
              Replay(rows, puts)[id].version == Origin(rows, puts, id).value.version + CountUpdates(rows, puts, id) &&
              Replay(rows, puts)[id].created == Origin(rows, puts, id).value.created
    ensures id !in Replay(rows, puts) ==> CountUpdates(rows, puts, id) == 0
  {
    if puts != [] {
      var n := |puts| - 1;
      VersionCountsUpdates(rows, puts[..n], id);
    }
  }

  lemma {:induction false} ReplaySplits(rows: Rows, puts: seq<JobRecord>, i: nat)
    requires i <= |puts|
    ensures Replay(rows, puts) == Replay(Replay(rows, puts[..i]), puts[i..])
    decreases |puts|
  {
    if i < |puts| {
      var n := |puts| - 1;
      ReplaySplits(rows, puts[..n], i);
      assert puts[..n][..i] == puts[..i] && puts[..n][i..] == puts[i..][..n - i];
    } else {
      assert puts[..i] == puts;
    }
  }

  // Optimistic concurrency: the versions carried by the applied updates of one row strictly increase,
  // so no carried version is ever applied twice.
  lemma {:induction false} OneUpdatePerVersion(rows: Rows, puts: seq<JobRecord>, i: nat, j: nat)
    requires Keyed(rows)
    requires i < j < |puts| && puts[i].id == puts[j].id
    requires Updates(rows, puts, i) && Updates(rows, puts, j)
    ensures puts[i].version < puts[j].version
  {
    var before, after := Replay(rows, puts[..i]), Replay(rows, puts[..i + 1]);
    assert puts[..i + 1][..i] == puts[..i];
    assert after == Put(before, puts[i]).0;
    HistoryOnlyClimbs(rows, puts[..i + 1]);
    ReplaySplits(rows, puts[..j], i + 1);
    assert puts[..j][..i + 1] == puts[..i + 1];
    HistoryOnlyClimbs(after, puts[..j][i + 1..]);
    FenceOnRows(before, puts[i]);
    FenceOnRows(Replay(rows, puts[..j]), puts[j]);
  }

  // A terminal row keeps its status for ever.
  lemma {:induction false} TerminalRowsStay(rows: Rows, puts: seq<JobRecord>, id: string)
    requires Keyed(rows) && id in rows && Terminal(rows[id].status)
    ensures id in Replay(rows, puts) && Replay(rows, puts)[id].status == rows[id].status
  {
    HistoryOnlyClimbs(rows, puts);
    LifecycleOrderIsPartialOrder(rows[id].status, Replay(rows, puts)[id].status, rows[id].status);
  }
}
