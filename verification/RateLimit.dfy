/** The per-key request limiter (`network/http/sse/security.py`) over a TTL cache (`common/cache.py`). */
module RateLimit {
  import opened Wrappers

  datatype Entry = Entry(count: int, expires: real)

  // ---- What happens to one key ----

  // A request for the key, or the eviction of its entry to make room for another key.
  datatype Op = Ask(at: real) | Evicted(at: real)

  predicate Live(e: Option<Entry>, now: real) {
    e.Some? && now < e.value.expires
  }

  function CountAt(e: Option<Entry>, now: real): int {
    if Live(e, now) then e.value.count else 0
  }

  function Step(limit: int, ttl: real, e: Option<Entry>, op: Op): (Option<Entry>, bool) {
    match op
    case Evicted(_) => (None, false)
    case Ask(now) =>
      if CountAt(e, now) >= limit then (e, false) else (Some(Entry(CountAt(e, now) + 1, now + ttl)), true)
  }

  function EntryAfter(limit: int, ttl: real, ops: seq<Op>): Option<Entry> {
    if ops == [] then None
    else Step(limit, ttl, EntryAfter(limit, ttl, ops[..|ops| - 1]), ops[|ops| - 1]).0
  }

  // The times of the accepted requests.
  function Accepted(limit: int, ttl: real, ops: seq<Op>): seq<real> {
    if ops == [] then []
    else
      var last := ops[|ops| - 1];
      var earlier := Accepted(limit, ttl, ops[..|ops| - 1]);
      if last.Ask? && Step(limit, ttl, EntryAfter(limit, ttl, ops[..|ops| - 1]), last).1 then earlier + [last.at]
      else earlier
  }

  predicate InOrder(ops: seq<Op>) {
    forall i, j :: 0 <= i < j < |ops| ==> ops[i].at <= ops[j].at
  }

  // Only entries that have expired are ever evicted.
  predicate OnlyExpired(limit: int, ttl: real, ops: seq<Op>) {
    ops != [] ==>
      var n := |ops| - 1;
      OnlyExpired(limit, ttl, ops[..n]) && (ops[n].Evicted? ==> !Live(EntryAfter(limit, ttl, ops[..n]), ops[n].at))
  }

  function Gap(a: seq<real>, i: nat): real
    requires 0 < i < |a|
  {
    a[i] - a[i - 1]
  }

  // Acceptance times `a` and entry `e` at time `clock`: the counter is the length of the latest run of acceptances, each
  // less than a TTL after the one before; the run began a full TTL after the acceptance before it, and the entry expires
  // a TTL after the latest of them.
  ghost predicate LatestRun(limit: int, ttl: real, a: seq<real>, e: Option<Entry>, clock: real) {
    && (e.None? && a != [] ==> a[|a| - 1] + ttl <= clock)
    && (e.Some? ==>
          && 1 <= e.value.count <= limit && e.value.count <= |a|
          && e.value.expires == a[|a| - 1] + ttl
          && var start := |a| - e.value.count;
             (start > 0 ==> Gap(a, start) >= ttl) && forall i :: start < i < |a| ==> Gap(a, i) < ttl)
    && (forall i, j :: 0 <= i <= j < |a| ==> a[i] <= a[j])
    && (forall i :: 0 <= i < |a| ==> a[i] <= clock)
  }

  lemma {:induction false} StepKeepsLatestRun(limit: int, ttl: real, a: seq<real>, e: Option<Entry>, clock: real, op: Op)
    requires LatestRun(limit, ttl, a, e, clock) && clock <= op.at && (op.Evicted? ==> !Live(e, op.at))
    ensures var (after, accepted) := Step(limit, ttl, e, op);
            LatestRun(limit, ttl, if accepted then a + [op.at] else a, after, op.at)
  {
    var longer := a + [op.at];
    assert forall i :: 0 < i < |a| ==> Gap(longer, i) == Gap(a, i);
    assert a != [] ==> Gap(longer, |a|) == op.at - a[|a| - 1];
  }

  lemma {:induction false} OneMore(limit: int, ttl: real, ops: seq<Op>, op: Op)
    ensures EntryAfter(limit, ttl, ops + [op]) == Step(limit, ttl, EntryAfter(limit, ttl, ops), op).0
    ensures Accepted(limit, ttl, ops + [op]) ==
            if op.Ask? && Step(limit, ttl, EntryAfter(limit, ttl, ops), op).1 then Accepted(limit, ttl, ops) + [op.at]
            else Accepted(limit, ttl, ops)
  {
    assert (ops + [op])[..|ops|] == ops;
  }

  lemma {:induction false} CounterMatchesRun(limit: int, ttl: real, ops: seq<Op>, clock: real)
    requires InOrder(ops) && OnlyExpired(limit, ttl, ops) && (ops != [] ==> ops[|ops| - 1].at <= clock)
    ensures LatestRun(limit, ttl, Accepted(limit, ttl, ops), EntryAfter(limit, ttl, ops), clock)
  {
    if ops != [] {
      var n := |ops| - 1;
      CounterMatchesRun(limit, ttl, ops[..n], ops[n].at);
      StepKeepsLatestRun(limit, ttl, Accepted(limit, ttl, ops[..n]), EntryAfter(limit, ttl, ops[..n]), ops[n].at, ops[n]);
    }
  }

  // Limit + 1 acceptances always span at least the TTL.
  lemma {:induction false} AcceptancesAreSpread(limit: nat, ttl: real, ops: seq<Op>, i: nat, j: nat)
    requires InOrder(ops) && OnlyExpired(limit, ttl, ops) && ttl > 0.0
    requires i + limit <= j < |Accepted(limit, ttl, ops)|
    ensures Accepted(limit, ttl, ops)[j] - Accepted(limit, ttl, ops)[i] >= ttl
    decreases |ops|
  {
    var n := |ops| - 1;
    var earlier := ops[..n];
    CounterMatchesRun(limit, ttl, ops, ops[n].at);
    if j < |Accepted(limit, ttl, earlier)| {
      AcceptancesAreSpread(limit, ttl, earlier, i, j);
    } else {
      var a := Accepted(limit, ttl, ops);
      var start := |a| - EntryAfter(limit, ttl, ops).value.count;
      assert i < start;
      assert a[i] <= a[start - 1] && a[start] <= a[j];
    }
  }

  // The last `limit` acceptances follow each other within less than a TTL each, and the request follows them so.
  ghost predicate Crowded(limit: int, ttl: real, a: seq<real>, at: real) {
    limit <= 0 ||
    (limit <= |a| && at - a[|a| - 1] < ttl && forall i :: |a| - limit < i < |a| ==> Gap(a, i) < ttl)
  }

  // The limiter refuses no more than it should: a request is refused exactly when it is crowded.
  lemma {:induction false} RefusedExactlyWhenCrowded(limit: int, ttl: real, ops: seq<Op>, at: real)
    requires InOrder(ops) && OnlyExpired(limit, ttl, ops) && (ops != [] ==> ops[|ops| - 1].at <= at)
    ensures var a := Accepted(limit, ttl, ops);
            Accepted(limit, ttl, ops + [Ask(at)]) == if Crowded(limit, ttl, a, at) then a else a + [at]
  {
    var a, e := Accepted(limit, ttl, ops), EntryAfter(limit, ttl, ops);
    CounterMatchesRun(limit, ttl, ops, at);
    OneMore(limit, ttl, ops, Ask(at));
  }

  lemma {:induction false} SetInInterval(indices: set<nat>, low: nat, size: nat)
    requires forall i :: i in indices ==> low <= i < low + size
    ensures |indices| <= size
    decreases size
  {
    if size == 0 {
      assert forall i :: i !in indices;
    } else {
      var last := low + size - 1;
      SetInInterval(indices - {last}, low, size - 1);
      assert indices <= (indices - {last}) + {last};
    }
  }

  // The rate bound: every half-open window as long as the TTL holds at most `limit` accepted requests of a key,
  // as long as the key's entry is never evicted before it has expired.
  lemma {:induction false} WindowBound(limit: nat, ttl: real, ops: seq<Op>, from: real, indices: set<nat>)
    requires InOrder(ops) && OnlyExpired(limit, ttl, ops) && ttl > 0.0
    requires forall i :: i in indices ==> i < |Accepted(limit, ttl, ops)|
    requires forall i :: i in indices ==> from <= Accepted(limit, ttl, ops)[i] < from + ttl
    ensures |indices| <= limit
  {
    if indices != {} {
      var low := MinimumOf(indices);
      forall i | i in indices
        ensures low <= i < low + limit
      {
        if i >= low + limit {
          AcceptancesAreSpread(limit, ttl, ops, low, i);
        }
      }
      SetInInterval(indices, low, limit);
    }
  }

  lemma {:induction false} MinimumOf(s: set<nat>) returns (m: nat)
    requires s != {}
    ensures m in s && forall i :: i in s ==> m <= i
  {
    var x :| x in s;
    if s == {x} {
      return x;
    }
    var rest := MinimumOf(s - {x});
    assert forall i :: i in s ==> i == x || i in s - {x};
    return if x < rest then x else rest;
  }

  // n requests at one instant.
  function Burst(n: nat, at: real): seq<Op> {
    if n == 0 then [] else Burst(n - 1, at) + [Ask(at)]
  }

  function Times(n: nat, at: real): seq<real> {
    if n == 0 then [] else Times(n - 1, at) + [at]
  }

  lemma {:induction false} TimesAt(n: nat, at: real)
    ensures |Times(n, at)| == n && forall k :: 0 <= k < n ==> Times(n, at)[k] == at
  {
    if n > 0 {
      TimesAt(n - 1, at);
    }
  }

  // The entry of a key of which n requests were accepted at one instant.
  function EntryOf(ttl: real, n: nat, at: real): Option<Entry> {
    if n > 0 then Some(Entry(n, at + ttl)) else None
  }

  lemma {:induction false} OneMoreInBurst(limit: nat, ttl: real, ops: seq<Op>, n: nat, at: real)
    requires n < limit && ttl > 0.0 && EntryAfter(limit, ttl, ops) == EntryOf(ttl, n, at)
    ensures EntryAfter(limit, ttl, ops + [Ask(at)]) == EntryOf(ttl, n + 1, at)
    ensures Accepted(limit, ttl, ops + [Ask(at)]) == Accepted(limit, ttl, ops) + [at]
  {
    OneMore(limit, ttl, ops, Ask(at));
  }

  lemma {:induction false} BurstAfter(limit: nat, ttl: real, ops: seq<Op>, n: nat, at: real)
    requires n <= limit && ttl > 0.0 && EntryAfter(limit, ttl, ops).None?
    ensures EntryAfter(limit, ttl, ops + Burst(n, at)) == EntryOf(ttl, n, at)
    ensures Accepted(limit, ttl, ops + Burst(n, at)) == Accepted(limit, ttl, ops) + Times(n, at)
  {
    if n == 0 {
      assert ops + [] == ops;
    } else {
      BurstAfter(limit, ttl, ops, n - 1, at);
      OneMoreInBurst(limit, ttl, ops + Burst(n - 1, at), n - 1, at);
      AppendAfter(ops, Burst(n - 1, at), Ask(at));
      AppendAfter(Accepted(limit, ttl, ops), Times(n - 1, at), at);
    }
  }

  lemma AppendAfter<T>(a: seq<T>, b: seq<T>, x: T)
    ensures a + b + [x] == a + (b + [x])
  {
  }

  lemma {:induction false} BurstFromNothing(limit: nat, ttl: real, at: real)
    requires ttl > 0.0
    ensures Accepted(limit, ttl, Burst(limit, at)) == Times(limit, at)
  {
    BurstAfter(limit, ttl, [], limit, at);
    assert [] + Burst(limit, at) == Burst(limit, at);
    assert [] + Times(limit, at) == Times(limit, at);
  }

  lemma {:induction false} BurstAfterEviction(limit: nat, ttl: real, ops: seq<Op>, at: real)
    requires ttl > 0.0
    ensures Accepted(limit, ttl, ops + [Evicted(at)] + Burst(limit, at)) == Accepted(limit, ttl, ops) + Times(limit, at)
  {
    OneMore(limit, ttl, ops, Evicted(at));
    BurstAfter(limit, ttl, ops + [Evicted(at)], limit, at);
  }

  // With an eviction the bound can fail: for every positive limit, twice as many requests pass at one instant.
  lemma {:induction false} EvictionDoublesTheRate(limit: nat, ttl: real, at: real)
    requires limit > 0 && ttl > 0.0
    ensures Accepted(limit, ttl, Burst(limit, at) + [Evicted(at)] + Burst(limit, at)) == Times(limit, at) + Times(limit, at)
    ensures |Times(limit, at)| == limit && forall k :: 0 <= k < limit ==> Times(limit, at)[k] == at
  {
    BurstFromNothing(limit, ttl, at);
    BurstAfterEviction(limit, ttl, Burst(limit, at), at);
    TimesAt(limit, at);
  }

  // Limit + 1 accepted requests never fit into one window.
  predicate Bounded(limit: nat, ttl: real, ops: seq<Op>) {
    forall i, j :: 0 <= i && i + limit <= j < |Accepted(limit, ttl, ops)| ==>
                     Accepted(limit, ttl, ops)[j] - Accepted(limit, ttl, ops)[i] >= ttl
  }

  predicate OnlyAsks(ops: seq<Op>) {
    forall k :: 0 <= k < |ops| ==> ops[k].Ask?
  }

  lemma {:induction false} AsksEvictNothing(limit: nat, ttl: real, ops: seq<Op>, more: seq<Op>)
    requires OnlyExpired(limit, ttl, ops) && OnlyAsks(more)
    ensures OnlyExpired(limit, ttl, ops + more)
  {
    if more == [] {
      assert ops + more == ops;
    } else {
      var n := |more| - 1;
      AsksEvictNothing(limit, ttl, ops, more[..n]);
      assert (ops + more)[..|ops| + n] == ops + more[..n];
    }
  }

  lemma {:induction false} BurstIsAsks(n: nat, at: real)
    ensures |Burst(n, at)| == n && forall k :: 0 <= k < n ==> Burst(n, at)[k] == Ask(at)
  {
    if n > 0 {
      BurstIsAsks(n - 1, at);
    }
  }

  lemma {:induction false} BurstInOrder(ops: seq<Op>, n: nat, at: real)
    requires InOrder(ops) && (ops != [] ==> ops[|ops| - 1].at <= at)
    ensures InOrder(ops + Burst(n, at)) && OnlyAsks(Burst(n, at))
  {
    BurstIsAsks(n, at);
    assert ops != [] ==> forall i :: 0 <= i < |ops| ==> ops[i].at <= ops[|ops| - 1].at;
  }

  lemma {:induction false} LiveEvictionBreaksTheBound(limit: nat, ttl: real, ops: seq<Op>, at: real)
    requires limit > 0 && ttl > 0.0 && InOrder(ops + [Evicted(at)]) && OnlyExpired(limit, ttl, ops)
    requires Live(EntryAfter(limit, ttl, ops), at)
    ensures InOrder(ops + [Evicted(at)] + Burst(limit, at)) && OnlyAsks(Burst(limit, at))
    ensures !Bounded(limit, ttl, ops + [Evicted(at)] + Burst(limit, at))
  {
    var evicted := ops + [Evicted(at)];
    var a := Accepted(limit, ttl, ops);
    BurstInOrder(evicted, limit, at);
    LiveIsRecent(limit, ttl, ops, at);
    BurstAfterEviction(limit, ttl, ops, at);
    TooClose(limit, ttl, evicted + Burst(limit, at), a, at);
  }

  // The last request accepted before a moment at which the entry is live is less than a TTL old.
  lemma {:induction false} LiveIsRecent(limit: nat, ttl: real, ops: seq<Op>, at: real)
    requires InOrder(ops + [Evicted(at)]) && OnlyExpired(limit, ttl, ops) && Live(EntryAfter(limit, ttl, ops), at)
    ensures var a := Accepted(limit, ttl, ops); a != [] && at - a[|a| - 1] < ttl
  {
    var evicted := ops + [Evicted(at)];
    assert forall i :: 0 <= i < |ops| ==> ops[i] == evicted[i];
    assert evicted[|ops|].at == at;
    CounterMatchesRun(limit, ttl, ops, at);
  }

  lemma {:induction false} TooClose(limit: nat, ttl: real, ops: seq<Op>, a: seq<real>, at: real)
    requires limit > 0 && a != [] && at - a[|a| - 1] < ttl
    requires Accepted(limit, ttl, ops) == a + Times(limit, at)
    ensures !Bounded(limit, ttl, ops)
  {
    TimesAt(limit, at);
    var all := a + Times(limit, at);
    assert all[|a| - 1] == a[|a| - 1] && all[|a| - 1 + limit] == at;
  }

  // The condition is exact: an eviction leaves the bound intact, whatever requests follow it, if and only if the
  // evicted entry had expired.
  lemma {:induction false} EvictionIsSafeExactlyWhenExpired(limit: nat, ttl: real, ops: seq<Op>, at: real)
    requires limit > 0 && ttl > 0.0 && InOrder(ops + [Evicted(at)]) && OnlyExpired(limit, ttl, ops)
    ensures (forall more :: InOrder(ops + [Evicted(at)] + more) && OnlyAsks(more) ==>
                              Bounded(limit, ttl, ops + [Evicted(at)] + more)) <==>
            !Live(EntryAfter(limit, ttl, ops), at)
  {
    if Live(EntryAfter(limit, ttl, ops), at) {
      LiveEvictionBreaksTheBound(limit, ttl, ops, at);
    } else {
      var evicted := ops + [Evicted(at)];
      assert evicted[..|ops|] == ops;
      forall more | InOrder(evicted + more) && OnlyAsks(more)
        ensures Bounded(limit, ttl, evicted + more)
      {
        AsksEvictNothing(limit, ttl, evicted, more);
        forall i, j | 0 <= i && i + limit <= j < |Accepted(limit, ttl, evicted + more)|
          ensures Accepted(limit, ttl, evicted + more)[j] - Accepted(limit, ttl, evicted + more)[i] >= ttl
        {
          AcceptancesAreSpread(limit, ttl, evicted + more, i, j);
        }
      }
    }
  }

  // ---- The cache and the limiter ----

  // A TTL cache: entries expire, and the least recently used one makes room (here: any other one).
  class Cache {
    var entries: map<string, Entry>
    const maxsize: int
    const ttl: real

    constructor (maxsize: int, ttl: real)
      ensures entries == map[] && this.maxsize == maxsize && this.ttl == ttl
    {
      entries := map[];
      this.maxsize, this.ttl := maxsize, ttl;
    }

    function Find(key: string): Option<Entry>
      reads this
    {
      if key in entries then Some(entries[key]) else None
    }

    method Get(key: string, now: real) returns (value: Option<int>)
      ensures value == if key in entries && now < entries[key].expires then Some(entries[key].count) else None
    {
      if key in entries && now < entries[key].expires {
        return Some(entries[key].count);
      }
      return None;
    }

    // Store a value; `evicted` are the unexpired entries that were dropped to make room.
    method Set(key: string, value: int, now: real) returns (ghost evicted: set<string>)
      modifies this
      ensures maxsize < 1 ==> entries == old(entries) && evicted == {}
      ensures maxsize >= 1 ==> Find(key) == Some(Entry(value, now + ttl))
      ensures key !in evicted && evicted <= old(entries).Keys
      ensures forall k :: k != key && k in entries ==> k in old(entries) && entries[k] == old(entries)[k]
      ensures forall k :: k != key && k in old(entries) && k !in entries ==>
                            k in evicted || old(entries)[k].expires <= now
      ensures forall k :: k in evicted ==> k !in entries && now < old(entries)[k].expires
      ensures old(|entries|) <= maxsize ==> |entries| <= maxsize
      ensures old(|entries|) < maxsize ==> evicted == {}
    {
      evicted := {};
      if maxsize < 1 {
        return;  // the library raises ValueError, which is swallowed
      }
      var unexpired := map k | k in entries && now < entries[k].expires :: entries[k];
      assert unexpired.Keys <= entries.Keys;
      SubsetIsSmaller(unexpired.Keys, entries.Keys);
      entries := unexpired;
      while key !in entries && |entries| >= maxsize
        invariant forall k :: k in entries ==> k in unexpired && entries[k] == old(entries)[k]
        invariant forall k :: k in old(entries) && k !in entries ==> k in evicted || old(entries)[k].expires <= now
        invariant forall k :: k in evicted ==> k in unexpired && k !in entries && k != key
        invariant |entries| <= old(|entries|)
        invariant old(|entries|) < maxsize ==> evicted == {}
        decreases |entries|
      {
        var victim :| victim in entries;
        entries := entries - {victim};
        evicted := evicted + {victim};
      }
      entries := entries[key := Entry(value, now + ttl)];
    }
  }

  // Everything in time order, nothing after `clock`.
  ghost predicate Timely(ops: seq<Op>, clock: real) {
    InOrder(ops) && forall k :: 0 <= k < |ops| ==> ops[k].at <= clock
  }

  // The limiter: one counter per key, each acceptance renews its TTL.
  class Limiter {
    const cache: Cache
    const limit: int
    const enabled: bool
    // Everything that happened to each key, the entry it leads to, and the latest time seen.
    ghost var history: map<string, seq<Op>>
    ghost var expected: map<string, Entry>
    ghost var clock: real

    ghost function Ops(key: string): seq<Op>
      reads this`history
    {
      if key in history then history[key] else []
    }

    ghost function Expected(key: string): Option<Entry>
      reads this`expected
    {
      if key in expected then Some(expected[key]) else None
    }

    ghost predicate Recorded(key: string)
      reads this`history, this`expected, this`clock
    {
      Timely(Ops(key), clock) && Expected(key) == EntryAfter(limit, cache.ttl, Ops(key))
    }

    // The cache holds the counter that the history of the key leads to, unless it has expired.
    ghost predicate Tracks(key: string)
      reads this, cache
    {
      cache.Find(key) == Expected(key) || (cache.Find(key).None? && Expected(key).value.expires <= clock)
    }

    ghost predicate Valid()
      reads this, cache
    {
      cache.maxsize >= 1 && (forall key :: Tracks(key)) && (forall key :: Recorded(key))
    }

    constructor (cache: Cache, limit: int, enabled: bool, now: real)
      requires cache.entries == map[] && cache.maxsize >= 1
      ensures Valid() && this.cache == cache && this.limit == limit && this.enabled == enabled
      ensures history == map[] && clock == now
    {
      this.cache, this.limit, this.enabled := cache, limit, enabled;
      history, expected, clock := map[], map[], now;
    }

    // One check at a time not before the previous one.
    method Check(client: string, now: real) returns (ok: bool)
      requires Valid() && clock <= now
      modifies this, cache
      ensures Valid()
      ensures !enabled ==> ok && history == old(history)
      ensures enabled ==> clock == now && Ops(client) == old(Ops(client)) + [Ask(now)]
      ensures enabled ==>
                (ok <==> |Accepted(limit, cache.ttl, Ops(client))| == |Accepted(limit, cache.ttl, old(Ops(client)))| + 1)
      // A request is refused exactly when it is crowded, as long as its key was not evicted before it expired.
      ensures enabled && OnlyExpired(limit, cache.ttl, old(Ops(client))) ==>
                (ok <==> !Crowded(limit, cache.ttl, Accepted(limit, cache.ttl, old(Ops(client))), now))
      // Another key is touched only by eviction, and only when the cache is full.
      ensures forall key :: key != client ==>
                              Ops(key) == old(Ops(key)) || Ops(key) == old(Ops(key)) + [Evicted(now)]
      ensures old(|cache.entries|) < cache.maxsize ==> forall key :: key != client ==> Ops(key) == old(Ops(key))
    {
      if !enabled {
        return true;
      }
      var count;
      ok, count := Decide(client, now);
      Commit(client, count, now);
    }

    // Write down the request, and count it if it is accepted.
    method Commit(client: string, count: int, now: real)
      requires Valid() && clock <= now && count == CountAt(Expected(client), now)
      modifies this, cache
      ensures Valid() && clock == now && Ops(client) == old(Ops(client)) + [Ask(now)]
      ensures forall key :: key != client ==>
                              Ops(key) == old(Ops(key)) || Ops(key) == old(Ops(key)) + [Evicted(now)]
      ensures old(|cache.entries|) < cache.maxsize ==> forall key :: key != client ==> Ops(key) == old(Ops(key))
    {
      RecordAsk(client, count, now);
      forall key
        ensures (key != client || count >= limit) ==> Tracks(key)
      {
        assert old(Tracks(key));
      }
      if count < limit {
        StoreCount(client, count + 1, now);
      }
    }

    // Look at the counter of a client.
    method Decide(client: string, now: real) returns (ok: bool, count: int)
      requires Valid() && clock <= now
      ensures ok == (count < limit) && count == CountAt(Expected(client), now)
      ensures |Accepted(limit, cache.ttl, Ops(client) + [Ask(now)])| ==
              |Accepted(limit, cache.ttl, Ops(client))| + if ok then 1 else 0
      ensures OnlyExpired(limit, cache.ttl, Ops(client)) ==>
                (ok <==> !Crowded(limit, cache.ttl, Accepted(limit, cache.ttl, Ops(client)), now))
    {
      assert Tracks(client) && Recorded(client);
      var found := cache.Get(client, now);
      count := if found.None? then 0 else found.value;
      ok := count < limit;
      OneMoreAsk(limit, cache.ttl, Ops(client), count, now);
      if OnlyExpired(limit, cache.ttl, Ops(client)) {
        RefusedExactlyWhenCrowded(limit, cache.ttl, Ops(client), now);
      }
    }

    // The cache write of an accepted request, with the evictions it causes.
    method StoreCount(client: string, count: int, now: real)
      requires cache.maxsize >= 1 && clock == now && forall key :: Recorded(key)
      requires Expected(client) == Some(Entry(count, now + cache.ttl)) && forall key :: key != client ==> Tracks(key)
      modifies cache, this`history, this`expected
      ensures Valid() && Ops(client) == old(Ops(client))
      ensures forall key :: key != client ==>
                              Ops(key) == old(Ops(key)) || Ops(key) == old(Ops(key)) + [Evicted(clock)]
      ensures old(|cache.entries|) < cache.maxsize ==> forall key :: key != client ==> Ops(key) == old(Ops(key))
    {
      ghost var evicted := cache.Set(client, count, now);
      RecordEvictions(evicted);
      forall key
        ensures Tracks(key)
      {
        assert key != client ==> old(Tracks(key));
      }
    }

    ghost method RecordAsk(client: string, count: int, now: real)
      requires clock <= now && count == CountAt(Expected(client), now) && forall key :: Recorded(key)
      modifies this
      ensures clock == now && forall key :: Recorded(key)
      ensures Ops(client) == old(Ops(client)) + [Ask(now)]
      ensures forall key :: key != client ==> Ops(key) == old(Ops(key)) && Expected(key) == old(Expected(key))
      ensures Expected(client) == if count < limit then Some(Entry(count + 1, now + cache.ttl)) else old(Expected(client))
    {
      assert Recorded(client);
      ghost var before := Ops(client);
      TimelyGrows(before, clock, Ask(now));
      EntryAfterAsk(limit, cache.ttl, before, count, now);
      SetRecord(client, before + [Ask(now)],
                if count < limit then Some(Entry(count + 1, now + cache.ttl)) else Expected(client), now);
    }

    // The history of one key, and the entry that it leads to, at a later time.
    ghost method SetRecord(client: string, ops: seq<Op>, e: Option<Entry>, now: real)
      requires clock <= now && forall key :: Recorded(key)
      requires Timely(ops, now) && e == EntryAfter(limit, cache.ttl, ops)
      modifies this
      ensures clock == now && forall key :: Recorded(key)
      ensures Ops(client) == ops && Expected(client) == e
      ensures forall key :: key != client ==> Ops(key) == old(Ops(key)) && Expected(key) == old(Expected(key))
    {
      history := history[client := ops];
      expected := if e.Some? then expected[client := e.value] else expected - {client};
      clock := now;
      forall key
        ensures Recorded(key)
      {
        if key != client {
          assert old(Recorded(key)) && Ops(key) == old(Ops(key)) && Expected(key) == old(Expected(key));
          TimelyLater(Ops(key), old(clock), now);
        }
      }
    }

    ghost method RecordEvictions(evicted: set<string>)
      requires forall key :: Recorded(key)
      modifies this`history, this`expected
      ensures forall key :: Recorded(key)
      ensures forall key :: key in evicted ==> Ops(key) == old(Ops(key)) + [Evicted(clock)] && Expected(key) == None
      ensures forall key :: key !in evicted ==> Ops(key) == old(Ops(key)) && Expected(key) == old(Expected(key))
    {
      history := history + map key | key in evicted :: Ops(key) + [Evicted(clock)];
      expected := expected - evicted;
      forall key
        ensures Recorded(key)
      {
        assert old(Recorded(key));
        if key in evicted {
          TimelyGrows(old(Ops(key)), clock, Evicted(clock));
          OneMore(limit, cache.ttl, old(Ops(key)), Evicted(clock));
        }
      }
    }
  }

  lemma {:induction false} EntryAfterAsk(limit: int, ttl: real, ops: seq<Op>, count: int, now: real)
    requires count == CountAt(EntryAfter(limit, ttl, ops), now)
    ensures EntryAfter(limit, ttl, ops + [Ask(now)]) ==
            if count < limit then Some(Entry(count + 1, now + ttl)) else EntryAfter(limit, ttl, ops)
  {
    assert (ops + [Ask(now)])[..|ops|] == ops;
  }

  lemma {:induction false} OneMoreAsk(limit: int, ttl: real, ops: seq<Op>, count: int, now: real)
    requires count == CountAt(EntryAfter(limit, ttl, ops), now)
    ensures |Accepted(limit, ttl, ops + [Ask(now)])| ==
            |Accepted(limit, ttl, ops)| + if count < limit then 1 else 0
  {
    OneMore(limit, ttl, ops, Ask(now));
  }

  lemma TimelyLater(ops: seq<Op>, clock: real, now: real)
    requires Timely(ops, clock) && clock <= now
    ensures Timely(ops, now)
  {
  }

  lemma TimelyGrows(ops: seq<Op>, clock: real, op: Op)
    requires Timely(ops, clock) && clock <= op.at
    ensures Timely(ops + [op], op.at)
  {
  }

  // The bound holds for the limiter: per key, in every window, as long as the key was not evicted before it expired.
  lemma {:induction false} LimiterKeepsTheBound(l: Limiter, key: string, from: real, indices: set<nat>)
    requires l.Valid() && l.limit >= 0 && l.cache.ttl > 0.0 && OnlyExpired(l.limit, l.cache.ttl, l.Ops(key))
    requires forall i :: i in indices ==> i < |Accepted(l.limit, l.cache.ttl, l.Ops(key))|
    requires forall i :: i in indices ==> from <= Accepted(l.limit, l.cache.ttl, l.Ops(key))[i] < from + l.cache.ttl
    ensures |indices| <= l.limit
  {
    assert l.Recorded(key);
    WindowBound(l.limit, l.cache.ttl, l.Ops(key), from, indices);
  }
}
