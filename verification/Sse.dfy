/** SSE connections, their limits, and Last-Event-ID replay (`network/http/sse/connection.py`). */
module Sse {
  import opened Wrappers

  // `id == ""` stands for an event without an id.
  datatype Event = Event(id: string, name: string, data: string)

  const EVENT_LOG_MAX := 128

  // ---- The event ring and replay ----

  function LastOf(history: seq<Event>, n: nat): seq<Event> {
    if |history| <= n then history else history[|history| - n..]
  }

  predicate DistinctIds(events: seq<Event>) {
    forall i, j :: 0 <= i < j < |events| ==> events[i].id != events[j].id
  }

  // The events after the first one with this id.
  function After(events: seq<Event>, id: string): seq<Event> {
    if events == [] then [] else if events[0].id == id then events[1..] else After(events[1..], id)
  }

  lemma {:induction false} AfterFirst(events: seq<Event>, id: string, k: nat)
    requires k < |events| && events[k].id == id && forall i :: 0 <= i < k ==> events[i].id != id
    ensures After(events, id) == events[k + 1..]
  {
    if k > 0 {
      AfterFirst(events[1..], id, k - 1);
    }
  }

  lemma {:induction false} AfterUnknown(events: seq<Event>, id: string)
    requires forall e :: e in events ==> e.id != id
    ensures After(events, id) == []
  {
    if events != [] {
      assert events[0] in events;
      AfterUnknown(events[1..], id);
    }
  }

  // Gap-free resume: replay from the ring is the whole recorded history after the id while the id is among the
  // last events, and nothing at all otherwise, be it forgotten or never recorded.
  lemma {:induction false} ResumeHasNoGap(history: seq<Event>, size: nat, id: string)
    requires DistinctIds(history)
    ensures forall k :: 0 <= k < |history| && history[k].id == id ==>
                          After(LastOf(history, size), id) == if k >= |history| - size then history[k + 1..] else []
    ensures (forall k :: 0 <= k < |history| ==> history[k].id != id) ==> After(LastOf(history, size), id) == []
  {
    forall k | 0 <= k < |history| && history[k].id == id
      ensures After(LastOf(history, size), id) == if k >= |history| - size then history[k + 1..] else []
    {
      ResumeAfter(history, size, id, k);
    }
    if forall k :: 0 <= k < |history| ==> history[k].id != id {
      AfterUnknown(LastOf(history, size), id);
    }
  }

  lemma {:induction false} ResumeAfter(history: seq<Event>, size: nat, id: string, k: nat)
    requires DistinctIds(history) && k < |history| && history[k].id == id
    ensures After(LastOf(history, size), id) == if k >= |history| - size then history[k + 1..] else []
  {
    var ring := LastOf(history, size);
    var dropped := |history| - |ring|;
    if k >= dropped {
      AfterFirst(ring, id, k - dropped);
      assert ring[k - dropped + 1..] == history[k + 1..];
    } else {
      assert forall i :: 0 <= i < |ring| ==> ring[i] == history[i + dropped];
      AfterUnknown(ring, id);
    }
  }

  // The longest prefix that fits a queue; a bound that is not positive means no bound.
  function Fitting(events: seq<Event>, maxsize: int): seq<Event> {
    if maxsize <= 0 || |events| <= maxsize then events else events[..maxsize]
  }

  // ---- Connections ----

  class Connection {
    const id: string
    const clientIp: string   // "" when unknown
    const maxsize: int
    var queue: seq<Event>
    var closed: bool
    var dropped: nat

    constructor (id: string, clientIp: string, maxsize: int)
      ensures this.id == id && this.clientIp == clientIp && this.maxsize == maxsize
      ensures queue == [] && !closed && dropped == 0
    {
      this.id, this.clientIp, this.maxsize := id, clientIp, maxsize;
      queue, closed, dropped := [], false, 0;
    }

    predicate HasRoom()
      reads this`queue
    {
      maxsize <= 0 || |queue| < maxsize
    }

    method PutNowait(event: Event) returns (full: bool)
      modifies this`queue
      ensures full == !old(HasRoom())
      ensures queue == if full then old(queue) else old(queue) + [event]
    {
      full := !HasRoom();
      if !full {
        queue := queue + [event];
      }
    }

    // Non-blocking send: an event that does not fit is dropped and counted.
    method Deliver(event: Event) returns (sent: bool)
      modifies this`queue, this`dropped
      ensures sent == (!closed && old(HasRoom()))
      ensures queue == if sent then old(queue) + [event] else old(queue)
      ensures dropped == old(dropped) + if !closed && !sent then 1 else 0
    {
      if closed {
        return false;
      }
      var full := PutNowait(event);
      if full {
        dropped := dropped + 1;
        return false;
      }
      return true;
    }
  }

  datatype Refusal = TooManyConnections | TooManyForThisIp

  class Manager {
    var connections: map<string, Connection>
    var eventLog: seq<Event>
    const maxConnections: int
    const maxPerIp: int
    const queueSize: int
    ghost var recorded: seq<Event>   // every event ever recorded

    ghost predicate Valid()
      reads this
    {
      && eventLog == LastOf(recorded, 128)
      && (forall a, b :: a in connections && b in connections && connections[a] == connections[b] ==> a == b)
      && (forall a :: a in connections ==> connections[a].id == a)
    }

    function FromIp(ip: string): set<string>
      reads this`connections
    {
      set c | c in connections && connections[c].clientIp == ip
    }

    // The configured caps are respected.
    ghost predicate WithinCaps()
      reads this`connections
    {
      |connections| <= maxConnections && forall ip :: ip != "" ==> |FromIp(ip)| <= maxPerIp
    }

    constructor (maxConnections: int, maxPerIp: int, queueSize: int)
      ensures Valid() && connections == map[] && recorded == []
      ensures this.maxConnections == maxConnections && this.maxPerIp == maxPerIp && this.queueSize == queueSize
      ensures maxConnections >= 0 && maxPerIp >= 0 ==> WithinCaps()
    {
      connections, eventLog, recorded := map[], [], [];
      this.maxConnections, this.maxPerIp, this.queueSize := maxConnections, maxPerIp, queueSize;
      new;
      assert forall ip :: FromIp(ip) == {};
    }

    method RecordEvent(event: Event)
      requires Valid()
      modifies this`eventLog, this`recorded
      ensures Valid() && recorded == if event.id == "" then old(recorded) else old(recorded) + [event]
    {
      if event.id == "" {
        return;
      }
      eventLog := eventLog + [event];
      if |eventLog| > EVENT_LOG_MAX {
        eventLog := eventLog[1..];
      }
      recorded := recorded + [event];
    }

    // The replay loop with its `seen` flag.
    method EventsAfter(lastEventId: string) returns (out: seq<Event>)
      requires Valid()
      ensures out == After(LastOf(recorded, 128), lastEventId)
    {
      out := [];
      var seen := false;
      for i := 0 to |eventLog|
        invariant !seen ==> out == [] && forall k :: 0 <= k < i ==> eventLog[k].id != lastEventId
        invariant seen ==> exists k :: 0 <= k < i && eventLog[k].id == lastEventId && out == eventLog[k + 1..i] &&
                                       forall j :: 0 <= j < k ==> eventLog[j].id != lastEventId
      {
        if seen {
          out := out + [eventLog[i]];
        } else if eventLog[i].id == lastEventId {
          seen := true;
        }
      }
      if !seen {
        AfterUnknown(eventLog, lastEventId);
        return [];
      }
      var k :| 0 <= k < |eventLog| && eventLog[k].id == lastEventId && out == eventLog[k + 1..|eventLog|] &&
               forall j :: 0 <= j < k ==> eventLog[j].id != lastEventId;
      AfterFirst(eventLog, lastEventId, k);
    }

    // Accept a connection within the caps, replacing one with the same id, and replay what it missed.
    // `lastEventId == ""` stands for none.
    method Connect(id: string, clientIp: string, lastEventId: string)
      returns (connection: Connection?, refusal: Option<Refusal>)
      requires Valid()
      modifies this`connections, connections.Values`closed
      ensures Valid() && recorded == old(recorded)
      ensures refusal == if old(|connections|) >= maxConnections then Some(TooManyConnections)
                         else if clientIp != "" &&
                                 |set c | c in old(connections) && old(connections)[c].clientIp == clientIp| >= maxPerIp
                         then Some(TooManyForThisIp)
                         else None
      ensures refusal.Some? ==> connection == null && connections == old(connections) &&
                                forall c :: c in connections ==> connections[c].closed == old(connections[c].closed)
      ensures refusal.None? ==>
                && connection != null && fresh(connection) && connections == old(connections)[id := connection]
                && connection.id == id && connection.clientIp == clientIp && !connection.closed
                && (lastEventId == "" ==> connection.queue == [])
                // What it missed, or as much of the beginning as its queue holds.
                && (lastEventId != "" ==>
                      var missed := After(LastOf(recorded, 128), lastEventId);
                      connection.queue <= missed &&
                      |connection.queue| == if queueSize <= 0 || |missed| <= queueSize then |missed| else queueSize)
      // The replaced connection is closed, and no other.
      ensures refusal.None? ==> forall c :: c in old(connections) ==>
                                              old(connections)[c].closed == (c == id || old(connections[c].closed))
      ensures old(WithinCaps()) ==> WithinCaps()
    {
      connection, refusal := Register(id, clientIp);
      if connection != null && lastEventId != "" {
        var missed := EventsAfter(lastEventId);
        Replay(connection, missed);
      }
    }

    // The part of connect that runs under the lock.
    method Register(id: string, clientIp: string) returns (connection: Connection?, refusal: Option<Refusal>)
      requires Valid()
      modifies this`connections, connections.Values`closed
      ensures Valid()
      ensures refusal == if old(|connections|) >= maxConnections then Some(TooManyConnections)
                         else if clientIp != "" &&
                                 |set c | c in old(connections) && old(connections)[c].clientIp == clientIp| >= maxPerIp
                         then Some(TooManyForThisIp)
                         else None
      ensures refusal.Some? ==> connection == null && connections == old(connections) &&
                                forall c :: c in connections ==> connections[c].closed == old(connections[c].closed)
      ensures refusal.None? ==>
                && connection != null && fresh(connection) && connections == old(connections)[id := connection]
                && connection.id == id && connection.clientIp == clientIp && connection.maxsize == queueSize
                && !connection.closed && connection.queue == []
      ensures refusal.None? ==> forall c :: c in old(connections) ==>
                                              old(connections)[c].closed == (c == id || old(connections[c].closed))
      ensures old(WithinCaps()) ==> WithinCaps()
    {
      if |connections| >= maxConnections {
        return null, Some(TooManyConnections);
      }
      if clientIp != "" && |FromIp(clientIp)| >= maxPerIp {
        return null, Some(TooManyForThisIp);
      }
      connection := new Connection(id, clientIp, queueSize);
      if id in connections {
        connections[id].closed := true;
      }
      ghost var before := connections;
      connections := connections[id := connection];
      CapsAfterAccept(before, id, connection);
      forall ip | ip != "" && old(WithinCaps())
        ensures |FromIp(ip)| <= maxPerIp
      {
        assert old(FromIp(ip)) == set k | k in before && before[k].clientIp == ip;
      }
      return connection, None;
    }

    lemma CapsAfterAccept(before: map<string, Connection>, id: string, c: Connection)
      requires connections == before[id := c] && c.id == id
      ensures |connections| <= |before| + 1
      ensures forall ip :: |FromIp(ip)| <= |(set k | k in before && before[k].clientIp == ip)| + if ip == c.clientIp then 1 else 0
    {
      assert connections.Keys == before.Keys + {id};
      forall ip
        ensures |FromIp(ip)| <= |(set k | k in before && before[k].clientIp == ip)| + if ip == c.clientIp then 1 else 0
      {
        var was := set k | k in before && before[k].clientIp == ip;
        if ip == c.clientIp {
          assert FromIp(ip) <= was + {id};
          SubsetIsSmaller(FromIp(ip), was + {id});
        } else {
          assert FromIp(ip) <= was;
          SubsetIsSmaller(FromIp(ip), was);
        }
      }
    }

    // Queue the missed events until the queue is full.
    static method Replay(connection: Connection, missed: seq<Event>)
      requires connection.queue == []
      modifies connection`queue
      ensures connection.queue == Fitting(missed, connection.maxsize)
    {
      for i := 0 to |missed|
        invariant connection.queue == missed[..i]
        invariant connection.maxsize > 0 ==> i <= connection.maxsize
      {
        var full := connection.PutNowait(missed[i]);
        if full {
          return;
        }
        assert missed[..i + 1] == missed[..i] + [missed[i]];
      }
      assert missed[..|missed|] == missed;
    }

    // Send to one connection and, if asked and it was queued, remember the event.
    method Send(connection: Connection, event: Event, record: bool) returns (sent: bool)
      requires Valid()
      modifies this`eventLog, this`recorded, connection`queue, connection`dropped
      ensures Valid() && sent == (!connection.closed && old(connection.HasRoom()))
      ensures connection.queue == if sent then old(connection.queue) + [event] else old(connection.queue)
      ensures connection.dropped == old(connection.dropped) + if !connection.closed && !sent then 1 else 0
      ensures recorded == if sent && record && event.id != "" then old(recorded) + [event] else old(recorded)
    {
      sent := connection.Deliver(event);
      if sent && record && event.id != "" {
        RecordEvent(event);
      }
    }

    // The registered connections as a list, each once.
    method Snapshot() returns (conns: seq<Connection>)
      requires Valid()
      ensures forall c :: c in connections ==> connections[c] in conns
      ensures forall x :: x in conns ==> x in connections.Values
      ensures forall i :: 0 <= i < |conns| ==> conns[i] in connections.Values
      ensures forall i, j :: 0 <= i < j < |conns| ==> conns[i] != conns[j]
    {
      var left := connections.Keys;
      conns := [];
      while left != {}
        invariant left <= connections.Keys
        invariant forall c :: c in connections && c !in left ==> connections[c] in conns
        invariant forall i :: 0 <= i < |conns| ==>
                                conns[i].id in connections && connections[conns[i].id] == conns[i] && conns[i].id !in left
        invariant forall i, j :: 0 <= i < j < |conns| ==> conns[i] != conns[j]
        decreases left
      {
        var c :| c in left;
        left := left - {c};
        conns := conns + [connections[c]];
      }
    }

    // Record once, offer the event to every open connection, and count the deliveries.
    method Broadcast(event: Event) returns (count: nat)
      requires Valid()
      modifies this`eventLog, this`recorded, connections.Values`queue, connections.Values`dropped
      ensures Valid() && connections == old(connections)
      ensures recorded == if event.id == "" then old(recorded) else old(recorded) + [event]
      ensures forall c :: c in connections ==> Offered(connections[c], event)
      ensures count == |(set c | c in old(connections).Values && |c.queue| > |old(c.queue)|)|
    {
      RecordEvent(event);
      var all := Snapshot();
      ghost var sent;
      count, sent := OfferAll(all, event);
      assert Picked(all, sent) == set c | c in old(connections).Values && |c.queue| > |old(c.queue)|;
    }

    // The sends of a broadcast: each is a `send` that does not record.
    static method OfferAll(conns: seq<Connection>, event: Event) returns (count: nat, ghost sent: seq<bool>)
      requires forall i, j :: 0 <= i < j < |conns| ==> conns[i] != conns[j]
      modifies conns`queue, conns`dropped
      ensures forall i :: 0 <= i < |conns| ==> Offered(conns[i], event)
      ensures |sent| == |conns| && count == |Picked(conns, sent)|
      ensures forall i :: 0 <= i < |conns| ==> sent[i] == (!conns[i].closed && old(conns[i].HasRoom()))
    {
      count, sent := 0, [];
      NonePicked(conns);
      for i := 0 to |conns|
        invariant |sent| == i && count == |Picked(conns, sent)|
        invariant forall k :: 0 <= k < i ==>
                                Offered(conns[k], event) && sent[k] == (!conns[k].closed && old(conns[k].HasRoom()))
        invariant forall k :: i <= k < |conns| ==> Untouched(conns[k])
      {
        var ok := conns[i].Deliver(event);
        OneMorePicked(conns, sent, ok);
        ghost var earlier := sent;
        sent := sent + [ok];
        assert sent[..i] == earlier;
        if ok {
          count := count + 1;
        }
      }
    }

    static twostate predicate Untouched(c: Connection)
      reads c
    {
      c.queue == old(c.queue) && c.dropped == old(c.dropped)
    }

    // The effect of a broadcast on one connection.
    static twostate predicate Offered(c: Connection, event: Event)
      reads c
    {
      var sent := !c.closed && old(c.HasRoom());
      c.queue == (if sent then old(c.queue) + [event] else old(c.queue)) &&
      c.dropped == old(c.dropped) + if !c.closed && !sent then 1 else 0
    }

    method Disconnect(id: string)
      requires Valid()
      modifies this`connections, connections.Values`closed
      ensures Valid() && connections == old(connections) - {id} && recorded == old(recorded)
      ensures id in old(connections) ==> old(connections)[id].closed
      ensures forall c :: c in old(connections) && c != id ==> old(connections)[c].closed == old(connections[c].closed)
    {
      if id in connections {
        connections[id].closed := true;
        connections := connections - {id};
      }
    }
  }

  // Those that are flagged.
  ghost function Picked(conns: seq<Connection>, flags: seq<bool>): set<Connection>
    requires |flags| <= |conns|
  {
    set i | 0 <= i < |flags| && flags[i] :: conns[i]
  }

  lemma NonePicked(conns: seq<Connection>)
    ensures Picked(conns, []) == {}
  {
  }

  lemma OneMorePicked(conns: seq<Connection>, flags: seq<bool>, flag: bool)
    requires |flags| < |conns| && forall i, j :: 0 <= i < j < |conns| ==> conns[i] != conns[j]
    ensures |Picked(conns, flags + [flag])| == |Picked(conns, flags)| + if flag then 1 else 0
  {
    var n, longer := |flags|, flags + [flag];
    assert Picked(conns, longer) == Picked(conns, flags) + if flag then {conns[n]} else {} by {
      assert forall i :: 0 <= i < n ==> longer[i] == flags[i];
      assert longer[n] == flag;
    }
    assert conns[n] !in Picked(conns, flags);
  }
}
