/** The bounded, stoppable job channel (`scheduler/channel.py`), alone and under interleaving. */
module Channel {
  import opened Wrappers

  datatype SendResult = SendOk | SendFull | SendStopped

  // What send and request_stop decide about, under one lock.
  datatype State<T> = State(stop: bool, queue: seq<T>, maxsize: int)

  // asyncio.Queue: a size that is not positive means no bound.
  predicate Full<T>(s: State<T>) {
    s.maxsize > 0 && |s.queue| >= s.maxsize
  }

  function Send<T>(s: State<T>, v: T): (State<T>, SendResult) {
    if s.stop then (s, SendStopped)
    else if Full(s) then (s, SendFull)
    else (s.(queue := s.queue + [v]), SendOk)
  }

  function GetNowait<T>(s: State<T>): (State<T>, Option<T>) {
    if s.queue == [] then (s, None) else (s.(queue := s.queue[1..]), Some(s.queue[0]))
  }

  class Chan<T> {
    var stop: bool
    var queue: seq<T>
    const maxsize: int

    function Now(): State<T>
      reads this
    {
      State(stop, queue, maxsize)
    }

    constructor (maxsize: int := 0)
      ensures Now() == State(false, [], maxsize)
    {
      stop := false;
      queue := [];
      this.maxsize := maxsize;
    }

    method TrySend(value: T) returns (r: SendResult)
      modifies this
      ensures (Now(), r) == Send(old(Now()), value)
      ensures r == SendStopped <==> old(stop)
      ensures r == SendFull <==> !old(stop) && maxsize > 0 && |old(queue)| >= maxsize
      ensures stop == old(stop) && queue == if r == SendOk then old(queue) + [value] else old(queue)
    {
      if stop {
        return SendStopped;
      }
      if maxsize > 0 && |queue| >= maxsize {
        return SendFull;
      }
      queue := queue + [value];
      return SendOk;
    }

    method RequestStop()
      modifies this
      ensures Now() == old(Now()).(stop := true)
    {
      if stop {
        return;
      }
      stop := true;
    }

    method TryGet() returns (r: Option<T>)
      modifies this
      ensures (Now(), r) == GetNowait(old(Now()))
    {
      if queue == [] {
        return None;
      }
      r := Some(queue[0]);
      queue := queue[1..];
    }
  }

  // ---- Interleavings of senders, receivers and request_stop ----

  // One call of `receive`: racing the queue against the stop event, woken by stop, or holding a finished get.
  // A ticket is the position of an item among the items that have left the queue.
  datatype Receiver = Racing | Woken | Holding(ticket: nat)

  // `accepted`: items whose send returned ok, in order; `taken`: items in the order they left the queue;
  // `returned`: what receive calls returned, in order (the ticket of an item, or None); `abandoned`: the receive calls
  // whose caller was cancelled while they waited, and whose get task lives on.
  datatype World<T> = World(
    chan: State<T>, receivers: map<nat, Receiver>, accepted: seq<T>, taken: seq<T>, returned: seq<Option<nat>>,
    abandoned: set<nat>)

  datatype Act<T> =
    | TrySend(value: T)
    | RequestStop
    | Receive(who: nat)      // the call: drain at once if stopped, otherwise start the race
    | GetFinishes(who: nat)  // the racing (or just woken) get task obtains an item
    | StopWakes(who: nat)    // the stop event wins the race
    | Finish(who: nat)       // the call returns
    | Abandon(who: nat)      // the caller is cancelled

  predicate Possible<T>(w: World<T>, a: Act<T>) {
    match a
    case TrySend(_) => true
    case RequestStop => true
    case Receive(who) => who !in w.receivers
    case GetFinishes(who) => who in w.receivers && !w.receivers[who].Holding? && w.chan.queue != []
    case StopWakes(who) => who in w.receivers && w.receivers[who].Racing? && w.chan.stop
    case Finish(who) => who in w.receivers && !w.receivers[who].Racing? && who !in w.abandoned
    case Abandon(who) => who in w.receivers && who !in w.abandoned
  }

  // get_nowait as the end of a receive call.
  function Drain<T>(w: World<T>, receivers: map<nat, Receiver>): World<T> {
    var (chan, item) := GetNowait(w.chan);
    if item.None? then w.(receivers := receivers, returned := w.returned + [None])
    else World(chan, receivers, w.accepted, w.taken + [item.value], w.returned + [Some(|w.taken|)], w.abandoned)
  }

  function Step<T>(w: World<T>, a: Act<T>): World<T>
    requires Possible(w, a)
  {
    match a
    case TrySend(v) =>
      var (chan, result) := Send(w.chan, v);
      w.(chan := chan, accepted := if result == SendOk then w.accepted + [v] else w.accepted)
    case RequestStop => w.(chan := w.chan.(stop := true))
    case Receive(who) =>
      if w.chan.stop then Drain(w, w.receivers) else w.(receivers := w.receivers[who := Racing])
    case GetFinishes(who) =>
      var (chan, item) := GetNowait(w.chan);
      w.(chan := chan, taken := w.taken + [item.value], receivers := w.receivers[who := Holding(|w.taken|)])
    case StopWakes(who) => w.(receivers := w.receivers[who := Woken])
    case Finish(who) =>
      if w.receivers[who].Holding? then
        w.(receivers := w.receivers - {who}, returned := w.returned + [Some(w.receivers[who].ticket)])
      else Drain(w, w.receivers - {who})
    case Abandon(who) => w.(abandoned := w.abandoned + {who})
  }

  function Run<T>(w: World<T>, acts: seq<Act<T>>): Option<World<T>> {
    if acts == [] then Some(w)
    else
      match Run(w, acts[..|acts| - 1])
      case None => None
      case Some(mid) => if Possible(mid, acts[|acts| - 1]) then Some(Step(mid, acts[|acts| - 1])) else None
  }

  function Empty<T>(maxsize: int): World<T> {
    World(State(false, [], maxsize), map[], [], [], [], {})
  }

  predicate HeldBy(receivers: map<nat, Receiver>, who: nat, t: nat) {
    who in receivers && receivers[who] == Holding(t)
  }

  predicate ReturnedAt(returned: seq<Option<nat>>, p: nat, t: nat) {
    p < |returned| && returned[p] == Some(t)
  }

  // The item with this ticket has been returned, or a receiver still holds it.
  ghost predicate Accounted<T>(w: World<T>, t: nat) {
    (exists p: nat :: ReturnedAt(w.returned, p, t)) || (exists who: nat :: HeldBy(w.receivers, who, t))
  }

  // Every item that left the queue is with exactly one receiver: returned once, or still held once.
  ghost predicate Delivered<T>(w: World<T>) {
    && (forall t: nat :: t < |w.taken| ==> Accounted(w, t))
    && (forall p: nat, t: nat :: ReturnedAt(w.returned, p, t) ==> t < |w.taken|)
    && (forall who: nat, t: nat :: HeldBy(w.receivers, who, t) ==> t < |w.taken|)
    && (forall p: nat, q: nat, t: nat :: ReturnedAt(w.returned, p, t) && ReturnedAt(w.returned, q, t) ==> p == q)
    && (forall i: nat, j: nat, t: nat :: HeldBy(w.receivers, i, t) && HeldBy(w.receivers, j, t) ==> i == j)
    && (forall p: nat, who: nat, t: nat :: ReturnedAt(w.returned, p, t) ==> !HeldBy(w.receivers, who, t))
  }

  // What left the queue followed by what is in it is what was accepted; the bound holds; a receive call is only
  // woken by stop, and has only returned None on a stopped and empty channel.
  ghost predicate Conserved<T(!new)>(w: World<T>) {
    && w.taken + w.chan.queue == w.accepted
    && (w.chan.maxsize > 0 ==> |w.chan.queue| <= w.chan.maxsize)
    && (forall who :: who in w.receivers && w.receivers[who].Woken? ==> w.chan.stop)
    && (None in w.returned ==> w.chan.stop && w.chan.queue == [])
  }

  lemma {:induction false} TakeKeepsDelivered<T>(w: World<T>, after: World<T>, who: nat)
    requires Delivered(w) && |after.taken| == |w.taken| + 1
    requires || (after.returned == w.returned && after.receivers == w.receivers[who := Holding(|w.taken|)] &&
                 (who in w.receivers ==> !w.receivers[who].Holding?))
             || (after.returned == w.returned + [Some(|w.taken|)] &&
                 (after.receivers == w.receivers ||
                  (after.receivers == w.receivers - {who} && who in w.receivers && !w.receivers[who].Holding?)))
    ensures Delivered(after)
  {
    var latest: nat := |w.taken|;
    assert forall i: nat :: !HeldBy(w.receivers, i, latest);
    assert forall p: nat :: !ReturnedAt(w.returned, p, latest);
    forall t: nat | t < |after.taken|
      ensures Accounted(after, t)
    {
      if t == latest {
        assert HeldBy(after.receivers, who, t) || ReturnedAt(after.returned, |w.returned|, t);
      } else if p: nat :| ReturnedAt(w.returned, p, t) {
        assert ReturnedAt(after.returned, p, t);
      } else {
        assert Accounted(w, t);
        var i: nat :| HeldBy(w.receivers, i, t);
        assert HeldBy(after.receivers, i, t);
      }
    }
    forall p: nat, t: nat | ReturnedAt(after.returned, p, t)
      ensures (t == latest && p == |w.returned| && |after.returned| == p + 1) || ReturnedAt(w.returned, p, t)
    {
    }
    forall i: nat, t: nat | HeldBy(after.receivers, i, t)
      ensures (t == latest && i == who && after.returned == w.returned) || HeldBy(w.receivers, i, t)
    {
    }
  }

  lemma {:induction false} MoveKeepsDelivered<T>(w: World<T>, after: World<T>)
    requires Delivered(w) && after.taken == w.taken
    requires after.returned == w.returned || after.returned == w.returned + [None]
    requires forall who: nat, t: nat :: HeldBy(after.receivers, who, t) <==> HeldBy(w.receivers, who, t)
    ensures Delivered(after)
  {
    forall p: nat, t: nat
      ensures ReturnedAt(after.returned, p, t) <==> ReturnedAt(w.returned, p, t)
    {
    }
    forall t: nat | t < |after.taken|
      ensures Accounted(after, t)
    {
      if p: nat :| ReturnedAt(w.returned, p, t) {
        assert ReturnedAt(after.returned, p, t);
      } else {
        assert Accounted(w, t);
        var i: nat :| HeldBy(w.receivers, i, t);
        assert HeldBy(after.receivers, i, t);
      }
    }
  }

  lemma {:induction false} HandOverKeepsDelivered<T>(w: World<T>, who: nat, ticket: nat, after: World<T>)
    requires Delivered(w) && HeldBy(w.receivers, who, ticket)
    requires after == w.(receivers := w.receivers - {who}, returned := w.returned + [Some(ticket)])
    ensures Delivered(after)
  {
    forall t: nat | t < |after.taken|
      ensures Accounted(after, t)
    {
      if t == ticket {
        assert ReturnedAt(after.returned, |w.returned|, t);
      } else if p: nat :| ReturnedAt(w.returned, p, t) {
        assert ReturnedAt(after.returned, p, t);
      } else {
        assert Accounted(w, t);
        var i: nat :| HeldBy(w.receivers, i, t);
        assert HeldBy(after.receivers, i, t);
      }
    }
    forall p: nat, t: nat | ReturnedAt(after.returned, p, t)
      ensures (p == |w.returned| && t == ticket) || ReturnedAt(w.returned, p, t)
    {
    }
    forall i: nat, t: nat | HeldBy(after.receivers, i, t)
      ensures HeldBy(w.receivers, i, t) && t != ticket
    {
      assert i != who && HeldBy(w.receivers, i, t);
    }
  }

  lemma {:induction false} StepKeepsDelivered<T>(w: World<T>, a: Act<T>)
    requires Delivered(w) && Possible(w, a)
    ensures Delivered(Step(w, a))
  {
    var after := Step(w, a);
    match a
    case TrySend(_) => MoveKeepsDelivered(w, after);
    case RequestStop => MoveKeepsDelivered(w, after);
    case Receive(who) =>
      if w.chan.stop && w.chan.queue != [] {
        TakeKeepsDelivered(w, after, who);
      } else {
        MoveKeepsDelivered(w, after);
      }
    case GetFinishes(who) => TakeKeepsDelivered(w, after, who);
    case StopWakes(who) => MoveKeepsDelivered(w, after);
    case Abandon(who) => MoveKeepsDelivered(w, after);
    case Finish(who) =>
      if w.receivers[who].Holding? {
        HandOverKeepsDelivered(w, who, w.receivers[who].ticket, after);
      } else if w.chan.queue != [] {
        TakeKeepsDelivered(w, after, who);
      } else {
        MoveKeepsDelivered(w, after);
      }
  }

  lemma {:induction false} StepKeepsConserved<T(!new)>(w: World<T>, a: Act<T>)
    requires Conserved(w) && Possible(w, a)
    ensures Conserved(Step(w, a))
    ensures w.chan.stop ==> Step(w, a).chan.stop && Step(w, a).accepted == w.accepted
  {
    var after := Step(w, a);
    if w.chan.queue != [] {
      assert w.chan.queue == [w.chan.queue[0]] + w.chan.queue[1..];
      assert (w.taken + [w.chan.queue[0]]) + w.chan.queue[1..] == w.taken + w.chan.queue;
    }
    if a.TrySend? {
      assert (w.taken + w.chan.queue) + [a.value] == w.taken + (w.chan.queue + [a.value]);
    }
  }

  // Channel conservation, over every interleaving: nothing accepted is lost, duplicated or reordered, and a None
  // returned by any receive means that everything ever accepted has left the queue, for good.
  lemma {:induction false} NothingIsLost<T(!new)>(maxsize: int, acts: seq<Act<T>>)
    requires Run(Empty<T>(maxsize), acts).Some?
    ensures var w := Run(Empty<T>(maxsize), acts).value; Conserved(w) && Delivered(w) && w.chan.maxsize == maxsize
    ensures var w := Run(Empty<T>(maxsize), acts).value; None in w.returned ==> w.taken == w.accepted
  {
    if acts != [] {
      var n := |acts| - 1;
      NothingIsLost(maxsize, acts[..n]);
      var mid := Run(Empty<T>(maxsize), acts[..n]).value;
      StepKeepsConserved(mid, acts[n]);
      StepKeepsDelivered(mid, acts[n]);
    }
  }

  // A send is refused exactly for its two reasons, whatever has gone before: the channel is stopped, or it is live,
  // bounded, and holds as many items as its bound. Otherwise the item is accepted as the last one.
  lemma {:induction false} RefusedExactlyWhenStoppedOrFull<T(!new)>(maxsize: int, acts: seq<Act<T>>, v: T)
    requires Run(Empty<T>(maxsize), acts).Some?
    ensures var w := Run(Empty<T>(maxsize), acts).value;
            var result := Send(w.chan, v).1;
            && (result == SendStopped <==> w.chan.stop)
            && (result == SendFull <==> !w.chan.stop && maxsize > 0 && |w.chan.queue| == maxsize)
            && Step(w, TrySend(v)).accepted == if result == SendOk then w.accepted + [v] else w.accepted
  {
    NothingIsLost(maxsize, acts);
  }

  // So nothing but a stop or a bound ever refuses: in a run without stop, over an unbounded channel, every send is
  // accepted.
  lemma {:induction false} UnboundedAcceptsAll<T(!new)>(maxsize: int, acts: seq<Act<T>>)
    requires Run(Empty<T>(maxsize), acts).Some? && maxsize <= 0 && RequestStop !in acts
    ensures !Run(Empty<T>(maxsize), acts).value.chan.stop
    ensures Run(Empty<T>(maxsize), acts).value.accepted == Values(acts)
  {
    if acts != [] {
      var n := |acts| - 1;
      assert acts[n] in acts;
      UnboundedAcceptsAll(maxsize, acts[..n]);
      NothingIsLost(maxsize, acts[..n]);
    }
  }

  // The items of all sends, in order.
  function Values<T>(acts: seq<Act<T>>): seq<T> {
    if acts == [] then []
    else
      var n := |acts| - 1;
      if acts[n].TrySend? then Values(acts[..n]) + [acts[n].value] else Values(acts[..n])
  }

  // Nothing is accepted after stop, whatever follows.
  lemma {:induction false} StopIsFinal<T(!new)>(maxsize: int, acts: seq<Act<T>>, k: nat)
    requires k <= |acts| && Run(Empty<T>(maxsize), acts).Some?
    ensures Run(Empty<T>(maxsize), acts[..k]).Some?
    ensures var before, after := Run(Empty<T>(maxsize), acts[..k]).value, Run(Empty<T>(maxsize), acts).value;
            before.chan.stop ==> after.chan.stop && after.accepted == before.accepted
    decreases |acts|
  {
    if k < |acts| {
      var n := |acts| - 1;
      assert acts[..n][..k] == acts[..k];
      StopIsFinal(maxsize, acts[..n], k);
      NothingIsLost(maxsize, acts[..n]);
      StepKeepsConserved(Run(Empty<T>(maxsize), acts[..n]).value, acts[n]);
    } else {
      assert acts[..k] == acts;
    }
  }

  // An item is lost: it is with a receive call that will never return it.
  ghost predicate Swallowed<T>(w: World<T>) {
    exists who: nat, t: nat :: who in w.abandoned && HeldBy(w.receivers, who, t)
  }

  predicate NoAbandon<T(!new)>(acts: seq<Act<T>>) {
    forall k :: 0 <= k < |acts| ==> !acts[k].Abandon?
  }

  // Without an abandoned receive every item that has left the queue is returned, or with a call that will return it.
  lemma {:induction false} NothingIsSwallowed<T(!new)>(maxsize: int, acts: seq<Act<T>>)
    requires Run(Empty<T>(maxsize), acts).Some? && NoAbandon(acts)
    ensures Run(Empty<T>(maxsize), acts).value.abandoned == {} && !Swallowed(Run(Empty<T>(maxsize), acts).value)
  {
    if acts != [] {
      NothingIsSwallowed(maxsize, acts[..|acts| - 1]);
    }
  }

  // A live call that nothing will ever reach any more: the channel is stopped and empty.
  predicate Dry<T>(w: World<T>, who: nat) {
    who in w.receivers && !w.receivers[who].Holding? && w.chan.stop && w.chan.queue == []
  }

  lemma {:induction false} DryStaysDry<T(!new)>(w: World<T>, who: nat, acts: seq<Act<T>>)
    requires Dry(w, who) && w.abandoned == {who} && Run(w, acts).Some? && NoAbandon(acts)
    ensures Dry(Run(w, acts).value, who) && Run(w, acts).value.abandoned == {who} && !Swallowed(Run(w, acts).value)
  {
    if acts != [] {
      DryStaysDry(w, who, acts[..|acts| - 1]);
    }
  }

  // How an abandoned receive swallows an item: one that it holds, one that is queued, or one that is sent next.
  function Swallowing<T>(w: World<T>, who: nat, v: T): seq<Act<T>>
    requires who in w.receivers
  {
    if w.receivers[who].Holding? then []
    else if w.chan.queue != [] then [GetFinishes(who)]
    else [TrySend(v), GetFinishes(who)]
  }

  lemma OneMoreAct<T>(w: World<T>, acts: seq<Act<T>>, a: Act<T>)
    requires Run(w, acts).Some? && Possible(Run(w, acts).value, a)
    ensures Run(w, acts + [a]) == Some(Step(Run(w, acts).value, a))
  {
    assert (acts + [a])[..|acts|] == acts;
  }

  lemma {:induction false} AbandonedSwallows<T(!new)>(w: World<T>, who: nat, v: T)
    requires who in w.receivers && who in w.abandoned && !Dry(w, who)
    ensures NoAbandon(Swallowing(w, who, v)) && Run(w, Swallowing(w, who, v)).Some?
    ensures Swallowed(Run(w, Swallowing(w, who, v)).value)
  {
    var acts := Swallowing(w, who, v);
    if !w.receivers[who].Holding? {
      if w.chan.queue != [] {
        OneMoreAct(w, [], GetFinishes(who));
        assert [] + [Act<T>.GetFinishes(who)] == acts;
      } else {
        OneMoreAct(w, [], TrySend(v));
        assert [] + [TrySend(v)] == [TrySend(v)];
        OneMoreAct(w, [TrySend(v)], GetFinishes(who));
        assert [TrySend(v)] + [GetFinishes(who)] == acts;
      }
    }
    var end := Run(w, acts).value;
    assert HeldBy(end.receivers, who, end.receivers[who].ticket);
  }

  // Exact: abandoning a receive loses no item, whatever follows short of another abandoned receive, if and only if the
  // call holds none and the channel is stopped and empty.
  lemma {:induction false} AbandonIsSafeExactlyWhenDry<T(!new)>(w: World<T>, who: nat, v: T)
    requires Possible(w, Abandon(who)) && w.abandoned == {}
    ensures (forall acts :: Run(Step(w, Abandon(who)), acts).Some? && NoAbandon(acts) ==>
                              !Swallowed(Run(Step(w, Abandon(who)), acts).value)) <==>
            Dry(w, who)
  {
    var after := Step(w, Abandon(who));
    if Dry(w, who) {
      forall acts | Run(after, acts).Some? && NoAbandon(acts)
        ensures !Swallowed(Run(after, acts).value)
      {
        DryStaysDry(after, who, acts);
      }
    } else {
      AbandonedSwallows(after, who, v);
    }
  }
}
