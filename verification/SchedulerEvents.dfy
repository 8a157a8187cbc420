/** The transition table of a job (`scheduler/events.py`) and its agreement with the store fence. */
module SchedulerEvents {
  import opened Wrappers
  import opened Lifecycle
  import opened Fsm

  datatype Event = INIT | SCHEDULE | RUN | FAIL | COMPLETE | CANCEL

  function KeyOf(e: Event): EventKey {
    match e
    case INIT => EventKey("", "init")
    case SCHEDULE => EventKey("", "schedule")
    case RUN => EventKey("", "run")
    case FAIL => EventKey("", "fail")
    case COMPLETE => EventKey("", "complete")
    case CANCEL => EventKey("", "cancel")
  }

  const TABLE: seq<Transition<Status>> := [
    Transition(KeyOf(INIT), [Unknown], Initializing, false),
    Transition(KeyOf(SCHEDULE), [Initializing], Scheduled, false),
    Transition(KeyOf(RUN), [Scheduled], InProgress, false),
    Transition(KeyOf(FAIL), [InProgress], Failed, false),
    Transition(KeyOf(COMPLETE), [InProgress], Completed, false),
    Transition(KeyOf(CANCEL), [Scheduled, InProgress], Cancelled, false)
  ]

  // The state an event leads to, or None when the machine rejects it.
  function Next(s: Status, e: Event): Option<Status> {
    match e
    case INIT => if s == Unknown then Some(Initializing) else None
    case SCHEDULE => if s == Initializing then Some(Scheduled) else None
    case RUN => if s == Scheduled then Some(InProgress) else None
    case FAIL => if s == InProgress then Some(Failed) else None
    case COMPLETE => if s == InProgress then Some(Completed) else None
    case CANCEL => if s in {Scheduled, InProgress} then Some(Cancelled) else None
  }

  lemma {:induction false} KeysDiffer(a: Event, b: Event)
    ensures KeyOf(a) == KeyOf(b) ==> a == b
  {
    assert |KeyOf(INIT).name| == 4 && |KeyOf(SCHEDULE).name| == 8 && |KeyOf(RUN).name| == 3 &&
           |KeyOf(FAIL).name| == 4 && |KeyOf(COMPLETE).name| == 8 && |KeyOf(CANCEL).name| == 6;
    assert KeyOf(INIT).name[0] == 'i' && KeyOf(FAIL).name[0] == 'f';
    assert KeyOf(SCHEDULE).name[0] == 's' && KeyOf(COMPLETE).name[0] == 'c';
  }

  // The event that row n of the table is for.
  function RowEvent(n: nat): Event {
    match n
    case 0 => INIT
    case 1 => SCHEDULE
    case 2 => RUN
    case 3 => FAIL
    case 4 => COMPLETE
    case _ => CANCEL
  }

  lemma RowIsNext(n: nat, s: Status)
    requires n < |TABLE| == 6
    ensures TABLE[n].event == KeyOf(RowEvent(n)) && !TABLE[n].hasHandler
    ensures Next(s, RowEvent(n)) == if s in TABLE[n].fromStates then Some(TABLE[n].toState) else None
  {
  }

  // The first n rows already decide every event they are for, and no other.
  lemma {:induction false} RowsDecide(n: nat, s: Status, e: Event)
    requires n <= |TABLE| == 6
    ensures LastMatch(TABLE[..n], KeyOf(e), s) ==
            if (exists k :: 0 <= k < n && RowEvent(k) == e) && Next(s, e).Some? then Some(Target(Next(s, e).value, false))
            else None
  {
    if n > 0 {
      RowsDecide(n - 1, s, e);
      RowIsNext(n - 1, s);
      KeysDiffer(e, RowEvent(n - 1));
      assert TABLE[..n][..n - 1] == TABLE[..n - 1];
    }
  }

  // `Next` is the machine built from the table.
  lemma {:induction false} TableIsNext(s: Status, e: Event)
    ensures LastMatch(TABLE, KeyOf(e), s) ==
            match Next(s, e)
            case None => None
            case Some(to) => Some(Target(to, false))
  {
    RowsDecide(6, s, e);
    assert RowEvent(0) == INIT && RowEvent(1) == SCHEDULE && RowEvent(2) == RUN &&
           RowEvent(3) == FAIL && RowEvent(4) == COMPLETE && RowEvent(5) == CANCEL;
    assert TABLE[..6] == TABLE;
  }

  // The state after a sequence of events, all accepted.
  function AfterEvents(s: Status, events: seq<Event>): Option<Status> {
    if events == [] then Some(s)
    else
      match AfterEvents(s, events[..|events| - 1])
      case None => None
      case Some(mid) => Next(mid, events[|events| - 1])
  }

  // A new job takes exactly these events, in this order, and any of them may be the last so far.
  lemma {:induction false} LifeOfAJob(events: seq<Event>)
    ensures AfterEvents(Unknown, events).Some? <==>
            || events <= [INIT, SCHEDULE, CANCEL] || events <= [INIT, SCHEDULE, RUN, FAIL]
            || events <= [INIT, SCHEDULE, RUN, COMPLETE] || events <= [INIT, SCHEDULE, RUN, CANCEL]
    ensures AfterEvents(Unknown, events).Some? ==>
              AfterEvents(Unknown, events).value ==
              if events == [] then Unknown
              else match events[|events| - 1]
                   case INIT => Initializing
                   case SCHEDULE => Scheduled
                   case RUN => InProgress
                   case FAIL => Failed
                   case COMPLETE => Completed
                   case CANCEL => Cancelled
  {
    if events != [] {
      var n := |events| - 1;
      LifeOfAJob(events[..n]);
      assert events == events[..n] + [events[n]];
      if n > 0 {
        assert events[..n][n - 1] == events[n - 1];
      }
    }
  }

  // Along every accepted run each later state may be stored over each earlier one.
  lemma {:induction false} AcceptedRunsPassTheFence(s: Status, events: seq<Event>, i: nat, j: nat)
    requires i <= j <= |events| && AfterEvents(s, events).Some?
    ensures AfterEvents(s, events[..i]).Some? && AfterEvents(s, events[..j]).Some?
    ensures PutApplies(AfterEvents(s, events[..i]), AfterEvents(s, events[..j]).value)
    ensures i < j ==> !PutApplies(AfterEvents(s, events[..j]), AfterEvents(s, events[..i]).value)
    decreases |events|
  {
    var n := |events| - 1;
    if j < |events| {
      assert events[..n][..i] == events[..i] && events[..n][..j] == events[..j];
      AcceptedRunsPassTheFence(s, events[..n], i, j);
    } else {
      assert events[..j] == events;
      if i < j {
        assert events[..n][..i] == events[..i] && events[..n][..n] == events[..n];
        AcceptedRunsPassTheFence(s, events[..n], i, n);
        var a, b, c := AfterEvents(s, events[..i]).value, AfterEvents(s, events[..n]).value, AfterEvents(s, events).value;
        FenceIsTheLifecycleOrder(a, b);
        FenceIsTheLifecycleOrder(a, c);
        FenceIsTheLifecycleOrder(c, a);
      } else {
        FenceIsTheLifecycleOrder(AfterEvents(s, events).value, AfterEvents(s, events).value);
      }
    }
  }
}
