/** The event-triggered state machine with rollback (`fsm/fsm.py`). */
module Fsm {
  import opened Wrappers

  // The part of an event that identifies it: its flow and its name.
  datatype EventKey = EventKey(flow: string, name: string)

  datatype Transition<S> = Transition(event: EventKey, fromStates: seq<S>, toState: S, hasHandler: bool)

  datatype Target<S> = Target(state: S, hasHandler: bool)

  datatype Error = InvalidEvent | HandlerFailed

  // `Refused` is the exception raised once the machine is closed.
  datatype Response<S> = Response(state: S, error: Option<Error>) | Refused

  // A transition may have a handler, and the caller may pass another one with the event.
  datatype Whose = OfTransition | OfCaller

  datatype Ran = Ran(whose: Whose, raised: bool)

  // The transition an event takes from a state: the last one listed for that pair wins.
  function LastMatch<S(==)>(transitions: seq<Transition<S>>, e: EventKey, s: S): Option<Target<S>> {
    if transitions == [] then None
    else
      var last := transitions[|transitions| - 1];
      if last.event == e && s in last.fromStates then Some(Target(last.toState, last.hasHandler))
      else LastMatch(transitions[..|transitions| - 1], e, s)
  }

  class Machine<S(==, !new)> {
    var current: Option<S>
    var transitions: map<(EventKey, S), Target<S>>
    var events: set<EventKey>
    ghost var listed: seq<Transition<S>>
    ghost var handled: seq<Ran>   // the handlers that ran, and whether each of them raised

    function Lookup(e: EventKey, s: S): Option<Target<S>>
      reads this`transitions
    {
      if (e, s) in transitions then Some(transitions[(e, s)]) else None
    }

    ghost predicate Valid()
      reads this`transitions, this`listed
    {
      forall e, s :: Lookup(e, s) == LastMatch(listed, e, s)
    }

    constructor (initial: S, options: seq<Transition<S>>)
      ensures Valid() && listed == options && current == Some(initial)
      ensures forall e :: e in events <==> exists k :: 0 <= k < |options| && options[k].event == e
    {
      current := Some(initial);
      transitions := map[];
      events := {};
      listed := options;
      new;
      for i := 0 to |options|
        modifies this
        invariant current == Some(initial) && listed == options
        invariant forall e, s :: Lookup(e, s) == LastMatch(options[..i], e, s)
        invariant forall e :: e in events <==> exists k :: 0 <= k < i && options[k].event == e
      {
        var tr := options[i];
        ghost var before, eventsBefore := transitions, events;
        for j := 0 to |tr.fromStates|
          modifies this
          invariant current == Some(initial) && listed == options && events == eventsBefore
          invariant forall e, s :: (e, s) in transitions <==>
                                   (e, s) in before || (e == tr.event && s in tr.fromStates[..j])
          invariant forall e, s :: (e, s) in transitions ==>
                                     transitions[(e, s)] ==
                                     if e == tr.event && s in tr.fromStates[..j] then Target(tr.toState, tr.hasHandler)
                                     else before[(e, s)]
        {
          transitions := transitions[(tr.event, tr.fromStates[j]) := Target(tr.toState, tr.hasHandler)];
        }
        events := events + {tr.event};
        assert options[..i + 1][..i] == options[..i];
      }
      assert options[..|options|] == options;
    }

    // A handler is foreign code that does not use the machine; it may raise. The log is extended here alone.
    method RunHandler(whose: Whose) returns (raised: bool)
      modifies this`handled
      ensures handled == old(handled) + [Ran(whose, raised)]
    {
      raised := *;
      handled := handled + [Ran(whose, raised)];
    }

    // Fire an event: the state moves exactly when there is a transition and no handler raises.
    method On(e: EventKey, hasHandler: bool) returns (r: Response<S>)
      requires Valid()
      modifies this`current, this`handled
      ensures Valid()
      ensures r == Refused <==> old(current) == None
      ensures old(current) == None ==> current == None && handled == old(handled)
      ensures old(current) != None ==> current == Some(r.state)
      ensures old(current) != None && LastMatch(listed, e, old(current).value) == None ==>
                r == Response(old(current).value, Some(InvalidEvent)) && handled == old(handled)
      ensures old(current) != None && LastMatch(listed, e, old(current).value) != None ==>
                var target := LastMatch(listed, e, old(current).value).value;
                var own := if target.hasHandler then [Ran(OfTransition, false)] else [];
                var callers := if hasHandler then [Ran(OfCaller, false)] else [];
                // Both handlers ran and none raised; or the transition's did; or it did not, and the caller's did.
                || (r == Response(target.state, None) &&
                    handled == old(handled) + own + callers)
                || (r == Response(old(current).value, Some(HandlerFailed)) && target.hasHandler &&
                    handled == old(handled) + [Ran(OfTransition, true)])
                || (r == Response(old(current).value, Some(HandlerFailed)) && hasHandler &&
                    handled == old(handled) + own + [Ran(OfCaller, true)])
    {
      if current == None {
        return Refused;
      }
      var target := Lookup(e, current.value);
      if target == None {
        return Response(current.value, Some(InvalidEvent));
      }
      var prev := current.value;
      current := Some(target.value.state);
      if target.value.hasHandler {
        var raised := RunHandler(OfTransition);
        if raised {
          current := Some(prev);
          return Response(prev, Some(HandlerFailed));
        }
      }
      if hasHandler {
        var raised := RunHandler(OfCaller);
        if raised {
          current := Some(prev);
          return Response(prev, Some(HandlerFailed));
        }
      }
      return Response(current.value, None);
    }

    method Restore(state: Option<S>)
      modifies this`current
      ensures current == state
    {
      current := state;
    }

    method Close()
      modifies this
      ensures Valid() && listed == [] && current == None
    {
      transitions, events, listed, current := map[], {}, [], None;
    }
  }

  // LastMatch is what its name says: some listed transition matches, and no later one does.
  lemma {:induction false} LastMatchIsLast<S>(transitions: seq<Transition<S>>, e: EventKey, s: S)
    ensures LastMatch(transitions, e, s).None? <==>
            forall k :: 0 <= k < |transitions| ==> !(transitions[k].event == e && s in transitions[k].fromStates)
    ensures LastMatch(transitions, e, s).Some? ==>
              exists k :: 0 <= k < |transitions| && transitions[k].event == e && s in transitions[k].fromStates &&
                          LastMatch(transitions, e, s).value == Target(transitions[k].toState, transitions[k].hasHandler) &&
                          forall l :: k < l < |transitions| ==>
                                        !(transitions[l].event == e && s in transitions[l].fromStates)
  {
    if transitions != [] {
      var n := |transitions| - 1;
      LastMatchIsLast(transitions[..n], e, s);
      if !(transitions[n].event == e && s in transitions[n].fromStates) && LastMatch(transitions, e, s).Some? {
        var k :| 0 <= k < n && transitions[..n][k].event == e && s in transitions[..n][k].fromStates &&
                 LastMatch(transitions[..n], e, s).value ==
                 Target(transitions[..n][k].toState, transitions[..n][k].hasHandler) &&
                 forall l :: k < l < n ==> !(transitions[..n][l].event == e && s in transitions[..n][l].fromStates);
        assert forall l :: k < l < n ==> transitions[..n][l] == transitions[l];
        assert transitions[k].event == e;
      } else if LastMatch(transitions, e, s).Some? {
        assert transitions[n].event == e && s in transitions[n].fromStates;
      }
    }
  }
}
