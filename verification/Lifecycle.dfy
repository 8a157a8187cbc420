/** The status fence of the job store (`scheduler/status.py`, `scheduler/store/lifecycle.py`). */
module Lifecycle {
  import opened Wrappers

  // A stored status is a string: the seven known ones, or any other text.
  datatype Status =
    | Unknown
    | Initializing
    | Scheduled
    | InProgress
    | Failed
    | Completed
    | Cancelled
    | Other(name: string)

  const NON_TERMINAL: set<Status> := {Unknown, Initializing, Scheduled, InProgress}

  predicate Terminal(s: Status) {
    s in {Failed, Completed, Cancelled}
  }

  function MayReplace(incoming: Status): set<Status> {
    match incoming
    case Unknown => {Unknown}
    case Initializing => {Unknown, Initializing}
    case Scheduled => {Unknown, Initializing, Scheduled}
    case InProgress => NON_TERMINAL
    case Failed => NON_TERMINAL + {Failed}
    case Completed => NON_TERMINAL + {Completed}
    case Cancelled => NON_TERMINAL + {Cancelled}
    case Other(_) => {incoming}
  }

  predicate PutApplies(existing: Option<Status>, incoming: Status) {
    existing.None? || existing.value in MayReplace(incoming)
  }

  // Status fence plus optimistic version check: a first insert always applies.
  predicate PutMayWrite(existing: Option<Status>, existingVersion: int, incoming: Status, incomingVersion: int) {
    existing.None? || (PutApplies(existing, incoming) && existingVersion == incomingVersion)
  }

  // How far along the lifecycle a status is; the three terminal statuses share the last rank.
  function Rank(s: Status): nat {
    match s
    case Unknown => 0
    case Initializing => 1
    case Scheduled => 2
    case InProgress => 3
    case Failed | Completed | Cancelled => 4
    case Other(_) => 5
  }

  // The order the fence is meant to enforce: stay, or move strictly later among the known statuses.
  predicate NoEarlier(existing: Status, incoming: Status) {
    existing == incoming || (Rank(existing) < Rank(incoming) && Rank(incoming) <= 4)
  }

  lemma FenceIsTheLifecycleOrder(existing: Status, incoming: Status)
    ensures PutApplies(Some(existing), incoming) <==> NoEarlier(existing, incoming)
  {
  }

  // NoEarlier is a partial order whose maxima are the terminal statuses, which are incomparable.
  lemma LifecycleOrderIsPartialOrder(a: Status, b: Status, c: Status)
    ensures NoEarlier(a, a)
    ensures NoEarlier(a, b) && NoEarlier(b, a) ==> a == b
    ensures NoEarlier(a, b) && NoEarlier(b, c) ==> NoEarlier(a, c)
    ensures Terminal(a) && NoEarlier(a, b) ==> a == b
    ensures !a.Other? && !Terminal(a) && Terminal(b) ==> NoEarlier(a, b)
  {
  }
}
