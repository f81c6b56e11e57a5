/** Counting the tasks that own provider pins, and draining them at shutdown. */
module PinOwnership {
  /** The ownership state shared by all tasks. Leases are numbered as they are handed out; `open` are those not yet
      settled. */
  class PinLifecycle {
    var accepting: bool
    var active: nat
    ghost var acquired: nat
    ghost var open: set<nat>

    /** The count is the number of leases acquired and not settled. */
    ghost predicate Valid()
      reads this
    {
      active == |open| && forall lease :: lease in open ==> lease < acquired
    }

    constructor ()
      ensures Valid() && accepting && active == 0 && acquired == 0 && open == {}
    {
      accepting, active := true, 0;
      acquired, open := 0, {};
    }

    /** Hands out a lease unless admission is closed. */
    method TryAcquire() returns (granted: bool, ghost lease: nat)
      requires Valid()
      modifies this
      ensures Valid() && granted == old(accepting) && accepting == old(accepting)
      ensures granted ==> lease == old(acquired) && acquired == old(acquired) + 1
      ensures granted ==> open == old(open) + {lease} && active == old(active) + 1
      ensures !granted ==> acquired == old(acquired) && open == old(open) && active == old(active)
    {
      lease := acquired;
      if !accepting {
        return false, lease;
      }
      active := active + 1;
      acquired, open := acquired + 1, open + {lease};
      return true, lease;
    }

    method StopAccepting()
      requires Valid()
      modifies this
      ensures Valid() && !accepting && active == old(active) && acquired == old(acquired) && open == old(open)
    {
      accepting := false;
    }

    method ActiveOwners() returns (count: nat)
      requires Valid()
      ensures count == |open|
    {
      return active;
    }

    /** Settles a lease once; it is used up by this. */
    method Settle(ghost lease: nat)
      requires Valid() && lease in open
      modifies this
      ensures Valid() && accepting == old(accepting) && acquired == old(acquired)
      ensures open == old(open) - {lease} && active == old(active) - 1
    {
      assert |open - {lease}| == |open| - 1;
      active := active - 1;
      open := open - {lease};
    }
  }

  // ---------------------------------------------------------------------------------------------
  // Shutdown
  // ---------------------------------------------------------------------------------------------

  /** Where the main task is: running, admission closed and draining, the deadline passed, no owner seen, aborted. */
  datatype Drain = Running | Draining | Expired | NoOwners | Aborted

  datatype State = State(accepting: bool, open: set<nat>, acquired: nat, drain: Drain)

  datatype Event = Acquire | Settle(lease: nat) | Close | Expire | SeeNoOwners | Abort

  const START := State(true, {}, 0, Running)

  predicate Enabled(s: State, e: Event) {
    match e
    case Acquire => s.accepting && !s.drain.Aborted?
    case Settle(lease) => lease in s.open
    case Close => s.drain.Running?
    case Expire => s.drain.Draining?
    case SeeNoOwners => s.drain.Expired? && |s.open| == 0
    case Abort => s.drain.NoOwners?
  }

  function Apply(s: State, e: Event): State
    requires Enabled(s, e)
  {
    match e
    case Acquire => s.(open := s.open + {s.acquired}, acquired := s.acquired + 1)
    case Settle(lease) => s.(open := s.open - {lease})
    case Close => s.(accepting := false, drain := Draining)
    case Expire => s.(drain := Expired)
    case SeeNoOwners => s.(drain := NoOwners)
    case Abort => s.(drain := Aborted)
  }

  ghost predicate Run(states: seq<State>, events: seq<Event>) {
    && |states| == |events| + 1
    && states[0] == START
    && forall i :: 0 <= i < |events| ==> Enabled(states[i], events[i]) && states[i + 1] == Apply(states[i], events[i])
  }

  predicate Inv(s: State) {
    && (s.accepting <==> s.drain.Running?)
    && (s.drain.NoOwners? || s.drain.Aborted? ==> s.open == {})
  }

  lemma {:induction false} RunKeeps(states: seq<State>, events: seq<Event>, i: nat)
    requires Run(states, events) && i < |states|
    ensures Inv(states[i])
  {
    if i > 0 {
      RunKeeps(states, events, i - 1);
      assert Enabled(states[i - 1], events[i - 1]);
    }
  }

  /** Tasks are aborted only when nobody owns a pin, and nobody ever does again. */
  lemma AbortsNoOwner(states: seq<State>, events: seq<Event>, i: nat, j: nat)
    requires Run(states, events) && i < |events| && events[i].Abort? && i <= j < |states|
    ensures states[j].open == {}
  {
    RunKeeps(states, events, i);
    OnlyShrinks(states, events, i, j);
  }

  /** Once admission is closed no lease is handed out: the open ones only shrink. */
  lemma {:induction false} OnlyShrinks(states: seq<State>, events: seq<Event>, i: nat, j: nat)
    requires Run(states, events) && i <= j < |states| && !states[i].accepting
    ensures !states[j].accepting && states[j].open <= states[i].open
    decreases j - i
  {
    if i < j {
      OnlyShrinks(states, events, i, j - 1);
      assert Enabled(states[j - 1], events[j - 1]);
    }
  }
}
