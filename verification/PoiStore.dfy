/** The stored POI events of one list and chain: what may be written over what, and the corpora read from them. */
module PoiStore {
  import opened Wrappers
  import opened PoiGraph

  /** An event without its signature and type is stored incomplete, until it is fetched in full. */
  datatype StoredEvent = StoredEvent(event: Event, complete: bool)

  type Rows = map<nat, StoredEvent>

  /** The tip is kept for each upstream the events are scraped from; the events are not. */
  datatype Store = Store(rows: Rows, tips: map<nat, nat>)

  datatype Conflict = Conflict(index: nat)

  const UNSIGNED: nat := 0

  const SHIELD: nat := 0

  // ---------------------------------------------------------------------------------------------
  // Writing
  // ---------------------------------------------------------------------------------------------

  /** A complete event is never written over: the same one again is skipped, any other is a conflict. */
  function InsertEvent(rows: Rows, event: Event): Result<Rows, Conflict> {
    if event.index !in rows || (!rows[event.index].complete && rows[event.index].event.commitment == event.commitment)
    then Ok(rows[event.index := StoredEvent(event, true)])
    else if rows[event.index] == StoredEvent(event, true) then Ok(rows)
    else Err(Conflict(event.index))
  }

  function InsertAll(rows: Rows, events: seq<Event>): Result<Rows, Conflict> {
    if events == [] then Ok(rows)
    else
      match InsertAll(rows, events[..|events| - 1])
      case Err(conflict) => Err(conflict)
      case Ok(before) => InsertEvent(before, events[|events| - 1])
  }

  method InsertEvents(rows: Rows, events: seq<Event>) returns (r: Result<Rows, Conflict>)
    ensures r == InsertAll(rows, events)
  {
    hide InsertEvent;
    var written := rows;
    for i := 0 to |events|
      invariant InsertAll(rows, events[..i]) == Ok(written)
    {
      assert events[..i + 1][..i] == events[..i];
      var next := InsertEvent(written, events[i]);
      if next.Err? {
        InsertStops(rows, events, i + 1);
        return next;
      }
      written := next.value;
    }
    assert events[..|events|] == events;
    return Ok(written);
  }

  lemma {:induction false} InsertStops(rows: Rows, events: seq<Event>, i: nat)
    requires i <= |events| && InsertAll(rows, events[..i]).Err?
    ensures InsertAll(rows, events) == InsertAll(rows, events[..i])
    decreases |events| - i
  {
    hide InsertEvent;
    if i < |events| {
      assert events[..i + 1][..i] == events[..i];
      InsertStops(rows, events, i + 1);
    } else {
      assert events[..i] == events;
    }
  }

  /** A leaf known only by its commitment; an event already there must have that commitment and stays. */
  function InsertLeaf(rows: Rows, index: nat, leaf: nat): Result<Rows, Conflict> {
    if index !in rows then Ok(rows[index := StoredEvent(Event(index, leaf, UNSIGNED, SHIELD), false)])
    else if rows[index].event.commitment == leaf then Ok(rows)
    else Err(Conflict(index))
  }

  function InsertLeaves(rows: Rows, start: nat, leaves: seq<nat>): Result<Rows, Conflict> {
    if leaves == [] then Ok(rows)
    else
      match InsertLeaves(rows, start, leaves[..|leaves| - 1])
      case Err(conflict) => Err(conflict)
      case Ok(before) => InsertLeaf(before, start + |leaves| - 1, leaves[|leaves| - 1])
  }

  /** Every row stays, and complete rows stay as they are. */
  ghost predicate Keeps(rows: Rows, after: Rows) {
    forall i :: i in rows ==> i in after && (rows[i].complete ==> after[i] == rows[i])
  }

  lemma {:induction false} InsertKeeps(rows: Rows, events: seq<Event>)
    requires InsertAll(rows, events).Ok?
    ensures Keeps(rows, InsertAll(rows, events).value)
  {
    if events != [] {
      InsertKeeps(rows, events[..|events| - 1]);
    }
  }

  lemma {:induction false} LeavesKeep(rows: Rows, start: nat, leaves: seq<nat>)
    requires InsertLeaves(rows, start, leaves).Ok?
    ensures Keeps(rows, InsertLeaves(rows, start, leaves).value)
  {
    if leaves != [] {
      LeavesKeep(rows, start, leaves[..|leaves| - 1]);
    }
  }

  /** A transaction that stores a page of events and advances the tip, or one that stores leaves. */
  datatype Write = Page(upstream: nat, events: seq<Event>) | Leaves(start: nat, leaves: seq<nat>)

  function Advance(tips: map<nat, nat>, upstream: nat, index: nat): map<nat, nat> {
    if upstream in tips && tips[upstream] > index then tips else tips[upstream := index]
  }

  /** A conflict rolls the whole transaction back. */
  function Apply(s: Store, write: Write): Store {
    match write
    case Page(upstream, events) =>
      (match InsertAll(s.rows, events)
       case Err(_) => s
       case Ok(rows) => if events == [] then s else Store(rows, Advance(s.tips, upstream, events[|events| - 1].index)))
    case Leaves(start, leaves) =>
      match InsertLeaves(s.rows, start, leaves)
      case Err(_) => s
      case Ok(rows) => s.(rows := rows)
  }

  ghost predicate Later(s: Store, after: Store) {
    && Keeps(s.rows, after.rows)
    && forall upstream :: upstream in s.tips ==> upstream in after.tips && s.tips[upstream] <= after.tips[upstream]
  }

  /** No write changes a complete event or takes a tip back. */
  lemma WriteKeeps(s: Store, write: Write)
    ensures Later(s, Apply(s, write))
  {
    match write
    case Page(upstream, events) =>
      if InsertAll(s.rows, events).Ok? {
        InsertKeeps(s.rows, events);
      }
    case Leaves(start, leaves) =>
      if InsertLeaves(s.rows, start, leaves).Ok? {
        LeavesKeep(s.rows, start, leaves);
      }
  }

  // ---------------------------------------------------------------------------------------------
  // Reading
  // ---------------------------------------------------------------------------------------------

  /** These events are stored, complete. */
  ghost predicate Holds(rows: Rows, corpus: seq<Event>) {
    forall i :: 0 <= i < |corpus| ==> i in rows && rows[i] == StoredEvent(corpus[i], true)
  }

  /** The corpus read for an upstream: all its events up to the tip, which must be complete and without gap. */
  ghost predicate Reads(s: Store, upstream: nat, corpus: seq<Event>) {
    if upstream !in s.tips then corpus == []
    else
      && |corpus| <= s.tips[upstream] + 1 && Holds(s.rows, corpus)
      && forall i :: |corpus| <= i <= s.tips[upstream] ==> i !in s.rows
  }

  lemma HoldsLater(s: Store, after: Store, corpus: seq<Event>)
    requires Holds(s.rows, corpus) && Later(s, after)
    ensures Holds(after.rows, corpus)
  {
  }

  /** Two corpora stored at one time are one the beginning of the other. */
  lemma Comparable(rows: Rows, a: seq<Event>, b: seq<Event>)
    requires Holds(rows, a) && Holds(rows, b)
    ensures if |a| <= |b| then a <= b else b <= a
  {
    forall i | 0 <= i < |a| && i < |b| ensures a[i] == b[i] {
      assert i in rows;
    }
  }

  /** What is read up to a tip continues every corpus stored up to that tip. */
  lemma ReadsReach(s: Store, upstream: nat, a: seq<Event>, b: seq<Event>)
    requires Holds(s.rows, a) && Reads(s, upstream, b)
    requires a == [] || (upstream in s.tips && |a| <= s.tips[upstream] + 1)
    ensures a <= b
  {
    if a != [] {
      assert |b| < |a| ==> |b| in s.rows;
      Comparable(s.rows, a, b);
    }
  }
}
