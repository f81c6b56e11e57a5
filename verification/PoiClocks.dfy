/** Runs under a clock that never goes back: the stored times of the bridges in force follow their order, so that no
    publication leaves a gap. */
module PoiClocks {
  import opened Wrappers
  import opened PoiGraph
  import opened PoiPublication
  import opened PoiStore
  import opened PoiHistory
  import opened PoiRuns

  type Times = map<EventArtifact, Time>

  // ---------------------------------------------------------------------------------------------
  // Stored times
  // ---------------------------------------------------------------------------------------------

  ghost predicate Ordered(times: Times, bridges: seq<EventArtifact>) {
    && (forall i :: 0 <= i < |bridges| ==> bridges[i] in times)
    && (forall i, j :: 0 <= i < j < |bridges| ==> times[bridges[i]] <= times[bridges[j]])
  }

  /** Every bridge ever stored ends within the count in force and was stored by now. */
  ghost predicate Bounded(times: Times, count: nat, clock: Time) {
    forall bridge :: bridge in times ==> bridge.start < End(bridge) <= count && times[bridge] <= clock
  }

  /** A bridge stored beyond the checkpoint in force was stored after its bridges. */
  ghost predicate Beyond(times: Times, rows: nat, bridges: seq<EventArtifact>) {
    forall bridge, i :: bridge in times && rows <= bridge.start && 0 <= i < |bridges| && bridges[i] in times ==>
      times[bridges[i]] <= times[bridge]
  }

  /** What a clock that never goes back keeps of the times, and with them of the graph in force. */
  ghost predicate TimesInv(rules: Rules, s: State, clock: Time) {
    match s.graph
    case None => s.times == map[]
    case Some(active) =>
      && GraphOk(rules, s.corpus, active.entry) && Recorded(s.times, active)
      && Ordered(s.times, active.entry.bridges) && Bounded(s.times, active.entry.count, clock)
      && Beyond(s.times, active.entry.rows, active.entry.bridges)
  }

  lemma StoredInOrder(times: Times, active: ActiveGraph, clock: Time, now: Time)
    requires Recorded(times, active) && Ordered(times, active.entry.bridges)
    requires Bounded(times, active.entry.count, clock) && clock <= now
    ensures TimesOk(active, now)
  {
    hide End;
    var bridges := active.entry.bridges;
    forall i | 0 <= i < |bridges| ensures BridgeTime(active, bridges[i], now) == Ok(times[bridges[i]]) {
    }
  }

  lemma StoresBounded(times: Times, seen: Option<ActiveGraph>, at: Time, after: Times, count: nat, clock: Time)
    requires Bounded(times, count, clock) && clock <= at && Stores(times, seen, at, after)
    requires seen.Some? ==> seen.value.entry.count <= count
    ensures Bounded(after, count, at)
  {
    forall bridge | bridge in after ensures bridge.start < End(bridge) <= count && after[bridge] <= at {
      if bridge in times {
        assert after[bridge] == times[bridge];
      }
    }
  }

  /** The bridges in force stay in order, and before every bridge stored beyond the checkpoint. */
  lemma StoresOrdered(times: Times, active: ActiveGraph, at: Time, after: Times, clock: Time)
    requires Ordered(times, active.entry.bridges) && Beyond(times, active.entry.rows, active.entry.bridges)
    requires Bounded(times, active.entry.count, clock) && clock <= at && Stores(times, Some(active), at, after)
    ensures Ordered(after, active.entry.bridges) && Beyond(after, active.entry.rows, active.entry.bridges)
  {
    hide End;
  }

  /** After a rotation the end of the chain that is kept is in order too. */
  lemma EndOrdered(times: Times, bridges: seq<EventArtifact>, last: EventArtifact, rows: nat, k: nat)
    requires Ordered(times, bridges) && Beyond(times, rows, bridges) && rows <= last.start && k <= |bridges| + 1
    requires k <= |bridges| ==> last in times
    ensures Ordered(times, (bridges + [last])[k..])
  {
    var all := bridges + [last];
    forall i | 0 <= i < |all[k..]| ensures all[k..][i] in times {
      assert all[k..][i] == all[k + i];
    }
    forall i, j | 0 <= i < j < |all[k..]| ensures times[all[k..][i]] <= times[all[k..][j]] {
      assert all[k..][i] == bridges[k + i] && all[k..][j] == all[k + j];
    }
  }

  lemma SuffixOrdered(times: Times, bridges: seq<EventArtifact>, k: nat)
    requires Ordered(times, bridges) && k <= |bridges|
    ensures Ordered(times, bridges[k..])
  {
  }

  /** Nothing stored lies beyond a checkpoint at the old count. */
  lemma NothingBeyond(times: Times, count: nat, clock: Time, rows: nat, bridges: seq<EventArtifact>)
    requires Bounded(times, count, clock) && count <= rows
    ensures Beyond(times, rows, bridges)
  {
  }

  // ---------------------------------------------------------------------------------------------
  // Steps
  // ---------------------------------------------------------------------------------------------

  lemma KeptOrdered(rules: Rules, corpus: seq<Event>, active: ActiveGraph, now: Time, bridges: seq<EventArtifact>,
                    times: Times)
    requires Linked(active.entry.rows, active.entry.bridges) && TimesOk(active, now)
    requires active.entry.rows <= active.entry.count <= |corpus|
    requires BridgesFollow(rules, corpus, active, now, bridges)
    requires Ordered(times, active.entry.bridges) && Beyond(times, active.entry.rows, active.entry.bridges)
    requires forall bridge :: bridge in bridges ==> bridge in times
    ensures Ordered(times, bridges)
  {
    hide Ordered, Beyond, Recents, AllRebuild, RotationRequired, Linked, TimesOk, Timed, InOrder;
    var graph := active.entry;
    if RotationRequired(rules, corpus, active, now) {
      var rotated := BridgesAfterRotation(rules, corpus, graph);
      RotatedInOrder(rules, corpus, active, now);
      InOrderSuffix(rules, active, rotated, now);
      var k := |rotated| - |bridges|;
      assert bridges == rotated[k..];
      if graph.rows < graph.count {
        var last := Cut(rules, corpus, Bridge, graph.rows, graph.count);
        assert k <= |graph.bridges| ==> bridges[|bridges| - 1] == last;
        EndOrdered(times, graph.bridges, last, graph.rows, k);
      } else {
        SuffixOrdered(times, graph.bridges, k);
      }
    }
  }

  lemma GraphShape(rules: Rules, corpus: seq<Event>, entry: Entry)
    requires GraphOk(rules, corpus, entry)
    ensures entry.rows <= entry.count == |corpus| && Linked(entry.rows, entry.bridges) && Built(rules, corpus, entry)
  {
    hide Tiles, AllFaithful, Linked;
  }

  lemma FollowsShape(rules: Rules, corpus: seq<Event>, active: ActiveGraph, now: Time, entry: Entry)
    requires Follows(rules, corpus, Some(active), now, entry)
    ensures active.entry.count <= |corpus| == entry.count && BridgesFollow(rules, corpus, active, now, entry.bridges)
    ensures RotationRequired(rules, corpus, active, now) ==> entry.rows == active.entry.count
    ensures !RotationRequired(rules, corpus, active, now) ==>
              entry.rows == active.entry.rows && entry.bridges == active.entry.bridges
  {
    hide Tiles, AllFit, TailFits, Cut, Timed, Recents, Newest, AllRebuild, RotationRequired;
  }

  lemma SeenTimed(rules: Rules, s: State, step: Step, after: State, clock: Time)
    requires TimesInv(rules, s, clock) && Next(rules, s, step, after)
    requires step.Publish? && !step.hidden && s.graph.Some? && PutInForce(s, after)
    requires clock <= step.now <= step.at
    ensures TimesInv(rules, after, step.at)
  {
    var active, entry := s.graph.value, after.graph.value.entry;
    hide GraphOk, Built, Follows, Reads, Recorded, Ordered, Bounded, Beyond, Stores, TimesOk, EndKept, Linked;
    hide BridgesFollow, RotationRequired;
    GraphShape(rules, s.corpus, active.entry);
    FollowsShape(rules, after.corpus, active, step.now, entry);
    StoredInOrder(s.times, active, clock, step.now);
    TimesKeepEnd(rules, after.corpus, active, step.now);
    PublicationKeeps(rules, s.corpus, after.corpus, active, step.now, entry);
    StoresBounded(s.times, Some(active), step.at, after.times, active.entry.count, clock);
    StoresOrdered(s.times, active, step.at, after.times, clock);
    RecordedIn(after.times, after.graph.value);
    KeptOrdered(rules, after.corpus, active, step.now, entry.bridges, after.times);
    LaterBounded(after.times, active.entry.count, entry.count, step.at);
    if RotationRequired(rules, after.corpus, active, step.now) {
      NothingBeyond(after.times, active.entry.count, step.at, entry.rows, entry.bridges);
    }
  }

  lemma RecordedIn(times: Times, active: ActiveGraph)
    requires Recorded(times, active)
    ensures forall bridge :: bridge in active.entry.bridges ==> bridge in times
  {
  }

  lemma LaterBounded(times: Times, count: nat, later: nat, clock: Time)
    requires Bounded(times, count, clock) && count <= later
    ensures Bounded(times, later, clock)
  {
  }

  /** Without a graph, or with a hidden one, there are no bridges to follow. */
  lemma FreshTimed(rules: Rules, s: State, step: Step, after: State, clock: Time)
    requires TimesInv(rules, s, clock) && Next(rules, s, step, after)
    requires step.Publish? && (step.hidden || s.graph.None?) && PutInForce(s, after)
    requires |s.corpus| <= |after.corpus| && clock <= step.now <= step.at
    ensures TimesInv(rules, after, step.at)
  {
    var entry := after.graph.value.entry;
    FirstPublication(rules, after.corpus, step.now, entry);
    StoresNothing(s.times, step.at, after.times);
    NoBridges(s.times, entry.rows);
    assert entry.bridges == [];
    hide Follows, Reads, Recorded, Stores, Ordered, Beyond, Linked, Tiles, AllFaithful;
    assert Bounded(s.times, |s.corpus|, clock);
    hide Bounded, GraphOk;
    LaterBounded(s.times, |s.corpus|, |after.corpus|, clock);
    OlderBounded(s.times, |after.corpus|, clock, step.at);
    GraphShape(rules, after.corpus, entry);
  }

  lemma StoresNothing(times: Times, at: Time, after: Times)
    requires Stores(times, None, at, after)
    ensures after == times
  {
  }

  lemma NoBridges(times: Times, rows: nat)
    ensures Ordered(times, []) && Beyond(times, rows, [])
  {
  }

  lemma OlderBounded(times: Times, count: nat, clock: Time, later: Time)
    requires Bounded(times, count, clock) && clock <= later
    ensures Bounded(times, count, later)
  {
  }

  /** A publication that comes to nothing may still store the bridge of the tail. */
  lemma StillTimed(rules: Rules, s: State, step: Step, after: State, clock: Time)
    requires TimesInv(rules, s, clock) && Next(rules, s, step, after)
    requires step.Publish? && !PutInForce(s, after) && clock <= step.now <= step.at
    ensures TimesInv(rules, after, step.at)
  {
    hide GraphOk, Follows, Reads, Ordered, Bounded, Beyond;
    if s.graph.Some? {
      var active := s.graph.value;
      StoresBounded(s.times, Seen(s, step.hidden), step.at, after.times, active.entry.count, clock);
      StoresStay(s.times, Seen(s, step.hidden), step.at, after.times, active);
      StoresOrdered(s.times, active, step.at, after.times, clock);
    }
  }

  /** Storing nothing is a way of storing at most the bridge of the tail, and changes no recorded time. */
  lemma StoresStay(times: Times, seen: Option<ActiveGraph>, at: Time, after: Times, active: ActiveGraph)
    requires Stores(times, seen, at, after) && Recorded(times, active) && (seen == None || seen == Some(active))
    ensures Stores(times, Some(active), at, after) && Recorded(after, active)
  {
    hide End;
  }

  // ---------------------------------------------------------------------------------------------
  // Runs
  // ---------------------------------------------------------------------------------------------

  /** The clock after the first `n` steps of a run that begins at `start`. */
  function Clock(start: Time, steps: seq<Step>, n: nat): Time
    requires n <= |steps|
  {
    if n == 0 then start
    else if steps[n - 1].Publish? then steps[n - 1].at
    else Clock(start, steps, n - 1)
  }

  /** The clock never goes back: a publication begins after the one before it was stored. */
  predicate Forward(start: Time, steps: seq<Step>) {
    forall i :: 0 <= i < |steps| && steps[i].Publish? ==> Clock(start, steps, i) <= steps[i].now <= steps[i].at
  }

  /** Publications that do not see the graph in force read up to a tip that covers the published corpus. */
  ghost predicate HiddenCover(states: seq<State>, steps: seq<Step>)
    requires |states| == |steps| + 1
  {
    forall i :: 0 <= i < |steps| && steps[i].Publish? && steps[i].hidden && PutInForce(states[i], states[i + 1]) ==>
      UpTo(states[i], steps[i].upstream)
  }

  lemma NextTimed(rules: Rules, states: seq<State>, steps: seq<Step>, i: nat, clock: Time)
    requires Run(rules, states, steps) && i < |steps| && HiddenCover(states, steps)
    requires TimesInv(rules, states[i], clock) && (steps[i].Publish? ==> clock <= steps[i].now <= steps[i].at)
    ensures TimesInv(rules, states[i + 1], if steps[i].Publish? then steps[i].at else clock)
  {
    var s, step, after := states[i], steps[i], states[i + 1];
    assert Next(rules, s, step, after);
    if step.Publish? {
      if !PutInForce(s, after) {
        StillTimed(rules, s, step, after, clock);
      } else if step.hidden || s.graph.None? {
        FreshGrows(rules, states, steps, i);
        FreshTimed(rules, s, step, after, clock);
      } else {
        SeenTimed(rules, s, step, after, clock);
      }
    }
  }

  lemma FreshGrows(rules: Rules, states: seq<State>, steps: seq<Step>, i: nat)
    requires Run(rules, states, steps) && i < |steps| && HiddenCover(states, steps)
    requires steps[i].Publish? && (steps[i].hidden || states[i].graph.None?) && PutInForce(states[i], states[i + 1])
    ensures |states[i].corpus| <= |states[i + 1].corpus|
  {
    RunKeeps(rules, states, steps, i, i);
    hide Next;
    GrowsIffCovered(rules, states, steps, i);
  }

  lemma {:induction false} RunTimed(rules: Rules, states: seq<State>, steps: seq<Step>, start: Time, j: nat)
    requires Run(rules, states, steps) && Forward(start, steps) && HiddenCover(states, steps) && j < |states|
    ensures TimesInv(rules, states[j], Clock(start, steps, j))
  {
    hide Next, TimesInv, HiddenCover;
    if j == 0 {
      FirstTimed(rules, states[0], start);
    } else {
      RunTimed(rules, states, steps, start, j - 1);
      NextTimed(rules, states, steps, j - 1, Clock(start, steps, j - 1));
    }
  }

  lemma FirstTimed(rules: Rules, s: State, clock: Time)
    requires s.graph.None? && s.times == map[]
    ensures TimesInv(rules, s, clock)
  {
  }

  /** Over every run with a clock that never goes back, whose hidden publications cover the published corpus, each graph
      put in force is sound for its corpus: its bridges are a gapless chain that ends at its checkpoint. */
  lemma {:induction false} ClockedSound(rules: Rules, states: seq<State>, steps: seq<Step>, start: Time, j: nat)
    requires Run(rules, states, steps) && Forward(start, steps) && HiddenCover(states, steps) && j < |states|
    ensures InForceOk(rules, states[j])
  {
    hide Next, HiddenCover, Forward, GraphOk, Ordered, Bounded, Beyond, Recorded;
    RunTimed(rules, states, steps, start, j);
  }
}
