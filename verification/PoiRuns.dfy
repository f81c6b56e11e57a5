/** Runs of store writes and publications: which graphs come into force, and how the published corpora relate. */
module PoiRuns {
  import opened Wrappers
  import opened PoiGraph
  import opened PoiPublication
  import opened PoiStore
  import opened PoiHistory

  // ---------------------------------------------------------------------------------------------
  // Runs
  // ---------------------------------------------------------------------------------------------

  /** The stored events, the graph in force, the corpus it was published for, and when each bridge was first stored. */
  datatype State = State(store: Store, graph: Option<ActiveGraph>, corpus: seq<Event>, times: map<EventArtifact, Time>)

  /** A write to the store, or a publication of what an upstream's tip gives, begun at `now` and stored at `at`. The
      publication may not see the graph in force: when the row of its checkpoint catalog is marked unpinned, it is
      published as if there were none. */
  datatype Step = Writes(write: Write) | Publish(upstream: nat, hidden: bool, now: Time, at: Time)

  function Seen(s: State, hidden: bool): Option<ActiveGraph> {
    if hidden then None else s.graph
  }

  /** Stored times stay. Only the bridge of the tail in force is stored anew, also when the publication then fails. */
  ghost predicate Stores(times: map<EventArtifact, Time>, seen: Option<ActiveGraph>, at: Time,
                         after: map<EventArtifact, Time>)
  {
    && (forall bridge :: bridge in times ==> bridge in after && after[bridge] == times[bridge])
    && (forall bridge :: bridge in after && bridge !in times ==>
          after[bridge] == at && seen.Some?
            && bridge.start == seen.value.entry.rows < End(bridge) == seen.value.entry.count)
  }

  /** The times read with a graph are the stored ones of its bridges. */
  ghost predicate Recorded(times: map<EventArtifact, Time>, active: ActiveGraph) {
    && (forall bridge :: bridge in active.bridgeAt <==> bridge in active.entry.bridges)
    && (forall bridge :: bridge in active.bridgeAt ==> bridge in times && active.bridgeAt[bridge] == times[bridge])
  }

  /** A graph was put in force. */
  ghost predicate PutInForce(s: State, after: State) {
    after.graph != s.graph || after.corpus != s.corpus
  }

  ghost predicate Next(rules: Rules, s: State, step: Step, after: State) {
    match step
    case Writes(write) => after == s.(store := Apply(s.store, write))
    case Publish(upstream, hidden, now, at) =>
      && after.store == s.store && Stores(s.times, Seen(s, hidden), at, after.times)
      && (PutInForce(s, after) ==>
            && after.graph.Some? && Reads(s.store, upstream, after.corpus) && Recorded(after.times, after.graph.value)
            && Follows(rules, after.corpus, Seen(s, hidden), now, after.graph.value.entry))
  }

  ghost predicate Run(rules: Rules, states: seq<State>, steps: seq<Step>) {
    && |states| == |steps| + 1
    && states[0].graph.None? && states[0].corpus == [] && states[0].times == map[]
    && forall i :: 0 <= i < |steps| ==> Next(rules, states[i], steps[i], states[i + 1])
  }

  /** The graph in force is built as it should be, and its corpus is stored. */
  ghost predicate StateOk(rules: Rules, s: State) {
    && Holds(s.store.rows, s.corpus)
    && match s.graph
       case None => s.corpus == []
       case Some(active) => Built(rules, s.corpus, active.entry)
  }

  lemma NextKeeps(rules: Rules, s: State, step: Step, after: State)
    requires StateOk(rules, s) && Next(rules, s, step, after)
    ensures StateOk(rules, after) && Later(s.store, after.store)
  {
    hide Built, GraphOk, Follows, EndKept, Holds, Stores, Recorded;
    match step
    case Writes(write) =>
      WriteKeeps(s.store, write);
      HoldsLater(s.store, after.store, s.corpus);
    case Publish(upstream, hidden, now, _) =>
      if PutInForce(s, after) {
        assert Holds(after.store.rows, after.corpus) by { ReadsHolds(s.store, upstream, after.corpus); }
        if hidden || s.graph.None? {
          FirstPublication(rules, after.corpus, now, after.graph.value.entry);
        } else {
          PublicationKeeps(rules, s.corpus, after.corpus, s.graph.value, now, after.graph.value.entry);
        }
        assert Built(rules, after.corpus, after.graph.value.entry);
      }
  }

  lemma ReadsHolds(s: Store, upstream: nat, corpus: seq<Event>)
    requires Reads(s, upstream, corpus)
    ensures Holds(s.rows, corpus)
  {
  }

  lemma LaterTransitive(a: Store, b: Store, c: Store)
    requires Later(a, b) && Later(b, c)
    ensures Later(a, c)
  {
  }

  /** Over every run each graph put in force is built as it should be, and whatever was published stays stored. */
  lemma {:induction false} RunKeeps(rules: Rules, states: seq<State>, steps: seq<Step>, i: nat, j: nat)
    requires Run(rules, states, steps) && i <= j < |states|
    ensures StateOk(rules, states[j]) && Later(states[i].store, states[j].store)
    decreases j
  {
    hide StateOk, Next, Later;
    if j == 0 {
      assert StateOk(rules, states[0]) by { EmptyOk(rules, states[0]); }
      assert Later(states[0].store, states[0].store) by { SameLater(states[0].store); }
    } else {
      RunKeeps(rules, states, steps, if i == j then 0 else i, j - 1);
      NextKeeps(rules, states[j - 1], steps[j - 1], states[j]);
      if i == j {
        SameLater(states[j].store);
      } else {
        LaterTransitive(states[i].store, states[j - 1].store, states[j].store);
      }
    }
  }

  /** A publication that sees the graph in force keeps the end of its chain. */
  ghost predicate KeepsEnd(rules: Rules, s: State, step: Step, after: State) {
    step.Publish? && !step.hidden && s.graph.Some? && PutInForce(s, after)
      && s.graph.value.entry.count <= |after.corpus| ==>
      EndKept(rules, after.corpus, s.graph.value, step.now)
  }

  ghost predicate InForceOk(rules: Rules, s: State) {
    s.graph.Some? ==> GraphOk(rules, s.corpus, s.graph.value.entry)
  }

  lemma NextSound(rules: Rules, s: State, step: Step, after: State)
    requires StateOk(rules, s) && InForceOk(rules, s) && Next(rules, s, step, after)
    requires KeepsEnd(rules, s, step, after)
    ensures InForceOk(rules, after)
  {
    hide GraphOk, Built, EndKept, Follows, Reads, Apply, Holds, Stores, Recorded;
    if step.Publish? && PutInForce(s, after) {
      if step.hidden || s.graph.None? {
        FirstPublication(rules, after.corpus, step.now, after.graph.value.entry);
      } else {
        BuiltCount(rules, s.corpus, s.graph.value.entry);
        PublicationKeeps(rules, s.corpus, after.corpus, s.graph.value, step.now, after.graph.value.entry);
      }
    }
  }

  /** Over every run whose publications keep the end of the chain, each graph put in force is sound for its corpus. */
  lemma {:induction false} RunSound(rules: Rules, states: seq<State>, steps: seq<Step>, j: nat)
    requires Run(rules, states, steps) && j < |states|
    requires forall k :: 0 <= k < j ==> KeepsEnd(rules, states[k], steps[k], states[k + 1])
    ensures InForceOk(rules, states[j])
  {
    hide GraphOk, Next, KeepsEnd, StateOk;
    if j > 0 {
      RunSound(rules, states, steps, j - 1);
      RunKeeps(rules, states, steps, j - 1, j - 1);
      assert KeepsEnd(rules, states[j - 1], steps[j - 1], states[j - 1 + 1]);
      NextSound(rules, states[j - 1], steps[j - 1], states[j]);
    }
  }

  lemma BuiltCount(rules: Rules, corpus: seq<Event>, entry: Entry)
    requires Built(rules, corpus, entry)
    ensures entry.count == |corpus|
  {
    hide Tiles, AllFaithful;
  }

  lemma EmptyOk(rules: Rules, s: State)
    requires s.graph.None? && s.corpus == []
    ensures StateOk(rules, s)
  {
  }

  lemma SameLater(s: Store)
    ensures Later(s, s)
  {
  }

  /** Of any two corpora ever published one continues the other, even across publications that did not see the graph in
      force. */
  lemma {:induction false} PublishedComparable(rules: Rules, states: seq<State>, steps: seq<Step>, i: nat, j: nat)
    requires Run(rules, states, steps) && i <= j < |states|
    ensures if |states[i].corpus| <= |states[j].corpus| then states[i].corpus <= states[j].corpus
            else states[j].corpus <= states[i].corpus
  {
    RunKeeps(rules, states, steps, i, i);
    RunKeeps(rules, states, steps, i, j);
    hide Run, Built;
    HoldsLater(states[i].store, states[j].store, states[i].corpus);
    Comparable(states[j].store.rows, states[i].corpus, states[j].corpus);
  }

  // ---------------------------------------------------------------------------------------------
  // Growth
  // ---------------------------------------------------------------------------------------------

  /** The published corpus lies within this upstream's tip. */
  ghost predicate UpTo(s: State, upstream: nat) {
    s.corpus == [] || (upstream in s.store.tips && |s.corpus| <= s.store.tips[upstream] + 1)
  }

  lemma ReadsWithin(s: Store, upstream: nat, corpus: seq<Event>)
    requires Reads(s, upstream, corpus)
    ensures corpus == [] || (upstream in s.tips && |corpus| <= s.tips[upstream] + 1)
  {
  }

  /** A publication, hidden graph or not, continues the published corpus if and only if the tip it reads up to covers
      that corpus. */
  lemma {:induction false} GrowsIffCovered(rules: Rules, states: seq<State>, steps: seq<Step>, i: nat)
    requires Run(rules, states, steps) && i < |steps| && steps[i].Publish? && PutInForce(states[i], states[i + 1])
    ensures states[i].corpus <= states[i + 1].corpus <==> UpTo(states[i], steps[i].upstream)
  {
    RunKeeps(rules, states, steps, i, i);
    var s, after := states[i], states[i + 1];
    assert Next(rules, s, steps[i], after);
    hide Run, Built, Follows, Stores, Recorded;
    ReadsWithin(s.store, steps[i].upstream, after.corpus);
    if UpTo(s, steps[i].upstream) {
      ReadsReach(s.store, steps[i].upstream, s.corpus, after.corpus);
    }
  }

  /** Every publication that takes effect reads up to a tip that covers the published corpus. */
  ghost predicate Covering(states: seq<State>, steps: seq<Step>)
    requires |states| == |steps| + 1
  {
    forall i :: 0 <= i < |steps| && steps[i].Publish? && PutInForce(states[i], states[i + 1]) ==>
      UpTo(states[i], steps[i].upstream)
  }

  ghost predicate Growing(states: seq<State>) {
    forall i, j :: 0 <= i <= j < |states| ==> states[i].corpus <= states[j].corpus
  }

  lemma StepGrows(rules: Rules, states: seq<State>, steps: seq<Step>, i: nat)
    requires Run(rules, states, steps) && i < |steps|
    requires steps[i].Publish? && PutInForce(states[i], states[i + 1]) ==> UpTo(states[i], steps[i].upstream)
    ensures states[i].corpus <= states[i + 1].corpus
  {
    assert Next(rules, states[i], steps[i], states[i + 1]);
    hide Run, Follows, Stores, Recorded, Reads;
    if steps[i].Publish? && PutInForce(states[i], states[i + 1]) {
      GrowsIffCovered(rules, states, steps, i);
    }
  }

  lemma {:induction false} GrowsBetween(rules: Rules, states: seq<State>, steps: seq<Step>, i: nat, j: nat)
    requires Run(rules, states, steps) && Covering(states, steps) && i <= j < |states|
    ensures states[i].corpus <= states[j].corpus
    decreases j - i
  {
    hide Next, PutInForce, UpTo;
    if i < j {
      GrowsBetween(rules, states, steps, i, j - 1);
      StepGrows(rules, states, steps, j - 1);
    }
  }

  /** Over a run the published corpora only grow if and only if no publication reads up to a lower tip. */
  lemma {:induction false} RunGrowsIffCovering(rules: Rules, states: seq<State>, steps: seq<Step>)
    requires Run(rules, states, steps)
    ensures Growing(states) <==> Covering(states, steps)
  {
    hide Next, PutInForce, UpTo;
    if Covering(states, steps) {
      forall i, j | 0 <= i <= j < |states| ensures states[i].corpus <= states[j].corpus {
        GrowsBetween(rules, states, steps, i, j);
      }
    }
    if Growing(states) {
      forall i | 0 <= i < |steps| && steps[i].Publish? && PutInForce(states[i], states[i + 1])
        ensures UpTo(states[i], steps[i].upstream)
      {
        assert states[i].corpus <= states[i + 1].corpus;
        GrowsIffCovered(rules, states, steps, i);
      }
    }
  }

  /** A publication that sees the graph in force is refused when it would not cover the published corpus. */
  lemma {:induction false} SeenCovers(rules: Rules, states: seq<State>, steps: seq<Step>, i: nat)
    requires Run(rules, states, steps) && i < |steps| && steps[i].Publish? && PutInForce(states[i], states[i + 1])
    requires !steps[i].hidden
    ensures UpTo(states[i], steps[i].upstream) && states[i].corpus <= states[i + 1].corpus
  {
    RunKeeps(rules, states, steps, i, i);
    PublishedComparable(rules, states, steps, i, i + 1);
    GrowsIffCovered(rules, states, steps, i);
    var s, after := states[i], states[i + 1];
    assert Next(rules, s, steps[i], after);
    hide Run;
    if s.graph.Some? {
      PublicationKeeps(rules, s.corpus, after.corpus, s.graph.value, steps[i].now, after.graph.value.entry);
    }
  }

  /** Publications that all read one upstream cover, hidden graphs or not. */
  lemma {:induction false} OneUpstreamCovers(rules: Rules, states: seq<State>, steps: seq<Step>, upstream: nat, j: nat)
    requires Run(rules, states, steps) && j < |states|
    requires forall k :: 0 <= k < |steps| && steps[k].Publish? ==> steps[k].upstream == upstream
    ensures UpTo(states[j], upstream)
  {
    if j > 0 {
      OneUpstreamCovers(rules, states, steps, upstream, j - 1);
      var s, after := states[j - 1], states[j];
      assert Next(rules, s, steps[j - 1], after);
      hide Run, Follows, Stores, Recorded, Reads, Apply;
      match steps[j - 1]
      case Writes(write) => WriteKeeps(s.store, write);
      case Publish(_, _, _, _) =>
        if PutInForce(s, after) {
          ReadsWithin(s.store, upstream, after.corpus);
        }
    }
  }

  /** So over every run whose publications read one upstream the published corpora only grow. */
  lemma {:induction false} OneUpstreamGrows(rules: Rules, states: seq<State>, steps: seq<Step>, upstream: nat)
    requires Run(rules, states, steps)
    requires forall k :: 0 <= k < |steps| && steps[k].Publish? ==> steps[k].upstream == upstream
    ensures Growing(states)
  {
    hide Next, PutInForce, UpTo;
    forall i | 0 <= i < |steps| && steps[i].Publish? ensures UpTo(states[i], steps[i].upstream) {
      OneUpstreamCovers(rules, states, steps, upstream, i);
    }
    RunGrowsIffCovering(rules, states, steps);
  }

  /** Over every run, a chunk that is full in two published checkpoints is the same in both. */
  lemma {:induction false} RunSealed(rules: Rules, states: seq<State>, steps: seq<Step>, i: nat, j: nat, k: nat)
    requires WellSet(rules) && Run(rules, states, steps) && i <= j < |states|
    requires states[i].graph.Some? && states[j].graph.Some?
    requires (k + 1) * rules.span <= states[i].graph.value.entry.rows
             && (k + 1) * rules.span <= states[j].graph.value.entry.rows
    ensures var a, b := states[i].graph.value.entry.chunks, states[j].graph.value.entry.chunks;
            k < |a| && k < |b| && a[k] == b[k] && |a[k].events| == rules.span
  {
    RunKeeps(rules, states, steps, i, i);
    RunKeeps(rules, states, steps, i, j);
    PublishedComparable(rules, states, steps, i, j);
    hide Run, Tiles, AllFaithful, Cut;
    var a, b := states[i].graph.value.entry, states[j].graph.value.entry;
    SealedChunks(rules, states[i].corpus, a.rows, a.chunks, states[j].corpus, b.rows, b.chunks, k);
  }
}
