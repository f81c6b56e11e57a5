/** Planning the log filters of a block range: which event topics are requested at which blocks. */
module FilterPlan {
  import opened Wrappers

  /** Block numbers are unsigned 64-bit. */
  type Block = n: nat | n < 0x1_0000_0000_0000_0000

  const LAST_BLOCK: Block := 0xFFFF_FFFF_FFFF_FFFF

  datatype Topic =
    CommitmentBatch | GeneratedCommitmentBatch | Nullifiers | Nullified | Transact
    | LegacyShield | Shield | Action | Unshield

  /** Where the contract changed its events. */
  datatype Eras = Eras(v2Start: Block, legacyShield: Block, actionStart: Option<Block>)

  datatype Filter = Filter(from: Block, to: Block, topics: seq<Topic>)

  const LEGACY_TOPICS: seq<Topic> := [CommitmentBatch, GeneratedCommitmentBatch]

  const NULLIFIER_TOPICS: seq<Topic> := [Nullifiers, Nullified]

  const ACTION_TOPICS: seq<Topic> := [Action, Unshield]

  function SaturatingAdd(a: Block, n: nat): Block {
    if a + n < LAST_BLOCK then a + n else LAST_BLOCK
  }

  // ---------------------------------------------------------------------------------------------
  // What each block needs
  // ---------------------------------------------------------------------------------------------

  /** The topics the contract can emit at a block, told by the block alone. */
  function BlockTopics(eras: Eras, block: Block): set<Topic> {
    {Nullifiers, Nullified}
    + (if block < eras.v2Start then {CommitmentBatch, GeneratedCommitmentBatch}
       else {Transact, if block <= eras.legacyShield then LegacyShield else Shield})
    + (if eras.actionStart.Some? && eras.actionStart.value <= block then {Action, Unshield} else {})
  }

  /** The ranges that also ask for the two legacy batch topics at the first V2 block: those that begin before
      it, and those that begin at it and cross the change of the shield event. */
  predicate LegacyAtV2Start(eras: Eras, from: Block, to: Block) {
    from <= eras.v2Start <= to && (from < eras.v2Start || eras.v2Start <= eras.legacyShield < to)
  }

  predicate Wanted(eras: Eras, from: Block, to: Block, block: Block, topic: Topic) {
    && from <= block <= to
    && (topic in BlockTopics(eras, block)
        || (block == eras.v2Start && topic in LEGACY_TOPICS && LegacyAtV2Start(eras, from, to)))
  }

  // ---------------------------------------------------------------------------------------------
  // What a list of filters requests
  // ---------------------------------------------------------------------------------------------

  predicate Asks(filter: Filter, block: Block, topic: Topic) {
    filter.from <= block <= filter.to && topic in filter.topics
  }

  predicate Requested(filters: seq<Filter>, block: Block, topic: Topic) {
    exists i :: 0 <= i < |filters| && Asks(filters[i], block, topic)
  }

  /** No two filters request the same topic at the same block. */
  ghost predicate Disjoint(filters: seq<Filter>) {
    forall i, j, block: Block, topic :: 0 <= i < j < |filters| && Asks(filters[i], block, topic)
           ==> !Asks(filters[j], block, topic)
  }

  lemma RequestedConcat(a: seq<Filter>, b: seq<Filter>, block: Block, topic: Topic)
    ensures Requested(a + b, block, topic) <==> Requested(a, block, topic) || Requested(b, block, topic)
  {
    if Requested(a, block, topic) {
      var i :| 0 <= i < |a| && Asks(a[i], block, topic);
      assert Asks((a + b)[i], block, topic);
    }
    if Requested(b, block, topic) {
      var i :| 0 <= i < |b| && Asks(b[i], block, topic);
      assert Asks((a + b)[|a| + i], block, topic);
    }
    if Requested(a + b, block, topic) {
      var i :| 0 <= i < |a + b| && Asks((a + b)[i], block, topic);
      assert (a + b)[i] == if i < |a| then a[i] else b[i - |a|];
    }
  }

  lemma DisjointConcat(a: seq<Filter>, b: seq<Filter>)
    requires Disjoint(a) && Disjoint(b)
    requires forall block: Block, topic :: Requested(a, block, topic) ==> !Requested(b, block, topic)
    ensures Disjoint(a + b)
  {
    var c := a + b;
    forall i, j, block, topic | 0 <= i < j < |c| && Asks(c[i], block, topic) ensures !Asks(c[j], block, topic) {
      if i < |a| <= j {
        assert Asks(a[i], block, topic) && Requested(a, block, topic) && !Requested(b, block, topic);
        assert c[j] == b[j - |a|];
      }
    }
  }

  // ---------------------------------------------------------------------------------------------
  // The planner
  // ---------------------------------------------------------------------------------------------

  /** One topic list for a whole range, when the range lies inside one era. */
  function EraTopics(eras: Eras, from: Block, to: Block): Option<seq<Topic>> {
    if eras.v2Start > 0 && to < eras.v2Start then Some(LEGACY_TOPICS + NULLIFIER_TOPICS)
    else if from < eras.v2Start then None
    else if to <= eras.legacyShield then Some([Transact, LegacyShield] + NULLIFIER_TOPICS)
    else if from > eras.legacyShield then Some([Transact, Shield] + NULLIFIER_TOPICS)
    else None
  }

  function CombinedTopics(eras: Eras, from: Block, to: Block): Option<seq<Topic>> {
    match EraTopics(eras, from, to)
    case None => None
    case Some(topics) =>
      if eras.actionStart.Some? && from >= eras.actionStart.value then Some(topics + ACTION_TOPICS) else Some(topics)
  }

  /** Appends a filter whose requests are new. */
  method Push(filters: seq<Filter>, filter: Filter) returns (r: seq<Filter>)
    requires Disjoint(filters)
    requires forall block: Block, topic :: Asks(filter, block, topic) ==> !Requested(filters, block, topic)
    ensures Disjoint(r)
    ensures forall block: Block, topic ::
              Requested(r, block, topic) <==> Requested(filters, block, topic) || Asks(filter, block, topic)
  {
    hide Asks;
    r := filters + [filter];
    forall block, topic
      ensures Requested(r, block, topic) <==> Requested(filters, block, topic) || Asks(filter, block, topic)
      ensures Requested([filter], block, topic) ==> Asks(filter, block, topic)
    {
      RequestedConcat(filters, [filter], block, topic);
      assert Requested([filter], block, topic) <==> Asks([filter][0], block, topic);
    }
    DisjointConcat(filters, [filter]);
  }

  /** The filters of a range that lies in one era. */
  method PlanCombined(eras: Eras, from: Block, to: Block) returns (filters: seq<Filter>)
    requires from <= to && CombinedTopics(eras, from, to).Some?
    ensures Disjoint(filters)
    ensures forall block: Block, topic :: Requested(filters, block, topic) <==> Wanted(eras, from, to, block, topic)
  {
    filters := Push([], Filter(from, to, CombinedTopics(eras, from, to).value));
    if eras.actionStart.Some? && eras.actionStart.value <= to && eras.actionStart.value > from {
      filters := Push(filters, Filter(eras.actionStart.value, to, ACTION_TOPICS));
    }
  }

  /** The shield and transaction filters of a range that crosses a change of era. */
  method PlanV2(eras: Eras, from: Block, to: Block, planned: seq<Filter>) returns (filters: seq<Filter>)
    requires from <= to && Disjoint(planned)
    requires forall block: Block, topic :: Requested(planned, block, topic) ==> topic in LEGACY_TOPICS
    ensures Disjoint(filters)
    ensures forall block: Block, topic :: Requested(filters, block, topic) <==>
              || Requested(planned, block, topic)
              || (from <= block <= to && eras.v2Start <= block
                  && (topic == Transact || topic == if block <= eras.legacyShield then LegacyShield else Shield))
  {
    filters := planned;
    if to >= eras.v2Start {
      var v2Start := Max(from, eras.v2Start);
      filters := Push(filters, Filter(v2Start, to, [Transact]));
      if v2Start <= eras.legacyShield {
        filters := Push(filters, Filter(v2Start, Min(to, eras.legacyShield), [LegacyShield]));
      }
      if to > eras.legacyShield {
        filters := Push(filters, Filter(Max(v2Start, SaturatingAdd(eras.legacyShield, 1)), to, [Shield]));
      }
    }
  }

  /** A range is planned so that each topic of each block is requested exactly once, and nothing else is
      requested but the two legacy topics at the first V2 block of some ranges. */
  method PlanFilters(eras: Eras, from: Block, to: Block) returns (filters: seq<Filter>)
    ensures Disjoint(filters)
    ensures forall block: Block, topic :: Requested(filters, block, topic) <==> Wanted(eras, from, to, block, topic)
  {
    if from > to {
      return [];
    }
    if CombinedTopics(eras, from, to).Some? {
      filters := PlanCombined(eras, from, to);
      return;
    }
    filters := [];
    if from <= eras.v2Start {
      filters := Push(filters, Filter(from, Min(to, eras.v2Start), LEGACY_TOPICS));
    }
    filters := PlanV2(eras, from, to, filters);
    filters := Push(filters, Filter(from, to, NULLIFIER_TOPICS));
    if eras.actionStart.Some? && eras.actionStart.value <= to {
      filters := Push(filters, Filter(Max(eras.actionStart.value, from), to, ACTION_TOPICS));
    }
  }

  // ---------------------------------------------------------------------------------------------
  // Consecutive batches
  // ---------------------------------------------------------------------------------------------

  datatype Batch = Batch(from: Block, to: Block)

  /** The block after the last batch. */
  function After(from: Block, batches: seq<Batch>): nat {
    if batches == [] then from else batches[|batches| - 1].to as int + 1
  }

  /** The batches of the given spans from `from` on, up to the safe head. */
  function Batches(from: Block, head: Block, spans: seq<nat>): (r: seq<Batch>)
    ensures forall i :: 0 <= i < |r| ==> r[i].from <= r[i].to <= head
  {
    if spans == [] then []
    else
      var before, span := Batches(from, head, spans[..|spans| - 1]), spans[|spans| - 1];
      var next := After(from, before);
      if next > head then before
      else before + [Batch(next, Min(SaturatingAdd(next, if span == 0 then 0 else span - 1), head))]
  }

  /** They follow one another without a gap, and only the end of the range stops them. */
  lemma {:induction false} BatchesTile(from: Block, head: Block, spans: seq<nat>)
    ensures var batches := Batches(from, head, spans);
            && (forall i :: 0 <= i < |batches| ==> batches[i].from == After(from, batches[..i]))
            && (|batches| == |spans| || After(from, batches) > head)
            && from <= After(from, batches) && (batches != [] ==> from < After(from, batches) <= head + 1)
  {
    if spans != [] {
      var before := Batches(from, head, spans[..|spans| - 1]);
      BatchesTile(from, head, spans[..|spans| - 1]);
      var batches := Batches(from, head, spans);
      forall i | 0 <= i < |batches| ensures batches[i].from == After(from, batches[..i]) {
        assert i < |before| ==> batches[..i] == before[..i];
        assert i == |before| ==> batches[..i] == before;
      }
    }
  }

  /** Once the head is passed there are no more batches. */
  lemma {:induction false} BatchesEnd(from: Block, head: Block, spans: seq<nat>, i: nat)
    requires i <= |spans| && After(from, Batches(from, head, spans[..i])) > head
    ensures Batches(from, head, spans) == Batches(from, head, spans[..i])
  {
    if i < |spans| {
      assert spans[..|spans| - 1][..i] == spans[..i];
      BatchesEnd(from, head, spans[..|spans| - 1], i);
    } else {
      assert spans[..i] == spans;
    }
  }

  /** Some batch by itself asks for this. */
  predicate SomeWants(eras: Eras, batches: seq<Batch>, block: Block, topic: Topic) {
    exists k :: 0 <= k < |batches| && Wanted(eras, batches[k].from, batches[k].to, block, topic)
  }

  predicate SomeLegacy(eras: Eras, batches: seq<Batch>) {
    exists k :: 0 <= k < |batches| && LegacyAtV2Start(eras, batches[k].from, batches[k].to)
  }

  lemma SomeWantsSnoc(eras: Eras, batches: seq<Batch>, batch: Batch, block: Block, topic: Topic)
    ensures SomeWants(eras, batches + [batch], block, topic) <==>
            SomeWants(eras, batches, block, topic) || Wanted(eras, batch.from, batch.to, block, topic)
  {
    hide Wanted;
    var more := batches + [batch];
    if SomeWants(eras, batches, block, topic) {
      var k :| 0 <= k < |batches| && Wanted(eras, batches[k].from, batches[k].to, block, topic);
      assert more[k] == batches[k];
    }
    if Wanted(eras, batch.from, batch.to, block, topic) {
      assert more[|batches|] == batch;
    }
  }

  /** What all batches together ask for: at each of their blocks the topics of the block, and at the first V2 block the
      legacy topics on top if and only if a batch begins before it, or at it and crosses the change of the shield
      event. */
  lemma {:induction false} BatchesWant(eras: Eras, from: Block, head: Block, spans: seq<nat>, block: Block,
                                       topic: Topic)
    ensures var batches := Batches(from, head, spans);
            SomeWants(eras, batches, block, topic) <==>
            && from <= block < After(from, batches)
            && (topic in BlockTopics(eras, block)
                || (block == eras.v2Start && topic in LEGACY_TOPICS && SomeLegacy(eras, batches)))
    ensures from <= After(from, Batches(from, head, spans))
  {
    hide BlockTopics, LegacyAtV2Start;
    if spans != [] {
      var init := spans[..|spans| - 1];
      BatchesWant(eras, from, head, init, block, topic);
      var before, batches := Batches(from, head, init), Batches(from, head, spans);
      if batches != before {
        var batch := batches[|before|];
        assert batches == before + [batch];
        SomeWantsSnoc(eras, before, batch, block, topic);
        LegacySnoc(eras, before, batch);
        LegacyInside(eras, batch);
        LegacyWithin(eras, from, head, init);
      }
    }
  }

  lemma LegacySnoc(eras: Eras, batches: seq<Batch>, batch: Batch)
    ensures SomeLegacy(eras, batches + [batch]) <==>
            SomeLegacy(eras, batches) || LegacyAtV2Start(eras, batch.from, batch.to)
  {
    hide LegacyAtV2Start;
    var more := batches + [batch];
    if SomeLegacy(eras, batches) {
      var k :| 0 <= k < |batches| && LegacyAtV2Start(eras, batches[k].from, batches[k].to);
      assert more[k] == batches[k];
    }
    if LegacyAtV2Start(eras, batch.from, batch.to) {
      assert more[|batches|] == batch;
    }
  }

  lemma LegacyInside(eras: Eras, batch: Batch)
    ensures LegacyAtV2Start(eras, batch.from, batch.to) ==> batch.from <= eras.v2Start <= batch.to
  {
  }

  lemma {:induction false} LegacyWithin(eras: Eras, from: Block, head: Block, spans: seq<nat>)
    ensures var batches := Batches(from, head, spans);
            && from <= After(from, batches)
            && (SomeLegacy(eras, batches) ==> from <= eras.v2Start < After(from, batches))
  {
    hide LegacyAtV2Start;
    if spans != [] {
      var init := spans[..|spans| - 1];
      LegacyWithin(eras, from, head, init);
      var before, batches := Batches(from, head, init), Batches(from, head, spans);
      if batches != before {
        var batch := batches[|before|];
        assert batches == before + [batch];
        LegacySnoc(eras, before, batch);
        LegacyInside(eras, batch);
      }
    }
  }

  /** The filters of the next batch request what is new. */
  lemma JoinBatch(eras: Eras, from: Block, head: Block, spans: seq<nat>, filters: seq<Filter>, next: Batch,
                  batch: seq<Filter>)
    requires Disjoint(filters) && Disjoint(batch) && next.from == After(from, Batches(from, head, spans))
    requires forall block: Block, topic ::
               Requested(filters, block, topic) <==> SomeWants(eras, Batches(from, head, spans), block, topic)
    requires forall block: Block, topic ::
               Requested(batch, block, topic) <==> Wanted(eras, next.from, next.to, block, topic)
    ensures Disjoint(filters + batch)
    ensures forall block: Block, topic ::
              Requested(filters + batch, block, topic)
              <==> SomeWants(eras, Batches(from, head, spans) + [next], block, topic)
  {
    hide Wanted, Requested, SomeWants, SomeLegacy, Disjoint, Batches, BlockTopics;
    forall block: Block, topic
      ensures Requested(filters + batch, block, topic)
              <==> SomeWants(eras, Batches(from, head, spans) + [next], block, topic)
      ensures Requested(filters, block, topic) ==> !Requested(batch, block, topic)
    {
      RequestedConcat(filters, batch, block, topic);
      SomeWantsSnoc(eras, Batches(from, head, spans), next, block, topic);
      BatchesWant(eras, from, head, spans, block, topic);
      WantedInside(eras, next.from, next.to, block, topic);
    }
    DisjointConcat(filters, batch);
  }

  /** Indexing from `from` in consecutive batches of the given spans, up to the safe head. The batches request
      what one filter plan over all of their blocks would request: the topics of every block, each once, and the legacy
      topics at the first V2 block if and only if a batch asks for them. */
  method PlanBatches(eras: Eras, from: Block, head: Block, spans: seq<nat>) returns (filters: seq<Filter>, next: nat)
    ensures next == After(from, Batches(from, head, spans))
    ensures from <= next && (next == from || next <= head + 1) && (spans != [] && from <= head ==> from < next)
    ensures Disjoint(filters)
    ensures forall block: Block, topic :: Requested(filters, block, topic) <==>
              && from <= block < next
              && (topic in BlockTopics(eras, block)
                  || (block == eras.v2Start && topic in LEGACY_TOPICS && SomeLegacy(eras, Batches(from, head, spans))))
  {
    filters, next := [], from;
    assert Disjoint(filters);
    hide Wanted, Asks, Disjoint, SomeLegacy;
    ghost var planned := [];
    for i := 0 to |spans|
      invariant planned == Batches(from, head, spans[..i]) && next == After(from, planned)
      invariant Disjoint(filters)
      invariant forall block: Block, topic ::
                  Requested(filters, block, topic) <==> SomeWants(eras, planned, block, topic)
    {
      if next > head {
        BatchesEnd(from, head, spans, i);
        break;
      }
      var first: Block := next;
      var to: Block := Min(SaturatingAdd(first, if spans[i] == 0 then 0 else spans[i] - 1), head);
      var batch := PlanFilters(eras, first, to);
      assert spans[..i + 1][..i] == spans[..i];
      JoinBatch(eras, from, head, spans[..i], filters, Batch(first, to), batch);
      planned := planned + [Batch(first, to)];
      filters, next := filters + batch, to as int + 1;
    }
    assert spans[..|spans|] == spans;
    BatchesTile(from, head, spans);
    forall block: Block, topic
      ensures SomeWants(eras, planned, block, topic) <==>
              && from <= block < next
              && (topic in BlockTopics(eras, block)
                  || (block == eras.v2Start && topic in LEGACY_TOPICS && SomeLegacy(eras, Batches(from, head, spans))))
    {
      BatchesWant(eras, from, head, spans, block, topic);
    }
  }

  lemma WantedInside(eras: Eras, from: Block, to: Block, block: Block, topic: Topic)
    ensures Wanted(eras, from, to, block, topic) ==> from <= block <= to
  {
  }

  /** How a range is cut changes what is requested only at the first V2 block, and there exactly when one
      plan asks for the legacy topics and the other does not. */
  lemma {:induction false} CutMatters(eras: Eras, from: Block, middle: Block, to: Block, block: Block, topic: Topic)
    requires from <= middle < to
    ensures (Wanted(eras, from, middle, block, topic) || Wanted(eras, middle + 1, to, block, topic))
            != Wanted(eras, from, to, block, topic)
            <==> && block == eras.v2Start && topic in LEGACY_TOPICS
                 && (|| (from == eras.v2Start <= middle <= eras.legacyShield < to)
                     || (from < eras.v2Start == middle + 1 && !(eras.v2Start <= eras.legacyShield < to)))
  {
  }
}
