/** The POI v4 artifact graph of one list and chain: checkpoint chunks, a current tail and retained bridges over the
    event corpus, rebuilt at each publication from the graph in force. */
module PoiGraph {
  import opened Wrappers

  /** The leaves of one POI Merkle tree. */
  const TREE_LEAVES: nat := 65536

  datatype Event = Event(index: nat, commitment: nat, signature: nat, eventType: nat)

  type Root = nat

  type Time = int

  datatype Kind = Checkpoint | CurrentTail | Bridge

  /** A run of consecutive events, with the roots before and after it. */
  datatype EventArtifact = EventArtifact(kind: Kind, start: nat, startRoot: Option<Root>, endRoot: Root,
                                         events: seq<Event>)

  datatype Entry = Entry(
    count: nat, root: Option<Root>, rows: nat, chunks: seq<EventArtifact>, tail: Option<EventArtifact>,
      bridges: seq<EventArtifact>)

  /** The graph in force and when its checkpoint and bridges were published. */
  datatype ActiveGraph = ActiveGraph(entry: Entry, checkpointAt: Time, bridgeAt: map<EventArtifact, Time>)

  /** The root of a tree's leaves, the signature check and the artifact contract the publisher builds on, and its
      settings. */
  datatype Rules = Rules(
    tree: seq<nat> -> Root, authentic: Event -> bool, fits: EventArtifact -> bool, valid: Entry -> bool,
    span: nat, maxBridges: nat, retention: nat, interval: nat)

  datatype Error = BeyondTip | InvalidRange | TooBig | Regresses | RootConflict | MissingTime | BridgeMismatch | Invalid
                 | NotContiguous(expected: nat, actual: nat) | BadSignature(index: nat) | RootPresence | RootMismatch

  predicate WellSet(rules: Rules) {
    rules.span > 0
  }

  // ---------------------------------------------------------------------------------------------
  // Replaying the stored events
  // ---------------------------------------------------------------------------------------------

  /** The stored events are numbered from zero without gaps and signed, and lead to the expected root. */
  predicate Replayable(rules: Rules, stored: seq<Event>, expected: Option<Root>) {
    && (forall i :: 0 <= i < |stored| ==> stored[i].index == i && rules.authentic(stored[i]))
    && expected == RootOf(rules, stored)
  }

  function Commitments(events: seq<Event>): seq<nat> {
    seq(|events|, i requires 0 <= i < |events| => events[i].commitment)
  }

  /** The commitments of the tree that holds the last event. */
  function LastTree(events: seq<Event>): seq<nat> {
    if events == [] then [] else Commitments(events[(|events| - 1) / TREE_LEAVES * TREE_LEAVES..])
  }

  /** The root after these events is that of the last event's tree alone, and commits to commitments alone. */
  function RootAfter(rules: Rules, events: seq<Event>): Root {
    rules.tree(LastTree(events))
  }

  function RootOf(rules: Rules, events: seq<Event>): Option<Root> {
    if events == [] then None else Some(RootAfter(rules, events))
  }

  /** Accepts a corpus exactly when it is replayable, and otherwise names the first event at fault. */
  method Replay(rules: Rules, stored: seq<Event>, expected: Option<Root>) returns (r: Result<seq<Event>, Error>)
    ensures r.Ok? <==> Replayable(rules, stored, expected)
    ensures r.Ok? ==> r.value == stored
    ensures r.Err? && r.error.NotContiguous? ==>
              && r.error.expected < |stored| && stored[r.error.expected].index == r.error.actual != r.error.expected
              && forall i :: 0 <= i < r.error.expected ==> stored[i].index == i && rules.authentic(stored[i])
    ensures r.Err? && r.error.BadSignature? ==>
              && r.error.index < |stored| && !rules.authentic(stored[r.error.index])
              && forall i :: 0 <= i < r.error.index ==> stored[i].index == i && rules.authentic(stored[i])
  {
    hide RootAfter;
    var events: seq<Event> := [];
    for offset := 0 to |stored|
      invariant events == stored[..offset]
      invariant forall i :: 0 <= i < offset ==> stored[i].index == i && rules.authentic(stored[i])
    {
      if stored[offset].index != offset {
        return Err(NotContiguous(offset, stored[offset].index));
      }
      if !rules.authentic(stored[offset]) {
        return Err(BadSignature(stored[offset].index));
      }
      events := events + [stored[offset]];
    }
    if events == [] && expected.None? {
      return Ok(events);
    }
    if events == [] || expected.None? {
      return Err(RootPresence);
    }
    assert events == stored;
    if RootAfter(rules, events) != expected.value {
      return Err(RootMismatch);
    }
    return Ok(events);
  }

  // ---------------------------------------------------------------------------------------------
  // Event artifacts
  // ---------------------------------------------------------------------------------------------

  /** The artifact of the events [start, end). */
  function Cut(rules: Rules, corpus: seq<Event>, kind: Kind, start: nat, end: nat): EventArtifact
    requires start <= end <= |corpus|
  {
    EventArtifact(kind, start, RootOf(rules, corpus[..start]), RootAfter(rules, corpus[..end]), corpus[start..end])
  }

  /** An artifact depends only on the events up to its end. */
  lemma SameCut(rules: Rules, corpus: seq<Event>, other: seq<Event>, kind: Kind, start: nat, end: nat)
    requires start <= end <= |corpus| && end <= |other| && corpus[..end] == other[..end]
    ensures Cut(rules, corpus, kind, start, end) == Cut(rules, other, kind, start, end)
    ensures |Cut(rules, corpus, kind, start, end).events| == end - start
  {
    hide RootAfter;
    assert corpus[..start] == corpus[..end][..start] == other[..start];
    assert corpus[start..end] == corpus[..end][start..] == other[start..end];
  }

  function End(artifact: EventArtifact): nat {
    artifact.start + |artifact.events|
  }

  function Prepare(rules: Rules, corpus: seq<Event>, kind: Kind, start: nat, end: nat): Result<EventArtifact, Error> {
    if start >= end || end > |corpus| then Err(InvalidRange)
    else if rules.fits(Cut(rules, corpus, kind, start, end)) then Ok(Cut(rules, corpus, kind, start, end))
    else Err(TooBig)
  }

  // ---------------------------------------------------------------------------------------------
  // Checkpoint chunks
  // ---------------------------------------------------------------------------------------------

  /** Where the chunk with number `i` begins. */
  function StartOf(rules: Rules, i: nat): nat {
    i * rules.span
  }

  lemma StartStep(rules: Rules, i: nat)
    ensures StartOf(rules, 0) == 0 && StartOf(rules, i + 1) == StartOf(rules, i) + rules.span
    ensures WellSet(rules) ==> i <= StartOf(rules, i)
  {
  }

  lemma StartsRise(rules: Rules, i: nat, j: nat)
    requires i <= j
    ensures StartOf(rules, i) <= StartOf(rules, j)
  {
    assert j * rules.span == i * rules.span + (j - i) * rules.span;
  }

  /** The events of chunk `i` among the first `count`. */
  function ChunkAt(rules: Rules, corpus: seq<Event>, count: nat, i: nat): EventArtifact
    requires count <= |corpus| && StartOf(rules, i) < count
  {
    Cut(rules, corpus, Checkpoint, StartOf(rules, i), Min(StartOf(rules, i) + rules.span, count))
  }

  /** The chunks are the consecutive spans of the first `count` events, the last one cut short. */
  ghost predicate Tiles(rules: Rules, corpus: seq<Event>, count: nat, chunks: seq<EventArtifact>) {
    && count <= |corpus| && count <= StartOf(rules, |chunks|)
    && forall i :: 0 <= i < |chunks| ==> StartOf(rules, i) < count && chunks[i] == ChunkAt(rules, corpus, count, i)
  }

  predicate AllFit(rules: Rules, corpus: seq<Event>, count: nat)
    requires count <= |corpus|
  {
    forall i :: 0 <= i < count && StartOf(rules, i) < count ==> rules.fits(ChunkAt(rules, corpus, count, i))
  }

  method PrepareCheckpoint(rules: Rules, corpus: seq<Event>, count: nat) returns (r: Result<seq<EventArtifact>, Error>)
    requires WellSet(rules)
    ensures r.Ok? <==> count <= |corpus| && AllFit(rules, corpus, count)
    ensures r.Ok? ==> Tiles(rules, corpus, count, r.value)
  {
    hide StartOf, Cut;
    if count > |corpus| {
      return Err(BeyondTip);
    }
    var chunks: seq<EventArtifact> := [];
    var start := 0;
    StartStep(rules, 0);
    while start < count
      invariant start == Min(StartOf(rules, |chunks|), count)
      invariant forall i :: 0 <= i < |chunks| ==>
                  && StartOf(rules, i) < count && chunks[i] == ChunkAt(rules, corpus, count, i)
                  && rules.fits(chunks[i])
      decreases count - start
    {
      StartStep(rules, |chunks|);
      var end := Min(start + rules.span, count);
      var prepared := Prepare(rules, corpus, Checkpoint, start, end);
      if prepared.Err? {
        assert !rules.fits(ChunkAt(rules, corpus, count, |chunks|));
        return Err(prepared.error);
      }
      chunks := chunks + [prepared.value];
      start := end;
    }
    forall i | 0 <= i < count && StartOf(rules, i) < count ensures rules.fits(ChunkAt(rules, corpus, count, i)) {
      Within(rules, i, |chunks|, count);
    }
    return Ok(chunks);
  }

  lemma Within(rules: Rules, i: nat, n: nat, count: nat)
    requires StartOf(rules, i) < count <= StartOf(rules, n)
    ensures i < n
  {
    if n <= i {
      StartsRise(rules, n, i);
    }
  }

  lemma FullChunk(rules: Rules, corpus: seq<Event>, count: nat, chunks: seq<EventArtifact>, i: nat)
    requires WellSet(rules) && Tiles(rules, corpus, count, chunks) && (i + 1) * rules.span <= count
    ensures i < |chunks| && StartOf(rules, i) + rules.span <= count <= |corpus|
    ensures chunks[i] == Cut(rules, corpus, Checkpoint, StartOf(rules, i), StartOf(rules, i) + rules.span)
  {
    StartStep(rules, i);
    hide Cut;
    assert StartOf(rules, i + 1) <= count;
    Within(rules, i, |chunks|, count);
  }

  /** A full chunk never changes: checkpoints of two corpora of which one continues the other, at any counts, have the
      same full chunks, roots included. */
  lemma {:induction false} SealedChunks(rules: Rules, corpus: seq<Event>, count: nat, chunks: seq<EventArtifact>,
                                        other: seq<Event>, otherCount: nat, otherChunks: seq<EventArtifact>, i: nat)
    requires WellSet(rules) && Tiles(rules, corpus, count, chunks) && Tiles(rules, other, otherCount, otherChunks)
    requires (corpus <= other || other <= corpus) && (i + 1) * rules.span <= count && (i + 1) * rules.span <= otherCount
    ensures i < |chunks| && i < |otherChunks| && chunks[i] == otherChunks[i] && |chunks[i].events| == rules.span
  {
    FullChunk(rules, corpus, count, chunks, i);
    FullChunk(rules, other, otherCount, otherChunks, i);
    hide Tiles, Cut, StartOf;
    var start := StartOf(rules, i);
    assert corpus[..start + rules.span] == other[..start + rules.span];
    SameCut(rules, corpus, other, Checkpoint, start, start + rules.span);
  }

  function Joined(artifacts: seq<EventArtifact>): seq<Event> {
    if artifacts == [] then [] else Joined(artifacts[..|artifacts| - 1]) + artifacts[|artifacts| - 1].events
  }

  /** The first `n` chunks hold the first events. */
  lemma {:induction false} ChunksJoin(rules: Rules, corpus: seq<Event>, count: nat, chunks: seq<EventArtifact>, n: nat)
    requires Tiles(rules, corpus, count, chunks) && n <= |chunks|
    ensures Joined(chunks[..n]) == corpus[..Min(StartOf(rules, n), count)]
  {
    hide RootAfter, RootOf;
    StartStep(rules, 0);
    if n > 0 {
      StartStep(rules, n - 1);
      ChunksJoin(rules, corpus, count, chunks, n - 1);
      var a, b := StartOf(rules, n - 1), Min(StartOf(rules, n), count);
      assert chunks[n - 1].events == corpus[a..b];
      hide StartOf, Tiles, Cut;
      Slices(corpus, a, b);
      assert chunks[..n][..n - 1] == chunks[..n - 1];
    }
  }

  lemma Slices(corpus: seq<Event>, a: nat, b: nat)
    requires a <= b <= |corpus|
    ensures corpus[..a] + corpus[a..b] == corpus[..b]
  {
  }

  lemma CheckpointJoins(rules: Rules, corpus: seq<Event>, count: nat, chunks: seq<EventArtifact>)
    requires Tiles(rules, corpus, count, chunks)
    ensures Joined(chunks) == corpus[..count]
  {
    ChunksJoin(rules, corpus, count, chunks, |chunks|);
    assert chunks[..|chunks|] == chunks;
  }

  /** The chunks exist for every count. */
  lemma {:induction false} TilesExist(rules: Rules, corpus: seq<Event>, count: nat, n: nat)
      returns (chunks: seq<EventArtifact>)
    requires WellSet(rules) && count <= |corpus| && n <= count
    requires forall i :: 0 <= i < n ==> StartOf(rules, i) < count
    ensures Tiles(rules, corpus, count, chunks)
    decreases count - n
  {
    hide StartOf, Cut;
    StartStep(rules, n);
    if StartOf(rules, n) < count {
      chunks := TilesExist(rules, corpus, count, n + 1);
    } else {
      chunks := seq(n, i requires 0 <= i < n => ChunkAt(rules, corpus, count, i));
    }
  }
}
