/** What a published artifact graph offers a client, and what one publication keeps of it. */
module PoiHistory {
  import opened Wrappers
  import opened PoiGraph
  import opened PoiPublication

  // ---------------------------------------------------------------------------------------------
  // A sound graph
  // ---------------------------------------------------------------------------------------------

  predicate Faithful(rules: Rules, corpus: seq<Event>, bridge: EventArtifact) {
    bridge.start < End(bridge) <= |corpus| && bridge == Cut(rules, corpus, Bridge, bridge.start, End(bridge))
  }

  /** The bridges follow one another without a gap up to the checkpoint. */
  ghost predicate Linked(rows: nat, bridges: seq<EventArtifact>) {
    && (forall i :: 0 <= i < |bridges| ==> bridges[i].start < End(bridges[i]))
    && (forall i :: 0 <= i < |bridges| - 1 ==> End(bridges[i]) == bridges[i + 1].start)
    && (|bridges| > 0 ==> End(bridges[|bridges| - 1]) == rows)
  }

  ghost predicate AllFaithful(rules: Rules, corpus: seq<Event>, bridges: seq<EventArtifact>) {
    forall i :: 0 <= i < |bridges| ==> Faithful(rules, corpus, bridges[i])
  }

  /** A gapless chain that holds the events of the corpus. */
  ghost predicate Chain(rules: Rules, corpus: seq<Event>, rows: nat, bridges: seq<EventArtifact>) {
    Linked(rows, bridges) && AllFaithful(rules, corpus, bridges)
  }

  /** Checkpoint and tail tile the corpus, and a bounded number of bridges hold its events. */
  ghost predicate Built(rules: Rules, corpus: seq<Event>, entry: Entry) {
    && entry.count == |corpus| && entry.root == RootOf(rules, corpus)
    && entry.rows <= |corpus| && Tiles(rules, corpus, entry.rows, entry.chunks)
    && entry.tail == (if entry.rows < |corpus| then Some(Cut(rules, corpus, CurrentTail, entry.rows, |corpus|))
                      else None)
    && AllFaithful(rules, corpus, entry.bridges) && |entry.bridges| <= rules.maxBridges
  }

  /** So built, and the bridges are a chain that ends at the checkpoint. */
  ghost predicate GraphOk(rules: Rules, corpus: seq<Event>, entry: Entry) {
    Built(rules, corpus, entry) && Linked(entry.rows, entry.bridges)
  }

  /** What a client that holds the events up to `from` fetches: the later bridges and the tail. */
  function TailEvents(entry: Entry): seq<Event> {
    match entry.tail
    case None => []
    case Some(tail) => tail.events
  }

  function ChainStart(entry: Entry, j: nat): nat
    requires j <= |entry.bridges|
  {
    if j < |entry.bridges| then entry.bridges[j].start else entry.rows
  }

  lemma ChainLink(rules: Rules, corpus: seq<Event>, rows: nat, bridges: seq<EventArtifact>, i: nat)
    requires Chain(rules, corpus, rows, bridges) && i < |bridges|
    ensures bridges[i].start < End(bridges[i]) <= |corpus|
            && bridges[i].events == corpus[bridges[i].start..End(bridges[i])]
    ensures i > 0 ==> bridges[i].start == End(bridges[i - 1])
  {
    assert Faithful(rules, corpus, bridges[i]);
    if i > 0 {
      assert bridges[i - 1 + 1] == bridges[i];
    }
  }

  lemma {:induction false} ChainJoins(rules: Rules, corpus: seq<Event>, rows: nat, bridges: seq<EventArtifact>, j: nat,
                                      k: nat)
    requires Chain(rules, corpus, rows, bridges) && j < k <= |bridges|
    ensures bridges[j].start <= End(bridges[k - 1]) <= |corpus|
    ensures Joined(bridges[j..k]) == corpus[bridges[j].start..End(bridges[k - 1])]
    decreases k
  {
    hide Chain, Cut, End;
    var last := bridges[k - 1];
    ChainLink(rules, corpus, rows, bridges, k - 1);
    assert bridges[j..k][..k - 1 - j] == bridges[j..k - 1];
    if j + 1 < k {
      ChainJoins(rules, corpus, rows, bridges, j, k - 1);
      Adjacent(corpus, bridges[j].start, last.start, End(last));
    } else {
      assert Joined(bridges[j..k]) == Joined([]) + last.events;
    }
  }

  lemma Adjacent(corpus: seq<Event>, a: nat, b: nat, c: nat)
    requires a <= b <= c <= |corpus|
    ensures corpus[a..b] + corpus[b..c] == corpus[a..c]
    ensures corpus[..b] + corpus[b..c] == corpus[..c]
  {
  }

  lemma ChainReaches(rules: Rules, corpus: seq<Event>, entry: Entry, j: nat)
    requires Chain(rules, corpus, entry.rows, entry.bridges) && j <= |entry.bridges| && entry.rows <= |corpus|
    ensures ChainStart(entry, j) <= |corpus|
    ensures corpus[..ChainStart(entry, j)] + Joined(entry.bridges[j..]) == corpus[..entry.rows]
  {
    var n := |entry.bridges|;
    if j < n {
      ChainJoins(rules, corpus, entry.rows, entry.bridges, j, n);
      assert entry.bridges[j..n] == entry.bridges[j..];
      hide Faithful;
      Adjacent(corpus, 0, ChainStart(entry, j), entry.rows);
    } else {
      hide Chain;
      assert entry.bridges[j..] == [];
      assert corpus[..entry.rows] + [] == corpus[..entry.rows];
    }
  }

  /** A client at any bridge start, or at the checkpoint, rebuilds the whole corpus from the later bridges and the tail;
      a new client does from the checkpoint chunks. */
  lemma CatchUp(rules: Rules, corpus: seq<Event>, entry: Entry, j: nat)
    requires GraphOk(rules, corpus, entry) && j <= |entry.bridges|
    ensures ChainStart(entry, j) <= |corpus|
    ensures corpus[..ChainStart(entry, j)] + Joined(entry.bridges[j..]) + TailEvents(entry) == corpus
    ensures Joined(entry.chunks) + TailEvents(entry) == corpus
  {
    CheckpointJoins(rules, corpus, entry.rows, entry.chunks);
    ChainReaches(rules, corpus, entry, j);
    TailReaches(rules, corpus, entry);
    hide GraphOk, Joined, ChainStart, TailEvents;
  }

  lemma TailReaches(rules: Rules, corpus: seq<Event>, entry: Entry)
    requires GraphOk(rules, corpus, entry)
    ensures corpus[..entry.rows] + TailEvents(entry) == corpus
  {
    hide Tiles, Chain, RootAfter;
    assert TailEvents(entry) == corpus[entry.rows..];
    assert corpus[..entry.rows] + corpus[entry.rows..] == corpus;
  }

  // ---------------------------------------------------------------------------------------------
  // One publication
  // ---------------------------------------------------------------------------------------------

  /** The store has a time for each bridge in force and for no other; the times never go back and are not after
      `now`. */
  ghost predicate TimesOk(active: ActiveGraph, now: Time) {
    && (forall bridge :: bridge in active.bridgeAt <==> bridge in active.entry.bridges)
    && InOrder(active, active.entry.bridges, now)
  }

  lemma ChainContinues(rules: Rules, before: seq<Event>, corpus: seq<Event>, rows: nat, bridges: seq<EventArtifact>)
    requires before <= corpus && Chain(rules, before, rows, bridges)
    ensures Chain(rules, corpus, rows, bridges)
  {
    hide Cut, Linked;
    forall i | 0 <= i < |bridges| ensures Faithful(rules, corpus, bridges[i]) {
      assert Faithful(rules, before, bridges[i]);
      assert before[..End(bridges[i])] == corpus[..End(bridges[i])];
      SameCut(rules, before, corpus, Bridge, bridges[i].start, End(bridges[i]));
    }
  }

  /** Starts rise along a chain and stay below the checkpoint. */
  lemma {:induction false} LinkedBelow(rows: nat, bridges: seq<EventArtifact>, i: nat)
    requires Linked(rows, bridges) && i < |bridges|
    ensures bridges[i].start < rows
    decreases |bridges| - i
  {
    if i + 1 < |bridges| {
      LinkedBelow(rows, bridges, i + 1);
    }
  }

  lemma LinkedSuffix(rows: nat, bridges: seq<EventArtifact>, k: nat)
    requires Linked(rows, bridges) && k <= |bridges|
    ensures Linked(rows, bridges[k..])
  {
    hide End;
    var rest := bridges[k..];
    forall i | 0 <= i < |rest| - 1 ensures End(rest[i]) == rest[i + 1].start {
      assert bridges[k + i + 1] == rest[i + 1] && bridges[k + i] == rest[i];
    }
  }

  lemma LongerLinked(rows: nat, bridges: seq<EventArtifact>, bridge: EventArtifact)
    requires Linked(rows, bridges) && bridge.start == rows < End(bridge)
    ensures Linked(End(bridge), bridges + [bridge])
  {
    hide End;
  }

  lemma LongerInOrder(active: ActiveGraph, bridges: seq<EventArtifact>, bridge: EventArtifact, now: Time)
    requires InOrder(active, bridges, now) && BridgeTime(active, bridge, now) == Ok(now)
    ensures InOrder(active, bridges + [bridge], now)
  {
    hide BridgeTime;
  }

  lemma NewBridge(active: ActiveGraph, now: Time, bridge: EventArtifact)
    requires Linked(active.entry.rows, active.entry.bridges) && bridge.start == active.entry.rows
             && TimesOk(active, now)
    ensures BridgeTime(active, bridge, now) == Ok(now)
  {
    forall i | 0 <= i < |active.entry.bridges| ensures active.entry.bridges[i] != bridge {
      LinkedBelow(active.entry.rows, active.entry.bridges, i);
    }
  }

  /** Turning the tail into a bridge prolongs the chain to the count in force, whatever the corpus holds. */
  lemma RotatedLinked(rules: Rules, corpus: seq<Event>, graph: Entry)
    requires Linked(graph.rows, graph.bridges) && graph.rows <= graph.count <= |corpus|
    ensures Linked(graph.count, BridgesAfterRotation(rules, corpus, graph))
  {
    hide Linked;
    if graph.rows < graph.count {
      LongerLinked(graph.rows, graph.bridges, Cut(rules, corpus, Bridge, graph.rows, graph.count));
    }
  }

  ghost predicate AllFrom(part: seq<EventArtifact>, bridges: seq<EventArtifact>) {
    forall i :: 0 <= i < |part| ==> part[i] in bridges
  }

  /** Only the last bridge of a chain ends at the checkpoint. */
  lemma SameLast(rows: nat, bridges: seq<EventArtifact>, part: seq<EventArtifact>)
    requires Linked(rows, bridges) && Linked(rows, part) && AllFrom(part, bridges) && part != []
    ensures bridges != [] && part[|part| - 1] == bridges[|bridges| - 1]
  {
    hide End;
    var last := part[|part| - 1];
    assert End(last) == rows && last in bridges;
    var k :| 0 <= k < |bridges| && bridges[k] == last;
    if k < |bridges| - 1 {
      assert End(bridges[k]) == bridges[k + 1].start;
      LinkedBelow(rows, bridges, k + 1);
    }
  }

  lemma InitFrom(rows: nat, part: seq<EventArtifact>, bridges: seq<EventArtifact>)
    requires AllFrom(part, bridges) && Linked(rows, part) && part != [] && bridges != []
    requires part[|part| - 1] == bridges[|bridges| - 1]
    ensures AllFrom(part[..|part| - 1], bridges[..|bridges| - 1])
  {
    LinkedInit(rows, part);
    hide Linked, End;
    var n, init := |bridges| - 1, part[..|part| - 1];
    forall i | 0 <= i < |init| ensures init[i] in bridges[..n] {
      LinkedBelow(bridges[n].start, init, i);
      assert part[i] in bridges;
      var k :| 0 <= k < |bridges| && bridges[k] == part[i];
      assert bridges[..n][k] == part[i];
    }
  }

  lemma LongerEnd(bridges: seq<EventArtifact>, part: seq<EventArtifact>)
    requires 0 < |part| <= |bridges| && part[|part| - 1] == bridges[|bridges| - 1]
    requires part[..|part| - 1] == bridges[..|bridges| - 1][|bridges| - |part|..]
    ensures part == bridges[|bridges| - |part|..]
  {
    var n, m := |bridges| - 1, |part| - 1;
    assert part == part[..m] + [part[m]];
    assert bridges[n - m..] == bridges[..n][n - m..] + [bridges[n]];
  }

  /** Bridges taken from a chain are a chain to the same end only if they are its end. */
  lemma {:induction false} LinkedPart(rows: nat, bridges: seq<EventArtifact>, part: seq<EventArtifact>)
    requires Linked(rows, bridges) && Linked(rows, part) && |part| <= |bridges| && AllFrom(part, bridges)
    ensures part == bridges[|bridges| - |part|..]
    decreases |part|
  {
    hide Linked, AllFrom;
    if part != [] {
      SameLast(rows, bridges, part);
      InitFrom(rows, part, bridges);
      LinkedInit(rows, bridges);
      LinkedInit(rows, part);
      LinkedPart(bridges[|bridges| - 1].start, bridges[..|bridges| - 1], part[..|part| - 1]);
      LongerEnd(bridges, part);
    }
  }

  lemma LinkedInit(rows: nat, bridges: seq<EventArtifact>)
    requires Linked(rows, bridges) && bridges != []
    ensures Linked(bridges[|bridges| - 1].start, bridges[..|bridges| - 1])
  {
    hide End;
    var n := |bridges| - 1;
    if n > 0 {
      assert End(bridges[n - 1]) == bridges[n - 1 + 1].start;
    }
  }

  /** How many of the bridges retention keeps at most. */
  function Kept(rules: Rules, active: ActiveGraph, bridges: seq<EventArtifact>, now: Time): (n: nat)
    ensures n <= |bridges|
  {
    RetainedIsSuffix(rules, active, bridges, now);
    Min(RecentCount(rules, active, bridges, now), rules.maxBridges)
  }

  /** Retention leaves a chain if and only if the newest bridges, as many as it keeps, are all recent. */
  lemma {:induction false} RetainedLinked(rules: Rules, rows: nat, active: ActiveGraph, bridges: seq<EventArtifact>,
                                          now: Time)
    requires Linked(rows, bridges)
    ensures var retained := Newest(Recents(rules, active, bridges, now), rules.maxBridges);
            Linked(rows, retained)
            <==> RecentFrom(rules, active, bridges, now, |bridges| - Kept(rules, active, bridges, now))
  {
    var retained := Newest(Recents(rules, active, bridges, now), rules.maxBridges);
    RetainedIsSuffix(rules, active, bridges, now);
    KeptFrom(rules, active, bridges, now);
    hide Linked, Recents, Newest, RecentFrom, AllFrom;
    LinkedSuffix(rows, bridges, |bridges| - |retained|);
    if Linked(rows, retained) {
      LinkedPart(rows, bridges, retained);
    }
  }

  /** When the checkpoint rotates, every bridge has a time and retention keeps the end of the chain. */
  ghost predicate EndKept(rules: Rules, corpus: seq<Event>, active: ActiveGraph, now: Time)
    requires active.entry.count <= |corpus|
  {
    var bridges := BridgesAfterRotation(rules, corpus, active.entry);
    RotationRequired(rules, corpus, active, now) ==>
      && Timed(active, bridges, now)
      && RecentFrom(rules, active, bridges, now, |bridges| - Kept(rules, active, bridges, now))
  }

  lemma RotatedInOrder(rules: Rules, corpus: seq<Event>, active: ActiveGraph, now: Time)
    requires Linked(active.entry.rows, active.entry.bridges) && TimesOk(active, now)
    requires active.entry.rows <= active.entry.count <= |corpus|
    ensures InOrder(active, BridgesAfterRotation(rules, corpus, active.entry), now)
  {
    hide Linked, InOrder, BridgeTime;
    var graph := active.entry;
    if graph.rows < graph.count {
      var bridge := Cut(rules, corpus, Bridge, graph.rows, graph.count);
      NewBridge(active, now, bridge);
      LongerInOrder(active, graph.bridges, bridge, now);
    }
  }

  /** Times in order are enough for that. */
  lemma {:induction false} TimesKeepEnd(rules: Rules, corpus: seq<Event>, active: ActiveGraph, now: Time)
    requires Linked(active.entry.rows, active.entry.bridges) && TimesOk(active, now)
    requires active.entry.rows <= active.entry.count <= |corpus|
    ensures EndKept(rules, corpus, active, now)
  {
    RotatedInOrder(rules, corpus, active, now);
    var bridges := BridgesAfterRotation(rules, corpus, active.entry);
    hide Linked, TimesOk, BridgeTime, Recents, RotationRequired, BridgesAfterRotation;
    InOrderSuffix(rules, active, bridges, now);
    RetainedIsSuffix(rules, active, bridges, now);
  }

  /** A bridge that is kept either was rebuilt from the corpus or is cut from it. */
  lemma KeptFaithful(rules: Rules, corpus: seq<Event>, active: ActiveGraph, now: Time, bridges: seq<EventArtifact>)
    requires active.entry.count <= |corpus| && BridgesFollow(rules, corpus, active, now, bridges)
    ensures AllFaithful(rules, corpus, bridges)
  {
    KeptFrom(rules, active, BridgesAfterRotation(rules, corpus, active.entry), now);
    hide Cut, Recents, Newest, Timed, RotationRequired;
    forall i | 0 <= i < |bridges| ensures Faithful(rules, corpus, bridges[i]) {
      if bridges[i] in active.entry.bridges {
        assert Rebuilds(rules, corpus, bridges[i]);
      } else {
        assert bridges[i] in BridgesAfterRotation(rules, corpus, active.entry);
        CutShape(rules, corpus, Bridge, active.entry.rows, active.entry.count);
      }
    }
  }

  lemma KeptFrom(rules: Rules, active: ActiveGraph, bridges: seq<EventArtifact>, now: Time)
    ensures AllFrom(Newest(Recents(rules, active, bridges, now), rules.maxBridges), bridges)
  {
    RecentsBounds(rules, active, bridges, now);
    hide Recents, Recent;
    var retained := Newest(Recents(rules, active, bridges, now), rules.maxBridges);
    forall i | 0 <= i < |retained| ensures retained[i] in bridges {
      assert retained[i] in Recents(rules, active, bridges, now);
    }
  }

  lemma CutShape(rules: Rules, corpus: seq<Event>, kind: Kind, start: nat, end: nat)
    requires start <= end <= |corpus|
    ensures Cut(rules, corpus, kind, start, end).start == start && End(Cut(rules, corpus, kind, start, end)) == end
  {
  }

  /** The bridges that follow a chain are a chain if and only if its end is kept. */
  lemma BridgesKeep(rules: Rules, corpus: seq<Event>, active: ActiveGraph, now: Time, entry: Entry)
    requires Linked(active.entry.rows, active.entry.bridges)
    requires active.entry.rows <= active.entry.count <= |corpus|
    requires BridgesFollow(rules, corpus, active, now, entry.bridges)
    requires entry.rows == if RotationRequired(rules, corpus, active, now) then active.entry.count
             else active.entry.rows
    ensures Linked(entry.rows, entry.bridges) <==> EndKept(rules, corpus, active, now)
  {
    hide Cut, Timed, Recents, AllRebuild, Linked, RotationRequired, Newest, BridgesAfterRotation, RecentFrom, Kept;
    if RotationRequired(rules, corpus, active, now) {
      RotatedLinked(rules, corpus, active.entry);
      RetainedLinked(rules, entry.rows, active, BridgesAfterRotation(rules, corpus, active.entry), now);
    }
  }

  lemma NextBuilt(rules: Rules, corpus: seq<Event>, active: ActiveGraph, now: Time, entry: Entry)
    requires Follows(rules, corpus, Some(active), now, entry) && active.entry.count <= |corpus|
    requires |active.entry.bridges| <= rules.maxBridges
    ensures Built(rules, corpus, entry)
  {
    KeptFaithful(rules, corpus, active, now, entry.bridges);
    hide Tiles, Cut, AllFit, TailFits, AllFaithful, Timed, Recents, AllRebuild, RotationRequired, BridgesAfterRotation;
  }

  /** A publication that follows a graph is built as it should be for its own corpus, whatever the corpus in force was;
      after a sound graph it is sound if and only if it keeps the end of the chain. */
  lemma {:induction false} PublicationKeeps(rules: Rules, before: seq<Event>, corpus: seq<Event>, active: ActiveGraph,
                                            now: Time, entry: Entry)
    requires Built(rules, before, active.entry) && Follows(rules, corpus, Some(active), now, entry)
    ensures Built(rules, corpus, entry)
    ensures |before| <= |corpus| && (entry.rows == active.entry.rows || entry.rows == active.entry.count)
    ensures GraphOk(rules, before, active.entry) ==>
              (GraphOk(rules, corpus, entry) <==> EndKept(rules, corpus, active, now))
  {
    hide Tiles, Cut, Linked, AllFaithful, BridgesFollow, AllFit, TailFits, RotationRequired, EndKept;
    NextBuilt(rules, corpus, active, now, entry);
    if Linked(active.entry.rows, active.entry.bridges) {
      BridgesKeep(rules, corpus, active, now, entry);
    }
  }

  lemma FirstPublication(rules: Rules, corpus: seq<Event>, now: Time, entry: Entry)
    requires Follows(rules, corpus, None, now, entry)
    ensures Built(rules, corpus, entry) && GraphOk(rules, corpus, entry)
  {
    hide Tiles, Cut, AllFit, TailFits;
  }

  /** Events beyond the count in force that do not fit one tail cannot be published: the graph in force stays. */
  lemma {:induction false} OversizedRefused(rules: Rules, corpus: seq<Event>, active: ActiveGraph, now: Time,
                                            entry: Entry)
    requires active.entry.rows <= active.entry.count < |corpus|
    requires !TailFits(rules, corpus, active.entry.rows) && !TailFits(rules, corpus, active.entry.count)
    ensures !Follows(rules, corpus, Some(active), now, entry)
  {
    hide Tiles, Cut, BridgesFollow, AllFit;
  }

  /** Everything the next graph needs fits its artifact. */
  predicate Fits(rules: Rules, corpus: seq<Event>, active: ActiveGraph, now: Time)
    requires active.entry.count <= |corpus|
  {
    var rows := NextRows(rules, corpus, Some(active), now);
    var graph := active.entry;
    && rows <= |corpus| && AllFit(rules, corpus, rows) && TailFits(rules, corpus, rows)
    && (RotationRequired(rules, corpus, active, now) && graph.rows < graph.count ==>
          rules.fits(Cut(rules, corpus, Bridge, graph.rows, graph.count)))
  }

  lemma FaithfulRebuilds(rules: Rules, before: seq<Event>, corpus: seq<Event>, active: ActiveGraph,
                         bridges: seq<EventArtifact>)
    requires Chain(rules, before, active.entry.rows, active.entry.bridges) && before <= corpus
    requires forall bridge :: bridge in active.entry.bridges ==> rules.fits(bridge)
    ensures AllRebuild(rules, corpus, active.entry.bridges, bridges)
  {
    ChainContinues(rules, before, corpus, active.entry.rows, active.entry.bridges);
    forall i | 0 <= i < |bridges| && bridges[i] in active.entry.bridges ensures Rebuilds(rules, corpus, bridges[i]) {
      var k :| 0 <= k < |active.entry.bridges| && active.entry.bridges[k] == bridges[i];
      assert Faithful(rules, corpus, active.entry.bridges[k]);
    }
  }

  /** When the checkpoint rotates, every bridge has a time. */
  predicate TimesKnown(rules: Rules, corpus: seq<Event>, active: ActiveGraph, now: Time)
    requires active.entry.count <= |corpus|
  {
    RotationRequired(rules, corpus, active, now) ==>
      Timed(active, BridgesAfterRotation(rules, corpus, active.entry), now)
  }

  lemma NextEntry(rules: Rules, before: seq<Event>, corpus: seq<Event>, active: ActiveGraph, now: Time)
      returns (entry: Entry)
    requires WellSet(rules) && GraphOk(rules, before, active.entry) && before <= corpus
    requires TimesKnown(rules, corpus, active, now)
    requires forall bridge :: bridge in active.entry.bridges ==> rules.fits(bridge)
    requires Fits(rules, corpus, active, now)
    ensures Built(rules, corpus, entry) && entry.rows == NextRows(rules, corpus, Some(active), now)
    ensures BridgesFollow(rules, corpus, active, now, entry.bridges)
  {
    var graph := active.entry;
    var rows := NextRows(rules, corpus, Some(active), now);
    var rotate := RotationRequired(rules, corpus, active, now);
    var rotated := BridgesAfterRotation(rules, corpus, graph);
    var chunks := TilesExist(rules, corpus, rows, 0);
    var tail := if rows < |corpus| then Some(Cut(rules, corpus, CurrentTail, rows, |corpus|)) else None;
    var bridges := if rotate then Newest(Recents(rules, active, rotated, now), rules.maxBridges) else graph.bridges;
    assert |bridges| <= rules.maxBridges;
    FaithfulRebuilds(rules, before, corpus, active, bridges);
    entry := Entry(|corpus|, RootOf(rules, corpus), rows, chunks, tail, bridges);
    hide Tiles, Cut, Recents, Newest, AllRebuild, Linked, RotationRequired, BridgesAfterRotation, AllFit, TailFits;
    hide Timed;
    assert BridgesFollow(rules, corpus, active, now, bridges);
    KeptFaithful(rules, corpus, active, now, bridges);
  }

  lemma NextGraph(rules: Rules, before: seq<Event>, corpus: seq<Event>, active: ActiveGraph, now: Time)
      returns (entry: Entry)
    requires WellSet(rules) && GraphOk(rules, before, active.entry) && before <= corpus
    requires EndKept(rules, corpus, active, now)
    requires forall bridge :: bridge in active.entry.bridges ==> rules.fits(bridge)
    requires Fits(rules, corpus, active, now)
    ensures GraphOk(rules, corpus, entry) && entry.rows == NextRows(rules, corpus, Some(active), now)
    ensures BridgesFollow(rules, corpus, active, now, entry.bridges)
  {
    hide Tiles, AllFaithful, Linked, RotationRequired, BridgesAfterRotation, Timed, RecentFrom, Kept, Fits,
      BridgesFollow;
    entry := NextEntry(rules, before, corpus, active, now);
    BridgesKeep(rules, corpus, active, now, entry);
  }

  /** For a corpus that continues the active one, with a contract that accepts sound graphs, a publication is refused if
      and only if something does not fit: a chunk, the tail from the next checkpoint, or the old tail as a bridge. */
  lemma RefusedOnlyForSize(rules: Rules, before: seq<Event>, corpus: seq<Event>, active: ActiveGraph, now: Time)
    requires WellSet(rules) && GraphOk(rules, before, active.entry) && before <= corpus
    requires EndKept(rules, corpus, active, now)
    requires rules.valid(active.entry) && forall entry :: GraphOk(rules, corpus, entry) ==> rules.valid(entry)
    requires forall bridge :: bridge in active.entry.bridges ==> rules.fits(bridge)
    ensures (exists entry :: Follows(rules, corpus, Some(active), now, entry)) <==> Fits(rules, corpus, active, now)
  {
    assert Continues(rules, corpus, active.entry) by { assert before == corpus[..|before|]; }
    hide Tiles, Cut, Linked, AllFaithful, EndKept, RotationRequired, AllFit, TailFits;
    if Fits(rules, corpus, active, now) {
      var entry := NextGraph(rules, before, corpus, active, now);
      hide BridgesFollow;
      assert Follows(rules, corpus, Some(active), now, entry);
    }
  }

  // ---------------------------------------------------------------------------------------------
  // A chain with an expired bridge in the middle
  // ---------------------------------------------------------------------------------------------

  function Piece(start: nat): EventArtifact {
    EventArtifact(Bridge, start, None, 0, [Event(start, 0, 0, 0)])
  }

  const PIECES := [Piece(0), Piece(1), Piece(2)]

  const DATED: map<EventArtifact, Time> := map[Piece(0) := 95, Piece(1) := 50, Piece(2) := 95]

  /** Bridge times that go back can make retention drop a bridge in the middle: what is left has a gap. */
  lemma {:induction false} ExpiredMiddle(rules: Rules, entry: Entry)
    requires rules.retention == 10 && rules.maxBridges >= 2 && entry.bridges == PIECES
    ensures var active := ActiveGraph(entry, 0, DATED);
            && Linked(3, PIECES) && Timed(active, PIECES, 100)
            && Newest(Recents(rules, active, PIECES, 100), rules.maxBridges) == [Piece(0), Piece(2)]
            && !Linked(3, [Piece(0), Piece(2)])
  {
    var active := ActiveGraph(entry, 0, DATED);
    assert Piece(0).start != Piece(1).start && Piece(1).start != Piece(2).start;
    assert PIECES[..2] == [Piece(0), Piece(1)] && [Piece(0), Piece(1)][..1] == [Piece(0)] && [Piece(0)][..0] == [];
    assert Recent(rules, active, Piece(0), 100) && !Recent(rules, active, Piece(1), 100)
           && Recent(rules, active, Piece(2), 100);
    hide Recent;
    assert Recents(rules, active, [Piece(0)], 100) == [Piece(0)];
    assert Recents(rules, active, [Piece(0), Piece(1)], 100) == [Piece(0)];
    assert Recents(rules, active, PIECES, 100) == [Piece(0), Piece(2)];
    assert End([Piece(0), Piece(2)][0]) != [Piece(0), Piece(2)][0 + 1].start;
  }

  // ---------------------------------------------------------------------------------------------
  // The root check
  // ---------------------------------------------------------------------------------------------

  /** The root of a tree tells leaf lists of one length apart. */
  ghost predicate TreeBinding(rules: Rules) {
    forall a, b :: |a| == |b| && rules.tree(a) == rules.tree(b) ==> a == b
  }

  lemma LastTreeLength(a: seq<Event>, b: seq<Event>)
    requires |a| == |b|
    ensures |LastTree(a)| == |LastTree(b)|
  {
  }

  /** The root check admits exactly the corpora that agree with the one in force on the commitments of its last tree. It
      says nothing of signatures, event types and earlier trees. */
  lemma {:induction false} RootCheckExact(rules: Rules, before: seq<Event>, corpus: seq<Event>, graph: Entry)
    requires TreeBinding(rules) && GraphOk(rules, before, graph) && rules.valid(graph) && |before| <= |corpus|
    ensures Continues(rules, corpus, graph) <==> LastTree(before) == LastTree(corpus[..|before|])
  {
    hide Tiles, Chain, LastTree;
    LastTreeLength(before, corpus[..|before|]);
    if before == [] {
      assert corpus[..0] == before;
    }
  }

  const SIGNED := Event(0, 5, 1, 0)

  const RESIGNED := Event(0, 5, 2, 0)

  /** The root check alone: two corpora of authentic events, both replayable to the same root, of which the second is
      accepted after the first although it differs in a signature. */
  lemma {:induction false} RootMissesSignatures(rules: Rules, now: Time) returns (active: ActiveGraph, entry: Entry)
    requires WellSet(rules) && (forall artifact :: rules.fits(artifact)) && forall graph :: rules.valid(graph)
    requires rules.authentic(SIGNED) && rules.authentic(RESIGNED)
    ensures Replayable(rules, [SIGNED], active.entry.root) && Replayable(rules, [RESIGNED], active.entry.root)
    ensures GraphOk(rules, [SIGNED], active.entry) && TimesOk(active, now)
    ensures Follows(rules, [RESIGNED], Some(active), now, entry)
    ensures !([SIGNED] <= [RESIGNED])
  {
    var before, corpus := [SIGNED], [RESIGNED];
    var oldChunks := TilesExist(rules, before, 1, 0);
    var newChunks := TilesExist(rules, corpus, 1, 0);
    active := ActiveGraph(Entry(1, RootOf(rules, before), 1, oldChunks, None, []), now, map[]);
    entry := Entry(1, RootOf(rules, corpus), 1, newChunks, None, []);
    assert LastTree(before) == LastTree(corpus) by {
      assert before[0..] == before && corpus[0..] == corpus;
      assert Commitments(before) == Commitments(corpus) == [5];
    }
    hide Tiles, LastTree, Cut;
    assert corpus[..1] == corpus;
    assert before[0] != corpus[0];
  }
}
