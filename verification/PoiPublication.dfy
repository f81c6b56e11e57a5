/** Publishing the next artifact graph from the one in force: rotation, bridge retention, refusal. */
module PoiPublication {
  import opened Wrappers
  import opened PoiGraph

  // ---------------------------------------------------------------------------------------------
  // Retaining bridges
  // ---------------------------------------------------------------------------------------------

  /** A bridge that is not in force yet counts as published now; one in force must have a stored time. */
  function BridgeTime(active: ActiveGraph, bridge: EventArtifact, now: Time): Result<Time, Error> {
    if bridge in active.bridgeAt then Ok(active.bridgeAt[bridge])
    else if bridge in active.entry.bridges then Err(MissingTime)
    else Ok(now)
  }

  /** Published at most the retention time ago, and not in the future. */
  predicate Recent(rules: Rules, active: ActiveGraph, bridge: EventArtifact, now: Time) {
    match BridgeTime(active, bridge, now)
    case Err(_) => false
    case Ok(at) => 0 <= now - at <= rules.retention
  }

  predicate Timed(active: ActiveGraph, bridges: seq<EventArtifact>, now: Time) {
    forall i :: 0 <= i < |bridges| ==> BridgeTime(active, bridges[i], now).Ok?
  }

  function Recents(rules: Rules, active: ActiveGraph, bridges: seq<EventArtifact>, now: Time): seq<EventArtifact> {
    if bridges == [] then []
    else
      var rest, bridge := Recents(rules, active, bridges[..|bridges| - 1], now), bridges[|bridges| - 1];
      if Recent(rules, active, bridge, now) then rest + [bridge] else rest
  }

  function Newest(bridges: seq<EventArtifact>, n: nat): seq<EventArtifact> {
    if |bridges| > n then bridges[|bridges| - n..] else bridges
  }

  /** The recent bridges in order, and of these the newest few. */
  method RetainRecentBridges(rules: Rules, bridges: seq<EventArtifact>, active: ActiveGraph, now: Time)
    returns (r: Result<seq<EventArtifact>, Error>)
    ensures r.Ok? <==> Timed(active, bridges, now)
    ensures r.Ok? ==> r.value == Newest(Recents(rules, active, bridges, now), rules.maxBridges)
  {
    hide BridgeTime;
    var retained: seq<EventArtifact> := [];
    for i := 0 to |bridges|
      invariant Timed(active, bridges[..i], now)
      invariant retained == Recents(rules, active, bridges[..i], now)
    {
      assert bridges[..i + 1][..i] == bridges[..i];
      var at := BridgeTime(active, bridges[i], now);
      if at.Err? {
        return Err(at.error);
      }
      if 0 <= now - at.value <= rules.retention {
        retained := retained + [bridges[i]];
      }
    }
    assert bridges[..|bridges|] == bridges;
    if |retained| > rules.maxBridges {
      retained := retained[|retained| - rules.maxBridges..];
    }
    return Ok(retained);
  }

  /** All bridges from `k` on are recent. */
  predicate RecentFrom(rules: Rules, active: ActiveGraph, bridges: seq<EventArtifact>, now: Time, k: nat) {
    forall i :: k <= i < |bridges| ==> Recent(rules, active, bridges[i], now)
  }

  lemma {:induction false} RecentsBounds(rules: Rules, active: ActiveGraph, bridges: seq<EventArtifact>, now: Time)
    ensures |Recents(rules, active, bridges, now)| <= |bridges|
    ensures forall bridge :: bridge in Recents(rules, active, bridges, now) ==>
              bridge in bridges && Recent(rules, active, bridge, now)
  {
    hide Recent;
    if bridges != [] {
      RecentsBounds(rules, active, bridges[..|bridges| - 1], now);
    }
  }

  /** A recent tail of the list is the tail of what is kept. */
  lemma {:induction false} RecentTail(rules: Rules, active: ActiveGraph, bridges: seq<EventArtifact>, now: Time, k: nat)
    requires k <= |bridges| && RecentFrom(rules, active, bridges, now, k)
    ensures Recents(rules, active, bridges, now) == Recents(rules, active, bridges[..k], now) + bridges[k..]
  {
    hide Recent;
    if k == |bridges| {
      assert bridges[..k] == bridges && bridges[k..] == [];
    } else {
      var init := bridges[..|bridges| - 1];
      RecentTail(rules, active, init, now, k);
      assert init[..k] == bridges[..k];
      assert bridges[k..] == init[k..] + [bridges[|bridges| - 1]];
    }
  }

  /** How many of the bridges are recent. */
  function RecentCount(rules: Rules, active: ActiveGraph, bridges: seq<EventArtifact>, now: Time): nat {
    if bridges == [] then 0
    else RecentCount(rules, active, bridges[..|bridges| - 1], now)
         + if Recent(rules, active, bridges[|bridges| - 1], now) then 1 else 0
  }

  lemma {:induction false} CountsRecents(rules: Rules, active: ActiveGraph, bridges: seq<EventArtifact>, now: Time)
    ensures |Recents(rules, active, bridges, now)| == RecentCount(rules, active, bridges, now)
  {
    hide Recent;
    if bridges != [] {
      CountsRecents(rules, active, bridges[..|bridges| - 1], now);
    }
  }

  /** What is retained is the end of the chain if and only if the newest bridges, as many as are recent and at most the
      bound, are all recent: no expired or future-dated one lies among them. */
  lemma {:induction false} RetainedIsSuffix(rules: Rules, active: ActiveGraph, bridges: seq<EventArtifact>, now: Time)
    ensures var retained := Newest(Recents(rules, active, bridges, now), rules.maxBridges);
            var kept := Min(RecentCount(rules, active, bridges, now), rules.maxBridges);
            && |retained| == kept <= |bridges|
            && (retained == bridges[|bridges| - kept..] <==> RecentFrom(rules, active, bridges, now, |bridges| - kept))
  {
    hide Recent;
    var kept := Recents(rules, active, bridges, now);
    RecentsBounds(rules, active, bridges, now);
    CountsRecents(rules, active, bridges, now);
    var retained := Newest(kept, rules.maxBridges);
    var k := |bridges| - |retained|;
    if RecentFrom(rules, active, bridges, now, k) {
      RecentTail(rules, active, bridges, now, k);
      assert kept == kept[..|kept| - |retained|] + kept[|kept| - |retained|..];
      assert retained == bridges[k..];
    }
    if retained == bridges[k..] {
      forall i | k <= i < |bridges| ensures Recent(rules, active, bridges[i], now) {
        assert bridges[i] == retained[i - k];
        assert retained[i - k] in kept;
      }
    }
  }

  /** Bridge times that never go back and are not in the future leave only whole ends of the chain. */
  ghost predicate InOrder(active: ActiveGraph, bridges: seq<EventArtifact>, now: Time) {
    && Timed(active, bridges, now)
    && (forall i :: 0 <= i < |bridges| ==> BridgeTime(active, bridges[i], now).value <= now)
    && (forall i, j :: 0 <= i < j < |bridges| ==>
          BridgeTime(active, bridges[i], now).value <= BridgeTime(active, bridges[j], now).value)
  }

  lemma InOrderSuffix(rules: Rules, active: ActiveGraph, bridges: seq<EventArtifact>, now: Time)
    requires InOrder(active, bridges, now)
    ensures var retained := Newest(Recents(rules, active, bridges, now), rules.maxBridges);
            |retained| <= |bridges| && retained == bridges[|bridges| - |retained|..]
  {
    var retained := Newest(Recents(rules, active, bridges, now), rules.maxBridges);
    RetainedIsSuffix(rules, active, bridges, now);
    InOrderCount(rules, active, bridges, now);
    hide BridgeTime;
    var k := |bridges| - |Recents(rules, active, bridges, now)|;
    assert RecentFrom(rules, active, bridges, now, k);
  }

  lemma {:induction false} InOrderCount(rules: Rules, active: ActiveGraph, bridges: seq<EventArtifact>, now: Time)
    requires InOrder(active, bridges, now)
    ensures |Recents(rules, active, bridges, now)| <= |bridges|
    ensures RecentFrom(rules, active, bridges, now, |bridges| - |Recents(rules, active, bridges, now)|)
  {
    hide BridgeTime;
    if bridges != [] {
      var init, last := bridges[..|bridges| - 1], bridges[|bridges| - 1];
      InOrderCount(rules, active, init, now);
      if !Recent(rules, active, last, now) {
        NoneRecent(rules, active, init, now);
      }
    }
  }

  /** When the newest bridge has expired, all have. */
  lemma {:induction false} NoneRecent(rules: Rules, active: ActiveGraph, bridges: seq<EventArtifact>, now: Time)
    requires forall i :: 0 <= i < |bridges| ==> !Recent(rules, active, bridges[i], now)
    ensures Recents(rules, active, bridges, now) == []
  {
    hide Recent;
    if bridges != [] {
      NoneRecent(rules, active, bridges[..|bridges| - 1], now);
    }
  }

  // ---------------------------------------------------------------------------------------------
  // The next graph
  // ---------------------------------------------------------------------------------------------

  /** The stored corpus still leads to the root in force. */
  predicate Continues(rules: Rules, corpus: seq<Event>, graph: Entry) {
    && rules.valid(graph)
    && graph.count <= |corpus|
    && (graph.count > 0 ==> graph.root == Some(RootAfter(rules, corpus[..graph.count])))
  }

  predicate TailFits(rules: Rules, corpus: seq<Event>, rows: nat) {
    rows < |corpus| ==> rules.fits(Cut(rules, corpus, CurrentTail, rows, |corpus|))
  }

  predicate RotationRequired(rules: Rules, corpus: seq<Event>, active: ActiveGraph, now: Time) {
    || (active.entry.tail.Some? && now - active.checkpointAt >= rules.interval)
    || !TailFits(rules, corpus, active.entry.rows)
  }

  /** On rotation the tail in force becomes the newest bridge. */
  function BridgesAfterRotation(rules: Rules, corpus: seq<Event>, graph: Entry): seq<EventArtifact>
    requires graph.count <= |corpus|
  {
    if graph.rows < graph.count then graph.bridges + [Cut(rules, corpus, Bridge, graph.rows, graph.count)]
      else graph.bridges
  }

  function NextRows(rules: Rules, corpus: seq<Event>, active: Option<ActiveGraph>, now: Time): nat {
    match active
    case None => |corpus|
    case Some(graph) => if RotationRequired(rules, corpus, graph, now) then graph.entry.count else graph.entry.rows
  }

  /** A bridge taken over from the graph in force can be rebuilt from the corpus. */
  predicate Rebuilds(rules: Rules, corpus: seq<Event>, bridge: EventArtifact) {
    Prepare(rules, corpus, Bridge, bridge.start, End(bridge)) == Ok(bridge)
  }

  predicate AllRebuild(rules: Rules, corpus: seq<Event>, inherited: seq<EventArtifact>, bridges: seq<EventArtifact>) {
    forall i :: 0 <= i < |bridges| && bridges[i] in inherited ==> Rebuilds(rules, corpus, bridges[i])
  }

  ghost predicate BridgesFollow(rules: Rules, corpus: seq<Event>, active: ActiveGraph, now: Time,
                                bridges: seq<EventArtifact>)
    requires active.entry.count <= |corpus|
  {
    var graph := active.entry;
    && (if RotationRequired(rules, corpus, active, now) then
          && (graph.rows < graph.count ==> rules.fits(Cut(rules, corpus, Bridge, graph.rows, graph.count)))
          && Timed(active, BridgesAfterRotation(rules, corpus, graph), now)
          && bridges == Newest(Recents(rules, active, BridgesAfterRotation(rules, corpus, graph), now),
                               rules.maxBridges)
        else bridges == graph.bridges)
    && AllRebuild(rules, corpus, graph.bridges, bridges)
  }

  /** The graph that a publication at `now` may put in force after `active`. */
  ghost predicate Follows(rules: Rules, corpus: seq<Event>, active: Option<ActiveGraph>, now: Time, entry: Entry) {
    && entry.count == |corpus| && entry.root == RootOf(rules, corpus)
    && entry.rows == NextRows(rules, corpus, active, now) <= |corpus|
    && Tiles(rules, corpus, entry.rows, entry.chunks) && AllFit(rules, corpus, entry.rows)
    && TailFits(rules, corpus, entry.rows)
    && entry.tail == (if entry.rows < |corpus| then Some(Cut(rules, corpus, CurrentTail, entry.rows, |corpus|))
                      else None)
    && (match active
        case None => entry.bridges == []
        case Some(graph) =>
          Continues(rules, corpus, graph.entry) && BridgesFollow(rules, corpus, graph, now, entry.bridges))
    && rules.valid(entry)
  }

  method MaterializeBridges(rules: Rules, corpus: seq<Event>, inherited: seq<EventArtifact>,
                            bridges: seq<EventArtifact>)
    returns (r: Result<seq<EventArtifact>, Error>)
    ensures r.Ok? <==> AllRebuild(rules, corpus, inherited, bridges)
    ensures r.Ok? ==> r.value == bridges
  {
    hide Prepare;
    var materialized: seq<EventArtifact> := [];
    for i := 0 to |bridges|
      invariant materialized == bridges[..i]
      invariant forall k :: 0 <= k < i && bridges[k] in inherited ==> Rebuilds(rules, corpus, bridges[k])
    {
      if bridges[i] in inherited {
        var prepared := Prepare(rules, corpus, Bridge, bridges[i].start, End(bridges[i]));
        if prepared.Err? {
          assert !Rebuilds(rules, corpus, bridges[i]);
          return Err(prepared.error);
        }
        if prepared.value != bridges[i] {
          assert !Rebuilds(rules, corpus, bridges[i]);
          return Err(BridgeMismatch);
        }
      }
      materialized := materialized + [bridges[i]];
    }
    return Ok(materialized);
  }

  /** The bridges of the next graph. */
  method NextBridges(rules: Rules, corpus: seq<Event>, active: ActiveGraph, now: Time)
      returns (r: Result<seq<EventArtifact>, Error>)
    requires active.entry.count <= |corpus|
    ensures r.Ok? ==> BridgesFollow(rules, corpus, active, now, r.value)
    ensures r.Err? ==> forall bridges :: !BridgesFollow(rules, corpus, active, now, bridges)
  {
    hide Timed, Recents, Newest, AllRebuild, Cut;
    var graph := active.entry;
    var retained := graph.bridges;
    if RotationRequired(rules, corpus, active, now) {
      if graph.count > graph.rows {
        var bridge := Prepare(rules, corpus, Bridge, graph.rows, graph.count);
        if bridge.Err? {
          return Err(bridge.error);
        }
        retained := retained + [bridge.value];
      }
      var recent := RetainRecentBridges(rules, retained, active, now);
      if recent.Err? {
        return Err(recent.error);
      }
      retained := recent.value;
    }
    r := MaterializeBridges(rules, corpus, graph.bridges, retained);
  }

  /** Publishes the next graph, or refuses because none may follow. */
  method PublishEntry(rules: Rules, corpus: seq<Event>, active: Option<ActiveGraph>, now: Time)
      returns (r: Result<Entry, Error>)
    requires WellSet(rules)
    ensures r.Ok? ==> Follows(rules, corpus, active, now, r.value)
    ensures r.Err? ==> forall entry :: !Follows(rules, corpus, active, now, entry)
  {
    hide BridgesFollow, Tiles, AllFit, RotationRequired, Cut;
    var bridges: seq<EventArtifact> := [];
    if active.Some? {
      if !rules.valid(active.value.entry) {
        return Err(Invalid);
      }
      if active.value.entry.count > |corpus| {
        return Err(Regresses);
      }
      if active.value.entry.count > 0
        && active.value.entry.root != Some(RootAfter(rules, corpus[..active.value.entry.count])) {
        return Err(RootConflict);
      }
      var next := NextBridges(rules, corpus, active.value, now);
      if next.Err? {
        return Err(next.error);
      }
      bridges := next.value;
    }
    var rows := NextRows(rules, corpus, active, now);
    var chunks := PrepareCheckpoint(rules, corpus, rows);
    if chunks.Err? {
      return Err(chunks.error);
    }
    var tail: Option<EventArtifact> := None;
    if rows < |corpus| {
      var prepared := Prepare(rules, corpus, CurrentTail, rows, |corpus|);
      if prepared.Err? {
        return Err(prepared.error);
      }
      tail := Some(prepared.value);
    }
    var entry := Entry(|corpus|, RootOf(rules, corpus), rows, chunks.value, tail, bridges);
    if !rules.valid(entry) {
      forall other | Follows(rules, corpus, active, now, other) ensures other == entry {
        TilesUnique(rules, corpus, rows, chunks.value, other.chunks);
        if active.Some? {
          BridgesUnique(rules, corpus, active.value, now, bridges, other.bridges);
        }
      }
      return Err(Invalid);
    }
    return Ok(entry);
  }

  lemma BridgesUnique(rules: Rules, corpus: seq<Event>, active: ActiveGraph, now: Time, a: seq<EventArtifact>,
                      b: seq<EventArtifact>)
    requires active.entry.count <= |corpus|
    requires BridgesFollow(rules, corpus, active, now, a) && BridgesFollow(rules, corpus, active, now, b)
    ensures a == b
  {
  }

  lemma TilesUnique(rules: Rules, corpus: seq<Event>, count: nat, a: seq<EventArtifact>, b: seq<EventArtifact>)
    requires Tiles(rules, corpus, count, a) && Tiles(rules, corpus, count, b)
    ensures a == b
  {
    hide StartOf, Cut;
    if |a| > 0 {
      Within(rules, |a| - 1, |b|, count);
    }
    if |b| > 0 {
      Within(rules, |b| - 1, |a|, count);
    }
    assert |a| == |b|;
  }
}
