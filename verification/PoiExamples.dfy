/** Concrete runs of publications. */
module PoiExamples {
  import opened Wrappers
  import opened PoiGraph
  import opened PoiPublication
  import opened PoiStore
  import opened PoiHistory
  import opened PoiRuns
  import opened PoiClocks

  lemma FirstGraph(rules: Rules, corpus: seq<Event>) returns (active: ActiveGraph)
    requires WellSet(rules) && (forall artifact :: rules.fits(artifact)) && forall graph :: rules.valid(graph)
    ensures Follows(rules, corpus, None, 0, active.entry) && active.entry.bridges == [] && active.bridgeAt == map[]
  {
    var chunks := TilesExist(rules, corpus, |corpus|, 0);
    active := ActiveGraph(Entry(|corpus|, RootOf(rules, corpus), |corpus|, chunks, None, []), 0, map[]);
    hide Tiles, Cut, RootOf;
  }

  const EVENTS := [Event(0, 5, 1, 0), Event(1, 6, 1, 0)]

  /** Growth fails: another upstream with a lower tip is read while the graph in force is hidden. */
  lemma {:induction false} HiddenShrinks(rules: Rules) returns (states: seq<State>, steps: seq<Step>)
    requires WellSet(rules) && (forall artifact :: rules.fits(artifact)) && forall graph :: rules.valid(graph)
    ensures Run(rules, states, steps) && |states| == 5
    ensures states[4].corpus == EVENTS[..1] && states[3].corpus == EVENTS
  {
    var rows: Rows := map[0 := StoredEvent(EVENTS[0], true), 1 := StoredEvent(EVENTS[1], true)];
    var empty := PoiStore.Store(map[], map[]);
    var one := PoiStore.Store(rows, map[0 := 1]);
    var two := PoiStore.Store(rows, map[0 := 1, 1 := 0]);
    var page, other := Page(0, EVENTS), Page(1, EVENTS[..1]);
    assert Apply(empty, page) == one by { Fills(rows); }
    assert Apply(one, other) == two by { Refills(rows); }
    var long := FirstGraph(rules, EVENTS);
    var short := FirstGraph(rules, EVENTS[..1]);
    hide Follows, Apply;
    assert Reads(one, 0, EVENTS) && Reads(two, 1, EVENTS[..1]);
    hide Reads;
    steps := [Writes(page), Publish(0, false, 0, 0), Writes(other), Publish(1, true, 0, 0)];
    states := [State(empty, None, [], map[]), State(one, None, [], map[]), State(one, Some(long), EVENTS, map[]),
               State(two, Some(long), EVENTS, map[]),
               State(two, Some(short), EVENTS[..1], map[])];
    assert Next(rules, states[0], steps[0], states[1]) && Next(rules, states[1], steps[1], states[2]);
    assert Next(rules, states[2], steps[2], states[3]) && Next(rules, states[3], steps[3], states[4]);
  }

  lemma Fills(rows: Rows)
    requires rows == map[0 := StoredEvent(EVENTS[0], true), 1 := StoredEvent(EVENTS[1], true)]
    ensures InsertAll(map[], EVENTS) == Ok(rows)
  {
    var first: Rows := map[0 := StoredEvent(EVENTS[0], true)];
    assert EVENTS[..1] == [EVENTS[0]] && [EVENTS[0]][..0] == [];
    assert InsertAll(map[], [EVENTS[0]]) == Ok(first) by { assert map[][0 := StoredEvent(EVENTS[0], true)] == first; }
    assert first[1 := StoredEvent(EVENTS[1], true)] == rows;
  }

  lemma Refills(rows: Rows)
    requires rows == map[0 := StoredEvent(EVENTS[0], true), 1 := StoredEvent(EVENTS[1], true)]
    ensures InsertAll(rows, EVENTS[..1]) == Ok(rows)
  {
    assert EVENTS[..1] == [EVENTS[0]] && [EVENTS[0]][..0] == [];
  }

  // ---------------------------------------------------------------------------------------------
  // A gap under a clock that never goes back
  // ---------------------------------------------------------------------------------------------

  ghost predicate Plain(rules: Rules) {
    && WellSet(rules) && (forall artifact :: rules.fits(artifact)) && (forall graph :: rules.valid(graph))
    && rules.interval == 10 && rules.retention == 100 && rules.maxBridges >= 2
  }

  const FOUR := [Event(0, 5, 1, 0), Event(1, 6, 1, 0), Event(2, 7, 1, 0), Event(3, 8, 1, 0)]

  /** A store filled from four upstreams, of which number `u` has got as far as event `u`. */
  const FILLED := PoiStore.Store(
    map[0 := StoredEvent(FOUR[0], true), 1 := StoredEvent(FOUR[1], true), 2 := StoredEvent(FOUR[2], true),
        3 := StoredEvent(FOUR[3], true)],
    map[0 := 0, 1 := 1, 2 := 2, 3 := 3])

  lemma ReadsUpTo(upstream: nat)
    requires upstream < 4
    ensures Reads(FILLED, upstream, FOUR[..upstream + 1])
  {
  }

  function Part(rules: Rules, start: nat, end: nat): EventArtifact
    requires start <= end <= 4
  {
    Cut(rules, FOUR, Bridge, start, end)
  }

  /** A sound graph over the first `n` events with these fields. */
  ghost predicate Shaped(rules: Rules, active: ActiveGraph, n: nat, rows: nat, bridges: seq<EventArtifact>,
                         checkpointAt: Time, bridgeAt: map<EventArtifact, Time>)
    requires n <= 4
  {
    && GraphOk(rules, FOUR[..n], active.entry) && active.entry.rows == rows && active.entry.bridges == bridges
    && active.checkpointAt == checkpointAt && active.bridgeAt == bridgeAt
  }

  lemma ShapedTail(rules: Rules, n: nat, entry: Entry)
    requires n <= 4 && GraphOk(rules, FOUR[..n], entry)
    ensures entry.count == n && entry.rows <= n && (entry.tail.Some? <==> entry.rows < n)
  {
    hide Tiles, AllFaithful, Linked;
  }

  lemma PartOf(rules: Rules, n: nat, start: nat, end: nat)
    requires start <= end <= n <= 4
    ensures Cut(rules, FOUR[..n], Bridge, start, end) == Part(rules, start, end)
  {
    assert FOUR[..n][..end] == FOUR[..end];
    SameCut(rules, FOUR[..n], FOUR, Bridge, start, end);
  }

  lemma Publishes(rules: Rules, n: nat, m: nat, active: ActiveGraph, now: Time) returns (entry: Entry)
    requires Plain(rules) && n <= m <= 4 && GraphOk(rules, FOUR[..n], active.entry)
    requires active.entry.count <= m && TimesKnown(rules, FOUR[..m], active, now)
    ensures Follows(rules, FOUR[..m], Some(active), now, entry)
  {
    var before, corpus := FOUR[..n], FOUR[..m];
    ShapedTail(rules, n, active.entry);
    assert before <= corpus && corpus[..n] == before;
    assert Continues(rules, corpus, active.entry);
    assert Fits(rules, corpus, active, now);
    hide Tiles, Cut, Linked, AllFaithful, TimesKnown, RotationRequired, RootAfter, Fits, Continues;
    entry := NextEntry(rules, before, corpus, active, now);
    hide BridgesFollow;
    assert AllFit(rules, corpus, entry.rows) && TailFits(rules, corpus, entry.rows);
  }

  /** With no tail in force the checkpoint stays. */
  lemma Extends(rules: Rules, n: nat, m: nat, active: ActiveGraph, now: Time) returns (next: ActiveGraph)
    requires Plain(rules) && n <= m <= 4
    requires Shaped(rules, active, n, n, active.entry.bridges, active.checkpointAt, active.bridgeAt)
    ensures Shaped(rules, next, m, n, active.entry.bridges, active.checkpointAt, active.bridgeAt)
    ensures Follows(rules, FOUR[..m], Some(active), now, next.entry)
  {
    var before, corpus := FOUR[..n], FOUR[..m];
    ShapedTail(rules, n, active.entry);
    assert !RotationRequired(rules, corpus, active, now);
    hide RotationRequired, Tiles, Linked, AllFaithful;
    var entry := Publishes(rules, n, m, active, now);
    next := active.(entry := entry);
    PublicationKeeps(rules, before, corpus, active, now, entry);
    FollowsShape(rules, corpus, active, now, entry);
  }

  lemma AllKept(rules: Rules, active: ActiveGraph, bridges: seq<EventArtifact>, now: Time)
    requires RecentFrom(rules, active, bridges, now, 0) && |bridges| <= rules.maxBridges
    ensures Timed(active, bridges, now) && Newest(Recents(rules, active, bridges, now), rules.maxBridges) == bridges
  {
    RecentTail(rules, active, bridges, now, 0);
    assert bridges[..0] == [] && bridges[0..] == bridges;
    forall i | 0 <= i < |bridges| ensures BridgeTime(active, bridges[i], now).Ok? {
      assert Recent(rules, active, bridges[i], now);
    }
  }

  /** After the interval the tail becomes a bridge; with nothing expired all bridges are kept. */
  lemma Rotates(rules: Rules, n: nat, m: nat, active: ActiveGraph, now: Time, checkpointAt: Time, times: Times)
    returns (next: ActiveGraph)
    requires Plain(rules) && n <= m <= 4 && now - active.checkpointAt >= 10
    requires GraphOk(rules, FOUR[..n], active.entry) && active.entry.rows < n
    requires |active.entry.bridges| < rules.maxBridges
    requires RecentFrom(rules, active, active.entry.bridges + [Part(rules, active.entry.rows, n)], now, 0)
    ensures Shaped(rules, next, m, n, active.entry.bridges + [Part(rules, active.entry.rows, n)], checkpointAt, times)
    ensures Follows(rules, FOUR[..m], Some(active), now, next.entry)
  {
    var before, corpus := FOUR[..n], FOUR[..m];
    ShapedTail(rules, n, active.entry);
    var all := active.entry.bridges + [Part(rules, active.entry.rows, n)];
    PartOf(rules, m, active.entry.rows, n);
    assert BridgesAfterRotation(rules, corpus, active.entry) == all;
    AllKept(rules, active, all, now);
    assert RotationRequired(rules, corpus, active, now);
    hide Recent, Recents, Newest, Timed, RotationRequired, BridgesAfterRotation, Part, Tiles, Linked, AllFaithful;
    var entry := Publishes(rules, n, m, active, now);
    next := ActiveGraph(entry, checkpointAt, times);
    assert EndKept(rules, corpus, active, now);
    PublicationKeeps(rules, before, corpus, active, now, entry);
    FollowsShape(rules, corpus, active, now, entry);
  }

  lemma Fresh(rules: Rules, n: nat, now: Time) returns (next: ActiveGraph)
    requires Plain(rules) && n <= 4
    ensures Shaped(rules, next, n, n, [], now, map[]) && Follows(rules, FOUR[..n], None, now, next.entry)
  {
    var active := FirstGraph(rules, FOUR[..n]);
    assert Follows(rules, FOUR[..n], None, now, active.entry);
    FirstPublication(rules, FOUR[..n], now, active.entry);
    next := active.(checkpointAt := now, bridgeAt := map[]);
  }

  lemma NewIsRecent(rules: Rules, active: ActiveGraph, bridge: EventArtifact, now: Time)
    requires Plain(rules) && bridge !in active.bridgeAt && bridge !in active.entry.bridges
    ensures Recent(rules, active, bridge, now)
  {
  }

  /** Bridge [2, 3) is stored at time 20. */
  lemma FirstEpoch(rules: Rules) returns (a: ActiveGraph, b: ActiveGraph, c: ActiveGraph)
    requires Plain(rules)
    ensures Shaped(rules, a, 2, 2, [], 0, map[]) && Follows(rules, FOUR[..2], None, 0, a.entry)
    ensures Shaped(rules, b, 3, 2, [], 0, map[]) && Follows(rules, FOUR[..3], Some(a), 1, b.entry)
    ensures Shaped(rules, c, 3, 3, [Part(rules, 2, 3)], 20, map[Part(rules, 2, 3) := 20])
    ensures Follows(rules, FOUR[..3], Some(b), 20, c.entry)
  {
    hide Follows, GraphOk, Part;
    a := Fresh(rules, 2, 0);
    b := Extends(rules, 2, 3, a, 1);
    NewIsRecent(rules, b, Part(rules, 2, 3), 20);
    hide Recent;
    assert [] + [Part(rules, 2, 3)] == [Part(rules, 2, 3)];
    c := Rotates(rules, 3, 3, b, 20, 20, map[Part(rules, 2, 3) := 20]);
  }

  /** After a shorter corpus, bridge [1, 2) is stored at time 100 and [2, 3) found with its old time. */
  lemma SecondEpoch(rules: Rules)
    returns (d: ActiveGraph, e: ActiveGraph, f: ActiveGraph, g: ActiveGraph, h: ActiveGraph)
    requires Plain(rules)
    ensures var x, y := Part(rules, 1, 2), Part(rules, 2, 3);
            && Shaped(rules, d, 1, 1, [], 30, map[]) && Shaped(rules, e, 2, 1, [], 30, map[])
            && Shaped(rules, f, 3, 2, [x], 0, map[x := 100])
               && Shaped(rules, g, 3, 3, [x, y], 20, map[x := 100, y := 20])
            && Shaped(rules, h, 4, 3, [x, y], 20, map[x := 100, y := 20])
    ensures Follows(rules, FOUR[..1], None, 30, d.entry) && Follows(rules, FOUR[..2], Some(d), 40, e.entry)
    ensures Follows(rules, FOUR[..3], Some(e), 100, f.entry) && Follows(rules, FOUR[..3], Some(f), 110, g.entry)
    ensures Follows(rules, FOUR[..4], Some(g), 111, h.entry)
  {
    hide Follows, GraphOk;
    var x, y := Part(rules, 1, 2), Part(rules, 2, 3);
    assert x.start != y.start;
    d := Fresh(rules, 1, 30);
    e := Extends(rules, 1, 2, d, 40);
    assert [] + [x] == [x] && [x] + [y] == [x, y];
    NewIsRecent(rules, e, x, 100);
    f := Rotates(rules, 2, 3, e, 100, 0, map[x := 100]);
    NewIsRecent(rules, f, y, 110);
    assert Recent(rules, f, x, 110);
    hide Recent, Part;
    g := Rotates(rules, 3, 3, f, 110, 20, map[x := 100, y := 20]);
    h := Extends(rules, 3, 4, g, 111);
  }

  /** At time 125 the bridge in the middle has expired and the one before it has not. */
  lemma MiddleExpires(rules: Rules, h: ActiveGraph) returns (i: Entry)
    requires Plain(rules)
    requires var x, y := Part(rules, 1, 2), Part(rules, 2, 3);
             Shaped(rules, h, 4, 3, [x, y], 20, map[x := 100, y := 20])
    ensures Follows(rules, FOUR[..4], Some(h), 125, i) && !GraphOk(rules, FOUR[..4], i)
    ensures AllFrom(i.bridges, [Part(rules, 1, 2), Part(rules, 2, 3), Part(rules, 3, 4)])
  {
    var x, y, z, corpus := Part(rules, 1, 2), Part(rules, 2, 3), Part(rules, 3, 4), FOUR[..4];
    assert x.start != y.start && z.start != x.start && z.start != y.start;
    ShapedTail(rules, 4, h.entry);
    PartOf(rules, 4, 3, 4);
    var all := [x, y, z];
    assert BridgesAfterRotation(rules, corpus, h.entry) == all by { assert [x, y] + [z] == all; }
    assert Recent(rules, h, x, 125) && !Recent(rules, h, y, 125) && Recent(rules, h, z, 125);
    assert Timed(h, all, 125);
    assert RotationRequired(rules, corpus, h, 125);
    hide Recent, Timed, RotationRequired, BridgesAfterRotation, Part, GraphOk, Follows;
    assert all[..2] == [x, y] && [x, y][..1] == [x] && [x][..0] == [];
    assert RecentCount(rules, h, [x], 125) == 1;
    assert RecentCount(rules, h, [x, y], 125) == 1;
    assert RecentCount(rules, h, all, 125) == 2;
    hide RecentCount;
    assert Kept(rules, h, all, 125) == 2;
    assert !RecentFrom(rules, h, all, 125, 1) by { assert !Recent(rules, h, all[1], 125); }
    i := Publishes(rules, 4, 4, h, 125);
    assert Built(rules, corpus, h.entry) by { GraphShape(rules, corpus, h.entry); }
    PublicationKeeps(rules, corpus, corpus, h, 125, i);
    FollowsShape(rules, corpus, h, 125, i);
    KeptFrom(rules, h, all, 125);
  }

  lemma Puts(rules: Rules, s: State, step: Step, active: ActiveGraph, times: Times)
    requires s.store == FILLED && step.Publish? && step.upstream < 4
    requires Stores(s.times, Seen(s, step.hidden), step.at, times) && Recorded(times, active)
    requires Follows(rules, FOUR[..step.upstream + 1], Seen(s, step.hidden), step.now, active.entry)
    ensures Next(rules, s, step, State(FILLED, Some(active), FOUR[..step.upstream + 1], times))
  {
    hide Follows, Stores, Recorded;
    ReadsUpTo(step.upstream);
  }

  lemma PartShape(rules: Rules, start: nat, end: nat)
    requires start <= end <= 4
    ensures Part(rules, start, end).start == start && End(Part(rules, start, end)) == end
  {
    CutShape(rules, FOUR, Bridge, start, end);
  }

  /** Nothing is stored anew when the tail's bridge is known, or there is none. */
  lemma StoresSame(times: Times, seen: Option<ActiveGraph>, at: Time)
    ensures Stores(times, seen, at, times)
  {
  }

  lemma StoresPart(rules: Rules, times: Times, active: ActiveGraph, n: nat, at: Time)
    requires n <= 4 && GraphOk(rules, FOUR[..n], active.entry) && active.entry.rows < n
    requires Part(rules, active.entry.rows, n) !in times
    ensures Stores(times, Some(active), at, times[Part(rules, active.entry.rows, n) := at])
  {
    ShapedTail(rules, n, active.entry);
    PartShape(rules, active.entry.rows, n);
    hide GraphOk, Part, End;
  }

  lemma FirstRun(rules: Rules) returns (states: seq<State>, steps: seq<Step>)
    requires Plain(rules)
    ensures |steps| == 3 && |states| == 4 && states[0] == State(FILLED, None, [], map[])
    ensures forall i :: 0 <= i < 3 ==> Next(rules, states[i], steps[i], states[i + 1])
    ensures steps == [Publish(1, false, 0, 0), Publish(2, false, 1, 1), Publish(2, false, 20, 20)]
    ensures states[3].store == FILLED && states[3].times == map[Part(rules, 2, 3) := 20]
  {
    var a, b, c := FirstEpoch(rules);
    var y := Part(rules, 2, 3);
    var t: Times := map[y := 20];
    steps := [Publish(1, false, 0, 0), Publish(2, false, 1, 1), Publish(2, false, 20, 20)];
    states := [State(FILLED, None, [], map[]), State(FILLED, Some(a), FOUR[..2], map[]),
               State(FILLED, Some(b), FOUR[..3], map[]), State(FILLED, Some(c), FOUR[..3], t)];
    StoresPart(rules, map[], b, 3, 20);
    assert map[][y := 20] == t;
    assert Recorded(map[], a) && Recorded(map[], b) && Recorded(t, c);
    StoresSame(map[], None, 0);
    StoresSame(map[], Some(a), 1);
    hide Follows, GraphOk, Stores, Recorded, Next, Part;
    Puts(rules, states[0], steps[0], a, map[]);
    Puts(rules, states[1], steps[1], b, map[]);
    Puts(rules, states[2], steps[2], c, t);
  }

  lemma RecordsNone(times: Times, active: ActiveGraph)
    requires active.entry.bridges == [] && active.bridgeAt == map[]
    ensures Recorded(times, active)
  {
  }

  lemma RecordsOne(times: Times, active: ActiveGraph, x: EventArtifact, at: Time)
    requires active.entry.bridges == [x] && active.bridgeAt == map[x := at] && x in times && times[x] == at
    ensures Recorded(times, active)
  {
  }

  lemma RecordsTwo(active: ActiveGraph, x: EventArtifact, y: EventArtifact)
    requires x != y && active.entry.bridges == [x, y] && active.bridgeAt == map[x := 100, y := 20]
    ensures Recorded(map[y := 20, x := 100], active)
  {
  }

  lemma DistinctParts(rules: Rules)
    ensures Part(rules, 1, 2) != Part(rules, 2, 3) && Part(rules, 3, 4) !in [Part(rules, 1, 2), Part(rules, 2, 3)]
  {
    PartShape(rules, 1, 2);
    PartShape(rules, 2, 3);
    PartShape(rules, 3, 4);
    hide Part;
  }

  lemma SecondRun(rules: Rules, first: State) returns (states: seq<State>, steps: seq<Step>)
    requires Plain(rules) && first.store == FILLED && first.times == map[Part(rules, 2, 3) := 20]
    ensures |steps| == 5 && |states| == 6 && states[0] == first
    ensures forall i :: 0 <= i < 5 ==> Next(rules, states[i], steps[i], states[i + 1])
    ensures steps == [Publish(0, true, 30, 30), Publish(1, false, 40, 40), Publish(2, false, 100, 100),
                      Publish(2, false, 110, 110), Publish(3, false, 111, 111)]
    ensures var x, y := Part(rules, 1, 2), Part(rules, 2, 3);
            && states[5].graph.Some? && states[5].times == map[y := 20, x := 100] && states[5].store == FILLED
            && Shaped(rules, states[5].graph.value, 4, 3, [x, y], 20, map[x := 100, y := 20])
  {
    DistinctParts(rules);
    hide Follows, GraphOk, Stores, Recorded, Next, Part;
    var d, e, f, g, h := SecondEpoch(rules);
    var x, y := Part(rules, 1, 2), Part(rules, 2, 3);
    var t: Times := map[y := 20];
    var u: Times := map[y := 20, x := 100];
    StoresPart(rules, t, e, 2, 100);
    assert t[x := 100] == u;
    RecordsNone(t, d);
    RecordsNone(t, e);
    RecordsOne(u, f, x, 100);
    RecordsTwo(g, x, y);
    RecordsTwo(h, x, y);
    StoresSame(t, None, 30);
    StoresSame(t, Some(d), 40);
    StoresSame(u, Some(f), 110);
    StoresSame(u, Some(g), 111);
    hide Shaped;
    var a, b, c := State(FILLED, Some(d), FOUR[..1], t), State(FILLED, Some(e), FOUR[..2], t),
      State(FILLED, Some(f), FOUR[..3], u);
    var k, l := State(FILLED, Some(g), FOUR[..3], u), State(FILLED, Some(h), FOUR[..4], u);
    Puts(rules, first, Publish(0, true, 30, 30), d, t);
    Puts(rules, a, Publish(1, false, 40, 40), e, t);
    Puts(rules, b, Publish(2, false, 100, 100), f, u);
    Puts(rules, c, Publish(2, false, 110, 110), g, u);
    Puts(rules, k, Publish(3, false, 111, 111), h, u);
    states := [first, a, b, c, k, l];
    steps := [Publish(0, true, 30, 30), Publish(1, false, 40, 40), Publish(2, false, 100, 100),
              Publish(2, false, 110, 110), Publish(3, false, 111, 111)];
  }

  lemma LastRecords(times: Times, i: Entry, all: seq<EventArtifact>) returns (active: ActiveGraph)
    requires AllFrom(i.bridges, all) && forall bridge :: bridge in all ==> bridge in times
    ensures active.entry == i && Recorded(times, active)
  {
    active := ActiveGraph(i, 20, map bridge | bridge in i.bridges && bridge in times :: times[bridge]);
    forall bridge | bridge in i.bridges ensures bridge in times {
      var k :| 0 <= k < |i.bridges| && i.bridges[k] == bridge;
    }
  }

  lemma LastStep(rules: Rules, s: State) returns (after: State)
    requires Plain(rules) && s.store == FILLED && s.graph.Some?
    requires var x, y := Part(rules, 1, 2), Part(rules, 2, 3);
             && s.times == map[y := 20, x := 100]
             && Shaped(rules, s.graph.value, 4, 3, [x, y], 20, map[x := 100, y := 20])
    ensures Next(rules, s, Publish(3, false, 125, 125), after) && !InForceOk(rules, after)
  {
    DistinctParts(rules);
    hide Follows, GraphOk, Stores, Recorded, Part, AllFrom, Next;
    var h := s.graph.value;
    var x, y, z := Part(rules, 1, 2), Part(rules, 2, 3), Part(rules, 3, 4);
    var i := MiddleExpires(rules, h);
    StoresPart(rules, s.times, h, 4, 125);
    var times: Times := s.times[z := 125];
    var active := LastRecords(times, i, [x, y, z]);
    hide Shaped;
    Puts(rules, s, Publish(3, false, 125, 125), active, times);
    after := State(FILLED, Some(active), FOUR[..4], times);
  }

  /** A clock that never goes back is not enough by itself. After a hidden publication of a shorter corpus a bridge of
      the longer one is found again with its old time, and expires before the bridge in front of it. */
  lemma {:induction false} ClockNotEnough(rules: Rules) returns (states: seq<State>, steps: seq<Step>)
    requires Plain(rules)
    ensures Run(rules, states, steps) && Forward(0, steps) && |states| == 10 && !InForceOk(rules, states[9])
  {
    hide Next, InForceOk, Part, Shaped, Plain;
    var a, b := FirstRun(rules);
    var c, d := SecondRun(rules, a[3]);
    var last := LastStep(rules, c[5]);
    states := a + c[1..] + [last];
    steps := b + d + [Publish(3, false, 125, 125)];
    Joins(rules, a, b, c, d, last, Publish(3, false, 125, 125));
  }

  lemma Joins(rules: Rules, a: seq<State>, b: seq<Step>, c: seq<State>, d: seq<Step>, last: State, step: Step)
    requires |a| == |b| + 1 && |c| == |d| + 1 && a[|b|] == c[0] && Next(rules, c[|d|], step, last)
    requires forall i :: 0 <= i < |b| ==> Next(rules, a[i], b[i], a[i + 1])
    requires forall i :: 0 <= i < |d| ==> Next(rules, c[i], d[i], c[i + 1])
    ensures var states, steps := a + c[1..] + [last], b + d + [step];
            forall i :: 0 <= i < |steps| ==> Next(rules, states[i], steps[i], states[i + 1])
  {
    hide Next;
    var states, steps := a + c[1..] + [last], b + d + [step];
    forall i | 0 <= i < |steps| ensures Next(rules, states[i], steps[i], states[i + 1]) {
      if |b| <= i < |b| + |d| {
        assert states[i] == c[i - |b|] && states[i + 1] == c[i - |b| + 1] && steps[i] == d[i - |b|];
      }
    }
  }
}
