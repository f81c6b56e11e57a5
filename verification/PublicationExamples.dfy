/** Concrete runs of the protocol that end in the states where a promise stops holding. */
module PublicationExamples {
  import opened Wrappers
  import opened PublicationAudit
  import opened PublicationLedger
  import opened PublicationSteps
  import opened PublicationSafety
  import opened PublicationRecovery
  import opened PublicationAbandonment
  import opened PublicationWatermarks
  import Chains = Canonicality

  // ---------------------------------------------------------------------------------------------
  // An artifact shared with the active POI manifest
  // ---------------------------------------------------------------------------------------------

  /** Nothing has happened but in the POI channel. */
  function Alone(poi: Ledger, phase: Phase, pins: set<Cid>, lost: set<Cid>, log: seq<Dispatch>): World {
    World(Pair(EMPTY, poi), {}, Pair(START, Publisher(phase, false, None)), Resting, pins, lost, Pair([], log), false)
  }

  const FIRST := ManifestCid(Poi, 1, 0)

  const SECOND := ManifestCid(Poi, 2, 0)

  const SLOT := Slot(0, SHARED)

  const SHELF: map<Slot, Artifact> := map[SLOT := Artifact(0, false)]

  const STOCKED := Alone(Ledger([], SHELF, None), Building, {SHARED}, {}, [])

  const FIRST_PENDING := Ledger([Manifest(FIRST, 1, {SHARED}, false, None, false, false)], SHELF, Some(1))

  const FIRST_ACTIVE := Ledger([Manifest(FIRST, 1, {SHARED}, true, None, false, false)], SHELF, Some(1))

  const LOG := [Dispatch(FIRST, 1)]

  lemma ThreeSteps(w: World, e: Event, f: Event, g: Event)
    requires Enabled(w, e) && Enabled(Apply(w, e), f) && Enabled(Apply(Apply(w, e), f), g)
    ensures Leads(w, [e, f, g], Apply(Apply(Apply(w, e), f), g))
  {
    hide Enabled, Apply;
    var a := Apply(w, e);
    var b := Apply(a, f);
    LeadsOne(w, e);
    LeadsOne(a, f);
    LeadsOne(b, g);
    LeadsOn(w, [e], a, [f], b);
    LeadsOn(w, [e] + [f], b, [g], Apply(b, g));
    assert [e] + [f] + [g] == [e, f, g];
  }

  lemma StoresArtifact()
    ensures Leads(INIT, [Begin(Poi), TakeArtifact(Poi, SLOT, false), StoreArtifact(Poi, 0, true)], STOCKED)
  {
    var begin, take, store := Begin(Poi), TakeArtifact(Poi, SLOT, false), StoreArtifact(Poi, 0, true);
    var a := Apply(INIT, begin);
    assert a == Alone(EMPTY, Building, {}, {}, []);
    var b := Apply(a, take);
    assert b == Alone(EMPTY, ArtifactHeld(SLOT, true), {SHARED}, {}, []);
    assert Apply(b, store) == STOCKED;
    ThreeSteps(INIT, begin, take, store);
  }

  lemma StoresFirst()
    ensures Leads(STOCKED, [Reserve(Poi, 1, true), PinManifest(Poi, {SHARED}, 0), StoreManifest(Poi, true)],
                  Alone(FIRST_PENDING, Recorded(FIRST, 1, {SHARED}, {}, false), {SHARED, FIRST}, {}, []))
  {
    var reserve, pin, store := Reserve(Poi, 1, true), PinManifest(Poi, {SHARED}, 0), StoreManifest(Poi, true);
    var l := Ledger([], SHELF, Some(1));
    var a := Apply(STOCKED, reserve);
    assert a == Alone(l, Reserved(1), {SHARED}, {}, []);
    var b := Apply(a, pin);
    assert {SHARED} + {FIRST} == {SHARED, FIRST};
    assert b == Alone(l, ManifestHeld(FIRST, 1, {SHARED}), {SHARED, FIRST}, {}, []);
    assert Live(l, SHARED) by { assert SLOT in l.artifacts; }
    assert RecordManifest(l, FIRST, 1, {SHARED}).Ok?;
    assert RecordManifest(l, FIRST, 1, {SHARED}).value.manifests == FIRST_PENDING.manifests;
    var c := Apply(b, store);
    assert c == Alone(FIRST_PENDING, Recorded(FIRST, 1, {SHARED}, {}, false), {SHARED, FIRST}, {}, []);
    ThreeSteps(STOCKED, reserve, pin, store);
  }

  lemma SendsFirst()
    ensures Leads(Alone(FIRST_PENDING, Recorded(FIRST, 1, {SHARED}, {}, false), {SHARED, FIRST}, {}, []),
                  [FindAvailable(Poi, SHARED), FindAvailable(Poi, FIRST), Send(Poi, true)],
                  Alone(FIRST_PENDING, Dispatched(FIRST, 1, {SHARED}, false), {SHARED, FIRST}, {}, LOG))
  {
    var pins := {SHARED, FIRST};
    var w := Alone(FIRST_PENDING, Recorded(FIRST, 1, {SHARED}, {}, false), pins, {}, []);
    var find, again, send := FindAvailable(Poi, SHARED), FindAvailable(Poi, FIRST), Send(Poi, true);
    assert {} + {SHARED} == {SHARED} && {SHARED} + {FIRST} == {SHARED, FIRST} && [] + LOG == LOG;
    var a := Apply(w, find);
    assert a == Alone(FIRST_PENDING, Recorded(FIRST, 1, {SHARED}, {SHARED}, false), pins, {}, []);
    var b := Apply(a, again);
    assert b == Alone(FIRST_PENDING, Recorded(FIRST, 1, {SHARED}, {SHARED, FIRST}, false), pins, {}, []);
    var c := Apply(b, send);
    assert c == Alone(FIRST_PENDING, Dispatched(FIRST, 1, {SHARED}, false), pins, {}, LOG);
    ThreeSteps(w, find, again, send);
  }

  lemma ActivatesFirst()
    ensures Leads(Alone(FIRST_PENDING, Dispatched(FIRST, 1, {SHARED}, false), {SHARED, FIRST}, {}, LOG),
                  [Confirm(Poi, 0, true), Begin(Poi), TakeArtifact(Poi, SLOT, true)],
                  Alone(FIRST_ACTIVE, ArtifactHeld(SLOT, false), {SHARED, FIRST}, {}, LOG))
  {
    var pins := {SHARED, FIRST};
    var w := Alone(FIRST_PENDING, Dispatched(FIRST, 1, {SHARED}, false), pins, {}, LOG);
    var confirm, begin, take := Confirm(Poi, 0, true), Begin(Poi), TakeArtifact(Poi, SLOT, true);
    assert Matches(FIRST_PENDING.manifests[0], FIRST, 1);
    assert Activate(Poi, FIRST_PENDING, FIRST, 1, 0).value.manifests == FIRST_ACTIVE.manifests;
    var a := Apply(w, confirm);
    assert a == Alone(FIRST_ACTIVE, Idle, pins, {}, LOG);
    var b := Apply(a, begin);
    assert b == Alone(FIRST_ACTIVE, Building, pins, {}, LOG);
    assert Live(FIRST_ACTIVE, SHARED) by { assert SLOT in FIRST_ACTIVE.artifacts; }
    assert Apply(b, take) == Alone(FIRST_ACTIVE, ArtifactHeld(SLOT, false), pins, {}, LOG) by {
      assert pins + {SHARED} == pins;
    }
    ThreeSteps(w, confirm, begin, take);
  }

  lemma PinsSecond()
    ensures Leads(Alone(FIRST_ACTIVE, ArtifactHeld(SLOT, false), {SHARED, FIRST}, {}, LOG),
                  [StoreArtifact(Poi, 0, true), Reserve(Poi, 2, true), PinManifest(Poi, {SHARED}, 0)],
                  Alone(FIRST_ACTIVE.(sequence := Some(2)), ManifestHeld(SECOND, 2, {SHARED}), {SHARED, FIRST, SECOND},
                        {}, LOG))
  {
    var pins := {SHARED, FIRST};
    var w := Alone(FIRST_ACTIVE, ArtifactHeld(SLOT, false), pins, {}, LOG);
    var store, reserve, pin := StoreArtifact(Poi, 0, true), Reserve(Poi, 2, true), PinManifest(Poi, {SHARED}, 0);
    var a := Apply(w, store);
    assert SHELF[SLOT := Artifact(0, false)] == SHELF;
    assert a == Alone(FIRST_ACTIVE, Building, pins, {}, LOG);
    var b := Apply(a, reserve);
    assert b == Alone(FIRST_ACTIVE.(sequence := Some(2)), Reserved(2), pins, {}, LOG);
    assert pins + {SECOND} == {SHARED, FIRST, SECOND};
    ThreeSteps(w, store, reserve, pin);
  }

  lemma RecordsSecond()
    ensures RecordManifest(FIRST_ACTIVE.(sequence := Some(2)), SECOND, 2, {SHARED}) == Ok(SHARING)
  {
    var l := FIRST_ACTIVE.(sequence := Some(2));
    assert Live(l, SHARED) by { assert SLOT in l.artifacts; }
    assert RecordManifest(l, SECOND, 2, {SHARED}).Ok?;
    assert RecordManifest(l, SECOND, 2, {SHARED}).value.manifests == SHARING.manifests;
  }

  lemma StoresSecond()
    ensures var w := Alone(FIRST_ACTIVE.(sequence := Some(2)), ManifestHeld(SECOND, 2, {SHARED}),
                           {SHARED, FIRST, SECOND}, {}, LOG);
            && Enabled(w, StoreManifest(Poi, true))
            && Apply(w, StoreManifest(Poi, true))
               == Alone(SHARING, Recorded(SECOND, 2, {SHARED}, {}, false), {SHARED, FIRST, SECOND}, {}, LOG)
  {
    RecordsSecond();
    hide RecordManifest;
  }

  lemma LosesShared()
    ensures Leads(Alone(FIRST_ACTIVE.(sequence := Some(2)), ManifestHeld(SECOND, 2, {SHARED}), {SHARED, FIRST, SECOND},
                        {}, LOG),
                  [StoreManifest(Poi, true), Crash, LosePin(SHARED)],
                  Alone(SHARING, Idle, {FIRST, SECOND}, {SHARED}, LOG))
  {
    var pins := {SHARED, FIRST, SECOND};
    var w := Alone(FIRST_ACTIVE.(sequence := Some(2)), ManifestHeld(SECOND, 2, {SHARED}), pins, {}, LOG);
    StoresSecond();
    var a := Apply(w, StoreManifest(Poi, true));
    var b := Apply(a, Crash);
    assert b == Alone(SHARING, Idle, pins, {}, LOG);
    assert pins - {SHARED} == {FIRST, SECOND} && {} + {SHARED} == {SHARED};
    hide RecordManifest;
    ThreeSteps(w, StoreManifest(Poi, true), Crash, LosePin(SHARED));
  }

  /** The ledger where the active manifest loses a live row is reached: its publisher republishes a shared artifact,
      restarts with the second manifest pending, and the provider has lost the artifact. */
  lemma {:induction false} AbandonedReachable() returns (events: seq<Event>, w: World)
    ensures Leads(INIT, events, w) && w.tables.poi == SHARING && LiveRefs(w.tables.poi)
    ensures Enabled(w, Resume(Poi, 1)) && Enabled(Apply(w, Resume(Poi, 1)), GiveUp(Poi, SHARED))
    ensures !LiveRefs(Apply(Apply(w, Resume(Poi, 1)), GiveUp(Poi, SHARED)).tables.poi)
  {
    var pins := {SHARED, FIRST};
    w := Alone(SHARING, Idle, {FIRST, SECOND}, {SHARED}, LOG);
    var recorded := Alone(FIRST_PENDING, Recorded(FIRST, 1, {SHARED}, {}, false), pins, {}, []);
    var sent := Alone(FIRST_PENDING, Dispatched(FIRST, 1, {SHARED}, false), pins, {}, LOG);
    var active := Alone(FIRST_ACTIVE, ArtifactHeld(SLOT, false), pins, {}, LOG);
    var held := Alone(FIRST_ACTIVE.(sequence := Some(2)), ManifestHeld(SECOND, 2, {SHARED}), {SHARED, FIRST, SECOND},
                      {}, LOG);
    var a := [Begin(Poi), TakeArtifact(Poi, SLOT, false), StoreArtifact(Poi, 0, true)];
    var b := [Reserve(Poi, 1, true), PinManifest(Poi, {SHARED}, 0), StoreManifest(Poi, true)];
    var c := [FindAvailable(Poi, SHARED), FindAvailable(Poi, FIRST), Send(Poi, true)];
    var d := [Confirm(Poi, 0, true), Begin(Poi), TakeArtifact(Poi, SLOT, true)];
    var e := [StoreArtifact(Poi, 0, true), Reserve(Poi, 2, true), PinManifest(Poi, {SHARED}, 0)];
    var f := [StoreManifest(Poi, true), Crash, LosePin(SHARED)];
    StoresArtifact();
    StoresFirst();
    SendsFirst();
    ActivatesFirst();
    PinsSecond();
    LosesShared();
    GivesUpShared();
    AbandonedShared();
    hide Leads, Enabled, Apply, LiveRefs, Abandon;
    LeadsOn(INIT, a, STOCKED, b, recorded);
    LeadsOn(INIT, a + b, recorded, c, sent);
    LeadsOn(INIT, a + b + c, sent, d, active);
    LeadsOn(INIT, a + b + c + d, active, e, held);
    LeadsOn(INIT, a + b + c + d + e, held, f, w);
    events := a + b + c + d + e + f;
  }

  lemma GivesUpShared()
    ensures var w := Alone(SHARING, Idle, {FIRST, SECOND}, {SHARED}, LOG);
            && Enabled(w, Resume(Poi, 1)) && Enabled(Apply(w, Resume(Poi, 1)), GiveUp(Poi, SHARED))
            && Abandon(SHARING, SECOND, 2, Some(SHARED)).Ok?
            && Apply(Apply(w, Resume(Poi, 1)), GiveUp(Poi, SHARED)).tables.poi
               == Abandon(SHARING, SECOND, 2, Some(SHARED)).value
  {
    AbandonedShared();
    hide Abandon, LedgerOk, LiveRefs;
    var w := Alone(SHARING, Idle, {FIRST, SECOND}, {SHARED}, LOG);
    assert FindsPending(SHARING, 1);
    var resumed := Apply(w, Resume(Poi, 1));
    assert PhaseOf(resumed, Poi) == Recorded(SECOND, 2, {SHARED}, {}, true);
  }

  // ---------------------------------------------------------------------------------------------
  // A rewound watermark
  // ---------------------------------------------------------------------------------------------

  /** Nothing has happened but in the indexed channel and on one chain. */
  function Around(indexed: Ledger, publisher: Publisher, pins: set<Cid>, chain: Chains.Chain,
                  lease: Chains.Publisher): Joint {
    Joint(World(Pair(indexed, EMPTY), {}, Pair(publisher, START), Resting, pins, {}, Pair([], []), false),
          Chains.World([chain], lease, []))
  }

  const CONFIG := Chains.Config([0], 10)

  const CLAIM := Chains.Claim(0, Chains.Mark(5, 9))

  const CLAIMS: Watermarks := _ => [CLAIM]

  const EMPTY_CHAIN := Chains.Chain(None, map[], Chains.Resting)

  const INDEXED := Chains.Chain(Some(Chains.Mark(5, 9)), map[5 := 9], Chains.Resting)

  const CID := ManifestCid(Indexed, 1, 0)

  const STOCK := Ledger([], SHELF, None)

  const STORED := Ledger([Manifest(CID, 1, {SHARED}, false, None, false, false)], SHELF, Some(1))

  lemma ThreeMoves(j: Joint, e: Move, f: Move, g: Move, a: Joint, b: Joint, c: Joint)
    requires Can(CONFIG, CLAIMS, j, e) && a == Do(CONFIG, CLAIMS, j, e)
    requires Can(CONFIG, CLAIMS, a, f) && b == Do(CONFIG, CLAIMS, a, f)
    requires Can(CONFIG, CLAIMS, b, g) && c == Do(CONFIG, CLAIMS, b, g)
    ensures Follow(CONFIG, CLAIMS, j, [e, f, g], c)
  {
    hide Can, Do;
    FollowOne(CONFIG, CLAIMS, j, e);
    FollowOne(CONFIG, CLAIMS, a, f);
    FollowOne(CONFIG, CLAIMS, b, g);
    FollowOn(CONFIG, CLAIMS, j, [e], a, [f], b);
    FollowOn(CONFIG, CLAIMS, j, [e] + [f], b, [g], c);
    assert [e] + [f] + [g] == [e, f, g];
  }

  /** The chain is indexed through block 5. */
  lemma IndexesChain()
    ensures Follow(CONFIG, CLAIMS, Begun(CONFIG),
                   [Indexing(Chains.Resume(0, true)), Indexing(Chains.Append(0, 5, 9)), Publishing(Begin(Indexed))],
                   Around(EMPTY, Publisher(Building, false, None), {}, INDEXED, Chains.Out))
  {
    var start := Begun(CONFIG);
    assert start.chains.chains == [EMPTY_CHAIN];
    var resume, append := Indexing(Chains.Resume(0, true)), Indexing(Chains.Append(0, 5, 9));
    var begin := Publishing(Begin(Indexed));
    var a := Around(EMPTY, START, {}, EMPTY_CHAIN.(indexer := Chains.Ready(0)), Chains.Out);
    var b := Around(EMPTY, START, {}, INDEXED, Chains.Out);
    assert Do(CONFIG, CLAIMS, start, resume) == a;
    assert Do(CONFIG, CLAIMS, a, append) == b by { assert EMPTY_CHAIN.headers[5 := 9] == map[5 := 9]; }
    var c := Around(EMPTY, Publisher(Building, false, None), {}, INDEXED, Chains.Out);
    assert Do(CONFIG, CLAIMS, b, begin) == c;
    ThreeMoves(start, resume, append, begin, a, b, c);
  }

  /** The publisher stores an artifact and takes the lease. */
  lemma StocksAndLeases()
    ensures Follow(CONFIG, CLAIMS, Around(EMPTY, Publisher(Building, false, None), {}, INDEXED, Chains.Out),
                   [Publishing(TakeArtifact(Indexed, SLOT, false)), Publishing(StoreArtifact(Indexed, 0, true)),
                    Indexing(Chains.Lease([CLAIM]))],
                   Around(STOCK, Publisher(Building, false, None), {SHARED}, INDEXED, Chains.Leased([CLAIM], 0)))
  {
    var j := Around(EMPTY, Publisher(Building, false, None), {}, INDEXED, Chains.Out);
    var take, store := Publishing(TakeArtifact(Indexed, SLOT, false)), Publishing(StoreArtifact(Indexed, 0, true));
    var lease := Indexing(Chains.Lease([CLAIM]));
    var a := Around(EMPTY, Publisher(ArtifactHeld(SLOT, true), false, None), {SHARED}, INDEXED, Chains.Out);
    var b := Around(STOCK, Publisher(Building, false, None), {SHARED}, INDEXED, Chains.Out);
    var c := Around(STOCK, Publisher(Building, false, None), {SHARED}, INDEXED, Chains.Leased([CLAIM], 0));
    assert {} + {SHARED} == {SHARED};
    assert Do(CONFIG, CLAIMS, j, take) == a;
    assert Do(CONFIG, CLAIMS, a, store) == b by { assert EMPTY.artifacts[SLOT := Artifact(0, false)] == SHELF; }
    assert Do(CONFIG, CLAIMS, b, lease) == c;
    ThreeMoves(j, take, store, lease, a, b, c);
  }

  /** It validates its watermark, reserves a sequence and pins the manifest. */
  lemma ValidatesAndPins()
    ensures Follow(CONFIG, CLAIMS,
                   Around(STOCK, Publisher(Building, false, None), {SHARED}, INDEXED, Chains.Leased([CLAIM], 0)),
                   [Indexing(Chains.Check), Publishing(Reserve(Indexed, 1, true)),
                    Publishing(PinManifest(Indexed, {SHARED}, 0))],
                   Around(STOCK.(sequence := Some(1)), Publisher(ManifestHeld(CID, 1, {SHARED}), true, Some(1)),
                          {SHARED, CID},
                          INDEXED, Chains.Validated([CLAIM])))
  {
    var j := Around(STOCK, Publisher(Building, false, None), {SHARED}, INDEXED, Chains.Leased([CLAIM], 0));
    var check, reserve := Indexing(Chains.Check), Publishing(Reserve(Indexed, 1, true));
    var pin := Publishing(PinManifest(Indexed, {SHARED}, 0));
    var l, lease := STOCK.(sequence := Some(1)), Chains.Validated([CLAIM]);
    var a := Around(STOCK, Publisher(Building, false, None), {SHARED}, INDEXED, lease);
    var b := Around(l, Publisher(Reserved(1), true, Some(1)), {SHARED}, INDEXED, lease);
    var c := Around(l, Publisher(ManifestHeld(CID, 1, {SHARED}), true, Some(1)), {SHARED, CID}, INDEXED, lease);
    assert Chains.Stands(j.chains, CLAIM);
    assert Do(CONFIG, CLAIMS, j, check) == a;
    assert Do(CONFIG, CLAIMS, a, reserve) == b;
    assert {SHARED} + {CID} == {SHARED, CID};
    assert Do(CONFIG, CLAIMS, b, pin) == c;
    ThreeMoves(j, check, reserve, pin, a, b, c);
  }

  lemma StoresManifest(pins: set<Cid>, phase: Phase)
    requires phase == Recorded(CID, 1, {SHARED}, {SHARED} + {CID}, false)
    ensures var j := Around(STOCK.(sequence := Some(1)), Publisher(ManifestHeld(CID, 1, {SHARED}), true, Some(1)), pins,
                            INDEXED,
                            Chains.Validated([CLAIM]));
            var store := Publishing(StoreManifest(Indexed, true));
            && Can(CONFIG, CLAIMS, j, store)
            && Do(CONFIG, CLAIMS, j, store) ==
               Around(STORED, Publisher(phase, true, Some(1)), pins, INDEXED, Chains.Validated([CLAIM]))
  {
    var l := STOCK.(sequence := Some(1));
    assert Live(l, SHARED) by { assert SLOT in l.artifacts; }
    assert RecordManifest(l, CID, 1, {SHARED}).Ok?;
    assert RecordManifest(l, CID, 1, {SHARED}).value.manifests == STORED.manifests;
    hide Live;
  }

  lemma Crashes(pins: set<Cid>, phase: Phase)
    ensures var j := Around(STORED, Publisher(phase, true, Some(1)), pins, INDEXED, Chains.Validated([CLAIM]));
            && Can(CONFIG, CLAIMS, j, Publishing(Crash))
            && Do(CONFIG, CLAIMS, j, Publishing(Crash)) == Around(STORED, START, pins, INDEXED, Chains.Out)
  {
    var j := Around(STORED, Publisher(phase, true, Some(1)), pins, INDEXED, Chains.Validated([CLAIM]));
    assert Do(CONFIG, CLAIMS, j, Publishing(Crash)).chains.chains == [INDEXED];
  }

  /** The process dies with the manifest stored; the restarted task sees another chain. */
  lemma StoresAndCrashes()
    ensures Follow(CONFIG, CLAIMS,
                   Around(STOCK.(sequence := Some(1)), Publisher(ManifestHeld(CID, 1, {SHARED}), true, Some(1)),
                          {SHARED, CID},
                          INDEXED, Chains.Validated([CLAIM])),
                   [Publishing(StoreManifest(Indexed, true)), Publishing(Crash), Indexing(Chains.Resume(0, false))],
                   Around(STORED, START, {SHARED, CID}, INDEXED.(indexer := Chains.Suspecting), Chains.Out))
  {
    var l, lease, pins := STOCK.(sequence := Some(1)), Chains.Validated([CLAIM]), {SHARED, CID};
    var j := Around(l, Publisher(ManifestHeld(CID, 1, {SHARED}), true, Some(1)), pins, INDEXED, lease);
    var store, resume := Publishing(StoreManifest(Indexed, true)), Indexing(Chains.Resume(0, false));
    var phase := Recorded(CID, 1, {SHARED}, {SHARED} + {CID}, false);
    var a := Around(STORED, Publisher(phase, true, Some(1)), pins, INDEXED, lease);
    var b := Around(STORED, START, pins, INDEXED, Chains.Out);
    var c := Around(STORED, START, pins, INDEXED.(indexer := Chains.Suspecting), Chains.Out);
    StoresManifest(pins, phase);
    Crashes(pins, phase);
    assert Do(CONFIG, CLAIMS, b, resume) == c;
    hide Can, Do, Around;
    ThreeMoves(j, store, Publishing(Crash), resume, a, b, c);
  }

  /** It rewinds the chain to its first block. */
  lemma Rewinds()
    ensures Follow(CONFIG, CLAIMS,
                   Around(STORED, START, {SHARED, CID}, INDEXED.(indexer := Chains.Suspecting), Chains.Out),
                   [Indexing(Chains.AcquireReorg(0)), Indexing(Chains.Rewind(0, 4)), Indexing(Chains.Resume(0, true))],
                   Around(STORED, START, {SHARED, CID}, EMPTY_CHAIN.(indexer := Chains.Ready(0)), Chains.Out))
  {
    var pins := {SHARED, CID};
    var acquire, rewind := Indexing(Chains.AcquireReorg(0)), Indexing(Chains.Rewind(0, 4));
    var resume := Indexing(Chains.Resume(0, true));
    var j := Around(STORED, START, pins, INDEXED.(indexer := Chains.Suspecting), Chains.Out);
    var a := Around(STORED, START, pins, INDEXED.(indexer := Chains.Rewinding), Chains.Out);
    var b := Around(STORED, START, pins, EMPTY_CHAIN, Chains.Out);
    var c := Around(STORED, START, pins, EMPTY_CHAIN.(indexer := Chains.Ready(0)), Chains.Out);
    assert Do(CONFIG, CLAIMS, j, acquire) == a;
    assert a.chains.chains[0].indexer.Rewinding?;
    assert Chains.RewindChain(CONFIG, 0, a.chains.chains[0], 4) == EMPTY_CHAIN;
    assert Do(CONFIG, CLAIMS, a, rewind) == b;
    assert Do(CONFIG, CLAIMS, b, resume) == c;
    ThreeMoves(j, acquire, rewind, resume, a, b, c);
  }

  /** A run that ends with a pending manifest whose artifacts are all pinned and whose watermark was rewound: its
      publisher is stuck. */
  lemma {:induction false} RewoundWatermark() returns (moves: seq<Move>, j: Joint)
    ensures Follow(CONFIG, CLAIMS, Begun(CONFIG), moves, j) && Waiting(CONFIG, CLAIMS, j, 0)
    ensures j.world.tables.indexed.manifests[0].artifacts == {SHARED} && {SHARED} <= j.world.pins
    ensures Blocked(CLAIMS, j, 0)
  {
    var a := Around(EMPTY, Publisher(Building, false, None), {}, INDEXED, Chains.Out);
    var b := Around(STOCK, Publisher(Building, false, None), {SHARED}, INDEXED, Chains.Leased([CLAIM], 0));
    var c := Around(STOCK.(sequence := Some(1)), Publisher(ManifestHeld(CID, 1, {SHARED}), true, Some(1)),
                    {SHARED, CID}, INDEXED,
                    Chains.Validated([CLAIM]));
    var d := Around(STORED, START, {SHARED, CID}, INDEXED.(indexer := Chains.Suspecting), Chains.Out);
    j := Around(STORED, START, {SHARED, CID}, EMPTY_CHAIN.(indexer := Chains.Ready(0)), Chains.Out);
    var first := [Indexing(Chains.Resume(0, true)), Indexing(Chains.Append(0, 5, 9)), Publishing(Begin(Indexed))];
    var second := [Publishing(TakeArtifact(Indexed, SLOT, false)), Publishing(StoreArtifact(Indexed, 0, true)),
                   Indexing(Chains.Lease([CLAIM]))];
    var third := [Indexing(Chains.Check), Publishing(Reserve(Indexed, 1, true)),
                  Publishing(PinManifest(Indexed, {SHARED}, 0))];
    var fourth := [Publishing(StoreManifest(Indexed, true)), Publishing(Crash), Indexing(Chains.Resume(0, false))];
    var fifth := [Indexing(Chains.AcquireReorg(0)), Indexing(Chains.Rewind(0, 4)), Indexing(Chains.Resume(0, true))];
    IndexesChain();
    StocksAndLeases();
    ValidatesAndPins();
    StoresAndCrashes();
    Rewinds();
    hide Follow, JointInv, Inv;
    FollowOn(CONFIG, CLAIMS, Begun(CONFIG), first, a, second, b);
    FollowOn(CONFIG, CLAIMS, Begun(CONFIG), first + second, b, third, c);
    FollowOn(CONFIG, CLAIMS, Begun(CONFIG), first + second + third, c, fourth, d);
    FollowOn(CONFIG, CLAIMS, Begun(CONFIG), first + second + third + fourth, d, fifth, j);
    moves := first + second + third + fourth + fifth;
    EndsWaiting(moves, j);
  }

  lemma EndsWaiting(moves: seq<Move>, j: Joint)
    requires Follow(CONFIG, CLAIMS, Begun(CONFIG), moves, j)
    requires j == Around(STORED, START, {SHARED, CID}, EMPTY_CHAIN.(indexer := Chains.Ready(0)), Chains.Out)
    ensures Waiting(CONFIG, CLAIMS, j, 0) && Blocked(CLAIMS, j, 0)
  {
    hide JointInv, Inv, Follow;
    BegunInv(CONFIG, CLAIMS);
    FollowKeeps(CONFIG, CLAIMS, Begun(CONFIG), moves, j);
    assert Inv(j.world) by { WorldOk(j); }
    assert FindsPending(STORED, 0);
    assert !Chains.Stands(j.chains, CLAIMS(CID)[0]);
  }

  lemma WorldOk(j: Joint)
    requires JointInv(CONFIG, CLAIMS, j)
    ensures Inv(j.world)
  {
    hide Inv;
  }
}
