/** The artifact rows behind the manifests in force: who keeps them live, and when abandoning a pending manifest does
    not. */
module PublicationAbandonment {
  import opened Wrappers
  import opened PublicationAudit
  import opened PublicationLedger
  import opened PublicationSteps
  import opened PublicationChannel
  import opened PublicationSafety
  import opened PublicationRuns

  predicate InForce(m: Manifest) {
    Active(m) || Pending(m)
  }

  /** Every artifact of the active and of the pending manifest has a live row. */
  ghost predicate LiveRefs(l: Ledger) {
    forall i, artifact :: 0 <= i < |l.manifests| && InForce(l.manifests[i]) && artifact in l.manifests[i].artifacts
           ==> Live(l, artifact)
  }

  /** An active manifest references the artifact. */
  predicate ActivelyUsed(l: Ledger, artifact: Cid) {
    exists i :: 0 <= i < |l.manifests| && Active(l.manifests[i]) && artifact in l.manifests[i].artifacts
  }

  /** Abandoning the pending manifest leaves the active one with its rows exactly when the artifact found unavailable is
      not one they share. */
  lemma AbandonKeepsLive(l: Ledger, cid: Cid, sequence: nat, artifacts: set<Cid>, unavailable: Option<Cid>)
    requires LedgerOk(Poi, l) && Awaits(l, cid, sequence, artifacts) && LiveRefs(l)
    ensures Abandon(l, cid, sequence, unavailable).Ok?
    ensures LiveRefs(Abandon(l, cid, sequence, unavailable).value) <==>
            !(unavailable.Some? && unavailable.value in artifacts && ActivelyUsed(l, unavailable.value))
  {
    AbandonKeeps(l, cid, sequence, artifacts, unavailable);
    var after := Abandon(l, cid, sequence, unavailable).value;
    AbandonRows(l, cid, sequence, artifacts, unavailable);
    hide Abandon, LedgerOk, Awaits, Pending, Live;
    assert forall i :: 0 <= i < |after.manifests| ==> !Pending(after.manifests[i]) by { assert !HasPending(after); }
    if unavailable.Some? && unavailable.value in artifacts && ActivelyUsed(l, unavailable.value) {
      var i :| 0 <= i < |l.manifests| && Active(l.manifests[i]) && unavailable.value in l.manifests[i].artifacts;
      assert InForce(after.manifests[i]) && unavailable.value in after.manifests[i].artifacts;
      assert !Live(after, unavailable.value);
    } else {
      forall i, artifact | 0 <= i < |after.manifests| && InForce(after.manifests[i])
             && artifact in after.manifests[i].artifacts
        ensures Live(after, artifact)
      {
        assert Active(l.manifests[i]) && InForce(l.manifests[i]) && artifact in l.manifests[i].artifacts;
        assert Live(l, artifact);
      }
    }
  }

  /** What abandonment does to live rows. */
  lemma AbandonRows(l: Ledger, cid: Cid, sequence: nat, artifacts: set<Cid>, unavailable: Option<Cid>)
    requires LedgerOk(Poi, l) && Awaits(l, cid, sequence, artifacts) && Abandon(l, cid, sequence, unavailable).Ok?
    ensures var after := Abandon(l, cid, sequence, unavailable).value;
            && (unavailable.Some? && unavailable.value in artifacts ==> !Live(after, unavailable.value))
            && forall artifact ::
                 Live(l, artifact) && !(unavailable.Some? && artifact == unavailable.value && artifact in artifacts)
                 ==> Live(after, artifact)
  {
    hide LedgerOk;
    var after := Abandon(l, cid, sequence, unavailable).value;
    var last := |l.manifests| - 1;
    assert after.manifests[last] == l.manifests[last].(invalidated := true);
    forall artifact | Live(l, artifact)
           && !(unavailable.Some? && artifact == unavailable.value && artifact in artifacts)
      ensures Live(after, artifact)
    {
      var slot :| slot in l.artifacts && slot.cid == artifact && !l.artifacts[slot].unpinned;
      if unavailable.Some? && artifact == unavailable.value {
        OnlyPendingMatches(l, after, cid, sequence, artifacts, artifact);
      }
      assert slot in after.artifacts && after.artifacts[slot] == l.artifacts[slot];
    }
  }

  /** No other row carries the identity of the pending one. */
  lemma OnlyPendingMatches(l: Ledger, after: Ledger, cid: Cid, sequence: nat, artifacts: set<Cid>, artifact: Cid)
    requires LedgerOk(Poi, l) && Awaits(l, cid, sequence, artifacts) && artifact !in artifacts
    requires |after.manifests| == |l.manifests|
    requires forall i :: 0 <= i < |l.manifests| ==> after.manifests[i] == Invalidated(l.manifests[i])
    ensures forall i ::
              0 <= i < |after.manifests| && after.manifests[i].cid == cid && after.manifests[i].sequence == sequence
              ==> artifact !in after.manifests[i].artifacts
  {
    hide RowOk, Pending, Active;
    var last := |l.manifests| - 1;
    assert forall i :: 0 <= i < last ==> l.manifests[i].sequence < l.manifests[last].sequence;
  }

  const SHARED := ArtifactCid(0)

  /** A pending manifest that shares an artifact with the active one. */
  const SHARING := Ledger(
    [Manifest(ManifestCid(Poi, 1, 0), 1, {SHARED}, true, None, false, false),
     Manifest(ManifestCid(Poi, 2, 0), 2, {SHARED}, false, None, false, false)],
    map[Slot(0, SHARED) := Artifact(0, false)], Some(2))

  lemma AbandonedShared()
    ensures LedgerOk(Poi, SHARING) && Awaits(SHARING, ManifestCid(Poi, 2, 0), 2, {SHARED}) && LiveRefs(SHARING)
    ensures Abandon(SHARING, ManifestCid(Poi, 2, 0), 2, Some(SHARED)).Ok?
    ensures !LiveRefs(Abandon(SHARING, ManifestCid(Poi, 2, 0), 2, Some(SHARED)).value)
  {
    assert Live(SHARING, SHARED) by { assert Slot(0, SHARED) in SHARING.artifacts; }
    assert Active(SHARING.manifests[0]) && SHARED in SHARING.manifests[0].artifacts;
    assert ActivelyUsed(SHARING, SHARED);
    AbandonKeepsLive(SHARING, ManifestCid(Poi, 2, 0), 2, {SHARED}, Some(SHARED));
  }

  // ---------------------------------------------------------------------------------------------
  // Every other step
  // ---------------------------------------------------------------------------------------------

  ghost predicate AllLive(w: World) {
    LiveRefs(w.tables.indexed) && LiveRefs(w.tables.poi)
  }

  /** The step does not abandon a manifest over an artifact the active one shares. */
  ghost predicate Careful(w: World, e: Event) {
    e.GiveUp? && Enabled(w, e) ==>
      !(e.unavailable in PhaseOf(w, Poi).artifacts && ActivelyUsed(w.tables.poi, e.unavailable))
  }

  lemma LiveWhere(l: Ledger, after: Ledger)
    requires LiveRefs(l)
    requires forall artifact :: Live(l, artifact) && Protects(l, artifact) ==> Live(after, artifact)
    requires |after.manifests| == |l.manifests|
    requires forall i :: 0 <= i < |l.manifests| && InForce(after.manifests[i]) ==>
               InForce(l.manifests[i]) && Standing(l.manifests[i])
                 && after.manifests[i].artifacts == l.manifests[i].artifacts
    ensures LiveRefs(after)
  {
    hide InForce, Live, Standing;
  }

  lemma LiveStore(w: World, e: Event)
    requires Inv(w) && AllLive(w) && Enabled(w, e) && (e.StoreArtifact? || e.StoreManifest?)
    ensures AllLive(Apply(w, e))
  {
    var ch := e.channel;
    var l, after := LedgerOf(w, ch), LedgerOf(Apply(w, e), ch);
    hide Inv, HasPending;
    forall artifact | Live(l, artifact) ensures Live(after, artifact) {
      var slot :| slot in l.artifacts && slot.cid == artifact && !l.artifacts[slot].unpinned;
      assert slot in after.artifacts && !after.artifacts[slot].unpinned;
    }
    hide Live;
  }

  lemma LiveConfirm(w: World, e: Event)
    requires Inv(w) && AllLive(w) && Enabled(w, e) && e.Confirm?
    ensures AllLive(Apply(w, e))
  {
    ConfirmActivates(w, e);
    var l, sent := LedgerOf(w, e.channel), PhaseOf(w, e.channel);
    hide Inv, Protects, LedgerOk, Live, Activate;
    ActivateKeeps(e.channel, l, sent.cid, sent.sequence, sent.artifacts, e.now);
    var after := LedgerOf(Apply(w, e), e.channel);
    assert forall artifact :: Live(l, artifact) ==> Live(after, artifact) by { SameLive(l, after); }
    assert LiveRefs(after);
  }

  lemma SameLive(l: Ledger, after: Ledger)
    requires after.artifacts == l.artifacts
    ensures forall artifact :: Live(l, artifact) == Live(after, artifact)
  {
  }

  lemma LiveGiveUp(w: World, e: Event)
    requires Inv(w) && AllLive(w) && Enabled(w, e) && e.GiveUp? && Careful(w, e)
    ensures AllLive(Apply(w, e))
  {
    hide MemoryOk, LogOk, PinsOk, LedgerOk, LiveRefs, Abandon, ActivelyUsed, Protects;
    var p := w.publishers.poi;
    AbandonKeepsLive(w.tables.poi, p.phase.cid, p.phase.sequence, p.phase.artifacts,
                     if e.unavailable in p.phase.artifacts then Some(e.unavailable) else None);
  }

  lemma SweepLive(channel: Channel, l: Ledger, cid: Cid, cutoff: Time)
    requires LedgerOk(channel, l) && LiveRefs(l) && !Protects(l, cid)
    ensures LiveRefs(SweepRows(l, cid, cutoff))
  {
    var after := SweepRows(l, cid, cutoff);
    SweepKeeps(channel, l, cid, cutoff);
    forall artifact | Live(l, artifact) && Protects(l, artifact) ensures Live(after, artifact) {
      var slot :| slot in l.artifacts && slot.cid == artifact && !l.artifacts[slot].unpinned;
      assert slot in after.artifacts && after.artifacts[slot] == l.artifacts[slot];
    }
    forall i | 0 <= i < |l.manifests| && InForce(after.manifests[i])
      ensures InForce(l.manifests[i]) && Standing(l.manifests[i])
    {
      assert RowOk(channel, l.manifests[i]) && RowOk(channel, after.manifests[i]);
    }
    hide SweepRows, LedgerOk, Protects, Live;
    LiveWhere(l, after);
  }

  lemma LiveMark(w: World, e: Event)
    requires Inv(w) && AllLive(w) && Enabled(w, e) && e.SweepMark?
    ensures AllLive(Apply(w, e))
  {
    hide PhaseOk, MemoryOk, LogOk, PinsOk, LedgerOk, LiveRefs, SweepRows, Protects, HasActive, RecentlyReferenced;
    SweepLive(Indexed, w.tables.indexed, w.sweeper.cid, w.sweeper.cutoff);
    SweepLive(Poi, w.tables.poi, w.sweeper.cid, w.sweeper.cutoff);
  }

  lemma LiveQuiet(w: World, e: Event)
    requires AllLive(w) && Enabled(w, e)
    requires !e.StoreArtifact? && !e.StoreManifest? && !e.Confirm? && !e.GiveUp? && !e.SweepMark?
    ensures AllLive(Apply(w, e))
  {
    hide LiveRefs, Eligible, Referenced, HasPending, Live, FindsPending, Max, Level;
    var after := Apply(w, e);
    assert after.tables.indexed.manifests == w.tables.indexed.manifests
           && after.tables.indexed.artifacts == w.tables.indexed.artifacts;
    assert after.tables.poi.manifests == w.tables.poi.manifests && after.tables.poi.artifacts == w.tables.poi.artifacts;
    hide Apply, Enabled;
    SameRefs(w.tables.indexed, after.tables.indexed);
    SameRefs(w.tables.poi, after.tables.poi);
  }

  lemma SameRefs(l: Ledger, after: Ledger)
    requires LiveRefs(l) && after.manifests == l.manifests && after.artifacts == l.artifacts
    ensures LiveRefs(after)
  {
    hide InForce;
    SameLive(l, after);
  }

  lemma LiveStep(w: World, e: Event)
    requires Inv(w) && AllLive(w) && Enabled(w, e) && Careful(w, e)
    ensures AllLive(Apply(w, e))
  {
    hide Inv, AllLive, Apply, Careful;
    match e {
      case StoreArtifact(_, _, _) => LiveStore(w, e);
      case StoreManifest(_, _) => LiveStore(w, e);
      case Confirm(_, _, _) => LiveConfirm(w, e);
      case GiveUp(_, _) => LiveGiveUp(w, e);
      case SweepMark(_) => LiveMark(w, e);
      case _ => LiveQuiet(w, e);
    }
  }

  /** In every run that does not abandon a manifest over a shared artifact, the active and the pending manifests keep a
      live row for each of their artifacts. */
  lemma {:induction false} RunLive(worlds: seq<World>, events: seq<Event>, i: nat)
    requires Run(worlds, events) && i < |worlds| && forall k :: 0 <= k < i ==> Careful(worlds[k], events[k])
    ensures LiveRefs(worlds[i].tables.indexed) && LiveRefs(worlds[i].tables.poi)
  {
    if i > 0 {
      hide Inv, Careful, Enabled, Apply, LiveRefs;
      RunLive(worlds, events, i - 1);
      RunKeeps(worlds, events, i - 1);
      LiveStep(worlds[i - 1], events[i - 1]);
    }
  }
}
