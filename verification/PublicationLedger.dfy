/** What the audit transactions keep true of the tables of one channel. */
module PublicationLedger {
  import opened Wrappers
  import opened PublicationAudit

  /** A manifest's bytes name its channel and sequence, only superseded rows are marked unpinned, and only POI
      manifests that were never published are invalidated. */
  ghost predicate RowOk(channel: Channel, m: Manifest) {
    && m.cid.ManifestCid? && m.cid.channel == channel && m.cid.sequence == m.sequence
    && (forall cid :: cid in m.artifacts ==> cid.ArtifactCid?)
    && (m.unpinned ==> m.superseded.Some?)
    && (m.invalidated ==> !m.published && channel.Poi?)
  }

  /** Sequences rise with the rows and stay below the stored one, a pending row is the last one, and at most one
      row is active. */
  ghost predicate LedgerOk(channel: Channel, l: Ledger) {
    && (forall i :: 0 <= i < |l.manifests| ==> RowOk(channel, l.manifests[i]))
    && (forall i :: 0 <= i < |l.manifests| ==> l.manifests[i].sequence <= Level(l.sequence))
    && (forall i, j :: 0 <= i < j < |l.manifests| ==> l.manifests[i].sequence < l.manifests[j].sequence)
    && (forall i :: 0 <= i < |l.manifests| && Pending(l.manifests[i]) ==> i == |l.manifests| - 1)
    && (forall i, j ::
          0 <= i < |l.manifests| && 0 <= j < |l.manifests| && Active(l.manifests[i]) && Active(l.manifests[j])
          ==> i == j)
    && (forall slot :: slot in l.artifacts ==> slot.cid.ArtifactCid?)
  }

  ghost predicate Above(l: Ledger, sequence: nat) {
    forall i :: 0 <= i < |l.manifests| ==> l.manifests[i].sequence < sequence
  }

  /** The last row is the pending manifest with these fields. */
  predicate Awaits(l: Ledger, cid: Cid, sequence: nat, artifacts: set<Cid>) {
    && |l.manifests| > 0
    && var m := l.manifests[|l.manifests| - 1];
       Pending(m) && m.cid == cid && m.sequence == sequence && m.artifacts == artifacts
  }

  /** The rows keep their identity. */
  ghost predicate SameRows(l: Ledger, after: Ledger) {
    && |l.manifests| <= |after.manifests|
    && forall i :: 0 <= i < |l.manifests| ==>
         l.manifests[i].cid == after.manifests[i].cid && l.manifests[i].sequence == after.manifests[i].sequence
  }

  // ---------------------------------------------------------------------------------------------
  // Recording
  // ---------------------------------------------------------------------------------------------

  lemma {:induction false} RecordKeeps(channel: Channel, l: Ledger, cid: Cid, sequence: nat, artifacts: set<Cid>)
    requires LedgerOk(channel, l) && Above(l, sequence) && sequence <= Level(l.sequence)
    requires cid.ManifestCid? && cid.channel == channel && cid.sequence == sequence
    requires forall artifact :: artifact in artifacts ==> artifact.ArtifactCid?
    requires RecordManifest(l, cid, sequence, artifacts).Ok?
    ensures var after := RecordManifest(l, cid, sequence, artifacts).value;
            && LedgerOk(channel, after) && Awaits(after, cid, sequence, artifacts) && SameRows(l, after)
            && after.sequence == l.sequence && |after.manifests| == |l.manifests| + 1
            && (forall i :: 0 <= i < |l.manifests| ==> after.manifests[i] == l.manifests[i])
  {
    hide Live;
  }

  // ---------------------------------------------------------------------------------------------
  // Activation
  // ---------------------------------------------------------------------------------------------

  /** Activating the awaited manifest succeeds, makes it the one active row, and supersedes every other row that
      still stood. */
  lemma {:induction false} ActivateKeeps(channel: Channel, l: Ledger, cid: Cid, sequence: nat, artifacts: set<Cid>,
                                         now: Time)
    requires LedgerOk(channel, l) && Awaits(l, cid, sequence, artifacts)
    ensures Activate(channel, l, cid, sequence, now).Ok?
    ensures var after := Activate(channel, l, cid, sequence, now).value;
            && LedgerOk(channel, after) && SameRows(l, after) && |after.manifests| == |l.manifests|
            && after.sequence == l.sequence && after.artifacts == l.artifacts
            && after.manifests[|l.manifests| - 1] == l.manifests[|l.manifests| - 1].(published := true)
            && (forall i :: 0 <= i < |l.manifests| - 1 ==> !Standing(after.manifests[i]) && !Active(after.manifests[i]))
            && !HasPending(after)
            && (forall c :: Protects(after, c) ==> Protects(l, c))
  {
    var last := |l.manifests| - 1;
    assert Matches(l.manifests[last], cid, sequence);
    var after := Activate(channel, l, cid, sequence, now).value;
    forall i | 0 <= i < last
      ensures after.manifests[i].cid == l.manifests[i].cid && after.manifests[i].sequence == l.manifests[i].sequence
      ensures !Standing(after.manifests[i]) && !Active(after.manifests[i]) && RowOk(channel, after.manifests[i])
    {
      RetiredRow(channel, l, i, cid, sequence, now);
    }
  }

  lemma RetiredRow(channel: Channel, l: Ledger, i: nat, cid: Cid, sequence: nat, now: Time)
    requires LedgerOk(channel, l) && i < |l.manifests| - 1
    requires l.manifests[|l.manifests| - 1].cid == cid && l.manifests[|l.manifests| - 1].sequence == sequence
    requires Pending(l.manifests[|l.manifests| - 1])
    ensures var row := ActivateRow(channel, l.manifests[i], cid, sequence, now);
            && RowOk(channel, row) && row.cid == l.manifests[i].cid && row.sequence == l.manifests[i].sequence
            && !Standing(row) && !Active(row)
  {
    assert RowOk(channel, l.manifests[i]) && RowOk(channel, l.manifests[|l.manifests| - 1]);
    assert l.manifests[i].sequence < sequence;
    assert !Pending(l.manifests[i]);
  }

  // ---------------------------------------------------------------------------------------------
  // Rewriting rows
  // ---------------------------------------------------------------------------------------------

  /** The row keeps its identity and does not become pending or active, nor stands if it did not. */
  ghost predicate Rewritten(channel: Channel, m: Manifest, after: Manifest) {
    && RowOk(channel, after) && after.cid == m.cid && after.sequence == m.sequence && after.artifacts == m.artifacts
    && (Pending(after) ==> Pending(m)) && (Active(after) <==> Active(m)) && (Standing(after) <==> Standing(m))
  }

  lemma RewriteKeeps(channel: Channel, l: Ledger, after: Ledger)
    requires LedgerOk(channel, l) && |after.manifests| == |l.manifests| && after.artifacts.Keys == l.artifacts.Keys
    requires Level(l.sequence) <= Level(after.sequence)
    requires forall i :: 0 <= i < |l.manifests| ==> Rewritten(channel, l.manifests[i], after.manifests[i])
    ensures LedgerOk(channel, after) && SameRows(l, after)
  {
    hide RowOk, Pending, Active, Standing, Level;
  }

  // ---------------------------------------------------------------------------------------------
  // Abandonment
  // ---------------------------------------------------------------------------------------------

  lemma {:induction false} AbandonKeeps(l: Ledger, cid: Cid, sequence: nat, artifacts: set<Cid>,
                                        unavailable: Option<Cid>)
    requires LedgerOk(Poi, l) && Awaits(l, cid, sequence, artifacts)
    ensures Abandon(l, cid, sequence, unavailable).Ok?
    ensures var after := Abandon(l, cid, sequence, unavailable).value;
            && LedgerOk(Poi, after) && SameRows(l, after) && SameStanding(l, after) && SameActive(l, after)
            && !HasPending(after) && after.sequence == l.sequence
            && (forall i :: 0 <= i < |l.manifests| ==> after.manifests[i] == Invalidated(l.manifests[i]))
  {
    AbandonSucceeds(l, cid, sequence, artifacts, unavailable);
    var after := Abandon(l, cid, sequence, unavailable).value;
    forall i | 0 <= i < |l.manifests|
      ensures after.manifests[i] == Invalidated(l.manifests[i]) && !Pending(after.manifests[i])
      ensures Rewritten(Poi, l.manifests[i], after.manifests[i])
    {
      assert RowOk(Poi, l.manifests[i]);
    }
    assert after.artifacts.Keys == l.artifacts.Keys;
    hide Abandon, RowOk, Invalidated, Active, Standing;
    RewriteKeeps(Poi, l, after);
  }

  lemma AbandonSucceeds(l: Ledger, cid: Cid, sequence: nat, artifacts: set<Cid>, unavailable: Option<Cid>)
    requires LedgerOk(Poi, l) && Awaits(l, cid, sequence, artifacts)
    ensures Abandon(l, cid, sequence, unavailable).Ok?
    ensures Abandon(l, cid, sequence, unavailable).value.sequence == l.sequence
  {
    assert PendingIs(l, cid, sequence);
    assert !AmbiguouslyPending(l);
  }

  // ---------------------------------------------------------------------------------------------
  // Retention
  // ---------------------------------------------------------------------------------------------

  /** Marking a swept address touches no row that stands. */
  lemma {:induction false} SweepKeeps(channel: Channel, l: Ledger, cid: Cid, cutoff: Time)
    requires LedgerOk(channel, l)
    ensures var after := SweepRows(l, cid, cutoff);
            && LedgerOk(channel, after) && SameRows(l, after) && SameStanding(l, after) && SameActive(l, after)
            && after.sequence == l.sequence
            && (forall i :: 0 <= i < |l.manifests| && (Pending(l.manifests[i]) || Pending(after.manifests[i])) ==>
                  after.manifests[i] == l.manifests[i])
  {
    var after := SweepRows(l, cid, cutoff);
    forall i | 0 <= i < |l.manifests|
      ensures Rewritten(channel, l.manifests[i], after.manifests[i])
      ensures Pending(l.manifests[i]) || Pending(after.manifests[i]) ==> after.manifests[i] == l.manifests[i]
    {
      assert RowOk(channel, l.manifests[i]);
    }
    assert after.artifacts.Keys == l.artifacts.Keys;
    hide SweepRows, RowOk, Active, Standing;
    RewriteKeeps(channel, l, after);
  }

  /** Rows that stand, and what they need, are the same in both ledgers. */
  ghost predicate SameStanding(l: Ledger, after: Ledger) {
    && |after.manifests| == |l.manifests|
    && forall i :: 0 <= i < |l.manifests| ==>
         && (Standing(after.manifests[i]) <==> Standing(l.manifests[i]))
         && after.manifests[i].cid == l.manifests[i].cid && after.manifests[i].artifacts == l.manifests[i].artifacts
  }

  ghost predicate SameActive(l: Ledger, after: Ledger) {
    && |after.manifests| == |l.manifests|
    && forall i :: 0 <= i < |l.manifests| ==> (Active(after.manifests[i]) <==> Active(l.manifests[i]))
  }

  lemma SameStandingProtects(l: Ledger, after: Ledger, cid: Cid)
    requires SameStanding(l, after)
    ensures Protects(after, cid) <==> Protects(l, cid)
  {
    hide Standing;
  }

  /** An address the sweep may unpin is needed by no standing manifest of either channel. The query does not ask
      about pending indexed manifests; their address is new, so no stale row can carry it. */
  lemma {:induction false} EligibleUnguarded(tables: Tables, cid: Cid, cutoff: Time)
    requires LedgerOk(Indexed, tables.indexed) && LedgerOk(Poi, tables.poi) && Eligible(tables, cid, cutoff)
    ensures !Guarded(tables, cid)
  {
    assert !Protects(tables.poi, cid);
    if Protects(tables.indexed, cid) {
      var l := tables.indexed;
      var i :| 0 <= i < |l.manifests| && Standing(l.manifests[i])
        && (cid == l.manifests[i].cid || cid in l.manifests[i].artifacts);
      assert cid == l.manifests[i].cid by { assert !HasEdge(l, cid); }
      assert RowOk(Indexed, l.manifests[i]);
      StaleIsOlder(l, i, cid, cutoff);
      NotStaleElsewhere(tables.poi, cid, cutoff);
      assert false;
    }
  }

  lemma StaleIsOlder(l: Ledger, i: nat, cid: Cid, cutoff: Time)
    requires LedgerOk(Indexed, l) && i < |l.manifests| && Standing(l.manifests[i]) && l.manifests[i].cid == cid
    ensures !Stale(l, cid, cutoff)
  {
    assert RowOk(Indexed, l.manifests[i]);
    forall k | 0 <= k < |l.manifests| ensures !StaleManifest(l.manifests[k], cid, cutoff) {
      assert RowOk(Indexed, l.manifests[k]);
      assert k < i ==> l.manifests[k].sequence < l.manifests[i].sequence;
      assert i < k ==> l.manifests[i].sequence < l.manifests[k].sequence;
    }
  }

  lemma NotStaleElsewhere(l: Ledger, cid: Cid, cutoff: Time)
    requires LedgerOk(Poi, l) && cid.ManifestCid? && cid.channel.Indexed?
    ensures !Stale(l, cid, cutoff)
  {
    forall k | 0 <= k < |l.manifests| ensures !StaleManifest(l.manifests[k], cid, cutoff) {
      assert RowOk(Poi, l.manifests[k]);
    }
  }

  lemma {:induction false} UnreferencedUnguarded(tables: Tables, cid: Cid)
    requires !Referenced(tables, cid)
    ensures !Guarded(tables, cid)
  {
  }

  /** A swept address has no live row left in either channel, and is not a candidate again. */
  lemma {:induction false} SweepSettles(tables: Tables, cid: Cid, cutoff: Time)
    requires Eligible(tables, cid, cutoff)
    ensures var after := SweepCommit(tables, cid, cutoff);
            && !Live(after.indexed, cid) && !Live(after.poi, cid)
            && !Stale(after.indexed, cid, cutoff) && !Stale(after.poi, cid, cutoff)
  {
    SweptRows(tables.indexed, cid, cutoff);
    SweptRows(tables.poi, cid, cutoff);
  }

  lemma SweptRows(l: Ledger, cid: Cid, cutoff: Time)
    requires !RecentlyReferenced(l, cid, cutoff)
    ensures !Live(SweepRows(l, cid, cutoff), cid) && !Stale(SweepRows(l, cid, cutoff), cid, cutoff)
  {
    var after := SweepRows(l, cid, cutoff);
    forall slot | slot in after.artifacts && slot.cid == cid ensures after.artifacts[slot].unpinned {
      assert slot in l.artifacts;
    }
  }
}
