/** The invariant of one publication channel, kept by each step of its publisher. */
module PublicationChannel {
  import opened Wrappers
  import opened PublicationAudit
  import opened PublicationLedger
  import opened PublicationSteps

  /** What a phase of the publisher knows about the tables. */
  ghost predicate PhaseOk(channel: Channel, l: Ledger, phase: Phase) {
    match phase
    case Idle => true
    case Building => !HasPending(l)
    case ArtifactHeld(slot, owned) => !HasPending(l) && slot.cid.ArtifactCid?
    case Reserved(sequence) => !HasPending(l) && Above(l, sequence) && sequence <= Level(l.sequence)
    case ManifestHeld(cid, sequence, artifacts) =>
      && !HasPending(l) && Above(l, sequence) && sequence <= Level(l.sequence) && OnlyArtifacts(artifacts)
      && cid.ManifestCid? && cid.channel == channel && cid.sequence == sequence
    case Cleaning(cid) => true
    case Unreferenced(cid) => true
    case Recorded(cid, sequence, artifacts, checked, resumed) =>
      Awaits(l, cid, sequence, artifacts) && checked <= artifacts + {cid}
    case Dispatched(cid, sequence, artifacts, resumed) => Awaits(l, cid, sequence, artifacts)
  }

  /** A remembered sequence is at least that of every row, and at most the stored one. */
  ghost predicate MemoryOk(channel: Channel, l: Ledger, p: Publisher) {
    && (channel.Poi? ==> !p.loaded)
    && (p.loaded ==> Level(p.last) <= Level(l.sequence))
    && (p.loaded ==> forall i :: 0 <= i < |l.manifests| ==> l.manifests[i].sequence <= Level(p.last))
    && (channel.Indexed? && p.phase.Reserved? ==> p.loaded && p.phase.sequence <= Level(p.last))
    && (channel.Indexed? && p.phase.ManifestHeld? ==> p.loaded && p.phase.sequence <= Level(p.last))
  }

  ghost predicate HasRow(l: Ledger, d: Dispatch) {
    exists i :: 0 <= i < |l.manifests| && l.manifests[i].cid == d.cid && l.manifests[i].sequence == d.sequence
  }

  /** The IPNS records of a channel never go back, and one sequence never names two manifests. */
  ghost predicate Ordered(log: seq<Dispatch>) {
    forall i, j :: 0 <= i < j < |log| ==>
      log[i].sequence <= log[j].sequence && (log[i].sequence == log[j].sequence ==> log[i].cid == log[j].cid)
  }

  ghost predicate LogOk(l: Ledger, log: seq<Dispatch>) {
    && (forall i :: 0 <= i < |log| ==> HasRow(l, log[i]))
    && Ordered(log)
  }

  /** `kept` are the addresses pinned, or lost by the provider itself: the active manifest and all it references are
      kept, and so is what the publisher has found available. */
  ghost predicate PinsOk(channel: Channel, l: Ledger, phase: Phase, kept: set<Cid>) {
    && (forall i ::
          0 <= i < |l.manifests| && Active(l.manifests[i]) ==> l.manifests[i].artifacts + {l.manifests[i].cid} <= kept)
    && (phase.Recorded? ==> phase.checked <= kept)
    && (phase.Dispatched? ==> phase.artifacts + {phase.cid} <= kept)
    && (channel.Indexed? && phase.ManifestHeld? ==> phase.artifacts + {phase.cid} <= kept)
  }

  ghost predicate ChannelOk(channel: Channel, l: Ledger, p: Publisher, log: seq<Dispatch>, kept: set<Cid>) {
    LedgerOk(channel, l) && PhaseOk(channel, l, p.phase) && MemoryOk(channel, l, p) && LogOk(l, log)
      && PinsOk(channel, l, p.phase, kept)
  }

  // ---------------------------------------------------------------------------------------------
  // Pins
  // ---------------------------------------------------------------------------------------------

  lemma KeepMore(channel: Channel, l: Ledger, p: Publisher, log: seq<Dispatch>, kept: set<Cid>, more: set<Cid>)
    requires ChannelOk(channel, l, p, log, kept) && kept <= more
    ensures ChannelOk(channel, l, p, log, more)
  {
    hide LedgerOk, PhaseOk, MemoryOk, LogOk;
  }

  /** Unpinning an address no standing manifest needs. */
  lemma KeepLess(channel: Channel, l: Ledger, p: Publisher, log: seq<Dispatch>, kept: set<Cid>, cid: Cid)
    requires ChannelOk(channel, l, p, log, kept) && !Protects(l, cid) && !p.phase.ManifestHeld?
    ensures ChannelOk(channel, l, p, log, kept - {cid})
  {
    hide MemoryOk, LogOk;
    forall i | 0 <= i < |l.manifests| && Active(l.manifests[i])
      ensures l.manifests[i].artifacts + {l.manifests[i].cid} <= kept - {cid}
    {
      assert RowOk(channel, l.manifests[i]) && Standing(l.manifests[i]);
    }
    if p.phase.Recorded? || p.phase.Dispatched? {
      assert Standing(l.manifests[|l.manifests| - 1]);
    }
  }

  // ---------------------------------------------------------------------------------------------
  // Steps that touch no table
  // ---------------------------------------------------------------------------------------------

  /** Entering a phase that knows nothing. */
  lemma Stop(channel: Channel, l: Ledger, p: Publisher, log: seq<Dispatch>, kept: set<Cid>, phase: Phase)
    requires ChannelOk(channel, l, p, log, kept)
    requires phase.Idle? || phase.Cleaning? || phase.Unreferenced? || (phase.Building? && !HasPending(l))
             || (phase.ArtifactHeld? && !HasPending(l) && phase.slot.cid.ArtifactCid?)
    ensures ChannelOk(channel, l, p.(phase := phase), log, kept)
  {
    hide LedgerOk, LogOk, HasPending;
  }

  lemma Restart(channel: Channel, l: Ledger, p: Publisher, log: seq<Dispatch>, kept: set<Cid>)
    requires ChannelOk(channel, l, p, log, kept)
    ensures ChannelOk(channel, l, START, log, kept)
  {
    hide LedgerOk, LogOk;
  }

  lemma HoldManifest(channel: Channel, l: Ledger, p: Publisher, log: seq<Dispatch>, kept: set<Cid>, artifacts: set<Cid>,
                     body: nat)
    requires ChannelOk(channel, l, p, log, kept) && p.phase.Reserved? && OnlyArtifacts(artifacts)
    requires channel.Indexed? ==> artifacts <= kept
    ensures var cid := ManifestCid(channel, p.phase.sequence, body);
            ChannelOk(channel, l, p.(phase := ManifestHeld(cid, p.phase.sequence, artifacts)), log, kept + {cid})
  {
    hide LedgerOk, LogOk, HasPending, Above;
  }

  lemma ResumePending(channel: Channel, l: Ledger, p: Publisher, log: seq<Dispatch>, kept: set<Cid>, row: nat,
                      checked: set<Cid>)
    requires ChannelOk(channel, l, p, log, kept) && FindsPending(l, row)
    requires checked <= kept && checked <= l.manifests[row].artifacts + {l.manifests[row].cid}
    ensures var m := l.manifests[row];
            ChannelOk(channel, l, p.(phase := Recorded(m.cid, m.sequence, m.artifacts, checked, true)), log, kept)
  {
    hide LogOk;
    assert row == |l.manifests| - 1;
  }

  lemma Find(channel: Channel, l: Ledger, p: Publisher, log: seq<Dispatch>, kept: set<Cid>, cid: Cid)
    requires ChannelOk(channel, l, p, log, kept) && p.phase.Recorded? && cid in kept
             && cid in p.phase.artifacts + {p.phase.cid}
    ensures ChannelOk(channel, l, p.(phase := p.phase.(checked := p.phase.checked + {cid})), log, kept)
  {
    hide LedgerOk, LogOk, Awaits;
  }

  // ---------------------------------------------------------------------------------------------
  // Sequences
  // ---------------------------------------------------------------------------------------------

  /** What the publisher goes by before it reserves its next sequence. */
  function KnownTo(channel: Channel, l: Ledger, p: Publisher): Option<nat> {
    if channel.Indexed? && p.loaded then p.last else l.sequence
  }

  /** The next sequence is above every row and every record sent, whatever the clock and whichever way the last
      one was learnt. */
  lemma {:induction false} NextIsNewer(channel: Channel, l: Ledger, p: Publisher, log: seq<Dispatch>, kept: set<Cid>,
                                       sequence: nat)
    requires ChannelOk(channel, l, p, log, kept) && sequence > Level(KnownTo(channel, l, p))
    ensures Above(l, sequence)
    ensures forall i :: 0 <= i < |log| ==> log[i].sequence < sequence
  {
    forall i | 0 <= i < |log| ensures log[i].sequence < sequence {
      assert HasRow(l, log[i]);
    }
  }

  lemma ReserveNext(channel: Channel, l: Ledger, p: Publisher, log: seq<Dispatch>, kept: set<Cid>, clock: nat,
                    acknowledged: bool)
    requires ChannelOk(channel, l, p, log, kept) && p.phase.Building?
    ensures var sequence := Max(clock, Level(KnownTo(channel, l, p)) + 1);
            var stored := l.(sequence := Some(Max(Level(l.sequence), sequence)));
            var phase := if acknowledged then Reserved(sequence) else Idle;
            ChannelOk(channel, stored,
                      if channel.Poi? then p.(phase := phase)
                      else Publisher(phase, true, if acknowledged then Some(sequence) else KnownTo(channel, l, p)),
                      log, kept)
  {
    var sequence := Max(clock, Level(KnownTo(channel, l, p)) + 1);
    NextIsNewer(channel, l, p, log, kept, sequence);
    var stored := l.(sequence := Some(Max(Level(l.sequence), sequence)));
    RaiseKeeps(channel, l, log, kept, sequence);
    hide LedgerOk, LogOk, Ordered;
    assert HasPending(stored) == HasPending(l);
  }

  lemma RaiseKeeps(channel: Channel, l: Ledger, log: seq<Dispatch>, kept: set<Cid>, sequence: nat)
    requires LedgerOk(channel, l) && LogOk(l, log)
    ensures var stored := l.(sequence := Some(Max(Level(l.sequence), sequence)));
            LedgerOk(channel, stored) && LogOk(stored, log)
  {
    hide RowOk, Ordered;
    var stored := l.(sequence := Some(Max(Level(l.sequence), sequence)));
    assert stored.manifests == l.manifests && stored.artifacts == l.artifacts;
    forall i | 0 <= i < |log| ensures HasRow(stored, log[i]) {
      assert HasRow(l, log[i]);
    }
  }

  // ---------------------------------------------------------------------------------------------
  // Tables
  // ---------------------------------------------------------------------------------------------

  lemma LogFollows(l: Ledger, after: Ledger, log: seq<Dispatch>)
    requires LogOk(l, log) && SameRows(l, after)
    ensures LogOk(after, log)
  {
    hide Ordered;
    forall i | 0 <= i < |log| ensures HasRow(after, log[i]) {
      assert HasRow(l, log[i]);
      var k :| 0 <= k < |l.manifests| && l.manifests[k].cid == log[i].cid && l.manifests[k].sequence == log[i].sequence;
      assert after.manifests[k].cid == log[i].cid && after.manifests[k].sequence == log[i].sequence;
    }
  }

  lemma KeepArtifact(channel: Channel, l: Ledger, p: Publisher, log: seq<Dispatch>, kept: set<Cid>, now: Time)
    requires ChannelOk(channel, l, p, log, kept) && p.phase.ArtifactHeld?
    ensures ChannelOk(channel, RecordArtifact(l, p.phase.slot, now), p, log, kept)
    ensures !HasPending(RecordArtifact(l, p.phase.slot, now))
  {
    var after := RecordArtifact(l, p.phase.slot, now);
    assert after.manifests == l.manifests;
    assert SameRows(l, after);
    LogFollows(l, after, log);
    hide LogOk, RowOk;
    assert HasPending(after) == HasPending(l);
    assert LedgerOk(channel, after);
  }

  lemma KeepManifest(channel: Channel, l: Ledger, p: Publisher, log: seq<Dispatch>, kept: set<Cid>, acknowledged: bool)
    requires ChannelOk(channel, l, p, log, kept) && p.phase.ManifestHeld?
    requires RecordManifest(l, p.phase.cid, p.phase.sequence, p.phase.artifacts).Ok?
    ensures var after := RecordManifest(l, p.phase.cid, p.phase.sequence, p.phase.artifacts).value;
            ChannelOk(channel, after,
                      p.(phase := if acknowledged then StoredPhase(channel, p.phase) else AfterLoss(p.phase)),
                      log, kept)
  {
    var after := RecordManifest(l, p.phase.cid, p.phase.sequence, p.phase.artifacts).value;
    RecordKeeps(channel, l, p.phase.cid, p.phase.sequence, p.phase.artifacts);
    LogFollows(l, after, log);
    assert !Active(after.manifests[|l.manifests|]);
    assert forall i :: 0 <= i < |after.manifests| ==> after.manifests[i].sequence <= p.phase.sequence;
    hide LedgerOk, LogOk, RecordManifest, HasPending, SameRows, Above, Pending, Active;
  }

  lemma SendRecord(channel: Channel, l: Ledger, p: Publisher, log: seq<Dispatch>, kept: set<Cid>, acknowledged: bool)
    requires ChannelOk(channel, l, p, log, kept) && p.phase.Recorded?
             && p.phase.checked == p.phase.artifacts + {p.phase.cid}
    ensures ChannelOk(channel, l,
                      p.(phase := if acknowledged
                         then Dispatched(p.phase.cid, p.phase.sequence, p.phase.artifacts, p.phase.resumed) else Idle),
                      log + [Dispatch(p.phase.cid, p.phase.sequence)], kept)
  {
    SendOrdered(channel, l, p.phase, log);
    hide LedgerOk, LogOk, Awaits;
  }

  lemma {:induction false} SendOrdered(channel: Channel, l: Ledger, phase: Phase, log: seq<Dispatch>)
    requires LedgerOk(channel, l) && LogOk(l, log) && phase.Recorded?
             && Awaits(l, phase.cid, phase.sequence, phase.artifacts)
    ensures LogOk(l, log + [Dispatch(phase.cid, phase.sequence)])
  {
    hide RowOk, Pending, Active;
    var last := |l.manifests| - 1;
    assert HasRow(l, Dispatch(phase.cid, phase.sequence)) by { assert l.manifests[last].cid == phase.cid; }
    forall i | 0 <= i < |log|
      ensures log[i].sequence <= phase.sequence && (log[i].sequence == phase.sequence ==> log[i].cid == phase.cid)
    {
      assert HasRow(l, log[i]);
      var k :| 0 <= k < |l.manifests| && l.manifests[k].cid == log[i].cid && l.manifests[k].sequence == log[i].sequence;
      assert k < last ==> l.manifests[k].sequence < l.manifests[last].sequence;
    }
  }

  lemma ConfirmActive(channel: Channel, l: Ledger, p: Publisher, log: seq<Dispatch>, kept: set<Cid>, now: Time,
                      adopt: bool)
    requires ChannelOk(channel, l, p, log, kept) && p.phase.Dispatched? && (adopt ==> channel.Indexed?)
    ensures Activate(channel, l, p.phase.cid, p.phase.sequence, now).Ok?
    ensures var after := Activate(channel, l, p.phase.cid, p.phase.sequence, now).value;
            && ChannelOk(channel, after, if adopt then Publisher(Idle, true, Some(p.phase.sequence))
                         else p.(phase := Idle), log, kept)
            && (forall c :: Protects(after, c) ==> Protects(l, c))
  {
    ActivateKeeps(channel, l, p.phase.cid, p.phase.sequence, p.phase.artifacts, now);
    var after := Activate(channel, l, p.phase.cid, p.phase.sequence, now).value;
    LogFollows(l, after, log);
    assert forall i :: 0 <= i < |l.manifests| ==> l.manifests[i].sequence <= p.phase.sequence;
    hide LedgerOk, LogOk, Activate, HasPending, Protects, Pending;
  }

  lemma GiveUpKeeps(l: Ledger, p: Publisher, log: seq<Dispatch>, kept: set<Cid>, unavailable: Option<Cid>)
    requires ChannelOk(Poi, l, p, log, kept) && p.phase.Recorded?
    ensures Abandon(l, p.phase.cid, p.phase.sequence, unavailable).Ok?
    ensures var after := Abandon(l, p.phase.cid, p.phase.sequence, unavailable).value;
            && ChannelOk(Poi, after, p.(phase := Building), log, kept)
            && (forall c :: Protects(after, c) ==> Protects(l, c))
  {
    AbandonKeeps(l, p.phase.cid, p.phase.sequence, p.phase.artifacts, unavailable);
    var after := Abandon(l, p.phase.cid, p.phase.sequence, unavailable).value;
    LogFollows(l, after, log);
    forall c | Protects(after, c) ensures Protects(l, c) {
      SameStandingProtects(l, after, c);
    }
    hide LedgerOk, LogOk, Abandon, HasPending, Protects, Active;
  }

  lemma SweepChannel(channel: Channel, l: Ledger, p: Publisher, log: seq<Dispatch>, kept: set<Cid>, cid: Cid,
                     cutoff: Time)
    requires ChannelOk(channel, l, p, log, kept) && !Holds(p.phase)
    ensures ChannelOk(channel, SweepRows(l, cid, cutoff), p, log, kept)
    ensures forall c :: Protects(SweepRows(l, cid, cutoff), c) ==> Protects(l, c)
  {
    SweepKeeps(channel, l, cid, cutoff);
    var after := SweepRows(l, cid, cutoff);
    LogFollows(l, after, log);
    forall c | Protects(after, c) ensures Protects(l, c) {
      SameStandingProtects(l, after, c);
    }
    SweepPhase(channel, l, after, p.phase);
    hide LedgerOk, LogOk, SweepRows, Protects, Active, PhaseOk;
  }

  lemma SweepPhase(channel: Channel, l: Ledger, after: Ledger, phase: Phase)
    requires PhaseOk(channel, l, phase) && SameRows(l, after) && |after.manifests| == |l.manifests|
             && after.sequence == l.sequence
    requires forall i :: 0 <= i < |l.manifests| && (Pending(l.manifests[i]) || Pending(after.manifests[i])) ==>
               after.manifests[i] == l.manifests[i]
    ensures PhaseOk(channel, after, phase)
  {
    hide Pending;
    assert HasPending(after) ==> HasPending(l);
  }
}
