/** The invariant of the whole publication protocol, kept by every step. */
module PublicationSafety {
  import opened Wrappers
  import opened PublicationAudit
  import opened PublicationLedger
  import opened PublicationSteps
  import opened PublicationChannel

  function Other(channel: Channel): Channel {
    if channel.Indexed? then Poi else Indexed
  }

  function Kept(w: World): set<Cid> {
    w.pins + w.lost
  }

  ghost predicate At(w: World, channel: Channel) {
    ChannelOk(channel, LedgerOf(w, channel), Get(w.publishers, channel), Get(w.logs, channel), Kept(w))
  }

  /** At most one party is inside the pin-lifecycle lock. */
  predicate Exclusive(w: World) {
    && !(Holds(w.publishers.indexed.phase) && Holds(w.publishers.poi.phase))
    && (!w.sweeper.Resting? ==> !Holds(w.publishers.indexed.phase) && !Holds(w.publishers.poi.phase))
  }

  predicate PhaseUnguarded(tables: Tables, phase: Phase) {
    phase.Unreferenced? ==> !Guarded(tables, phase.cid)
  }

  /** Whoever is about to unpin an address has it on record that no standing manifest needs it. */
  predicate Unguarded(w: World) {
    && (!w.sweeper.Resting? ==> !Guarded(w.tables, w.sweeper.cid))
    && PhaseUnguarded(w.tables, w.publishers.indexed.phase)
    && PhaseUnguarded(w.tables, w.publishers.poi.phase)
  }

  ghost predicate Inv(w: World) {
    At(w, Indexed) && At(w, Poi) && Exclusive(w) && Unguarded(w)
  }

  // ---------------------------------------------------------------------------------------------
  // Assembling the invariant
  // ---------------------------------------------------------------------------------------------

  /** A step of one publisher: the other channel and the sweeper are where they were, and the channel needs no address
      it did not need before, or nobody else is inside the lock. */
  ghost predicate Local(w: World, after: World, channel: Channel) {
    && LedgerOf(after, Other(channel)) == LedgerOf(w, Other(channel))
    && Get(after.publishers, Other(channel)) == Get(w.publishers, Other(channel))
    && Get(after.logs, Other(channel)) == Get(w.logs, Other(channel))
    && after.sweeper == w.sweeper
    && Kept(w) <= Kept(after)
    && ((forall c :: Protects(LedgerOf(after, channel), c) ==> Protects(LedgerOf(w, channel), c))
        || Holds(PhaseOf(w, channel)))
  }

  lemma Assemble(w: World, after: World, channel: Channel)
    requires Inv(w) && Local(w, after, channel) && At(after, channel)
    requires Holds(PhaseOf(after, channel)) ==> Holds(PhaseOf(w, channel)) || LockFree(w)
    requires PhaseUnguarded(after.tables, PhaseOf(after, channel))
    ensures Inv(after)
  {
    hide ChannelOk, Protects;
    var other := Other(channel);
    KeepMore(other, LedgerOf(w, other), Get(w.publishers, other), Get(w.logs, other), Kept(w), Kept(after));
  }

  /** An unguarded address is unpinned. */
  lemma AssembleUnpin(w: World, after: World, cid: Cid)
    requires Inv(w) && !Guarded(w.tables, cid)
    requires !w.publishers.indexed.phase.ManifestHeld? && !w.publishers.poi.phase.ManifestHeld?
    requires after.tables == w.tables && after.logs == w.logs && after.publishers == w.publishers
             && after.lost == w.lost
    requires after.pins == w.pins || after.pins == w.pins - {cid}
    requires after.sweeper == w.sweeper || after.sweeper.Resting?
             || (w.sweeper.Checked? && after.sweeper.Dropped? && after.sweeper.cid == w.sweeper.cid)
    ensures Inv(after)
  {
    hide ChannelOk, Protects;
    KeepLess(Indexed, w.tables.indexed, w.publishers.indexed, w.logs.indexed, Kept(w), cid);
    KeepLess(Poi, w.tables.poi, w.publishers.poi, w.logs.poi, Kept(w), cid);
    KeepMore(Indexed, w.tables.indexed, w.publishers.indexed, w.logs.indexed, Kept(w) - {cid}, Kept(after));
    KeepMore(Poi, w.tables.poi, w.publishers.poi, w.logs.poi, Kept(w) - {cid}, Kept(after));
  }

  // ---------------------------------------------------------------------------------------------
  // Publisher steps
  // ---------------------------------------------------------------------------------------------

  /** The publisher enters a phase that knows nothing of the tables. */
  lemma StopStep(w: World, channel: Channel, phase: Phase)
    requires Inv(w)
    requires phase.Idle? || phase.Cleaning? || phase.Unreferenced?
             || (phase.Building? && !HasPending(LedgerOf(w, channel)))
             || (phase.ArtifactHeld? && !HasPending(LedgerOf(w, channel)) && phase.slot.cid.ArtifactCid?)
    requires Holds(phase) ==> Holds(PhaseOf(w, channel)) || LockFree(w)
    requires PhaseUnguarded(w.tables, phase)
    ensures Inv(Enter(w, channel, phase))
  {
    hide ChannelOk, Protects, HasPending;
    var after := Enter(w, channel, phase);
    Stop(channel, LedgerOf(w, channel), Get(w.publishers, channel), Get(w.logs, channel), Kept(w), phase);
    assert Local(w, after, channel);
    Assemble(w, after, channel);
  }

  lemma MorePins(w: World, cid: Cid)
    requires Inv(w)
    ensures Inv(w.(pins := w.pins + {cid}))
  {
    hide ChannelOk, Protects;
    var after := w.(pins := w.pins + {cid});
    KeepMore(Indexed, w.tables.indexed, w.publishers.indexed, w.logs.indexed, Kept(w), Kept(after));
    KeepMore(Poi, w.tables.poi, w.publishers.poi, w.logs.poi, Kept(w), Kept(after));
  }

  lemma TakeStep(w: World, e: Event)
    requires Inv(w) && Enabled(w, e) && e.TakeArtifact?
    ensures Inv(Apply(w, e))
  {
    hide ChannelOk, Protects, LedgerOk, MemoryOk, LogOk, PinsOk, HasPending, Live;
    assert !HasPending(LedgerOf(w, e.channel)) by { BuildingIsClear(w, e.channel); }
    MorePins(w, e.slot.cid);
    StopStep(w.(pins := w.pins + {e.slot.cid}), e.channel, ArtifactHeld(e.slot, !e.reuse));
  }

  lemma BuildingIsClear(w: World, channel: Channel)
    requires Inv(w) && PhaseOf(w, channel).Building?
    ensures !HasPending(LedgerOf(w, channel))
  {
    hide LedgerOk, MemoryOk, LogOk, PinsOk, HasPending;
  }

  lemma ArtifactStep(w: World, e: Event)
    requires Inv(w) && Enabled(w, e) && e.StoreArtifact?
    ensures Inv(Apply(w, e))
  {
    hide ChannelOk, HasPending;
    var ch := e.channel;
    var l, p, log := LedgerOf(w, ch), Get(w.publishers, ch), Get(w.logs, ch);
    KeepArtifact(ch, l, p, log, Kept(w), e.now);
    var stored := RecordArtifact(l, p.phase.slot, e.now);
    var phase := if e.acknowledged then Building else AfterLoss(p.phase);
    Stop(ch, stored, p, log, Kept(w), phase);
    var after := Apply(w, e);
    assert LedgerOf(after, ch) == stored && Get(after.publishers, ch) == p.(phase := phase);
    assert stored.manifests == l.manifests;
    assert Local(w, after, ch);
    Assemble(w, after, ch);
  }

  lemma LoseStep(w: World, e: Event)
    requires Inv(w) && Enabled(w, e) && (e.LoseArtifact? || e.LoseManifest?)
    ensures Inv(Apply(w, e))
  {
    hide ChannelOk, Protects, HasPending;
    StopStep(w, e.channel, AfterLoss(PhaseOf(w, e.channel)));
  }

  lemma ReserveStep(w: World, e: Event)
    requires Inv(w) && Enabled(w, e) && e.Reserve?
    ensures Inv(Apply(w, e))
  {
    hide ChannelOk, HasPending, Max, Level;
    var ch := e.channel;
    var l, p, log := LedgerOf(w, ch), Get(w.publishers, ch), Get(w.logs, ch);
    ReserveNext(ch, l, p, log, Kept(w), e.clock, e.acknowledged);
    var after := Apply(w, e);
    assert Known(w, ch) == KnownTo(ch, l, p);
    assert LedgerOf(after, ch).manifests == l.manifests;
    assert Local(w, after, ch);
    Assemble(w, after, ch);
  }

  lemma PinManifestStep(w: World, e: Event)
    requires Inv(w) && Enabled(w, e) && e.PinManifest?
    ensures Inv(Apply(w, e))
  {
    hide ChannelOk, HasPending, Protects, OnlyArtifacts;
    var ch := e.channel;
    var l, p, log := LedgerOf(w, ch), Get(w.publishers, ch), Get(w.logs, ch);
    HoldManifest(ch, l, p, log, Kept(w), e.artifacts, e.body);
    var after := Apply(w, e);
    assert Kept(after) == Kept(w) + {ManifestCid(ch, p.phase.sequence, e.body)};
    assert Local(w, after, ch);
    Assemble(w, after, ch);
  }

  lemma StoreManifestStep(w: World, e: Event)
    requires Inv(w) && Enabled(w, e) && e.StoreManifest?
    ensures Inv(Apply(w, e))
  {
    hide ChannelOk, HasPending, Protects, RecordManifest;
    var ch := e.channel;
    var l, p, log := LedgerOf(w, ch), Get(w.publishers, ch), Get(w.logs, ch);
    KeepManifest(ch, l, p, log, Kept(w), e.acknowledged);
    var after := Apply(w, e);
    assert Local(w, after, ch);
    Assemble(w, after, ch);
  }

  lemma ReferenceStep(w: World, e: Event)
    requires Inv(w) && Enabled(w, e) && e.CheckReferences?
    ensures Inv(Apply(w, e))
  {
    hide ChannelOk, HasPending, Protects, Referenced;
    var cid := PhaseOf(w, e.channel).cid;
    if Referenced(w.tables, cid) {
      StopStep(w, e.channel, Idle);
    } else {
      UnreferencedUnguarded(w.tables, cid);
      StopStep(w, e.channel, Unreferenced(cid));
    }
  }

  lemma OweStep(w: World, e: Event)
    requires Inv(w) && Enabled(w, e) && e.OweUnchecked?
    ensures Inv(Apply(w, e))
  {
    hide ChannelOk, HasPending, Protects;
    var owed := if e.recorded then w.(debts := w.debts + {PhaseOf(w, e.channel).cid}) else w;
    assert Inv(owed);
    StopStep(owed, e.channel, Idle);
  }

  lemma CleanUpStep(w: World, e: Event)
    requires Inv(w) && Enabled(w, e) && e.CleanUp?
    ensures !Guarded(w.tables, PhaseOf(w, e.channel).cid)
    ensures Inv(Apply(w, e))
  {
    hide ChannelOk, HasPending, Protects;
    var cid := PhaseOf(w, e.channel).cid;
    var after := w.(pins := Drop(w.pins, cid, e.removed),
                    debts := if !e.reported && e.recorded then w.debts + {cid} else w.debts);
    AssembleUnpin(w, after, cid);
    StopStep(after, e.channel, Idle);
  }

  lemma ResumeStep(w: World, e: Event)
    requires Inv(w) && Enabled(w, e) && e.Resume?
    ensures Inv(Apply(w, e))
  {
    hide ChannelOk, HasPending, Protects, FindsPending;
    var ch := e.channel;
    assert e.row < |LedgerOf(w, ch).manifests| by { RowExists(LedgerOf(w, ch), e.row); }
    var m := LedgerOf(w, ch).manifests[e.row];
    var checked := if ch.Indexed? then m.artifacts + {m.cid} else {};
    MorePins(w, m.cid);
    var pinned := if ch.Indexed? then w.(pins := w.pins + {m.cid}) else w;
    var l, p, log := LedgerOf(w, ch), Get(w.publishers, ch), Get(w.logs, ch);
    assert ChannelOk(ch, l, p, log, Kept(pinned));
    ResumePending(ch, l, p, log, Kept(pinned), e.row, checked);
    var after := Apply(w, e);
    assert Local(w, after, ch);
    Assemble(w, after, ch);
  }

  lemma RowExists(l: Ledger, row: nat)
    requires FindsPending(l, row)
    ensures row < |l.manifests|
  {
  }

  lemma FindStep(w: World, e: Event)
    requires Inv(w) && Enabled(w, e) && e.FindAvailable?
    ensures Inv(Apply(w, e))
  {
    hide ChannelOk, HasPending, Protects;
    var ch := e.channel;
    var l, p, log := LedgerOf(w, ch), Get(w.publishers, ch), Get(w.logs, ch);
    Find(ch, l, p, log, Kept(w), e.cid);
    var after := Apply(w, e);
    assert Local(w, after, ch);
    Assemble(w, after, ch);
  }

  lemma GiveUpStep(w: World, e: Event)
    requires Inv(w) && Enabled(w, e) && e.GiveUp?
    ensures Inv(Apply(w, e))
  {
    hide ChannelOk, HasPending, Protects, Abandon;
    var l, p, log := w.tables.poi, w.publishers.poi, w.logs.poi;
    GiveUpKeeps(l, p, log, Kept(w), if e.unavailable in p.phase.artifacts then Some(e.unavailable) else None);
    var after := Apply(w, e);
    assert Local(w, after, Poi);
    Assemble(w, after, Poi);
  }

  lemma SendStep(w: World, e: Event)
    requires Inv(w) && Enabled(w, e) && e.Send?
    ensures Inv(Apply(w, e))
  {
    hide ChannelOk, HasPending, Protects;
    var ch := e.channel;
    var l, p, log := LedgerOf(w, ch), Get(w.publishers, ch), Get(w.logs, ch);
    SendRecord(ch, l, p, log, Kept(w), e.acknowledged);
    var after := Apply(w, e);
    assert Local(w, after, ch);
    Assemble(w, after, ch);
  }

  lemma ConfirmStep(w: World, e: Event)
    requires Inv(w) && Enabled(w, e) && e.Confirm?
    ensures Inv(Apply(w, e))
  {
    hide ChannelOk, HasPending, Protects, Activate;
    var ch := e.channel;
    var l, p, log := LedgerOf(w, ch), Get(w.publishers, ch), Get(w.logs, ch);
    var adopt := ch.Indexed? && p.phase.resumed && e.acknowledged;
    ConfirmActive(ch, l, p, log, Kept(w), e.now, adopt);
    var after := Apply(w, e);
    assert Local(w, after, ch);
    Assemble(w, after, ch);
  }

  // ---------------------------------------------------------------------------------------------
  // Sweeper and environment steps
  // ---------------------------------------------------------------------------------------------

  lemma SweepCheckStep(w: World, e: Event)
    requires Inv(w) && Enabled(w, e) && e.SweepCheck?
    ensures Inv(Apply(w, e))
  {
    hide PhaseOk, MemoryOk, LogOk, PinsOk, LedgerOk, Protects, Eligible;
    EligibleUnguarded(w.tables, e.candidate, e.cutoff);
  }

  lemma SweepUnpinStep(w: World, e: Event)
    requires Inv(w) && Enabled(w, e) && (e.SweepUnpin? || e.DebtUnpin?)
    ensures !Guarded(w.tables, w.sweeper.cid)
    ensures Inv(Apply(w, e))
  {
    hide ChannelOk, Protects;
    var after := Apply(w, e);
    AssembleUnpin(w, after, w.sweeper.cid);
  }

  lemma SweepMarkStep(w: World, e: Event)
    requires Inv(w) && Enabled(w, e) && e.SweepMark?
    ensures Inv(Apply(w, e))
  {
    hide ChannelOk, Protects, SweepRows, HasActive, RecentlyReferenced;
    var cid, cutoff := w.sweeper.cid, w.sweeper.cutoff;
    SweepChannel(Indexed, w.tables.indexed, w.publishers.indexed, w.logs.indexed, Kept(w), cid, cutoff);
    SweepChannel(Poi, w.tables.poi, w.publishers.poi, w.logs.poi, Kept(w), cid, cutoff);
  }

  lemma DebtCheckStep(w: World, e: Event)
    requires Inv(w) && Enabled(w, e) && e.DebtCheck?
    ensures Inv(Apply(w, e))
  {
    hide ChannelOk, Protects, Referenced;
    if !Referenced(w.tables, e.owed) {
      UnreferencedUnguarded(w.tables, e.owed);
    }
  }

  lemma CrashStep(w: World)
    requires Inv(w)
    ensures Inv(Apply(w, Crash))
  {
    hide ChannelOk, Protects;
    Restart(Indexed, w.tables.indexed, w.publishers.indexed, w.logs.indexed, Kept(w));
    Restart(Poi, w.tables.poi, w.publishers.poi, w.logs.poi, Kept(w));
  }

  lemma LosePinStep(w: World, e: Event)
    requires Inv(w) && Enabled(w, e) && e.LosePin?
    ensures Inv(Apply(w, e))
  {
    hide ChannelOk, Protects;
    assert Kept(Apply(w, e)) == Kept(w);
  }

  lemma InitInv()
    ensures Inv(INIT)
  {
  }

  /** Every step keeps the invariant. */
  lemma StepKeeps(w: World, e: Event)
    requires Inv(w) && Enabled(w, e)
    ensures Inv(Apply(w, e))
  {
    match e {
      case Begin(ch) => BeginStep(w, e);
      case TakeArtifact(_, _, _) => TakeStep(w, e);
      case StoreArtifact(_, _, _) => ArtifactStep(w, e);
      case LoseArtifact(_) => LoseStep(w, e);
      case Reserve(_, _, _) => ReserveStep(w, e);
      case PinManifest(_, _, _) => PinManifestStep(w, e);
      case StoreManifest(_, _) => StoreManifestStep(w, e);
      case LoseManifest(_) => LoseStep(w, e);
      case CheckReferences(_) => ReferenceStep(w, e);
      case OweUnchecked(_, _) => OweStep(w, e);
      case CleanUp(_, _, _, _) => CleanUpStep(w, e);
      case Resume(_, _) => ResumeStep(w, e);
      case FindAvailable(_, _) => FindStep(w, e);
      case GiveUp(_, _) => GiveUpStep(w, e);
      case Send(_, _) => SendStep(w, e);
      case Confirm(_, _, _) => ConfirmStep(w, e);
      case Fail(_) => FailStep(w, e);
      case SweepCheck(_, _) => SweepCheckStep(w, e);
      case SweepUnpin(_, _) => SweepUnpinStep(w, e);
      case SweepMark(_) => SweepMarkStep(w, e);
      case DebtCheck(_) => DebtCheckStep(w, e);
      case DebtUnpin(_, _) => SweepUnpinStep(w, e);
      case Crash => CrashStep(w);
      case LosePin(_) => LosePinStep(w, e);
    }
  }

  lemma BeginStep(w: World, e: Event)
    requires Inv(w) && Enabled(w, e) && e.Begin?
    ensures Inv(Apply(w, e))
  {
    hide ChannelOk, Protects, HasPending;
    StopStep(w, e.channel, Building);
  }

  lemma FailStep(w: World, e: Event)
    requires Inv(w) && Enabled(w, e) && e.Fail?
    ensures Inv(Apply(w, e))
  {
    hide ChannelOk, Protects, HasPending;
    StopStep(w, e.channel, Idle);
  }
}
