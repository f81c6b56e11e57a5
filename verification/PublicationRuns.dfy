/** What holds over whole runs of the publication protocol, with failures, restarts and lost pins anywhere. */
module PublicationRuns {
  import opened Wrappers
  import opened PublicationAudit
  import opened PublicationLedger
  import opened PublicationSteps
  import opened PublicationChannel
  import opened PublicationSafety

  lemma {:induction false} RunKeeps(worlds: seq<World>, events: seq<Event>, i: nat)
    requires Run(worlds, events) && i < |worlds|
    ensures Inv(worlds[i])
  {
    hide Inv, Enabled, Apply;
    if i == 0 {
      InitInv();
    } else {
      RunKeeps(worlds, events, i - 1);
      StepKeeps(worlds[i - 1], events[i - 1]);
    }
  }

  /** From the commit of a manifest until it is superseded, no step asks the provider to unpin it or anything it
      references. */
  lemma UnpinSafety(worlds: seq<World>, events: seq<Event>, i: nat, channel: Channel, row: nat)
    requires Run(worlds, events) && i < |events|
    requires row < |LedgerOf(worlds[i], channel).manifests|
             && LedgerOf(worlds[i], channel).manifests[row].superseded.None?
    ensures var m := LedgerOf(worlds[i], channel).manifests[row];
            match Unpins(worlds[i], events[i])
            case None => true
            case Some(cid) => cid != m.cid && cid !in m.artifacts
  {
    RunKeeps(worlds, events, i);
    var w, e := worlds[i], events[i];
    StandsUnlessSuperseded(w, channel, row);
    if Unpins(w, e).Some? {
      UnpinsUnguarded(w, e);
      hide Inv, Unpins, Enabled, Apply, Standing;
      assert !Protects(LedgerOf(w, channel), Unpins(w, e).value);
    }
  }

  lemma StandsUnlessSuperseded(w: World, channel: Channel, row: nat)
    requires Inv(w) && row < |LedgerOf(w, channel).manifests| && LedgerOf(w, channel).manifests[row].superseded.None?
    ensures Standing(LedgerOf(w, channel).manifests[row])
  {
    hide PhaseOk, MemoryOk, LogOk, PinsOk;
    assert RowOk(channel, LedgerOf(w, channel).manifests[row]);
  }

  lemma UnpinsUnguarded(w: World, e: Event)
    requires Inv(w) && Enabled(w, e) && Unpins(w, e).Some?
    ensures !Guarded(w.tables, Unpins(w, e).value)
  {
    hide ChannelOk, Protects, Apply;
  }

  /** Whatever the IPNS name of a channel can resolve to after an activation is there: the active manifest and every
      artifact it references are pinned, except for pins the provider lost by itself. */
  lemma ActiveServed(worlds: seq<World>, events: seq<Event>, i: nat, channel: Channel, row: nat)
    requires Run(worlds, events) && i < |worlds|
    requires row < |LedgerOf(worlds[i], channel).manifests| && Active(LedgerOf(worlds[i], channel).manifests[row])
    ensures var m := LedgerOf(worlds[i], channel).manifests[row];
            m.artifacts + {m.cid} <= worlds[i].pins + worlds[i].lost
  {
    RunKeeps(worlds, events, i);
    hide LedgerOk, PhaseOk, MemoryOk, LogOk;
  }

  /** A provider that keeps its pins keeps all of these. */
  lemma {:induction false} NothingLost(worlds: seq<World>, events: seq<Event>, i: nat)
    requires Run(worlds, events) && i < |worlds| && forall k :: 0 <= k < i ==> !events[k].LosePin?
    ensures worlds[i].lost == {}
  {
    hide Enabled;
    if i > 0 {
      NothingLost(worlds, events, i - 1);
      assert worlds[i] == Apply(worlds[i - 1], events[i - 1]);
      LostGrows(worlds[i - 1], events[i - 1]);
    }
  }

  lemma LostGrows(w: World, e: Event)
    requires Enabled(w, e) && !e.LosePin?
    ensures Apply(w, e).lost == w.lost
  {
    hide Eligible, Referenced, HasPending, Live, FindsPending, RecordManifest, Activate, Abandon, SweepCommit;
  }

  /** The same holds of a manifest at the moment its IPNS record is sent. */
  lemma SentServed(worlds: seq<World>, events: seq<Event>, i: nat)
    requires Run(worlds, events) && i < |events| && events[i].Send?
    ensures var sent := PhaseOf(worlds[i], events[i].channel);
            && sent.Recorded? && sent.artifacts + {sent.cid} <= worlds[i].pins + worlds[i].lost
            && Awaits(LedgerOf(worlds[i], events[i].channel), sent.cid, sent.sequence, sent.artifacts)
  {
    RunKeeps(worlds, events, i);
    hide LedgerOk, MemoryOk, LogOk, Apply;
  }

  /** Per channel at most one manifest is pending and at most one is active, IPNS sequences never go back, and an equal
      sequence names the same manifest. */
  lemma ChannelHistory(worlds: seq<World>, events: seq<Event>, i: nat, channel: Channel)
    requires Run(worlds, events) && i < |worlds|
    ensures Ordered(Get(worlds[i].logs, channel))
    ensures !AmbiguouslyPending(LedgerOf(worlds[i], channel))
    ensures var rows := LedgerOf(worlds[i], channel).manifests;
            forall j, k :: 0 <= j < |rows| && 0 <= k < |rows| && Active(rows[j]) && Active(rows[k]) ==> j == k
  {
    RunKeeps(worlds, events, i);
    hide PhaseOk, MemoryOk, PinsOk, RowOk, HasRow, Ordered;
  }

  /** An activation never fails once the record was sent. It activates a sequence above that of every other row, so
      above every invalidated one, and leaves no other row standing. */
  lemma ActivationNewest(worlds: seq<World>, events: seq<Event>, i: nat, row: nat)
    requires Run(worlds, events) && i < |events| && events[i].Confirm?
    requires row < |LedgerOf(worlds[i], events[i].channel).manifests| - 1
    ensures var ch := events[i].channel;
            var sent := PhaseOf(worlds[i], ch);
            var before, after := LedgerOf(worlds[i], ch), LedgerOf(worlds[i + 1], ch);
            && sent.Dispatched? && before.manifests[row].sequence < sent.sequence
            && |after.manifests| == |before.manifests| && !Standing(after.manifests[row]) && !HasPending(after)
            && after.manifests[|after.manifests| - 1] == before.manifests[|after.manifests| - 1].(published := true)
            && Active(after.manifests[|after.manifests| - 1])
  {
    RunKeeps(worlds, events, i);
    var w, e := worlds[i], events[i];
    ConfirmActivates(w, e);
    var l, sent := LedgerOf(w, e.channel), PhaseOf(w, e.channel);
    hide Inv, Apply, Enabled, HasPending, Activate, RowOk, Protects;
    ActivateKeeps(e.channel, l, sent.cid, sent.sequence, sent.artifacts, e.now);
    assert worlds[i + 1] == Apply(w, e);
  }

  lemma ConfirmActivates(w: World, e: Event)
    requires Inv(w) && Enabled(w, e) && e.Confirm?
    ensures var sent := PhaseOf(w, e.channel);
            var l := LedgerOf(w, e.channel);
            && sent.Dispatched? && LedgerOk(e.channel, l) && Awaits(l, sent.cid, sent.sequence, sent.artifacts)
            && Activate(e.channel, l, sent.cid, sent.sequence, e.now).Ok?
            && LedgerOf(Apply(w, e), e.channel) == Activate(e.channel, l, sent.cid, sent.sequence, e.now).value
  {
    var ch := e.channel;
    var l, p := LedgerOf(w, ch), Get(w.publishers, ch);
    hide MemoryOk, LogOk, PinsOk, Activate, LedgerOk;
    ActivateKeeps(ch, l, p.phase.cid, p.phase.sequence, p.phase.artifacts, e.now);
  }

  // ---------------------------------------------------------------------------------------------
  // Sequences
  // ---------------------------------------------------------------------------------------------

  /** Whatever the clock does, a reserved sequence is above every recorded manifest and above every IPNS record sent. */
  lemma ReservedIsNewer(worlds: seq<World>, events: seq<Event>, i: nat)
    requires Run(worlds, events) && i < |events| && events[i].Reserve?
    ensures var sequence := NextSequence(worlds[i], events[i].channel, events[i].clock);
            var rows, log := LedgerOf(worlds[i], events[i].channel).manifests, Get(worlds[i].logs, events[i].channel);
            && (forall row :: 0 <= row < |rows| ==> rows[row].sequence < sequence)
            && (forall sent :: 0 <= sent < |log| ==> log[sent].sequence < sequence)
  {
    RunKeeps(worlds, events, i);
    hide ChannelOk, Apply;
    var w, ch := worlds[i], events[i].channel;
    NextIsNewer(ch, LedgerOf(w, ch), Get(w.publishers, ch), Get(w.logs, ch), Kept(w),
                NextSequence(w, ch, events[i].clock));
  }

  /** The sequence a phase has reserved and not yet put in a row. */
  function ReservedIn(phase: Phase): Option<nat> {
    match phase
    case Reserved(sequence) => Some(sequence)
    case ManifestHeld(_, sequence, _) => Some(sequence)
    case _ => None
  }

  /** A reserved or pending sequence is the stored one. */
  ghost predicate ExactIn(l: Ledger, phase: Phase) {
    && (ReservedIn(phase).Some? ==> l.sequence == ReservedIn(phase))
    && (forall i :: 0 <= i < |l.manifests| && Pending(l.manifests[i]) ==> l.sequence == Some(l.manifests[i].sequence))
    && (phase.Dispatched? ==> l.sequence == Some(phase.sequence))
  }

  /** Unless a sequence write was misreported, the remembered sequence is the stored one. */
  ghost predicate Exact(w: World) {
    && ExactIn(w.tables.poi, w.publishers.poi.phase)
    && (!w.doubt ==> ExactIn(w.tables.indexed, w.publishers.indexed.phase))
    && (!w.doubt && w.publishers.indexed.loaded ==> w.publishers.indexed.last == w.tables.indexed.sequence)
  }

  lemma ExactStep(w: World, e: Event)
    requires Inv(w) && Exact(w) && Enabled(w, e)
    ensures Exact(Apply(w, e))
  {
    hide Inv, Exact, Apply;
    match e {
      case StoreManifest(_, _) => ExactStore(w, e);
      case Reserve(_, _, _) => ExactReserve(w, e);
      case Confirm(_, _, _) => ExactConfirm(w, e);
      case GiveUp(_, _) => ExactGiveUp(w, e);
      case SweepMark(_) => ExactMark(w, e);
      case Send(_, _) => ExactSend(w, e);
      case Crash => ExactPassive(w, e);
      case LosePin(_) => ExactPassive(w, e);
      case SweepCheck(_, _) => ExactPassive(w, e);
      case SweepUnpin(_, _) => ExactPassive(w, e);
      case DebtCheck(_) => ExactPassive(w, e);
      case DebtUnpin(_, _) => ExactPassive(w, e);
      case _ => ExactPublisher(w, e);
    }
  }

  lemma ExactPassive(w: World, e: Event)
    requires Exact(w) && Enabled(w, e)
    requires e.Crash? || e.LosePin? || e.SweepCheck? || e.SweepUnpin? || e.DebtCheck? || e.DebtUnpin?
    ensures Exact(Apply(w, e))
  {
    hide Eligible, Referenced, Pending;
  }

  lemma ExactPublisher(w: World, e: Event)
    requires Exact(w) && Enabled(w, e)
    requires e.Begin? || e.TakeArtifact? || e.StoreArtifact? || e.LoseArtifact? || e.PinManifest? || e.LoseManifest?
             || e.CheckReferences? || e.OweUnchecked? || e.CleanUp? || e.Resume? || e.FindAvailable? || e.Fail?
    ensures Exact(Apply(w, e))
  {
    hide Eligible, Referenced, Pending, HasPending, Live, FindsPending, Exact;
    var after := Apply(w, e);
    assert after.tables.indexed.manifests == w.tables.indexed.manifests
           && after.tables.indexed.sequence == w.tables.indexed.sequence;
    assert after.tables.poi.manifests == w.tables.poi.manifests && after.tables.poi.sequence == w.tables.poi.sequence;
    assert !PhaseOf(after, e.channel).Dispatched?;
    hide Enabled, Apply;
    ExactFrame(w, after);
  }

  /** The rows, the sequences and the memory are as before, and no phase has taken up a new sequence. */
  lemma ExactFrame(w: World, after: World)
    requires Exact(w) && after.doubt == w.doubt
    requires after.tables.indexed.manifests == w.tables.indexed.manifests
             && after.tables.indexed.sequence == w.tables.indexed.sequence
    requires after.tables.poi.manifests == w.tables.poi.manifests && after.tables.poi.sequence == w.tables.poi.sequence
    requires after.publishers.indexed.loaded == w.publishers.indexed.loaded
             && after.publishers.indexed.last == w.publishers.indexed.last
    requires forall ch :: PhaseOf(after, ch).Dispatched? ==> PhaseOf(after, ch) == PhaseOf(w, ch)
    requires forall ch ::
               ReservedIn(PhaseOf(after, ch)).Some? ==> ReservedIn(PhaseOf(after, ch)) == ReservedIn(PhaseOf(w, ch))
    ensures Exact(after)
  {
    hide Pending;
    assert PhaseOf(after, Indexed) == after.publishers.indexed.phase
           && PhaseOf(after, Poi) == after.publishers.poi.phase;
  }

  lemma ExactSend(w: World, e: Event)
    requires Inv(w) && Exact(w) && Enabled(w, e) && e.Send?
    ensures Exact(Apply(w, e))
  {
    hide LedgerOk, MemoryOk, LogOk, PinsOk, Protects;
  }

  lemma ExactStore(w: World, e: Event)
    requires Inv(w) && Exact(w) && Enabled(w, e) && e.StoreManifest?
    ensures Exact(Apply(w, e))
  {
    hide LedgerOk, MemoryOk, LogOk, PinsOk, Protects;
  }

  lemma ExactReserve(w: World, e: Event)
    requires Inv(w) && Exact(w) && Enabled(w, e) && e.Reserve?
    ensures Exact(Apply(w, e))
  {
    hide LedgerOk, LogOk, PinsOk, Protects;
  }

  lemma ExactConfirm(w: World, e: Event)
    requires Inv(w) && Exact(w) && Enabled(w, e) && e.Confirm?
    ensures Exact(Apply(w, e))
  {
    ConfirmActivates(w, e);
    var l, sent := LedgerOf(w, e.channel), PhaseOf(w, e.channel);
    hide Inv, Activate, Protects, LedgerOk, Pending;
    ActivateKeeps(e.channel, l, sent.cid, sent.sequence, sent.artifacts, e.now);
  }

  lemma ExactGiveUp(w: World, e: Event)
    requires Inv(w) && Exact(w) && Enabled(w, e) && e.GiveUp?
    ensures Exact(Apply(w, e))
  {
    var l, p := w.tables.poi, w.publishers.poi;
    hide Abandon, Protects, LedgerOk, Pending, MemoryOk, LogOk, PinsOk;
    AbandonKeeps(l, p.phase.cid, p.phase.sequence, p.phase.artifacts,
                 if e.unavailable in p.phase.artifacts then Some(e.unavailable) else None);
  }

  lemma ExactMark(w: World, e: Event)
    requires Inv(w) && Exact(w) && Enabled(w, e) && e.SweepMark?
    ensures Exact(Apply(w, e))
  {
    hide SweepRows, Protects, LedgerOk, Pending, PhaseOk, MemoryOk, LogOk, PinsOk, HasActive, RecentlyReferenced;
    SweepKeeps(Indexed, w.tables.indexed, w.sweeper.cid, w.sweeper.cutoff);
    SweepKeeps(Poi, w.tables.poi, w.sweeper.cid, w.sweeper.cutoff);
  }

  lemma {:induction false} RunExact(worlds: seq<World>, events: seq<Event>, i: nat)
    requires Run(worlds, events) && i < |worlds|
    ensures Exact(worlds[i])
  {
    if i > 0 {
      hide Inv, Exact, Enabled, Apply;
      RunExact(worlds, events, i - 1);
      RunKeeps(worlds, events, i - 1);
      ExactStep(worlds[i - 1], events[i - 1]);
    }
  }

  /** Adopting the sequence of a reconciled pending manifest instead of loading the stored one is sound: unless a
      sequence write took effect but was reported as failed, they are the same. */
  lemma PendingIsStored(worlds: seq<World>, events: seq<Event>, i: nat, row: nat)
    requires Run(worlds, events) && i < |worlds| && !worlds[i].doubt
    requires row < |worlds[i].tables.indexed.manifests| && Pending(worlds[i].tables.indexed.manifests[row])
    ensures worlds[i].tables.indexed.sequence == Some(worlds[i].tables.indexed.manifests[row].sequence)
    ensures worlds[i].publishers.indexed.loaded
            ==> worlds[i].publishers.indexed.last == worlds[i].tables.indexed.sequence
  {
    RunExact(worlds, events, i);
    hide Run;
  }

  // ---------------------------------------------------------------------------------------------
  // Settled pins
  // ---------------------------------------------------------------------------------------------

  /** The address a publisher pinned and still answers for. */
  function Owned(phase: Phase): Option<Cid> {
    match phase
    case ArtifactHeld(slot, owned) => if owned then Some(slot.cid) else None
    case ManifestHeld(cid, _, _) => Some(cid)
    case Cleaning(cid) => Some(cid)
    case Unreferenced(cid) => Some(cid)
    case _ => None
  }

  /** The lease of a pin stays unsettled when the process dies, or when the pin could be neither removed nor put in
      debt. */
  predicate Unsettled(e: Event) {
    e.Crash? || (e.OweUnchecked? && !e.recorded) || (e.CleanUp? && !e.reported && !e.recorded)
  }

  /** Once its lease is settled, a pin is referenced by the tables, gone, or in cleanup debt. */
  lemma SettledPins(w: World, e: Event, channel: Channel, cid: Cid)
    requires Enabled(w, e) && !Unsettled(e) && Owned(PhaseOf(w, channel)) == Some(cid)
    requires Owned(PhaseOf(Apply(w, e), channel)).None?
    ensures var after := Apply(w, e); Referenced(after.tables, cid) || cid !in after.pins || cid in after.debts
  {
    hide Eligible, SweepCommit, Activate, Abandon, HasPending;
    if e.StoreArtifact? && e.channel == channel {
      var slot := PhaseOf(w, channel).slot;
      assert slot in LedgerOf(Apply(w, e), channel).artifacts;
      assert Live(LedgerOf(Apply(w, e), channel), cid);
    } else if e.StoreManifest? && e.channel == channel {
      var rows := LedgerOf(Apply(w, e), channel).manifests;
      assert rows[|rows| - 1].cid == cid && !rows[|rows| - 1].unpinned;
    }
  }
}
