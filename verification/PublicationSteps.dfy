/** The publication protocol as a state machine: one publisher per channel, the retention sweeper, the pin
    provider, the IPNS records sent, process crashes and pins the provider loses. Everything done under the
    pin-lifecycle lock is split at the provider calls and commits, so that a step not under the lock, or a crash,
    can fall between any two of them. */
module PublicationSteps {
  import opened Wrappers
  import opened PublicationAudit

  /** Where the publisher of a channel is in its cycle. */
  datatype Phase =
    | Idle
    | Building
    | ArtifactHeld(slot: Slot, owned: bool)
    | Reserved(sequence: nat)
    | ManifestHeld(cid: Cid, sequence: nat, artifacts: set<Cid>)
    | Cleaning(cid: Cid)
    | Unreferenced(cid: Cid)
    | Recorded(cid: Cid, sequence: nat, artifacts: set<Cid>, checked: set<Cid>, resumed: bool)
    | Dispatched(cid: Cid, sequence: nat, artifacts: set<Cid>, resumed: bool)

  /** The indexed publisher remembers the last sequence once it has loaded it; the POI publisher asks the store
      each time. */
  datatype Publisher = Publisher(phase: Phase, loaded: bool, last: Option<nat>)

  datatype Sweeper =
    | Resting
    | Checked(cid: Cid, cutoff: Time)
    | Dropped(cid: Cid, cutoff: Time)
    | DebtChecked(cid: Cid)

  datatype Dispatch = Dispatch(cid: Cid, sequence: nat)

  /** `lost` are the pins the provider dropped by itself; `doubt` tells that the write of an indexed sequence was
      once reported as failed although it took effect. */
  datatype World = World(
    tables: Tables, debts: set<Cid>, publishers: Pair<Publisher>, sweeper: Sweeper,
    pins: set<Cid>, lost: set<Cid>, logs: Pair<seq<Dispatch>>, doubt: bool)

  /** Flags named `acknowledged` tell whether the caller learns that the write or call took effect. `removed` tells
      whether the provider dropped the pin, which it may have done even when it reports an error. */
  datatype Event =
    | Begin(channel: Channel)
    | TakeArtifact(channel: Channel, slot: Slot, reuse: bool)
    | StoreArtifact(channel: Channel, now: Time, acknowledged: bool)
    | LoseArtifact(channel: Channel)
    | Reserve(channel: Channel, clock: nat, acknowledged: bool)
    | PinManifest(channel: Channel, artifacts: set<Cid>, body: nat)
    | StoreManifest(channel: Channel, acknowledged: bool)
    | LoseManifest(channel: Channel)
    | CheckReferences(channel: Channel)
    | OweUnchecked(channel: Channel, recorded: bool)
    | CleanUp(channel: Channel, removed: bool, reported: bool, recorded: bool)
    | Resume(channel: Channel, row: nat)
    | FindAvailable(channel: Channel, cid: Cid)
    | GiveUp(channel: Channel, unavailable: Cid)
    | Send(channel: Channel, acknowledged: bool)
    | Confirm(channel: Channel, now: Time, acknowledged: bool)
    | Fail(channel: Channel)
    | SweepCheck(candidate: Cid, cutoff: Time)
    | SweepUnpin(removed: bool, reported: bool)
    | SweepMark(committed: bool)
    | DebtCheck(owed: Cid)
    | DebtUnpin(removed: bool, reported: bool)
    | Crash
    | LosePin(dropped: Cid)

  const EMPTY := Ledger([], map[], None)

  const START := Publisher(Idle, false, None)

  const INIT := World(Pair(EMPTY, EMPTY), {}, Pair(START, START), Resting, {}, {}, Pair([], []), false)

  // ---------------------------------------------------------------------------------------------
  // The lock
  // ---------------------------------------------------------------------------------------------

  predicate Holds(phase: Phase) {
    phase.ArtifactHeld? || phase.ManifestHeld? || phase.Cleaning? || phase.Unreferenced?
  }

  predicate LockFree(w: World) {
    !Holds(w.publishers.indexed.phase) && !Holds(w.publishers.poi.phase) && w.sweeper.Resting?
  }

  // ---------------------------------------------------------------------------------------------
  // Access
  // ---------------------------------------------------------------------------------------------

  function LedgerOf(w: World, channel: Channel): Ledger {
    Get(w.tables, channel)
  }

  function PhaseOf(w: World, channel: Channel): Phase {
    Get(w.publishers, channel).phase
  }

  function Enter(w: World, channel: Channel, phase: Phase): World {
    w.(publishers := Put(w.publishers, channel, Get(w.publishers, channel).(phase := phase)))
  }

  function Store(w: World, channel: Channel, l: Ledger): World {
    w.(tables := Put(w.tables, channel, l))
  }

  function Remember(w: World, last: Option<nat>): World {
    w.(publishers := w.publishers.(indexed := w.publishers.indexed.(loaded := true, last := last)))
  }

  predicate OnlyArtifacts(cids: set<Cid>) {
    forall cid :: cid in cids ==> cid.ArtifactCid?
  }

  /** The row a restarted publisher finds pending; more than one is refused. */
  predicate FindsPending(l: Ledger, row: nat) {
    row < |l.manifests| && Pending(l.manifests[row]) && !AmbiguouslyPending(l)
  }

  // ---------------------------------------------------------------------------------------------
  // Sequences
  // ---------------------------------------------------------------------------------------------

  /** The last sequence a publisher goes by: the stored one, or the remembered one. */
  function Known(w: World, channel: Channel): Option<nat> {
    if channel.Indexed? && w.publishers.indexed.loaded then w.publishers.indexed.last else LedgerOf(w, channel).sequence
  }

  function NextSequence(w: World, channel: Channel, clock: nat): nat {
    Max(clock, Level(Known(w, channel)) + 1)
  }

  function ReserveSequence(w: World, channel: Channel, clock: nat, acknowledged: bool): World {
    var sequence := NextSequence(w, channel, clock);
    var l := LedgerOf(w, channel);
    var stored := Store(w, channel, l.(sequence := Some(Max(Level(l.sequence), sequence))));
    var remembered :=
      if channel.Poi? then stored
      else Remember(stored, if acknowledged then Some(sequence)
                    else Known(w, channel)).(doubt := w.doubt || !acknowledged);
    Enter(remembered, channel, if acknowledged then Reserved(sequence) else Idle)
  }

  // ---------------------------------------------------------------------------------------------
  // Steps
  // ---------------------------------------------------------------------------------------------

  predicate Enabled(w: World, e: Event) {
    match e
    case Begin(ch) => PhaseOf(w, ch).Idle? && !HasPending(LedgerOf(w, ch))
    case TakeArtifact(ch, slot, reuse) =>
      && PhaseOf(w, ch).Building? && LockFree(w) && slot.cid.ArtifactCid?
      && (reuse ==> Live(LedgerOf(w, ch), slot.cid) && slot.cid in w.pins)
    case StoreArtifact(ch, now, acknowledged) => PhaseOf(w, ch).ArtifactHeld?
    case LoseArtifact(ch) => PhaseOf(w, ch).ArtifactHeld?
    case Reserve(ch, clock, acknowledged) => PhaseOf(w, ch).Building?
    case PinManifest(ch, artifacts, body) =>
      PhaseOf(w, ch).Reserved? && LockFree(w) && OnlyArtifacts(artifacts) && (ch.Indexed? ==> artifacts <= w.pins)
    case StoreManifest(ch, acknowledged) =>
      && PhaseOf(w, ch).ManifestHeld?
      && var held := PhaseOf(w, ch); RecordManifest(LedgerOf(w, ch), held.cid, held.sequence, held.artifacts).Ok?
    case LoseManifest(ch) => PhaseOf(w, ch).ManifestHeld?
    case CheckReferences(ch) => PhaseOf(w, ch).Cleaning?
    case OweUnchecked(ch, recorded) => PhaseOf(w, ch).Cleaning?
    case CleanUp(ch, removed, reported, recorded) => PhaseOf(w, ch).Unreferenced? && (reported ==> removed)
    case Resume(ch, row) =>
      && PhaseOf(w, ch).Idle? && FindsPending(LedgerOf(w, ch), row)
      && (ch.Indexed? ==> LockFree(w) && LedgerOf(w, ch).manifests[row].artifacts <= w.pins)
    case FindAvailable(ch, cid) =>
      PhaseOf(w, ch).Recorded? && cid in PhaseOf(w, ch).artifacts + {PhaseOf(w, ch).cid} && cid in w.pins
    case GiveUp(ch, unavailable) =>
      && ch.Poi? && PhaseOf(w, ch).Recorded? && PhaseOf(w, ch).resumed
      && unavailable in PhaseOf(w, ch).artifacts + {PhaseOf(w, ch).cid} && unavailable !in w.pins
    case Send(ch, acknowledged) =>
      PhaseOf(w, ch).Recorded? && PhaseOf(w, ch).checked == PhaseOf(w, ch).artifacts + {PhaseOf(w, ch).cid}
    case Confirm(ch, now, acknowledged) => PhaseOf(w, ch).Dispatched?
    case Fail(ch) => !Holds(PhaseOf(w, ch))
    case SweepCheck(cid, cutoff) => LockFree(w) && Eligible(w.tables, cid, cutoff)
    case SweepUnpin(removed, reported) => w.sweeper.Checked? && (reported ==> removed)
    case SweepMark(committed) => w.sweeper.Dropped?
    case DebtCheck(cid) => LockFree(w) && cid in w.debts
    case DebtUnpin(removed, reported) => w.sweeper.DebtChecked? && (reported ==> removed)
    case Crash => true
    case LosePin(cid) => cid in w.pins
  }

  /** After an artifact or a manifest could not be recorded the pin is cleaned up, unless it was not ours. */
  function AfterLoss(phase: Phase): Phase {
    match phase
    case ArtifactHeld(slot, owned) => if owned then Cleaning(slot.cid) else Idle
    case ManifestHeld(cid, sequence, artifacts) => Cleaning(cid)
    case _ => Idle
  }

  function Drop(pins: set<Cid>, cid: Cid, removed: bool): set<Cid> {
    if removed then pins - {cid} else pins
  }

  function ResumeRow(w: World, channel: Channel, m: Manifest): World {
    match channel
    case Indexed =>
      Enter(w.(pins := w.pins + {m.cid}), channel,
            Recorded(m.cid, m.sequence, m.artifacts, m.artifacts + {m.cid}, true))
    case Poi => Enter(w, channel, Recorded(m.cid, m.sequence, m.artifacts, {}, true))
  }

  /** A stored manifest of the indexed channel had its artifacts checked under the lock. */
  function StoredPhase(channel: Channel, held: Phase): Phase
    requires held.ManifestHeld?
  {
    Recorded(held.cid, held.sequence, held.artifacts, if channel.Indexed? then held.artifacts + {held.cid}
             else {}, false)
  }

  function ConfirmSent(w: World, channel: Channel, now: Time, acknowledged: bool): World
    requires PhaseOf(w, channel).Dispatched?
  {
    var sent := PhaseOf(w, channel);
    match Activate(channel, LedgerOf(w, channel), sent.cid, sent.sequence, now)
    case Err(_) => Enter(w, channel, Idle)
    case Ok(l) =>
      var stored := Enter(Store(w, channel, l), channel, Idle);
      if channel.Indexed? && sent.resumed && acknowledged then Remember(stored, Some(sent.sequence)) else stored
  }

  function GiveUpPending(w: World, channel: Channel, unavailable: Cid): World
    requires PhaseOf(w, channel).Recorded?
  {
    var pending := PhaseOf(w, channel);
    match Abandon(LedgerOf(w, channel), pending.cid, pending.sequence,
                  if unavailable in pending.artifacts then Some(unavailable) else None)
    case Err(_) => Enter(w, channel, Idle)
    case Ok(l) => Enter(Store(w, channel, l), channel, Building)
  }

  function Apply(w: World, e: Event): World
    requires Enabled(w, e)
  {
    match e
    case Begin(ch) => Enter(w, ch, Building)
    case TakeArtifact(ch, slot, reuse) => Enter(w.(pins := w.pins + {slot.cid}), ch, ArtifactHeld(slot, !reuse))
    case StoreArtifact(ch, now, acknowledged) =>
      var held := PhaseOf(w, ch);
      Enter(Store(w, ch, RecordArtifact(LedgerOf(w, ch), held.slot, now)), ch,
            if acknowledged then Building else AfterLoss(held))
    case LoseArtifact(ch) => Enter(w, ch, AfterLoss(PhaseOf(w, ch)))
    case Reserve(ch, clock, acknowledged) => ReserveSequence(w, ch, clock, acknowledged)
    case PinManifest(ch, artifacts, body) =>
      var sequence := PhaseOf(w, ch).sequence;
      var cid := ManifestCid(ch, sequence, body);
      Enter(w.(pins := w.pins + {cid}), ch, ManifestHeld(cid, sequence, artifacts))
    case StoreManifest(ch, acknowledged) =>
      var held := PhaseOf(w, ch);
      Enter(Store(w, ch, RecordManifest(LedgerOf(w, ch), held.cid, held.sequence, held.artifacts).value), ch,
            if acknowledged then StoredPhase(ch, held) else AfterLoss(held))
    case LoseManifest(ch) => Enter(w, ch, AfterLoss(PhaseOf(w, ch)))
    case CheckReferences(ch) =>
      Enter(w, ch, if Referenced(w.tables, PhaseOf(w, ch).cid) then Idle else Unreferenced(PhaseOf(w, ch).cid))
    case OweUnchecked(ch, recorded) =>
      Enter(if recorded then w.(debts := w.debts + {PhaseOf(w, ch).cid}) else w, ch, Idle)
    case CleanUp(ch, removed, reported, recorded) =>
      var cid := PhaseOf(w, ch).cid;
      Enter(w.(pins := Drop(w.pins, cid, removed), debts := if !reported && recorded then w.debts + {cid} else w.debts),
            ch, Idle)
    case Resume(ch, row) => ResumeRow(w, ch, LedgerOf(w, ch).manifests[row])
    case FindAvailable(ch, cid) => Enter(w, ch, PhaseOf(w, ch).(checked := PhaseOf(w, ch).checked + {cid}))
    case GiveUp(ch, unavailable) => GiveUpPending(w, ch, unavailable)
    case Send(ch, acknowledged) =>
      var pending := PhaseOf(w, ch);
      Enter(w.(logs := Put(w.logs, ch, Get(w.logs, ch) + [Dispatch(pending.cid, pending.sequence)])), ch,
            if acknowledged then Dispatched(pending.cid, pending.sequence, pending.artifacts, pending.resumed)
              else Idle)
    case Confirm(ch, now, acknowledged) => ConfirmSent(w, ch, now, acknowledged)
    case Fail(ch) => Enter(w, ch, Idle)
    case SweepCheck(cid, cutoff) => w.(sweeper := Checked(cid, cutoff))
    case SweepUnpin(removed, reported) =>
      w.(pins := Drop(w.pins, w.sweeper.cid, removed),
         sweeper := if reported then Dropped(w.sweeper.cid, w.sweeper.cutoff) else Resting)
    case SweepMark(committed) =>
      w.(tables := if committed then SweepCommit(w.tables, w.sweeper.cid, w.sweeper.cutoff) else w.tables,
         sweeper := Resting)
    case DebtCheck(cid) =>
      if Referenced(w.tables, cid) then w.(debts := w.debts - {cid}) else w.(sweeper := DebtChecked(cid))
    case DebtUnpin(removed, reported) =>
      w.(pins := Drop(w.pins, w.sweeper.cid, removed),
         debts := if reported then w.debts - {w.sweeper.cid} else w.debts, sweeper := Resting)
    case Crash => w.(publishers := Pair(START, START), sweeper := Resting)
    case LosePin(cid) => w.(pins := w.pins - {cid}, lost := w.lost + {cid})
  }

  /** The address a step asks the provider to unpin. */
  function Unpins(w: World, e: Event): Option<Cid>
    requires Enabled(w, e)
  {
    match e
    case CleanUp(ch, _, _, _) => Some(PhaseOf(w, ch).cid)
    case SweepUnpin(_, _) => Some(w.sweeper.cid)
    case DebtUnpin(_, _) => Some(w.sweeper.cid)
    case _ => None
  }

  /** A run of the protocol from the empty store. */
  ghost predicate Run(worlds: seq<World>, events: seq<Event>) {
    && |worlds| == |events| + 1
    && worlds[0] == INIT
    && forall i :: 0 <= i < |events| ==> Enabled(worlds[i], events[i]) && worlds[i + 1] == Apply(worlds[i], events[i])
  }
}
