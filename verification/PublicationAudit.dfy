/** The audit tables of the two publication channels, and the transactions over them: recording pins,
    activating and abandoning manifests, deciding and committing retention. */
module PublicationAudit {
  import opened Wrappers

  datatype Channel = Indexed | Poi

  /** Content addresses. Addressing is collision-free, so an address stands for what it addresses: a signed
      manifest names its channel and sequence in its bytes. */
  datatype Cid = ManifestCid(channel: Channel, sequence: nat, body: nat) | ArtifactCid(content: nat)

  type Time = int

  datatype Manifest = Manifest(
    cid: Cid, sequence: nat, artifacts: set<Cid>,
    published: bool, superseded: Option<Time>, unpinned: bool, invalidated: bool)

  /** An artifact row is unique per publication key (kind, scope and range) and address. */
  datatype Slot = Slot(key: nat, cid: Cid)

  datatype Artifact = Artifact(referenced: Time, unpinned: bool)

  /** The tables of one channel, manifests in order of insertion, and its last stored sequence. */
  datatype Ledger = Ledger(manifests: seq<Manifest>, artifacts: map<Slot, Artifact>, sequence: Option<nat>)

  datatype Pair<T> = Pair(indexed: T, poi: T)

  type Tables = Pair<Ledger>

  datatype AuditError = MissingArtifacts | UnresolvedPending | NotNewer | Unrecorded | AmbiguousPending | NotRecoverable

  function Get<T>(pair: Pair<T>, channel: Channel): T {
    match channel
    case Indexed => pair.indexed
    case Poi => pair.poi
  }

  function Put<T>(pair: Pair<T>, channel: Channel, value: T): Pair<T> {
    match channel
    case Indexed => pair.(indexed := value)
    case Poi => pair.(poi := value)
  }

  /** A stored sequence as a number; before the first one everything is above it. */
  function Level(sequence: Option<nat>): int {
    match sequence
    case None => -1
    case Some(value) => value
  }

  // ---------------------------------------------------------------------------------------------
  // Row states
  // ---------------------------------------------------------------------------------------------

  predicate Pending(m: Manifest) {
    !m.published && m.superseded.None? && !m.unpinned && !m.invalidated
  }

  predicate Active(m: Manifest) {
    m.published && m.superseded.None?
  }

  predicate Standing(m: Manifest) {
    m.superseded.None? && !m.unpinned
  }

  predicate HasPending(l: Ledger) {
    exists i :: 0 <= i < |l.manifests| && Pending(l.manifests[i])
  }

  predicate Live(l: Ledger, cid: Cid) {
    exists slot :: slot in l.artifacts && slot.cid == cid && !l.artifacts[slot].unpinned
  }

  /** An unsuperseded manifest needs this address: it is its own or one of its artifacts. */
  predicate Protects(l: Ledger, cid: Cid) {
    exists i :: 0 <= i < |l.manifests| && Standing(l.manifests[i])
                && (cid == l.manifests[i].cid || cid in l.manifests[i].artifacts)
  }

  predicate Guarded(tables: Tables, cid: Cid) {
    Protects(tables.indexed, cid) || Protects(tables.poi, cid)
  }

  // ---------------------------------------------------------------------------------------------
  // Publication transactions
  // ---------------------------------------------------------------------------------------------

  function RecordArtifact(l: Ledger, slot: Slot, now: Time): Ledger {
    l.(artifacts := l.artifacts[slot := Artifact(now, false)])
  }

  function RecordManifest(l: Ledger, cid: Cid, sequence: nat, artifacts: set<Cid>): Result<Ledger, AuditError> {
    if exists artifact :: artifact in artifacts && !Live(l, artifact) then Err(MissingArtifacts)
    else if HasPending(l) then Err(UnresolvedPending)
    else Ok(l.(manifests := l.manifests + [Manifest(cid, sequence, artifacts, false, None, false, false)]))
  }

  predicate Matches(m: Manifest, cid: Cid, sequence: nat) {
    m.cid == cid && m.sequence == sequence && Pending(m.(published := false))
  }

  /** The rows an activation supersedes. The POI channel tells the activated row by its address alone. */
  predicate Displaced(channel: Channel, m: Manifest, cid: Cid, sequence: nat) {
    && m.superseded.None?
    && (|| (m.published && (m.cid != cid || (channel.Indexed? && m.sequence != sequence)))
        || (m.invalidated && m.sequence < sequence))
  }

  function ActivateRow(channel: Channel, m: Manifest, cid: Cid, sequence: nat, now: Time): Manifest {
    var row := if Matches(m, cid, sequence) then m.(published := true) else m;
    if Displaced(channel, row, cid, sequence) then row.(superseded := Some(now)) else row
  }

  function Activate(channel: Channel, l: Ledger, cid: Cid, sequence: nat, now: Time): Result<Ledger, AuditError> {
    if exists i :: 0 <= i < |l.manifests| && l.manifests[i].invalidated && l.manifests[i].superseded.None?
                   && sequence <= l.manifests[i].sequence
    then Err(NotNewer)
    else if !exists i :: 0 <= i < |l.manifests| && Matches(l.manifests[i], cid, sequence) then Err(Unrecorded)
    else Ok(l.(manifests := seq(|l.manifests|, i requires 0 <= i < |l.manifests| =>
      ActivateRow(channel, l.manifests[i], cid, sequence, now))))
  }

  predicate AmbiguouslyPending(l: Ledger) {
    exists i, j :: 0 <= i < j < |l.manifests| && Pending(l.manifests[i]) && Pending(l.manifests[j])
  }

  predicate PendingIs(l: Ledger, cid: Cid, sequence: nat) {
    exists i :: 0 <= i < |l.manifests| && Pending(l.manifests[i])
                && l.manifests[i].cid == cid && l.manifests[i].sequence == sequence
  }

  function Invalidated(m: Manifest): Manifest {
    if Pending(m) then m.(invalidated := true) else m
  }

  /** Gives up the pending manifest, and marks the artifact found unavailable as unpinned, whoever else uses it. */
  function Abandon(l: Ledger, cid: Cid, sequence: nat, unavailable: Option<Cid>): Result<Ledger, AuditError> {
    if AmbiguouslyPending(l) then Err(AmbiguousPending)
    else if !PendingIs(l, cid, sequence) then Err(NotRecoverable)
    else
      var manifests := seq(|l.manifests|, i requires 0 <= i < |l.manifests| => Invalidated(l.manifests[i]));
      var artifacts :=
        if unavailable.Some?
          && (exists i :: 0 <= i < |manifests| && manifests[i].cid == cid && manifests[i].sequence == sequence
                                             && manifests[i].invalidated && unavailable.value in manifests[i].artifacts)
        then map slot | slot in l.artifacts ::
          if slot.cid == unavailable.value then l.artifacts[slot].(unpinned := true) else l.artifacts[slot]
        else l.artifacts;
      Ok(Ledger(manifests, artifacts, Some(Max(Level(l.sequence), sequence))))
  }

  // ---------------------------------------------------------------------------------------------
  // Retention
  // ---------------------------------------------------------------------------------------------

  predicate StaleManifest(m: Manifest, cid: Cid, cutoff: Time) {
    m.cid == cid && !m.unpinned && m.superseded.Some? && m.superseded.value <= cutoff
  }

  predicate RecentlyReferenced(l: Ledger, cid: Cid, cutoff: Time) {
    exists slot :: slot in l.artifacts && slot.cid == cid && !l.artifacts[slot].unpinned
           && l.artifacts[slot].referenced > cutoff
  }

  predicate Stale(l: Ledger, cid: Cid, cutoff: Time) {
    || (exists i :: 0 <= i < |l.manifests| && StaleManifest(l.manifests[i], cid, cutoff))
    || (Live(l, cid) && !RecentlyReferenced(l, cid, cutoff))
  }

  predicate HasEdge(l: Ledger, cid: Cid) {
    exists i :: 0 <= i < |l.manifests| && Standing(l.manifests[i]) && cid in l.manifests[i].artifacts
  }

  predicate HasActive(l: Ledger, cid: Cid) {
    exists i :: 0 <= i < |l.manifests| && Active(l.manifests[i]) && l.manifests[i].cid == cid
  }

  predicate HasStanding(l: Ledger, cid: Cid) {
    exists i :: 0 <= i < |l.manifests| && Standing(l.manifests[i]) && l.manifests[i].cid == cid
  }

  /** What the sweep asks before it unpins. The two channels are guarded differently: an indexed manifest is
      kept for being active, a POI manifest for standing. */
  predicate Eligible(tables: Tables, cid: Cid, cutoff: Time) {
    && (Stale(tables.indexed, cid, cutoff) || Stale(tables.poi, cid, cutoff))
    && !HasActive(tables.indexed, cid)
    && !RecentlyReferenced(tables.indexed, cid, cutoff)
    && !HasEdge(tables.indexed, cid)
    && !HasStanding(tables.poi, cid)
    && !RecentlyReferenced(tables.poi, cid, cutoff)
    && !HasEdge(tables.poi, cid)
  }

  function SweepRows(l: Ledger, cid: Cid, cutoff: Time): Ledger {
    Ledger(
      seq(|l.manifests|, i requires 0 <= i < |l.manifests| =>
        if StaleManifest(l.manifests[i], cid, cutoff) then l.manifests[i].(unpinned := true) else l.manifests[i]),
      map slot | slot in l.artifacts ::
        if slot.cid == cid && l.artifacts[slot].referenced <= cutoff then l.artifacts[slot].(unpinned := true)
          else l.artifacts[slot],
      l.sequence)
  }

  function SweepCommit(tables: Tables, cid: Cid, cutoff: Time): Tables {
    Pair(
      if HasActive(tables.indexed, cid) || RecentlyReferenced(tables.indexed, cid, cutoff) then tables.indexed
      else SweepRows(tables.indexed, cid, cutoff),
      SweepRows(tables.poi, cid, cutoff))
  }

  predicate ReferencedIn(l: Ledger, cid: Cid) {
    || Live(l, cid)
    || exists i :: 0 <= i < |l.manifests| && !l.manifests[i].unpinned
                   && (l.manifests[i].cid == cid || cid in l.manifests[i].artifacts)
  }

  predicate Referenced(tables: Tables, cid: Cid) {
    ReferencedIn(tables.indexed, cid) || ReferencedIn(tables.poi, cid)
  }
}
