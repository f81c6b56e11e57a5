/** The indexed publisher against the chains it publishes: a manifest states watermarks, which are validated under the
    publication lease before it is pinned and again before it is resumed after a restart. */
module PublicationWatermarks {
  import opened PublicationAudit
  import opened PublicationSteps
  import opened PublicationSafety
  import opened PublicationRecovery
  import Chains = Canonicality

  /** The watermarks a manifest states; its address stands for its content. */
  type Watermarks = Cid -> seq<Chains.Claim>

  datatype Joint = Joint(world: World, chains: Chains.World)

  /** A step of the publication protocol, of an indexing task or towards the lease, or a failed validation. */
  datatype Move = Publishing(step: Event) | Indexing(task: Chains.Event) | Reject

  function Begun(config: Chains.Config): Joint {
    Joint(INIT, Chains.Init(config))
  }

  // ---------------------------------------------------------------------------------------------
  // Moves
  // ---------------------------------------------------------------------------------------------

  /** A step that only concerns a chain. */
  predicate OfChain(e: Chains.Event) {
    e.Resume? || e.AcquireReorg? || e.Recheck? || e.Rewind? || e.Append? || e.FailIndexer?
  }

  /** The lease is taken for the pending manifest found, or for one that is being built. */
  ghost predicate Leasable(claims: Watermarks, w: World, wanted: seq<Chains.Claim>) {
    || PhaseOf(w, Indexed).Building?
    || (PhaseOf(w, Indexed).Idle?
        && exists row: nat ::
             FindsPending(w.tables.indexed, row) && claims(w.tables.indexed.manifests[row].cid) == wanted)
  }

  /** What the indexed publisher must hold for a step: no lease while it builds, validated watermarks to reserve a
      sequence, to pin, resume or send the manifest that states them, and a sent record to confirm. */
  predicate Entitled(claims: Watermarks, w: World, lease: Chains.Publisher, e: Event)
    requires Enabled(w, e)
  {
    match e
    case Begin(ch) => ch.Indexed? ==> lease.Out?
    case TakeArtifact(ch, _, _) => ch.Indexed? ==> lease.Out?
    case Reserve(ch, _, _) => ch.Indexed? ==> lease.Validated?
    case PinManifest(ch, _, body) =>
      ch.Indexed? ==> lease == Chains.Validated(claims(ManifestCid(ch, PhaseOf(w, ch).sequence, body)))
    case Resume(ch, row) => ch.Indexed? ==> lease == Chains.Validated(claims(LedgerOf(w, ch).manifests[row].cid))
    case Send(ch, _) => ch.Indexed? ==> lease.Validated?
    case Confirm(ch, _, _) => ch.Indexed? ==> lease.Sent?
    case _ => true
  }

  ghost predicate Can(config: Chains.Config, claims: Watermarks, j: Joint, move: Move) {
    match move
    case Publishing(e) => Enabled(j.world, e) && Entitled(claims, j.world, j.chains.publisher, e)
    case Indexing(e) =>
      Chains.Enabled(config, j.chains, e)
        && (OfChain(e) || e.Check? || (e.Lease? && Leasable(claims, j.world, e.claims)))
    case Reject => j.chains.publisher.Leased? && Enabled(j.world, Fail(Indexed))
  }

  /** The lease goes when the publisher returns to rest; a record sent holds its own share while it is sent. */
  function LeaseAfter(config: Chains.Config, chains: Chains.World, e: Event, after: World): Chains.World {
    if e.Crash? then Chains.Apply(config, chains, Chains.Crash)
    else if Own(e, Indexed) && PhaseOf(after, Indexed).Idle? then Chains.Apply(config, chains, Chains.Cancel)
    else if e.Send? && e.channel.Indexed? && chains.publisher.Validated? then
      var sending := Chains.Apply(config, chains, Chains.StartSend);
      Chains.Apply(config, sending, Chains.FinishSend(|chains.sending|))
    else chains
  }

  function Do(config: Chains.Config, claims: Watermarks, j: Joint, move: Move): Joint
    requires Can(config, claims, j, move)
  {
    match move
    case Publishing(e) => Joint(Apply(j.world, e), LeaseAfter(config, j.chains, e, Apply(j.world, e)))
    case Indexing(e) => j.(chains := Chains.Apply(config, j.chains, e))
    case Reject => Joint(Apply(j.world, Fail(Indexed)), Chains.Apply(config, j.chains, Chains.Refuse))
  }

  ghost predicate Follow(config: Chains.Config, claims: Watermarks, j: Joint, moves: seq<Move>, after: Joint)
    decreases |moves|
  {
    if moves == [] then after == j
    else Can(config, claims, j, moves[0]) && Follow(config, claims, Do(config, claims, j, moves[0]), moves[1..], after)
  }

  // ---------------------------------------------------------------------------------------------
  // The invariant
  // ---------------------------------------------------------------------------------------------

  /** From its reservation to its confirmation a manifest is covered by the lease on the watermarks it states. */
  ghost predicate Covered(claims: Watermarks, phase: Phase, lease: Chains.Publisher) {
    match phase
    case Reserved(_) => lease.Validated?
    case ManifestHeld(cid, _, _) => lease == Chains.Validated(claims(cid))
    case Recorded(cid, _, _, _, _) => lease == Chains.Validated(claims(cid))
    case Dispatched(cid, _, _, _) => lease == Chains.Sent(claims(cid))
    case _ => true
  }

  ghost predicate JointInv(config: Chains.Config, claims: Watermarks, j: Joint) {
    Inv(j.world) && Chains.Inv(config, j.chains) && Covered(claims, PhaseOf(j.world, Indexed), j.chains.publisher)
  }

  lemma LeaseKeeps(config: Chains.Config, chains: Chains.World, e: Event, after: World)
    requires Chains.Inv(config, chains)
    ensures Chains.Inv(config, LeaseAfter(config, chains, e, after))
  {
    hide Chains.Inv;
    if e.Crash? {
      Chains.StepKeeps(config, chains, Chains.Crash);
    } else if Own(e, Indexed) && PhaseOf(after, Indexed).Idle? {
      Chains.StepKeeps(config, chains, Chains.Cancel);
    } else if e.Send? && e.channel.Indexed? && chains.publisher.Validated? {
      Chains.StepKeeps(config, chains, Chains.StartSend);
      Chains.StepKeeps(config, Chains.Apply(config, chains, Chains.StartSend), Chains.FinishSend(|chains.sending|));
    }
  }

  lemma PublishingCovered(config: Chains.Config, claims: Watermarks, j: Joint, e: Event)
    requires Enabled(j.world, e) && Entitled(claims, j.world, j.chains.publisher, e)
    requires Covered(claims, PhaseOf(j.world, Indexed), j.chains.publisher)
    ensures var after := Apply(j.world, e);
            Covered(claims, PhaseOf(after, Indexed), LeaseAfter(config, j.chains, e, after).publisher)
  {
    hide RecordManifest, Activate, Abandon, Referenced, Eligible, SweepCommit, HasPending, Live, FindsPending;
  }

  lemma MoveKeeps(config: Chains.Config, claims: Watermarks, j: Joint, move: Move)
    requires JointInv(config, claims, j) && Can(config, claims, j, move)
    ensures JointInv(config, claims, Do(config, claims, j, move))
  {
    hide Inv, Chains.Inv, Apply, Enabled;
    match move
    case Publishing(e) =>
      StepKeeps(j.world, e);
      LeaseKeeps(config, j.chains, e, Apply(j.world, e));
      PublishingCovered(config, claims, j, e);
    case Indexing(e) =>
      Chains.StepKeeps(config, j.chains, e);
    case Reject =>
      StepKeeps(j.world, Fail(Indexed));
      Chains.StepKeeps(config, j.chains, Chains.Refuse);
      FailRests(j.world);
  }

  lemma FailRests(w: World)
    requires Enabled(w, Fail(Indexed))
    ensures PhaseOf(Apply(w, Fail(Indexed)), Indexed).Idle?
  {
  }

  lemma BegunInv(config: Chains.Config, claims: Watermarks)
    ensures JointInv(config, claims, Begun(config))
  {
    hide Inv;
    InitInv();
  }

  lemma {:induction false} FollowKeeps(config: Chains.Config, claims: Watermarks, j: Joint, moves: seq<Move>,
                                       after: Joint)
    requires JointInv(config, claims, j) && Follow(config, claims, j, moves, after)
    ensures JointInv(config, claims, after)
    decreases |moves|
  {
    hide JointInv, Can, Do;
    if moves != [] {
      MoveKeeps(config, claims, j, moves[0]);
      FollowKeeps(config, claims, Do(config, claims, j, moves[0]), moves[1..], after);
    }
  }

  lemma CoveredStand(config: Chains.Config, claims: Watermarks, j: Joint)
    requires JointInv(config, claims, j)
             && (PhaseOf(j.world, Indexed).Recorded? || PhaseOf(j.world, Indexed).Dispatched?)
    ensures Chains.AllStand(j.chains, claims(PhaseOf(j.world, Indexed).cid))
  {
    hide Inv, Chains.ChainOk, Chains.Stands, Chains.AllStand;
  }

  lemma SendsCovered(w: World, e: Event)
    requires Enabled(w, e) && (e.Send? || e.Confirm?) && e.channel.Indexed?
    ensures PhaseOf(w, Indexed).Recorded? || PhaseOf(w, Indexed).Dispatched?
  {
  }

  /** In every run of publication, indexing and rewinds, an indexed manifest is sent and confirmed only while every
      watermark it states has its stored header. */
  lemma {:induction false} ConfirmedStand(config: Chains.Config, claims: Watermarks, moves: seq<Move>, j: Joint,
                                          e: Event,
                                          claim: Chains.Claim)
    requires Follow(config, claims, Begun(config), moves, j) && Can(config, claims, j, Publishing(e))
    requires (e.Send? || e.Confirm?) && e.channel.Indexed? && claim in claims(PhaseOf(j.world, Indexed).cid)
    ensures Chains.Stands(j.chains, claim)
  {
    hide JointInv, Follow, Enabled, Chains.Stands;
    BegunInv(config, claims);
    FollowKeeps(config, claims, Begun(config), moves, j);
    SendsCovered(j.world, e);
    CoveredStand(config, claims, j);
  }

  // ---------------------------------------------------------------------------------------------
  // Recovery
  // ---------------------------------------------------------------------------------------------

  /** What the indexed publisher does by itself. */
  predicate OwnMove(move: Move) {
    match move
    case Publishing(e) => Own(e, Indexed)
    case Indexing(e) => e.Lease? || e.Check?
    case Reject => true
  }

  ghost predicate AllOwnMoves(moves: seq<Move>) {
    forall i :: 0 <= i < |moves| ==> OwnMove(moves[i])
  }

  /** The publisher is at rest without a lease and finds this row pending; nobody is inside the lock or rewinding. */
  ghost predicate Waiting(config: Chains.Config, claims: Watermarks, j: Joint, row: nat) {
    && JointInv(config, claims, j) && Restarted(j.world, Indexed, row) && LockFree(j.world)
    && j.chains.publisher.Out? && !Chains.HasWriter(j.chains)
  }

  lemma FollowOne(config: Chains.Config, claims: Watermarks, j: Joint, move: Move)
    requires Can(config, claims, j, move)
    ensures Follow(config, claims, j, [move], Do(config, claims, j, move))
  {
    hide Can, Do;
    assert [move][1..] == [];
  }

  lemma {:induction false} FollowOn(config: Chains.Config, claims: Watermarks, j: Joint, a: seq<Move>, middle: Joint,
                                    b: seq<Move>, after: Joint)
    requires Follow(config, claims, j, a, middle) && Follow(config, claims, middle, b, after)
    ensures Follow(config, claims, j, a + b, after)
    decreases |a|
  {
    hide Can, Do;
    if a == [] {
      assert a + b == b;
    } else {
      FollowOn(config, claims, Do(config, claims, j, a[0]), a[1..], middle, b, after);
      assert (a + b)[1..] == a[1..] + b;
    }
  }

  /** Standing watermarks pass the rest of their validation. */
  lemma {:induction false} CheckAll(config: Chains.Config, claims: Watermarks, j: Joint)
      returns (moves: seq<Move>, after: Joint)
    requires JointInv(config, claims, j) && j.chains.publisher.Leased?
             && Chains.AllStand(j.chains, j.chains.publisher.claims)
    requires j.chains.publisher.checked < |j.chains.publisher.claims|
    ensures AllOwnMoves(moves) && Follow(config, claims, j, moves, after)
    ensures after == j.(chains := j.chains.(publisher := Chains.Validated(j.chains.publisher.claims)))
    decreases |j.chains.publisher.claims| - j.chains.publisher.checked
  {
    var check := Indexing(Chains.Check);
    var lease := j.chains.publisher;
    assert Can(config, claims, j, check);
    var next := Do(config, claims, j, check);
    FollowOne(config, claims, j, check);
    if lease.checked + 1 == |lease.claims| {
      return [check], next;
    }
    MoveKeeps(config, claims, j, check);
    assert next == j.(chains := j.chains.(publisher := Chains.Leased(lease.claims, lease.checked + 1)));
    assert Chains.AllStand(next.chains, lease.claims) by { Chains.SameStands(j.chains, next.chains); }
    hide JointInv, Can, Do, Follow;
    var rest;
    rest, after := CheckAll(config, claims, next);
    FollowOn(config, claims, j, [check], next, rest, after);
    moves := [check] + rest;
  }

  /** The publisher takes the lease and validates the watermarks of its pending manifest. */
  lemma Validate(config: Chains.Config, claims: Watermarks, j: Joint, row: nat) returns (moves: seq<Move>, after: Joint)
    requires Waiting(config, claims, j, row)
    requires Chains.AllStand(j.chains, claims(j.world.tables.indexed.manifests[row].cid))
    ensures AllOwnMoves(moves) && Follow(config, claims, j, moves, after)
    ensures var wanted := claims(j.world.tables.indexed.manifests[row].cid);
            after == j.(chains := j.chains.(publisher := Chains.Validated(wanted)))
  {
    var wanted := claims(j.world.tables.indexed.manifests[row].cid);
    var lease := Indexing(Chains.Lease(wanted));
    assert Can(config, claims, j, lease);
    var leased := Do(config, claims, j, lease);
    FollowOne(config, claims, j, lease);
    MoveKeeps(config, claims, j, lease);
    assert leased == j.(chains := j.chains.(publisher := Chains.Checked(wanted, 0)));
    if wanted == [] {
      return [lease], leased;
    }
    assert Chains.AllStand(leased.chains, wanted) by { Chains.SameStands(j.chains, leased.chains); }
    hide JointInv, Can, Do, Follow;
    var rest;
    rest, after := CheckAll(config, claims, leased);
    FollowOn(config, claims, j, [lease], leased, rest, after);
    moves := [lease] + rest;
  }

  /** The publisher is back at the pending manifest, with its watermarks validated. */
  ghost predicate Covers(claims: Watermarks, j: Joint, row: nat) {
    && row == |j.world.tables.indexed.manifests| - 1
    && j.chains.publisher == Chains.Validated(claims(j.world.tables.indexed.manifests[row].cid))
  }

  lemma ResumeMove(config: Chains.Config, claims: Watermarks, j: Joint, row: nat)
    requires JointInv(config, claims, j) && Restarted(j.world, Indexed, row) && LockFree(j.world)
             && Covers(claims, j, row)
    requires j.world.tables.indexed.manifests[row].artifacts <= j.world.pins
    ensures Can(config, claims, j, Publishing(Resume(Indexed, row)))
    ensures var after := Do(config, claims, j, Publishing(Resume(Indexed, row)));
            var phase := PhaseOf(after.world, Indexed);
            && JointInv(config, claims, after) && row == |after.world.tables.indexed.manifests| - 1
            && phase.Recorded? && phase.checked == phase.artifacts + {phase.cid} && after.chains.publisher.Validated?
  {
    var move := Publishing(Resume(Indexed, row));
    hide JointInv, Inv, LockFree;
    assert Can(config, claims, j, move);
    MoveKeeps(config, claims, j, move);
  }

  lemma SendMove(config: Chains.Config, claims: Watermarks, j: Joint)
    requires JointInv(config, claims, j) && PhaseOf(j.world, Indexed).Recorded? && j.chains.publisher.Validated?
    requires PhaseOf(j.world, Indexed).checked == PhaseOf(j.world, Indexed).artifacts + {PhaseOf(j.world, Indexed).cid}
    ensures Can(config, claims, j, Publishing(Send(Indexed, true)))
    ensures var after := Do(config, claims, j, Publishing(Send(Indexed, true)));
            && JointInv(config, claims, after) && after.world.tables == j.world.tables
            && PhaseOf(after.world, Indexed).Dispatched?
  {
    var move := Publishing(Send(Indexed, true));
    hide JointInv;
    assert Can(config, claims, j, move);
    MoveKeeps(config, claims, j, move);
  }

  lemma ConfirmMove(config: Chains.Config, claims: Watermarks, j: Joint, now: Time)
    requires JointInv(config, claims, j) && PhaseOf(j.world, Indexed).Dispatched?
    ensures Can(config, claims, j, Publishing(Confirm(Indexed, now, true)))
    ensures var after := Do(config, claims, j, Publishing(Confirm(Indexed, now, true))).world.tables.indexed;
            && |after.manifests| == |j.world.tables.indexed.manifests| > 0
            && Active(after.manifests[|after.manifests| - 1])
  {
    hide Inv, Chains.Inv, Apply, Active, HasPending;
    ConfirmNow(j.world, Indexed, now);
  }

  lemma IndexedRecovers(config: Chains.Config, claims: Watermarks, j: Joint, row: nat, now: Time)
    returns (moves: seq<Move>, after: Joint)
    requires Waiting(config, claims, j, row) && j.world.tables.indexed.manifests[row].artifacts <= j.world.pins
    requires Chains.AllStand(j.chains, claims(j.world.tables.indexed.manifests[row].cid))
    ensures AllOwnMoves(moves) && Follow(config, claims, j, moves, after)
    ensures row < |after.world.tables.indexed.manifests| && Active(after.world.tables.indexed.manifests[row])
  {
    hide JointInv, Can, Do, Follow, Restarted, LockFree, Active;
    var before, validated := Validate(config, claims, j, row);
    assert JointInv(config, claims, validated) by { FollowKeeps(config, claims, j, before, validated); }
    PendingIsLast(j.world, Indexed, row);
    var resume, send := Publishing(Resume(Indexed, row)), Publishing(Send(Indexed, true));
    var confirm := Publishing(Confirm(Indexed, now, true));
    ResumeMove(config, claims, validated, row);
    var resumed := Do(config, claims, validated, resume);
    SendMove(config, claims, resumed);
    var sent := Do(config, claims, resumed, send);
    ConfirmMove(config, claims, sent, now);
    after := Do(config, claims, sent, confirm);
    FollowOne(config, claims, validated, resume);
    FollowOne(config, claims, resumed, send);
    FollowOne(config, claims, sent, confirm);
    FollowOn(config, claims, j, before, validated, [resume], resumed);
    FollowOn(config, claims, j, before + [resume], resumed, [send], sent);
    FollowOn(config, claims, j, before + [resume] + [send], sent, [confirm], after);
    moves := before + [resume] + [send] + [confirm];
  }

  /** A publisher at rest with a pending manifest can only resume it; nothing else it does changes the world. */
  lemma RestingStep(w: World, row: nat, e: Event)
    requires PhaseOf(w, Indexed).Idle? && HasPending(w.tables.indexed) && Enabled(w, e) && Own(e, Indexed)
    requires forall other: nat :: FindsPending(w.tables.indexed, other) ==> other == row
    ensures e == Resume(Indexed, row) || Apply(w, e) == w
  {
    hide Eligible, Referenced, Live, HasPending, FindsPending;
  }

  /** The manifest cannot be resumed: an artifact is not pinned, or a watermark lost its header or its chain. */
  ghost predicate Blocked(claims: Watermarks, j: Joint, row: nat)
    requires row < |j.world.tables.indexed.manifests|
  {
    var m := j.world.tables.indexed.manifests[row];
    !(m.artifacts <= j.world.pins) || !Chains.AllStand(j.chains, claims(m.cid))
  }

  lemma StuckMove(config: Chains.Config, claims: Watermarks, j: Joint, row: nat, move: Move)
    requires JointInv(config, claims, j) && Restarted(j.world, Indexed, row) && Blocked(claims, j, row)
    requires OwnMove(move) && Can(config, claims, j, move)
    ensures var after := Do(config, claims, j, move); after.world == j.world && after.chains.chains == j.chains.chains
  {
    PendingIsLast(j.world, Indexed, row);
    match move
    case Publishing(e) =>
      assert e != Resume(Indexed, row) by { NotResumed(config, claims, j, row); }
      hide Inv, Chains.Inv;
      RestingStep(j.world, row, e);
    case Indexing(e) =>
      hide Inv, Chains.Inv;
    case Reject =>
      hide Inv, Chains.Inv;
  }

  lemma NotResumed(config: Chains.Config, claims: Watermarks, j: Joint, row: nat)
    requires JointInv(config, claims, j) && Restarted(j.world, Indexed, row) && Blocked(claims, j, row)
    ensures !Can(config, claims, j, Publishing(Resume(Indexed, row)))
  {
    hide Inv, Chains.ChainOk, Chains.Stands, Chains.AllStand;
  }

  /** While an artifact of its pending manifest is not pinned, or a watermark does not stand, nothing the indexed
      publisher does changes anything stored: it neither resumes nor begins anew. */
  lemma {:induction false} IndexedStuck(config: Chains.Config, claims: Watermarks, j: Joint, row: nat, moves: seq<Move>,
                                        after: Joint)
    requires JointInv(config, claims, j) && Restarted(j.world, Indexed, row) && Blocked(claims, j, row)
    requires AllOwnMoves(moves) && Follow(config, claims, j, moves, after)
    ensures after.world == j.world && after.chains.chains == j.chains.chains
    decreases |moves|
  {
    if moves != [] {
      var next := Do(config, claims, j, moves[0]);
      StuckMove(config, claims, j, row, moves[0]);
      MoveKeeps(config, claims, j, moves[0]);
      Chains.SameStands(j.chains, next.chains);
      hide JointInv, Can, Do, Restarted, Chains.Stands;
      IndexedStuck(config, claims, next, row, moves[1..], after);
    }
  }

  /** After a restart the indexed publisher can bring its pending manifest into force by itself if and only if all its
      artifacts are pinned and every watermark it states still has its stored header. */
  lemma {:induction false} IndexedRecovery(config: Chains.Config, claims: Watermarks, j: Joint, row: nat)
    requires Waiting(config, claims, j, row)
    ensures (exists moves, after ::
               && AllOwnMoves(moves) && Follow(config, claims, j, moves, after)
               && row < |after.world.tables.indexed.manifests| && Active(after.world.tables.indexed.manifests[row]))
            <==> && j.world.tables.indexed.manifests[row].artifacts <= j.world.pins
                 && Chains.AllStand(j.chains, claims(j.world.tables.indexed.manifests[row].cid))
  {
    assert !Active(j.world.tables.indexed.manifests[row]);
    hide JointInv, Follow, AllOwnMoves, Active, Restarted, LockFree, Chains.AllStand;
    if Blocked(claims, j, row) {
      forall moves, after | AllOwnMoves(moves) && Follow(config, claims, j, moves, after)
        ensures after.world == j.world
      {
        IndexedStuck(config, claims, j, row, moves, after);
      }
    } else {
      var moves, after := IndexedRecovers(config, claims, j, row, 0);
    }
  }
}
