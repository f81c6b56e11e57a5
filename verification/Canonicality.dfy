/** Chain indexing, reorg rewinds and publication under the canonicality lease, in any interleaving. */
module Canonicality {
  import opened Wrappers

  datatype Mark = Mark(block: nat, hash: nat)

  /** Where the indexing task of a chain is: it rewinds only while it holds the reorg lease. */
  datatype Indexer = Resting | Suspecting | Rewinding | Ready(from: nat)

  /** The stored progress and block headers of a chain. */
  datatype Chain = Chain(progress: Option<Mark>, headers: map<nat, nat>, indexer: Indexer)

  /** A publication watermark: the header a manifest claims to be indexed through. */
  datatype Claim = Claim(chain: nat, mark: Mark)

  /** The publisher holds the publication lease unless it is out. */
  datatype Publisher = 
    Out | Leased(claims: seq<Claim>, checked: nat) | Validated(claims: seq<Claim>) | Sent(claims: seq<Claim>)

  /** Each IPNS record being sent holds its own share of the lease, so it outlives a publisher that is cancelled. */
  datatype World = World(chains: seq<Chain>, publisher: Publisher, sending: seq<seq<Claim>>)

  /** Each chain starts at a block and has one contract; a rewind replays at most a batch. */
  datatype Config = Config(starts: seq<nat>, batch: nat)

  datatype Event =
    | Resume(chain: nat, matches: bool)
    | AcquireReorg(chain: nat)
    | Recheck(chain: nat)
    | Rewind(chain: nat, previousHash: nat)
    | Append(chain: nat, to: nat, hash: nat)
    | FailIndexer(chain: nat)
    | Lease(claims: seq<Claim>)
    | Check
    | Refuse
    | StartSend
    | FinishSend(record: nat)
    | Activate
    | Cancel
    | Crash

  function Init(config: Config): World {
    World(seq(|config.starts|, i => Chain(None, map[], Resting)), Out, [])
  }

  predicate HasReader(w: World) {
    !w.publisher.Out? || w.sending != []
  }

  predicate HasWriter(w: World) {
    exists i :: 0 <= i < |w.chains| && w.chains[i].indexer.Rewinding?
  }

  /** The stored header still is the claimed one. */
  predicate Stands(w: World, claim: Claim) {
    && claim.chain < |w.chains|
    && claim.mark.block in w.chains[claim.chain].headers
    && w.chains[claim.chain].headers[claim.mark.block] == claim.mark.hash
  }

  function SaturatingSub(a: nat, b: nat): nat {
    if a < b then 0 else a - b
  }

  function ReplayFrom(config: Config, start: nat, progress: nat): nat {
    Max(SaturatingSub(progress, SaturatingSub(config.batch, 1)), start)
  }

  /** Deletes what was indexed from the replay block on. Progress goes back to the block before it, whose header was
      just fetched again, or away when the replay begins at the first block. */
  function RewindChain(config: Config, start: nat, c: Chain, previousHash: nat): Chain {
    match c.progress
    case None => c.(indexer := Resting)
    case Some(mark) =>
      var replay := ReplayFrom(config, start, mark.block);
      var recorded := if replay > start then c.headers[replay - 1 := previousHash] else c.headers;
      var headers := map block | block in recorded && block < replay :: recorded[block];
      var progress :=
        if mark.block < replay then c.progress
        else if replay > 0 && replay - 1 in recorded then Some(Mark(replay - 1, recorded[replay - 1]))
        else None;
      Chain(progress, headers, Resting)
  }

  function AppendChain(c: Chain, to: nat, hash: nat): Chain {
    Chain(if c.progress.Some? && c.progress.value.block > to then c.progress else Some(Mark(to, hash)),
          c.headers[to := hash], Resting)
  }

  predicate Enabled(config: Config, w: World, e: Event) {
    match e
    case Resume(i, matches) => i < |w.chains| && w.chains[i].indexer.Resting?
    case AcquireReorg(i) => i < |w.chains| && w.chains[i].indexer.Suspecting? && !HasReader(w) && !HasWriter(w)
    case Recheck(i) => i < |w.chains| && w.chains[i].indexer.Rewinding? && w.chains[i].progress.Some?
    case Rewind(i, _) => i < |w.chains| && i < |config.starts| && w.chains[i].indexer.Rewinding?
    case Append(i, to, _) => i < |w.chains| && w.chains[i].indexer.Ready? && w.chains[i].indexer.from <= to
    case FailIndexer(i) => i < |w.chains|
    case Lease(claims) => w.publisher.Out? && !HasWriter(w)
    case Check =>
      w.publisher.Leased? && w.publisher.checked < |w.publisher.claims|
        && Stands(w, w.publisher.claims[w.publisher.checked])
    case Refuse => w.publisher.Leased?
    case StartSend => w.publisher.Validated?
    case FinishSend(record) => record < |w.sending|
    case Activate => w.publisher.Sent?
    case Cancel => true
    case Crash => true
  }

  function SetChain(w: World, i: nat, c: Chain): World
    requires i < |w.chains|
  {
    w.(chains := w.chains[i := c])
  }

  function ResumeChain(config: Config, c: Chain, start: nat, matches: bool): Chain {
    match c.progress
    case None => c.(indexer := Ready(start))
    case Some(mark) => if matches then c.(indexer := Ready(mark.block + 1)) else c.(indexer := Suspecting)
  }

  function StartOf(config: Config, i: nat): nat {
    if i < |config.starts| then config.starts[i] else 0
  }

  function Checked(claims: seq<Claim>, checked: nat): Publisher {
    if checked == |claims| then Validated(claims) else Leased(claims, checked)
  }

  function Apply(config: Config, w: World, e: Event): World
    requires Enabled(config, w, e)
  {
    match e
    case Resume(i, matches) => SetChain(w, i, ResumeChain(config, w.chains[i], StartOf(config, i), matches))
    case AcquireReorg(i) => SetChain(w, i, w.chains[i].(indexer := Rewinding))
    case Recheck(i) => SetChain(w, i, w.chains[i].(indexer := Ready(w.chains[i].progress.value.block + 1)))
    case Rewind(i, previousHash) => SetChain(w, i, RewindChain(config, StartOf(config, i), w.chains[i], previousHash))
    case Append(i, to, hash) => SetChain(w, i, AppendChain(w.chains[i], to, hash))
    case FailIndexer(i) => SetChain(w, i, w.chains[i].(indexer := Resting))
    case Lease(claims) => w.(publisher := Checked(claims, 0))
    case Check => w.(publisher := Checked(w.publisher.claims, w.publisher.checked + 1))
    case Refuse => w.(publisher := Out)
    case StartSend => w.(sending := w.sending + [w.publisher.claims])
    case FinishSend(record) =>
      w.(publisher := if w.publisher == Validated(w.sending[record]) then Sent(w.sending[record]) else w.publisher,
         sending := w.sending[..record] + w.sending[record + 1..])
    case Activate => w.(publisher := Out)
    case Cancel => w.(publisher := Out)
    case Crash =>
      World(seq(|w.chains|, i requires 0 <= i < |w.chains| => w.chains[i].(indexer := Resting)), Out, [])
  }

  // ---------------------------------------------------------------------------------------------
  // The invariant
  // ---------------------------------------------------------------------------------------------

  /** Progress is backed by its stored header, which is the highest one, and the next range begins above it. */
  ghost predicate ChainOk(start: nat, c: Chain) {
    && (forall block :: block in c.headers ==> start <= block)
    && (c.progress.None? ==> c.headers == map[])
    && (c.progress.Some? ==>
          && c.progress.value.block in c.headers && c.headers[c.progress.value.block] == c.progress.value.hash
          && forall block :: block in c.headers ==> block <= c.progress.value.block)
    && (c.indexer.Ready? ==> start <= c.indexer.from && (c.progress.Some? ==> c.progress.value.block < c.indexer.from))
  }

  /** A rewind excludes everybody else. */
  ghost predicate Exclusive(w: World) {
    forall i :: 0 <= i < |w.chains| && w.chains[i].indexer.Rewinding? ==>
      !HasReader(w) && forall j :: 0 <= j < |w.chains| && w.chains[j].indexer.Rewinding? ==> j == i
  }

  ghost predicate AllStand(w: World, claims: seq<Claim>) {
    forall i :: 0 <= i < |claims| ==> Stands(w, claims[i])
  }

  /** What was validated under the lease still stands. */
  ghost predicate ClaimsStand(w: World) {
    && (w.publisher.Leased?
        ==> w.publisher.checked < |w.publisher.claims| && AllStand(w, w.publisher.claims[..w.publisher.checked]))
    && (w.publisher.Validated? || w.publisher.Sent? ==> AllStand(w, w.publisher.claims))
    && (forall i :: 0 <= i < |w.sending| ==> AllStand(w, w.sending[i]))
  }

  ghost predicate Inv(config: Config, w: World) {
    && |w.chains| == |config.starts|
    && (forall i :: 0 <= i < |w.chains| ==> ChainOk(config.starts[i], w.chains[i]))
    && Exclusive(w)
    && ClaimsStand(w)
  }

  /** The headers of every chain are kept, at least. */
  ghost predicate HeadersKept(w: World, after: World) {
    && |after.chains| == |w.chains|
    && forall i, block :: 0 <= i < |w.chains| && block in w.chains[i].headers ==>
         block in after.chains[i].headers && after.chains[i].headers[block] == w.chains[i].headers[block]
  }

  lemma ClaimsKept(w: World, after: World)
    requires ClaimsStand(w) && HeadersKept(w, after)
    requires after.publisher == w.publisher && after.sending == w.sending
    ensures ClaimsStand(after)
  {
    forall claim | Stands(w, claim) ensures Stands(after, claim) {
    }
    hide Stands;
  }

  lemma {:induction false} RewindKeeps(config: Config, start: nat, c: Chain, previousHash: nat)
    requires ChainOk(start, c)
    ensures ChainOk(start, RewindChain(config, start, c, previousHash))
  {
  }

  /** After a rewind nothing indexed from the replay block on is left, what lies below is as it was but for the header
      fetched again, and indexing goes on exactly from the replay block. */
  lemma {:induction false} RewindReplays(config: Config, start: nat, c: Chain, previousHash: nat)
    requires ChainOk(start, c) && c.progress.Some?
    ensures var replay := ReplayFrom(config, start, c.progress.value.block);
            var after := RewindChain(config, start, c, previousHash);
            && start <= replay <= c.progress.value.block
            && (forall block :: block in after.headers ==> block < replay)
            && (forall block ::
                  block in c.headers && block + 1 < replay
                  ==> block in after.headers && after.headers[block] == c.headers[block])
            && after.progress == (if replay > start then Some(Mark(replay - 1, previousHash)) else None)
            && ResumeChain(config, after, start, true).indexer == Ready(replay)
  {
    var replay := ReplayFrom(config, start, c.progress.value.block);
    assert start <= c.progress.value.block;
    assert replay > 0 && replay <= start ==> replay - 1 !in c.headers;
  }

  /** Appending writes no header that was there, and progress moves to the appended block. */
  lemma {:induction false} AppendKeeps(start: nat, c: Chain, to: nat, hash: nat)
    requires ChainOk(start, c) && c.indexer.Ready? && c.indexer.from <= to
    ensures ChainOk(start, AppendChain(c, to, hash))
    ensures to !in c.headers && AppendChain(c, to, hash).progress == Some(Mark(to, hash))
    ensures AppendChain(c, to, hash).headers == c.headers[to := hash]
  {
  }

  /** A step of the indexing task that does not take the lease, or rewinds while it alone holds it. */
  lemma IndexerStep(config: Config, w: World, i: nat, c: Chain)
    requires Inv(config, w) && i < |w.chains| && ChainOk(config.starts[i], c)
    requires c.indexer.Rewinding? ==> !HasReader(w) && !HasWriter(w)
    requires (forall block ::
                block in w.chains[i].headers ==> block in c.headers && c.headers[block] == w.chains[i].headers[block])
             || !HasReader(w)
    ensures Inv(config, SetChain(w, i, c))
  {
    hide ChainOk, Stands;
    var after := SetChain(w, i, c);
    assert HasReader(after) == HasReader(w);
    if HasReader(w) {
      assert HeadersKept(w, after);
      ClaimsKept(w, after);
    }
    assert forall j :: 0 <= j < |w.chains| && j != i ==> after.chains[j] == w.chains[j];
  }

  lemma PublisherStep(config: Config, w: World, e: Event)
    requires Inv(config, w) && Enabled(config, w, e)
    requires e.Lease? || e.Check? || e.Refuse? || e.StartSend? || e.FinishSend? || e.Activate? || e.Cancel?
    ensures Inv(config, Apply(config, w, e))
  {
    hide ChainOk, Stands;
    var after := Apply(config, w, e);
    assert after.chains == w.chains;
    assert forall claim :: Stands(after, claim) == Stands(w, claim) by { SameStands(w, after); }
    if e.Check? {
      assert w.publisher.claims[..w.publisher.checked + 1]
             == w.publisher.claims[..w.publisher.checked] + [w.publisher.claims[w.publisher.checked]];
    }
    assert w.publisher.Leased? && w.publisher.checked + 1 == |w.publisher.claims| ==>
      w.publisher.claims[..w.publisher.checked + 1] == w.publisher.claims;
  }

  lemma SameStands(w: World, after: World)
    requires after.chains == w.chains
    ensures forall claim :: Stands(after, claim) == Stands(w, claim)
  {
  }

  lemma CrashStep(config: Config, w: World)
    requires Inv(config, w)
    ensures Inv(config, Apply(config, w, Crash))
  {
  }

  lemma {:induction false} StepKeeps(config: Config, w: World, e: Event)
    requires Inv(config, w) && Enabled(config, w, e)
    ensures Inv(config, Apply(config, w, e))
  {
    hide Stands, ClaimsStand, RewindChain, AppendChain;
    match e {
      case Resume(i, matches) =>
        IndexerStep(config, w, i, ResumeChain(config, w.chains[i], StartOf(config, i), matches));
      case AcquireReorg(i) => IndexerStep(config, w, i, w.chains[i].(indexer := Rewinding));
      case Recheck(i) => IndexerStep(config, w, i,
                                     w.chains[i].(indexer := Ready(w.chains[i].progress.value.block + 1)));
      case Rewind(i, previousHash) =>
        RewindKeeps(config, config.starts[i], w.chains[i], previousHash);
        assert !RewindChain(config, config.starts[i], w.chains[i], previousHash).indexer.Rewinding?
               by { RewindRests(config, config.starts[i], w.chains[i], previousHash); }
        IndexerStep(config, w, i, RewindChain(config, config.starts[i], w.chains[i], previousHash));
      case Append(i, to, hash) =>
        AppendKeeps(config.starts[i], w.chains[i], to, hash);
        AppendOnly(w.chains[i], to, hash);
        IndexerStep(config, w, i, AppendChain(w.chains[i], to, hash));
      case FailIndexer(i) => IndexerStep(config, w, i, w.chains[i].(indexer := Resting));
      case Crash => CrashStep(config, w);
      case _ => PublisherStep(config, w, e);
    }
  }

  lemma RewindRests(config: Config, start: nat, c: Chain, previousHash: nat)
    ensures RewindChain(config, start, c, previousHash).indexer.Resting?
  {
  }

  lemma AppendOnly(c: Chain, to: nat, hash: nat)
    requires to !in c.headers
    ensures AppendChain(c, to, hash).indexer.Resting?
    ensures forall block :: block in c.headers ==>
              block in AppendChain(c, to, hash).headers && AppendChain(c, to, hash).headers[block] == c.headers[block]
  {
  }

  // ---------------------------------------------------------------------------------------------
  // Runs
  // ---------------------------------------------------------------------------------------------

  ghost predicate Run(config: Config, worlds: seq<World>, events: seq<Event>) {
    && |worlds| == |events| + 1
    && worlds[0] == Init(config)
    && forall i ::
         0 <= i < |events|
         ==> Enabled(config, worlds[i], events[i]) && worlds[i + 1] == Apply(config, worlds[i], events[i])
  }

  lemma {:induction false} RunKeeps(config: Config, worlds: seq<World>, events: seq<Event>, i: nat)
    requires Run(config, worlds, events) && i < |worlds|
    ensures Inv(config, worlds[i])
  {
    if i > 0 {
      hide Inv, Enabled, Apply;
      RunKeeps(config, worlds, events, i - 1);
      StepKeeps(config, worlds[i - 1], events[i - 1]);
    }
  }

  /** Every watermark validated under the lease still has its stored header while the IPNS record is being sent, also
      when the publisher was cancelled meanwhile, and at activation. */
  lemma WatermarksStand(config: Config, worlds: seq<World>, events: seq<Event>, i: nat, claim: Claim)
    requires Run(config, worlds, events) && i < |events|
    requires (events[i].StartSend? && claim in worlds[i].publisher.claims)
             || (events[i].FinishSend? && claim in worlds[i].sending[events[i].record])
             || (events[i].Activate? && claim in worlds[i].publisher.claims)
    ensures Stands(worlds[i], claim)
  {
    RunKeeps(config, worlds, events, i);
    hide ChainOk, Stands;
  }

  /** In every reachable state the progress of a chain is the highest stored header and agrees with it. */
  lemma ProgressBacked(config: Config, worlds: seq<World>, events: seq<Event>, i: nat, chain: nat)
    requires Run(config, worlds, events) && i < |worlds| && chain < |worlds[i].chains|
             && worlds[i].chains[chain].progress.Some?
    ensures Stands(worlds[i], Claim(chain, worlds[i].chains[chain].progress.value))
    ensures forall block ::
              block in worlds[i].chains[chain].headers ==> block <= worlds[i].chains[chain].progress.value.block
  {
    RunKeeps(config, worlds, events, i);
  }
}
