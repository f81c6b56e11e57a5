# Railgun indexer: verified model

The Railgun indexer reads a privacy contract's logs from EVM chains, rebuilds the public transactions behind them, cuts
what it has indexed into content-addressed artifacts, and publishes signed manifests of those artifacts over IPFS pins
and IPNS names. This project models the four parts where its correctness is decided, and proves what they promise for
all inputs, runs and interleavings.

**Logs to transactions** (`ActionLogs`, `ActionForest`, `ActionRebuild`, `ActionConservation`, `OutputMatch`,
`OutputPositions`, `ParsedPositions`, `PositionExamples`, `Hydration`, `HydrationOrder`, `CalldataAgreement`,
`CallTraces`, `FilterPlan`). A flat stream of logs is parsed with an explicit stack into nested Railgun calls. An
emitter over call forests is the other direction: parsing its logs gives the forest's transactions back, and nothing
else is accepted. On top of it stand conservation of nullifiers, commitments and unshields, the exact condition under
which greedy output matching is right, agreement with the calldata path, agreement of the flat with the recursive trace
collector, and the planning of log filters.

**Publication, audit and retention** (`PublicationAudit`, `PublicationSteps`, `PublicationLedger`, `PublicationChannel`,
`PublicationSafety`, `PublicationRuns`, `PublicationAbandonment`, `PublicationRecovery`, `PublicationRetention`,
`PinOwnership`, `Canonicality`, `PublicationWatermarks`, `PublicationExamples`). Two publishers, the retention sweeper,
failed-publication cleanup, the pin provider and crashes run as one state machine over the audit tables. The
pin-lifecycle lock is split at each provider call and commit, so that activation and abandonment, which do not take it,
and crashes can fall in between. The canonicality lease between publication and reorg rewinds is a second state machine,
and the indexed publisher is run jointly with it.

**POI v4 graph** (`PoiGraph`, `PoiPublication`, `PoiStore`, `PoiHistory`, `PoiRuns`, `PoiClocks`, `PoiExamples`).
Checkpoint, tail and bridges over an event corpus, rebuilt at each publication from what the event store holds.

**Formats and loops** (`MerkleRoot`, `ByteCodec`, `PayloadCodec`, `WalletCodec`, `CheckpointAgreement`, `Catalogs`).

Loops and in-place updates of the source are methods and classes here, each proved against a specification function or
directly against what it promises; expressions and walks are functions; the concurrent protocols are steps over values.

Assumptions, where the source relies on code or services outside the repository:

- Hashes (Poseidon, SHA-256, the transaction id, tree roots) are function parameters. Nothing is assumed of them but in
  two lemmas that say when a comparison of hashes is exact: `PoiHistory.RootCheckExact`, where the root of a tree tells
  leaf lists of one length apart (`TreeBinding`), and `CheckpointAgreement.CheckpointReadsBack`, where nodes and their
  bytes are one to one. The soundness of POI graphs and the growth of the published corpora use no such assumption.
- Content addresses are collision-free: a CID is modelled as the content it addresses, and a manifest's content names
  its channel and sequence. The POI channel's supersede rule compares addresses only, so its uniqueness rests on this.
- One process publishes, as the publisher lock of bins/railgun-indexer/src/main.rs ensures, and one contract is indexed
  per chain in `Canonicality`.
- The chunk planner groups items in order into nonempty groups (`Catalogs.Plans`). The artifact contract of the POI
  crate is the pair of parameters `fits` and `valid`; its limits are parameters too. Whether it refuses a graph with a
  gap in its bridges is left open: `PoiHistory.PublicationKeeps` says when such a graph comes about.
- Times are whole numbers and may run backwards unless a lemma says otherwise.

Where the code and its comments differ, the code is followed. What the model makes precise and the comments do not:

- The log grammar admits Nullified logs earlier than directly before their Action (`AcceptsSomeUnemitted`).
- Abandoning a pending POI manifest can leave the active one without a live artifact row (`AbandonedShared`, reached in
  `AbandonedReachable`). The graph in force is then hidden from the next publication, which can publish a shorter corpus
  when it reads an upstream whose tip does not cover the published one, and only then (`HiddenShrinks`,
  `GrowsIffCovered`).
- A pending indexed manifest stops its publisher while one of its artifacts is missing or one of its watermarks does not
  stand (`IndexedRecovery`, `RewoundWatermark`).
- The root check before a POI publication compares the commitments of the last tree and nothing else (`RootCheckExact`,
  `RootMissesSignatures`). By itself it would admit another history; that published corpora continue one another comes
  from the event store (`PublishedComparable`).
- Bridge times that go back can leave a gap in the chain of bridges (`ExpiredMiddle`, `PublicationKeeps`). A clock that
  never goes back rules this out, unless a hidden publication shortened the corpus before (`ClockedSound`,
  `ClockNotEnough`).
- Rows are placed by the unshield commitments that calldata states, and a stated commitment equal to the next emitted
  hash fails the rebuild even when the logs derive another one (`StatedDecides`).

## Model

| member | source | states |
|---|---|---|
| ActionLogs.TransactionsFromFrame | crates/railgun-indexer-core/src/chain_logs.rs:1996-2068 | the loop that cuts a call's Transact hashes and Unshields into per-configuration transactions computes `FrameTransactions`, with the same first error |
| ActionLogs.SplitFrame | crates/railgun-indexer-core/src/chain_logs.rs:2010-2058 | the loop alone computes `SplitUpTo` over as many configurations as have a Nullified log |
| ActionLogs.ConsumeLog | crates/railgun-indexer-core/src/chain_logs.rs:1895-1955 | one log, read against the stack of open calls, computes `Consume`, error cases included |
| ActionLogs.CloseCompleted | crates/railgun-indexer-core/src/chain_logs.rs:1957-1968 | a call without commitments is closed at its last Unshield: computes `CloseTop` |
| ActionLogs.ParseLogs | crates/railgun-indexer-core/src/chain_logs.rs:1882-1993 | the whole stack parser computes `Parse`, whose language and answers the lemmas below characterise |
| ActionLogs.RunConcat | crates/railgun-indexer-core/src/chain_logs.rs:1882-1993 | parsing a stream is parsing its first part and going on from the state reached, errors included |
| ActionForest.ParseEmission | crates/railgun-indexer-core/src/chain_logs.rs:1875-1993 | for every well-formed forest of nested calls, parsing the logs it emits succeeds and returns exactly each call's transactions, grouped in completion order |
| ActionForest.RunItems | crates/railgun-indexer-core/src/chain_logs.rs:1895-1968 | from any parser state whose open calls can take them, reading the logs of a list of nested calls, shields and Unshields adds exactly the calls' groups and hands the Unshields to the open call |
| ActionForest.RunCall | crates/railgun-indexer-core/src/chain_logs.rs:1895-1968 | the same for one call with everything nested in it, whether it ends with a Transact or at its last Unshield |
| ActionRebuild.AcceptedIffEmitted | crates/railgun-indexer-core/src/chain_logs.rs:1875-1993 | the converse: a stream is accepted if and only if, once each Nullified log is moved down to its Action, it is the emission of a well-formed forest, and the answer is that forest's transactions |
| ActionRebuild.AcceptedIffEmittedAdjacent | crates/railgun-indexer-core/src/chain_logs.rs:1875-1993 | for streams whose Nullified logs already stand before their Action: accepted if and only if emitted by some well-formed forest |
| ActionRebuild.AcceptsSomeUnemitted | crates/railgun-indexer-core/src/chain_logs.rs:1894-1912 | a concrete accepted stream that no forest emits: a Nullified log read before the end of an outer call |
| ActionRebuild.EmittedIffAdjacent | crates/railgun-indexer-core/src/chain_logs.rs:1894-1912 | of the accepted streams exactly those are emitted by a forest as they stand in which every Nullified log is followed by another or by its Action |
| ActionRebuild.ParseSettled | crates/railgun-indexer-core/src/chain_logs.rs:1894-1912 | moving Nullified logs down to their Action does not change the parse |
| ActionRebuild.OpenCallsAwait | crates/railgun-indexer-core/src/chain_logs.rs:1957-1968 | after every log each open call still waits for an Unshield or a Transact, so closing at most one call per log is enough |
| ActionRebuild.FrameOkFits | crates/railgun-indexer-core/src/chain_logs.rs:1996-2068 | a call is cut into transactions only if its Nullified logs, Unshields and hashes are as many as its configurations ask for |
| ActionConservation.ParseConserves | crates/railgun-indexer-core/src/chain_logs.rs:1888-1993 | over every accepted stream: record indexes are a permutation of 0..n-1, record i carries the i-th Nullified log and configuration, the non-unshield commitments in completion order are the Transact hashes in log order, and every Unshield is used exactly once |
| ActionConservation.ReadBackAccepted | crates/railgun-indexer-core/src/chain_logs.rs:1810-1870 | a stream read back from per-nullifier rows is still accepted if and only if no Nullified log was empty, and is then the same stream |
| ActionConservation.TransactsCarryHashes | crates/railgun-indexer-core/src/chain_logs.rs:1810-1870 | in an accepted stream no Transact log is empty, so none is lost when rows are stored |
| OutputMatch.MatchedOutputStart | crates/railgun-indexer-core/src/chain_logs.rs:1533-1640 | the greedy cursor loop computes `Match`, whose results `PositionsExact` characterises |
| OutputMatch.PublicTransactions | crates/railgun-indexer-core/src/chain_logs.rs:1243-1386 | the loop over a call's transactions computes `PublicRows`, including the check that every emitted output was consumed |
| OutputMatch.EventPositionGlobal | crates/railgun-indexer-core/src/chain_logs.rs:2341-2385 | normalising an event position moves no leaf: its global position is the start plus the index, also across the 65536-leaf boundary |
| OutputMatch.NormalizeGlobal | crates/railgun-indexer-core/src/chain_logs.rs:2354-2369 | splitting a global position into tree and leaf and joining it again is the identity |
| OutputPositions.PositionsExact | crates/railgun-indexer-core/src/chain_logs.rs:1343-1386 | every output is consumed and every row stands at its own first output (an unshield-only one at the next free leaf, the sentinel only when nothing was emitted) if and only if no unshield commitment equals the next emitted hash and each transaction has an output or an unshield |
| OutputPositions.ClashMisplaces | crates/railgun-indexer-core/src/chain_logs.rs:1542-1556 | the failing family: when an unshield commitment equals the next emitted hash and matching still succeeds, some row is misplaced |
| OutputPositions.ClashExample | crates/railgun-indexer-core/src/chain_logs.rs:1542-1556 | a concrete call with such a clash |
| ParsedPositions.StreamPlaced | crates/railgun-indexer-core/src/chain_logs.rs:484-564 | over the whole Action branch, for every stream whose Transact logs emitted at consecutive leaves: the rebuild succeeds and every final row, found at its record, stands at its own first output if and only if calldata does not contradict the logs, no unshield commitment that is matched (as calldata states it when something unshields) equals the next hash emitted in its call, and every configuration has an output or an unshield |
| ParsedPositions.MatchedHanded | crates/railgun-indexer-core/src/chain_logs.rs:2113-2197 | taking unshield commitments from calldata leaves each call the hashes of its own Transact log |
| PositionExamples.StatedDecides | crates/railgun-indexer-core/src/chain_logs.rs:494-546 | a concrete stream whose Unshield log and calldata may differ: a clash with the derived commitment does no harm, and one with the stated commitment makes the rebuild fail without a derived clash |
| ParsedPositions.RunHanded | crates/railgun-indexer-core/src/chain_logs.rs:1895-1993 | the parser hands each call exactly the hashes of the Transact log that completed it |
| Hydration.ResolveUnshieldCommitments | crates/railgun-indexer-core/src/chain_logs.rs:2113-2197 | the loop that takes unshield commitments from calldata computes `ResolveUnshields`, contradictions included |
| Hydration.ResolveGroupRows | crates/railgun-indexer-core/src/chain_logs.rs:2125-2195 | the inner loop over one call's transactions computes `ResolveRows` |
| HydrationOrder.RowsInActionOrder | crates/railgun-indexer-core/src/chain_logs.rs:484-564 | every successful rebuild has one row per configuration; row i is numbered i and carries the nullifiers, input tree and bound parameters of the i-th Nullified log and configuration |
| HydrationOrder.RowsAtRecords | crates/railgun-indexer-core/src/chain_logs.rs:541-562 | every row matched for a call is found in the result at its record index, unchanged but for its number |
| HydrationOrder.SortSorts | crates/railgun-indexer-core/src/chain_logs.rs:551-562 | sorting by record index yields a sorted permutation |
| HydrationOrder.RowsOfGroups | crates/railgun-indexer-core/src/chain_logs.rs:534-562 | matching call by call, sorting and renumbering computes `ActionRows` |
| HydrationOrder.HydrateActionLogs | crates/railgun-indexer-core/src/chain_logs.rs:484-564 | the Action branch as a whole computes `LogPath`; calldata is read only when some transaction unshields |
| CalldataAgreement.LogsAgreeWithCalldata | crates/railgun-indexer-core/src/chain_logs.rs:484-564 | for every single-call outer transaction with distinct nonempty nullifier lists, the rows rebuilt from its logs, unshields resolved from calldata, are the rows decoded from calldata, whatever the Unshield logs derive |
| CalldataAgreement.ParsedCall | crates/railgun-indexer-core/src/chain_logs.rs:1882-1993 | such a call parses to one group of transactions, one per calldata transaction |
| CalldataAgreement.ResolveRowsGives | crates/railgun-indexer-core/src/chain_logs.rs:2113-2197 | resolving replaces each derived unshield commitment by the one in calldata, so that the transaction becomes the calldata one |
| CallTraces.CollectTrace | crates/railgun-indexer-core/src/chain_logs.rs:1189-1225 | the flat collector's two loops compute `CollectFlat` |
| CallTraces.FlatAgreesWithRecursive | crates/railgun-indexer-core/src/chain_logs.rs:1167-1225 | for every call tree with reverts at any depth, filtering its flat listing by failed path prefixes collects the same transactions in the same order as the recursive walk, and fails exactly when it does |
| CallTraces.OrderIrrelevant | crates/railgun-indexer-core/src/chain_logs.rs:1189-1225 | listing the same frames in another order changes neither success nor the multiset of transactions collected |
| CallTraces.ListingCollects | crates/railgun-indexer-core/src/chain_logs.rs:1167-1225 | the same agreement below any call, given the failed paths around it |
| FilterPlan.PlanFilters | crates/railgun-indexer-core/src/chain_logs.rs:178-264 | for every range and era configuration the filters request exactly the topics of each block, told by the block alone, each once; only at the first V2 block two legacy topics come on top, for exactly the ranges `LegacyAtV2Start` names |
| FilterPlan.PlanCombined | crates/railgun-indexer-core/src/chain_logs.rs:203-217 | the same for a range inside one era |
| FilterPlan.PlanV2 | crates/railgun-indexer-core/src/chain_logs.rs:232-250 | the transaction and shield filters of a range that crosses eras |
| FilterPlan.PlanBatches | bins/railgun-indexer/src/chain_indexed.rs:487-490 | cutting a range into consecutive batches of any spans requests at every block exactly the topics of the block, each once, and on top the legacy topics at the first V2 block if and only if some batch meets `LegacyAtV2Start` |
| FilterPlan.BatchesTile | bins/railgun-indexer/src/chain_indexed.rs:484-490 | the batches follow one another without a gap, and stop early only at the head |
| FilterPlan.CutMatters | crates/railgun-indexer-core/src/chain_logs.rs:220-230 | cutting a range changes what is requested if and only if it concerns the legacy topics at the first V2 block and one side alone asks for them |
| PublicationLedger.RecordKeeps | crates/railgun-indexer-core/src/audit.rs:638-716 | recording a manifest keeps sequences rising, leaves it as the last and only pending row and touches no other row |
| PublicationLedger.ActivateKeeps | crates/railgun-indexer-core/src/audit.rs:718-770 | activating the awaited manifest always succeeds, makes it the one active row, leaves no other row standing and none pending |
| PublicationLedger.AbandonKeeps | crates/railgun-indexer-core/src/audit.rs:296-333 | abandoning the pending manifest succeeds, leaves none pending, and changes which rows stand or are active in no way |
| PublicationLedger.SweepKeeps | crates/railgun-indexer-core/src/audit.rs:1516-1603 | marking a swept address touches no row that is pending, active or standing |
| PublicationLedger.SweepSettles | crates/railgun-indexer-core/src/audit.rs:1516-1603 | a swept address has no live row left in either channel and is not a candidate again |
| PublicationLedger.EligibleUnguarded | crates/railgun-indexer-core/src/audit.rs:1413-1504 | an address the sweep finds eligible is needed by no standing manifest of either channel, also not by a pending indexed one, about which the query does not ask |
| PublicationLedger.UnreferencedUnguarded | crates/railgun-indexer-core/src/audit.rs:257-285 | an address nothing references is needed by no standing manifest |
| PublicationChannel.NextIsNewer | bins/railgun-indexer/src/chain_indexed.rs:1849-1868 | the next sequence is above every recorded manifest and every record sent, whichever way the last one was learnt |
| PublicationChannel.SendOrdered | bins/railgun-indexer/src/main.rs:1468-1512 | sending the record of the awaited manifest keeps the IPNS log in order |
| PublicationSafety.StepKeeps | bins/railgun-indexer/src/main.rs:737-815 | every step of publishers, sweeper, cleanup, crash and provider keeps the protocol invariant |
| PublicationRuns.UnpinSafety | crates/railgun-indexer-core/src/audit.rs:1413-1603 | over every interleaving, with failures and crashes anywhere: from the commit of a manifest until it is superseded no step asks the provider to unpin its address or that of any artifact it references |
| PublicationRuns.ActiveServed | bins/railgun-indexer/src/chain_indexed.rs:849-945 | in every reachable state the active manifest of a channel and all its artifacts are pinned, except for pins the provider lost by itself |
| PublicationRuns.NothingLost | bins/railgun-indexer/src/chain_indexed.rs:849-945 | with a provider that keeps its pins there is no exception |
| PublicationRuns.SentServed | bins/railgun-indexer/src/main.rs:1468-1512 | an IPNS record is sent only for the pending manifest, and only when it and all its artifacts are kept in that sense |
| PublicationRuns.ChannelHistory | crates/railgun-indexer-core/src/audit.rs:1206-1252 | per channel, over whole runs: at most one pending and at most one active manifest, IPNS sequences never decrease, and an equal sequence means the same manifest |
| PublicationRuns.ActivationNewest | crates/railgun-indexer-core/src/audit.rs:1254-1299 | every activation is of a sequence above that of all other rows, so above every invalidated one, and leaves it alone standing |
| PublicationRuns.ReservedIsNewer | crates/railgun-indexer-core/src/store.rs:553-573 | a reserved sequence is above every recorded manifest, and above every IPNS record sent, whatever the clock does and even after a misreported write |
| PublicationRuns.PendingIsStored | bins/railgun-indexer/src/chain_indexed.rs:972-1050 | unless a sequence write was misreported, a pending indexed manifest has the stored sequence, so adopting it after reconciliation instead of loading is sound |
| PublicationRuns.SettledPins | bins/railgun-indexer/src/main.rs:1624-1667 | when the lease of a pin is settled, the pin is referenced by the tables, gone from the provider, or in cleanup debt |
| PublicationAbandonment.AbandonKeepsLive | crates/railgun-indexer-core/src/audit.rs:307-331 | abandonment leaves every artifact of the manifests in force a live row if and only if the artifact found unavailable is not one the active manifest shares |
| PublicationAbandonment.AbandonedShared | crates/railgun-indexer-core/src/audit.rs:307-331 | a concrete ledger where it does not |
| PublicationExamples.AbandonedReachable | crates/railgun-indexer-core/src/audit.rs:296-333 | a run from the start that reaches this ledger and loses the row |
| PublicationAbandonment.RunLive | crates/railgun-indexer-core/src/audit.rs:638-716 | in every run that abandons no manifest over a shared artifact, the active and pending manifests have a live row for each artifact |
| PublicationRecovery.PoiRecovery | bins/railgun-indexer/src/main.rs:1523-1596 | after a restart the POI publisher always gets past its pending manifest by itself: activated when everything it needs is pinned, invalidated otherwise |
| PublicationWatermarks.ConfirmedStand | bins/railgun-indexer/src/chain_indexed.rs:849-945 | in every joint run of publication, indexing, rewinds and crashes, an indexed manifest is sent and confirmed only while each watermark it states has its stored header |
| PublicationWatermarks.MoveKeeps | bins/railgun-indexer/src/chain_indexed.rs:849-1050 | every joint step keeps that a manifest pinned or resumed holds validated watermarks under the lease |
| PublicationWatermarks.IndexedRecovery | bins/railgun-indexer/src/chain_indexed.rs:972-1076 | after a restart the indexed publisher can bring its pending manifest into force by its own moves if and only if all its artifacts are pinned and every watermark it states is of a configured chain and has its stored header |
| PublicationWatermarks.IndexedStuck | bins/railgun-indexer/src/chain_indexed.rs:990-996 | the failing half: while an artifact is missing or a watermark does not stand, no sequence of its own moves changes anything stored: it neither resumes nor begins anew |
| PublicationExamples.RewoundWatermark | bins/railgun-indexer/src/chain_indexed.rs:689-725 | a run from the start that ends with a pending manifest, all artifacts pinned, and its watermark rewound, so that its publisher is stuck |
| PublicationRetention.Retention.RetryPinCleanupDebt | crates/railgun-indexer-core/src/audit.rs:1615-1669 | the debt loop drops debts of referenced addresses, pays those the provider unpins, keeps the others with one more attempt, and unpins nothing referenced |
| PublicationRetention.Retention.Sweep | crates/railgun-indexer-core/src/audit.rs:1407-1605 | the sweep loop unpins only candidates no standing manifest needs, and what standing manifests need is the same afterwards |
| PublicationRetention.SequenceCounter.Next | bins/railgun-indexer/src/chain_indexed.rs:1849-1868 | the counter hands out the larger of the clock and one above everything stored, and stores it before use |
| PinOwnership.PinLifecycle.TryAcquire | crates/railgun-indexer-core/src/audit.rs:39-56 | a lease is granted if and only if admission is open, and counted |
| PinOwnership.PinLifecycle.StopAccepting | crates/railgun-indexer-core/src/audit.rs:61-66 | closes admission and keeps the open leases |
| PinOwnership.PinLifecycle.ActiveOwners | crates/railgun-indexer-core/src/audit.rs:73-78 | the count is the number of leases acquired and not settled |
| PinOwnership.PinLifecycle.Settle | crates/railgun-indexer-core/src/audit.rs:92-102 | settling removes exactly that lease |
| PinOwnership.AbortsNoOwner | bins/railgun-indexer/src/main.rs:1827-1862 | over every run of acquiring, settling and shutdown, tasks are aborted only when nobody owns a pin and nobody ever does again |
| PinOwnership.OnlyShrinks | bins/railgun-indexer/src/main.rs:520-525 | once admission is closed the open leases only shrink |
| Canonicality.WatermarksStand | bins/railgun-indexer/src/chain_indexed.rs:849-945 | in every interleaving of indexing, rewinds, publication, cancellation and crashes, each watermark validated under the publication lease still has its stored header hash when the IPNS record is sent, while it is being sent, and at activation |
| Canonicality.ProgressBacked | crates/railgun-indexer-core/src/chain_indexer.rs:73-105 | the progress of a chain is always its highest stored header and agrees with it |
| Canonicality.RewindKeeps | crates/railgun-indexer-core/src/store.rs:2244-2435 | a rewind keeps progress backed by a stored header and everything below the replay block |
| Canonicality.RewindReplays | bins/railgun-indexer/src/chain_indexed.rs:689-725 | after a rewind nothing from the replay block on is left, what lies below is untouched but for the header fetched again, and indexing goes on exactly from the replay block |
| Canonicality.AppendKeeps | crates/railgun-indexer-core/src/chain_indexer.rs:82-105 | an append writes only a header above every stored one, and progress moves to it |
| Canonicality.StepKeeps | bins/railgun-indexer/src/chain_indexed.rs:644-742 | every step keeps that progress is backed, that a rewind excludes readers and other rewinds, and that validated watermarks stand |
| PoiGraph.Replay | crates/railgun-indexer-core/src/poi_v4.rs:38-107 | a stored corpus is accepted if and only if its events are numbered without gap, signed, and lead to the expected root; errors name the first event at fault |
| PoiGraph.PrepareCheckpoint | crates/railgun-indexer-core/src/poi_v4.rs:129-152 | the chunk loop succeeds if and only if the count is within the corpus and every chunk fits, and yields the consecutive fixed spans of the first events |
| PoiGraph.SealedChunks | crates/railgun-indexer-core/src/poi_v4.rs:129-189 | for two corpora of which one continues the other, checkpoints at any counts have the same full chunks, start and end roots included |
| PoiGraph.CheckpointJoins | crates/railgun-indexer-core/src/poi_v4.rs:129-152 | the chunks joined are exactly the first events |
| PoiPublication.RetainRecentBridges | bins/railgun-indexer/src/main.rs:1682-1715 | the retention loop fails if and only if a bridge in force has no stored time, and otherwise keeps the recent ones in order, the newest few of them |
| PoiPublication.RetainedIsSuffix | bins/railgun-indexer/src/main.rs:1682-1715 | what is retained is the end of the chain if and only if the newest bridges, as many as are recent and at most the bound, are all recent |
| PoiPublication.InOrderSuffix | bins/railgun-indexer/src/main.rs:1682-1715 | bridge times that never go back and are not in the future always leave the end of the chain |
| PoiPublication.MaterializeBridges | bins/railgun-indexer/src/main.rs:1011-1039 | inherited bridges are republished if and only if each rebuilds from the corpus exactly |
| PoiPublication.NextBridges | bins/railgun-indexer/src/main.rs:987-1039 | rotation, retention and rebuilding give the bridges that may follow, or fail only if none may |
| PoiPublication.PublishEntry | bins/railgun-indexer/src/main.rs:924-1121 | a publication returns the one graph that may follow the active one, and refuses only if none may |
| PoiHistory.PublicationKeeps | bins/railgun-indexer/src/main.rs:924-1121 | a graph that follows another is built as it should be for its own corpus (checkpoint and tail tile it, at most the bound of bridges hold its events), is not shorter, and its checkpoint is the active one's or ends at the active event count; after a gapless chain its chain is gapless if and only if a rotation finds the newest bridges, as many as it keeps, all recent |
| PoiRuns.RunKeeps | bins/railgun-indexer/src/main.rs:924-1121 | over every run of store writes and publications, also ones that do not see the graph in force: every graph put in force is built so for its corpus, that corpus stays stored, and no stored tip goes back |
| PoiRuns.RunSound | bins/railgun-indexer/src/main.rs:924-1121 | over every run whose publications meet that condition, every graph put in force has a gapless chain that ends at its checkpoint |
| PoiHistory.TimesKeepEnd | bins/railgun-indexer/src/main.rs:1682-1715 | bridge times that never go back and are not in the future always meet it |
| PoiClocks.ClockedSound | crates/railgun-indexer-core/src/audit.rs:551-579 | over every run whose clock never goes back, with bridge times as they are stored and read, failed publications included: every graph put in force has a gapless chain, provided that publications which do not see the graph in force cover the published corpus |
| PoiExamples.ClockNotEnough | crates/railgun-indexer-core/src/audit.rs:582-620 | a concrete run of nine publications under a clock that never goes back where one that does not leaves a bridge with an old time, which later expires in the middle of the chain |
| PoiHistory.RetainedLinked | bins/railgun-indexer/src/main.rs:1682-1715 | retention leaves a gapless chain to the checkpoint if and only if it leaves the end of the chain |
| PoiHistory.ExpiredMiddle | bins/railgun-indexer/src/main.rs:1682-1715 | a concrete chain of three bridges with an expired one in the middle, and the gap that retention leaves |
| PoiRuns.PublishedComparable | crates/railgun-indexer-core/src/store.rs:184-229 | of any two corpora ever published one continues the other, with no assumption on hashes, clocks or upstreams |
| PoiRuns.GrowsIffCovered | crates/railgun-indexer-core/src/store.rs:438-508 | a publication that takes effect, hidden graph or not, continues the published corpus if and only if the stored tip of the upstream it reads covers that corpus |
| PoiRuns.RunGrowsIffCovering | crates/railgun-indexer-core/src/store.rs:324-369 | over every run the published corpora only grow if and only if every publication that takes effect reads such a tip |
| PoiRuns.SeenCovers | bins/railgun-indexer/src/main.rs:931-951 | a publication that sees the graph in force takes effect only if the tip it reads covers the published corpus, which it then continues |
| PoiRuns.OneUpstreamGrows | crates/railgun-indexer-core/src/store.rs:324-369 | so over every run whose publications read one upstream the published corpora only grow, also when the graph in force is hidden |
| PoiExamples.HiddenShrinks | crates/railgun-indexer-core/src/audit.rs:509-545 | a concrete run where a hidden graph and a second upstream shorten the published corpus |
| PoiRuns.RunSealed | crates/railgun-indexer-core/src/poi_v4.rs:129-189 | over every run a chunk that is full in two published checkpoints is the same in both |
| PoiHistory.CatchUp | bins/railgun-indexer/src/main.rs:1011-1076 | from a sound graph a client at any bridge start, or at the checkpoint, rebuilds the whole corpus with the later bridges and the tail, and a new client with the chunks and the tail |
| PoiHistory.OversizedRefused | bins/railgun-indexer/src/main.rs:987-1003 | events beyond the active count that do not fit one tail cannot be published, so the active graph stays |
| PoiHistory.RefusedOnlyForSize | bins/railgun-indexer/src/main.rs:953-1081 | for a corpus that continues the active one, bridge times that keep the end of the chain and a contract that accepts sound graphs, a publication is refused if and only if a chunk, the next tail or the old tail as a bridge does not fit |
| PoiHistory.RootCheckExact | bins/railgun-indexer/src/main.rs:944-951 | the root check admits a corpus if and only if it agrees with the active one on the commitments of its last tree |
| PoiHistory.RootMissesSignatures | crates/railgun-indexer-core/src/poi_v4.rs:347-358 | of the root check alone: two corpora of authentic events, replayable to the same root, of which the second is accepted after the first although it differs in a signature |
| PoiStore.InsertEvents | crates/railgun-indexer-core/src/store.rs:164-233 | the insert loop computes `InsertAll`: the first event that differs from a complete stored one, or from the commitment of an incomplete one, is the conflict |
| PoiStore.InsertKeeps | crates/railgun-indexer-core/src/store.rs:184-229 | inserting events changes no complete stored event and drops none |
| PoiStore.LeavesKeep | crates/railgun-indexer-core/src/store.rs:258-322 | nor does inserting leaves known only by their commitment |
| PoiStore.WriteKeeps | crates/railgun-indexer-core/src/scrape/worker.rs:157-182 | no write transaction changes a complete event or takes the tip of an upstream back |
| PoiStore.ReadsReach | crates/railgun-indexer-core/src/store.rs:457-508 | what is read up to a tip, complete and without gap, continues every corpus stored up to that tip |
| MerkleRoot.CheckpointRoot | crates/railgun-indexer-core/src/merkle_checkpoint.rs:164-190 | for every leaf list up to the tree's capacity, any depth and any two-input hash: the sparse fold gives the root of the full zero-padded tree, and the zero leaf for no leaves |
| MerkleRoot.DenseRoot | bins/railgun-indexer/src/bin/verify_indexed_squid_parity.rs:1616-1637 | the dense computation gives the same reference root and refuses too many leaves |
| MerkleRoot.RootsAgree | crates/railgun-indexer-core/src/merkle_checkpoint.rs:164-190 | the sparse and dense computations agree if and only if there is a leaf or the empty root happens to be the zero leaf |
| MerkleRoot.RootUp | crates/railgun-indexer-core/src/merkle_checkpoint.rs:170-186 | folding one layer, completed with the empty-subtree root, keeps the root |
| MerkleRoot.RootPadded | bins/railgun-indexer/src/bin/verify_indexed_squid_parity.rs:1618-1628 | explicit zero leaves do not change the root |
| ByteCodec.SectionRoundTrip | crates/railgun-indexer-core/src/wallet_scan.rs:277-350 | reading a counted list of records inverts writing it, whatever follows |
| ByteCodec.SectionOnlyFrom | bins/railgun-indexer/src/bin/verify_indexed_squid_parity.rs:1786-1856 | whatever is read as such a list is exactly its encoding |
| ByteCodec.NumberRoundTrip | crates/railgun-indexer-core/src/commitments.rs:196-202 | a number that fits its width survives little-endian encoding |
| ByteCodec.BytesRoundTrip | bins/railgun-indexer/src/bin/verify_indexed_squid_parity.rs:1805-1811 | and every byte string is the encoding of the number it decodes to |
| PayloadCodec.Cursor.ReadExact | bins/railgun-indexer/src/bin/verify_indexed_squid_parity.rs:1834-1845 | takes exactly the next bytes, or fails at the end and stays |
| PayloadCodec.Cursor.ReadField | bins/railgun-indexer/src/bin/verify_indexed_squid_parity.rs:1796-1832 | reads a number, a fixed or a length-prefixed byte string as `TakeField` does |
| PayloadCodec.Cursor.ReadSection | bins/railgun-indexer/src/bin/verify_indexed_squid_parity.rs:481-503 | reads a counted list as `TakeSection` does |
| PayloadCodec.Cursor.ExpectEnd | bins/railgun-indexer/src/bin/verify_indexed_squid_parity.rs:1847-1856 | reports exactly the trailing bytes |
| PayloadCodec.EncodeCommitments | crates/railgun-indexer-core/src/commitments.rs:171-186 | an encoded commitment payload parses back to the same rows with nothing left over, and encoding fails only for a count beyond 64 bits |
| PayloadCodec.ParseCommitmentPayload | bins/railgun-indexer/src/bin/verify_indexed_squid_parity.rs:388-413 | parsing computes `ParseRecords`: trailing bytes and a wrong row count are refused |
| PayloadCodec.PayloadExact | bins/railgun-indexer/src/bin/verify_indexed_squid_parity.rs:388-413 | a payload parses to these rows if and only if it is their encoding |
| WalletCodec.EncodeWalletRows | crates/railgun-indexer-core/src/wallet_scan.rs:215-258 | the five wallet sections tile the payload by offset and length and parse back to every field of every row; refused if and only if a row has no timestamp or a byte string or list is too long |
| WalletCodec.AppendSection | crates/railgun-indexer-core/src/wallet_scan.rs:260-275 | appending a section keeps all earlier ones readable |
| WalletCodec.ParseWalletPayload | bins/railgun-indexer/src/bin/verify_indexed_squid_parity.rs:448-479 | the section loop computes `ParseTable` |
| WalletCodec.EncodeCheckpoint | crates/railgun-indexer-core/src/merkle_checkpoint.rs:146-162 | the checkpoint encoder computes `CheckpointBytes` |
| WalletCodec.ParseCheckpointPayload | bins/railgun-indexer/src/bin/verify_indexed_squid_parity.rs:415-446 | the checkpoint parser computes `ParseCheckpoint` |
| WalletCodec.CheckpointRoundTrip | crates/railgun-indexer-core/src/merkle_checkpoint.rs:107-162 | under any root check, an encoded checkpoint parses back if and only if its stated leaf count is the number of its leaves and its stated root is the one the check computes |
| CheckpointAgreement.CheckpointReadsBack | bins/railgun-indexer/src/bin/verify_indexed_squid_parity.rs:415-446 | composed with the Merkle roots: a checkpoint written with its sparse root parses under the dense check if and only if its leaf count is right, its leaves fit the tree, and it has a leaf or the empty root happens to be the zero leaf |
| Catalogs.CommitmentCatalog | bins/railgun-indexer/src/chain_indexed.rs:1463-1518 | the window loop terminates and puts every stored commitment row up to the highest position, gaps or not, in exactly one chunk, in order |
| Catalogs.PublishGroups | bins/railgun-indexer/src/chain_indexed.rs:1493-1516 | reading each planned group again by its first and last position gives the group |
| Catalogs.TxidCatalog | bins/railgun-indexer/src/chain_indexed.rs:1189-1249 | the paging loop terminates, puts every public transaction row in exactly one chunk, in order, and no chunk crosses a tree boundary |
| Catalogs.LimitStaysInTree | bins/railgun-indexer/src/chain_indexed.rs:2056-2059 | the row limit keeps a page inside one tree |

## Left out

- RPC, websocket, Squid, gateway, IPFS and IPNS calls: nondeterministic success or failure where a protocol depends on them.
- SQL text: each transaction is one atomic step on rows; progress of the four datasets of a chain, always written together, is one value.
- ABI decoding, envelope compression, signatures and hashing: foreign code, parameters or not modelled.
- Legacy relay anchoring of crates/railgun-indexer-core/src/chain_logs.rs lines 1388-1531, and legacy calldata kinds: heuristics without an independent rule to prove them against.
- OutputMatch.PublicTransactions: requires that the call does not take that legacy relay branch.
- CalldataAgreement.LogsAgreeWithCalldata: covers outer transactions that make one Railgun call directly; nested calls inside other contracts' calldata are not compared.
- Nested calldata walking and the choice between calldata, debug trace and flat trace: plumbing around the modelled parts.
- FilterPlan.CutMatters: compares two pieces with one plan; what any number of pieces requests is `PlanBatches`.
- A provider that answers a re-pin with another address than the content's (bins/railgun-indexer/src/chain_indexed.rs lines 1007-1021): excluded by collision-free addressing.
- PublicationRuns.ActiveServed: says nothing of pins the provider drops by itself; the protocol does not watch for those after activation.
- PublicationRuns.PendingIsStored: needs that no sequence write was misreported; `ReservedIsNewer` does not.
- PublicationWatermarks.ConfirmedStand: an IPNS send that is still under way after its publisher was cancelled is modelled in `Canonicality` only.
- PublicationWatermarks.IndexedRecovery: the set of configured chains does not change within a run; a claim of an unconfigured chain never stands.
- The operator command that invalidates a pending POI manifest while nothing runs: the transaction of abandonment without an unavailable artifact.
- Attempt counters and error texts of cleanup debt inside the protocol runs: kept only in `RetryPinCleanupDebt`.
- PoiClocks.ClockedSound: stored times are not rounded to seconds; a publication is taken to begin no earlier than the times stored before it.
- Reorgs deeper than one batch: a rewind does not aim to repair them, and no agreement with the canonical chain is claimed.
- Several contracts on one chain share its header table, where one contract's append can replace another's watermark header: not claimed.
- Blocked-shield artifacts and the merging of several lists and chains into one POI manifest: each list and chain is its own graph.
- Catalogs.CommitmentCatalog: row positions are natural numbers, without the 64-bit saturation that stored positions never reach.
- PayloadCodec.ParseCommitmentPayload: returns the family byte too, which the source reads and drops.
- Wallet-scan and Merkle checkpoint catalog loops, status, configuration, backfill and page-size code: single-branch checks or plumbing.
