/** Output positions over whole streams: the parser hands each call exactly the outputs its Transact log emitted, and
    taking unshield commitments from calldata leaves those untouched, so the exact condition for matching one call holds
    of every call that is matched, and of the rows in their final order. */
module ParsedPositions {
  import opened Wrappers
  import opened ActionLogs
  import opened ActionConservation
  import opened OutputMatch
  import opened OutputPositions
  import opened Hydration
  import opened HydrationOrder

  // ---------------------------------------------------------------------------------------------
  // What the parser hands a call
  // ---------------------------------------------------------------------------------------------

  /** Some Transact log with this index has these hashes. */
  predicate Transacted(logs: seq<Log>, index: nat, hashes: seq<Hash>) {
    exists k :: 0 <= k < |logs| && logs[k].index == index && logs[k].event == Transact(hashes)
  }

  /** A transaction that unshields has at least the unshield commitment. */
  predicate UnshieldsStated(rows: seq<Numbered>) {
    forall i :: 0 <= i < |rows| && rows[i].tx.hasUnshield ==> rows[i].tx.commitments != []
  }

  /** The own commitments of a call are the hashes of its Transact log, or none when it has no such log. */
  predicate Handed(logs: seq<Log>, group: Group) {
    && UnshieldsStated(group.rows)
    && match group.transact
       case None => Owned(group.rows) == []
       case Some(index) => Transacted(logs, index, Owned(group.rows))
  }

  predicate AllHanded(logs: seq<Log>, groups: seq<Group>) {
    forall i :: 0 <= i < |groups| ==> Handed(logs, groups[i])
  }

  lemma HandedLater(logs: seq<Log>, log: Log, groups: seq<Group>)
    requires AllHanded(logs, groups)
    ensures AllHanded(logs + [log], groups)
  {
    hide Owned;
    forall i | 0 <= i < |groups| ensures Handed(logs + [log], groups[i]) {
      assert Handed(logs, groups[i]);
      if groups[i].transact.Some? {
        var k :| 0 <= k < |logs| && logs[k].index == groups[i].transact.value
          && logs[k].event == Transact(Owned(groups[i].rows));
        assert (logs + [log])[k] == logs[k];
      }
    }
  }

  lemma PopHanded(c: Crypto, logs: seq<Log>, s: State, transact: Option<nat>, hashes: seq<Hash>, logIndex: nat,
                  t: State)
    requires Fields(c, logs, s) && AllHanded(logs, s.decoded) && Pops(c, s, transact, hashes, logIndex, t)
    requires transact.None? ==> hashes == []
    requires transact.Some? ==> Transacted(logs, transact.value, hashes)
    ensures AllHanded(logs, t.decoded)
  {
    hide FrameTransactions, Owned, Flatten, Inputs, Configs, CountsMatch, UnshieldCount, RecordsOf, Preimages, Range,
      RowOk;
    var frame := Top(s);
    assert FrameOk(Inputs(logs), Configs(logs), frame);
    FrameHandsOver(c, frame, hashes, logIndex);
    var rows := FrameTransactions(c, frame, hashes, logIndex).value;
    assert t.decoded == s.decoded + [Group(transact, rows)];
    forall i | 0 <= i < |rows| && rows[i].tx.hasUnshield ensures rows[i].tx.commitments != [] {
      assert Carries(c, rows[i], frame.nullified[i], frame.configs[i]);
    }
    assert Handed(logs, Group(transact, rows));
  }

  lemma StepHanded(c: Crypto, logs: seq<Log>, s: State, log: Log, t: State)
    requires Conserved(c, logs, s) && AllHanded(logs, s.decoded) && Step(c, s, log) == Ok(t)
    ensures AllHanded(logs + [log], t.decoded)
  {
    hide Fields, Numbering, UnshieldsKept, Owned, Flatten, TransactHashes, FrameTransactions, Handed;
    var u := Consume(c, s, log).value;
    HandedLater(logs, log, s.decoded);
    if log.event.Transact? {
      TransactReads(c, logs, s, log);
      assert (logs + [log])[|logs|] == log;
      assert Transacted(logs + [log], log.index, log.event.hashes);
      PopHanded(c, logs + [log], s, Some(log.index), log.event.hashes, log.index, u);
      PopKeeps(c, logs + [log], s, Some(log.index), log.event.hashes, log.index, u);
    } else {
      ReadFields(c, logs, s, log, u);
      assert u.decoded == s.decoded;
    }
    if t != u {
      PopHanded(c, logs + [log], u, None, [], Top(u).logIndex, t);
    }
  }

  lemma {:induction false} RunHanded(c: Crypto, logs: seq<Log>)
    requires Run(c, START, logs).Ok?
    ensures AllHanded(logs, Run(c, START, logs).value.decoded)
  {
    hide Step, Handed, Conserved;
    if logs != [] {
      var before, log := logs[..|logs| - 1], logs[|logs| - 1];
      RunHanded(c, before);
      RunConserves(c, before);
      StepHanded(c, before, Run(c, START, before).value, log, Run(c, START, logs).value);
      assert before + [log] == logs;
    }
  }

  // ---------------------------------------------------------------------------------------------
  // Calldata replaces unshield commitments alone
  // ---------------------------------------------------------------------------------------------

  lemma ResolvedOwn(c: Crypto, calldata: seq<CalldataTx>, tx: Decoded)
    requires ResolveTransaction(c, calldata, tx).Ok? && (tx.hasUnshield ==> tx.commitments != [])
    ensures var resolved := ResolveTransaction(c, calldata, tx).value.tx;
            && OwnCommitments(resolved) == OwnCommitments(tx) && resolved.hasUnshield == tx.hasUnshield
            && (tx.hasUnshield ==> resolved.commitments != [])
  {
    hide Matching;
  }

  lemma {:induction false} ResolvedOwned(c: Crypto, calldata: seq<CalldataTx>, rows: seq<Numbered>)
    requires ResolveRows(c, calldata, rows).Ok? && UnshieldsStated(rows)
    ensures var resolved := ResolveRows(c, calldata, rows).value.value;
            Owned(resolved) == Owned(rows) && UnshieldsStated(resolved)
  {
    hide ResolveTransaction, OwnCommitments;
    if rows != [] {
      ResolvedOwned(c, calldata, rows[..|rows| - 1]);
      ResolvedOwn(c, calldata, rows[|rows| - 1].tx);
    }
  }

  lemma {:induction false} ResolvedHanded(c: Crypto, logs: seq<Log>, calldata: seq<CalldataTx>, groups: seq<Group>)
    requires ResolveGroups(c, calldata, groups).Ok? && AllHanded(logs, groups)
    ensures AllHanded(logs, ResolveGroups(c, calldata, groups).value.value)
  {
    hide ResolveRows, Owned, UnshieldsStated, Transacted;
    if groups != [] {
      var last := groups[|groups| - 1];
      ResolvedHanded(c, logs, calldata, groups[..|groups| - 1]);
      assert Handed(logs, last);
      ResolvedOwned(c, calldata, last.rows);
    }
  }

  lemma {:induction false} MatchedHanded(c: Crypto, logs: seq<Log>, calldata: seq<CalldataTx>)
    requires MatchedGroups(c, logs, calldata).Ok?
    ensures AllHanded(logs, MatchedGroups(c, logs, calldata).value)
  {
    MatchedParsed(c, logs, calldata);
    RunHanded(c, logs);
    var groups := Parse(c, logs).value;
    hide Run, AllHanded, ResolveGroups;
    if AnyUnshield(groups) && calldata != [] {
      ResolvedHanded(c, logs, calldata, groups);
    }
  }

  // ---------------------------------------------------------------------------------------------
  // The outputs of a call
  // ---------------------------------------------------------------------------------------------

  function HashesOf(outputs: seq<Emitted>): seq<Hash> {
    seq(|outputs|, i requires 0 <= i < |outputs| => outputs[i].hash)
  }

  /** Each Transact log emitted its hashes at consecutive leaves, from `starts` of its index on. */
  ghost predicate Emitting(summary: Summary, logs: seq<Log>, starts: nat -> nat) {
    forall k :: 0 <= k < |logs| && logs[k].event.Transact? ==>
      && Consecutive(OwnOutputs(summary.outputs, Some(logs[k].index)), starts(logs[k].index))
      && HashesOf(OwnOutputs(summary.outputs, Some(logs[k].index))) == logs[k].event.hashes
  }

  lemma {:induction false} NoOutputs(outputs: seq<Emitted>)
    ensures OwnOutputs(outputs, None) == []
  {
    if outputs != [] {
      NoOutputs(outputs[..|outputs| - 1]);
    }
  }

  lemma {:induction false} OwnedLength(rows: seq<Numbered>)
    ensures Offset(Transactions(rows)) == |Owned(rows)|
  {
    hide OwnCommitments;
    if rows != [] {
      OwnedLength(rows[..|rows| - 1]);
      assert Transactions(rows)[..|rows| - 1] == Transactions(rows[..|rows| - 1]);
    }
  }

  /** The own commitments of transaction `i` stand at its offset. */
  lemma {:induction false} OwnedAt(rows: seq<Numbered>, i: nat)
    requires i < |rows|
    ensures Offset(Transactions(rows)[..i]) + |OwnCommitments(rows[i].tx)| <= |Owned(rows)|
    ensures forall k :: 0 <= k < |OwnCommitments(rows[i].tx)| ==>
              Owned(rows)[Offset(Transactions(rows)[..i]) + k] == OwnCommitments(rows[i].tx)[k]
    decreases |rows|
  {
    hide OwnCommitments;
    var n := |rows| - 1;
    assert Transactions(rows)[..i] == Transactions(rows[..i]);
    OwnedLength(rows[..i]);
    if i < n {
      OwnedAt(rows[..n], i);
      assert Transactions(rows[..n])[..i] == Transactions(rows[..i]);
    }
  }

  lemma HandedEmitted(outputs: seq<Emitted>, start: nat, group: Group)
    requires Consecutive(outputs, start) && HashesOf(outputs) == Owned(group.rows)
    requires UnshieldsStated(group.rows)
    ensures EmittedFor(outputs, start, Transactions(group.rows))
  {
    hide OwnCommitments, Owned, Consecutive, Offset;
    var txs := Transactions(group.rows);
    OwnedLength(group.rows);
    forall i | 0 <= i < |txs| ensures HashesAt(outputs, Offset(txs[..i]), OwnCommitments(txs[i])) {
      OwnedAt(group.rows, i);
      forall k | 0 <= k < |OwnCommitments(txs[i])|
        ensures outputs[Offset(txs[..i]) + k].hash == OwnCommitments(txs[i])[k]
      {
        assert HashesOf(outputs)[Offset(txs[..i]) + k] == outputs[Offset(txs[..i]) + k].hash;
      }
    }
  }

  // ---------------------------------------------------------------------------------------------
  // Whole streams
  // ---------------------------------------------------------------------------------------------

  function CallSummary(summary: Summary, group: Group): Summary {
    summary.(outputs := OwnOutputs(summary.outputs, group.transact))
  }

  function StartOf(group: Group, starts: nat -> nat): nat {
    if group.transact.Some? then starts(group.transact.value) else 0
  }

  /** The rows of a call are matched, use up its outputs and stand each at its own first output. */
  predicate Placed(summary: Summary, group: Group, starts: nat -> nat) {
    var own, txs := CallSummary(summary, group), Transactions(group.rows);
    PublicRows(own, txs).Ok? && Positioned(own.outputs, StartOf(group, starts), txs, PublicRows(own, txs).value)
  }

  predicate Clean(summary: Summary, group: Group) {
    NoClash(CallSummary(summary, group).outputs, Transactions(group.rows)) && EachProduces(Transactions(group.rows))
  }

  lemma GroupPlaced(summary: Summary, logs: seq<Log>, starts: nat -> nat, group: Group)
    requires Handed(logs, group) && Emitting(summary, logs, starts)
    ensures Placed(summary, group, starts) <==> Clean(summary, group)
  {
    var own := CallSummary(summary, group);
    var start := StartOf(group, starts);
    assert Consecutive(own.outputs, start) && HashesOf(own.outputs) == Owned(group.rows) by {
      if group.transact.None? {
        NoOutputs(summary.outputs);
      } else {
        var k :| 0 <= k < |logs| && logs[k].index == group.transact.value
          && logs[k].event == Transact(Owned(group.rows));
      }
    }
    assert UnshieldsStated(group.rows);
    hide Handed, Emitting, Consecutive, Owned, UnshieldsStated;
    HandedEmitted(own.outputs, start, group);
    PositionsExact(own, start, Transactions(group.rows));
  }

  // ---------------------------------------------------------------------------------------------
  // The rows in their final order
  // ---------------------------------------------------------------------------------------------

  lemma {:induction false} AllRowsHold(summary: Summary, groups: seq<Group>, k: nat, i: nat)
    requires AllRows(summary, groups).Ok? && k < |groups|
    ensures GroupRows(summary, groups[k]).Ok?
    ensures i < |groups[k].rows| ==> i < |GroupRows(summary, groups[k]).value|
                                     && GroupRows(summary, groups[k]).value[i] in AllRows(summary, groups).value
  {
    hide PublicRows, OwnOutputs;
    if k < |groups| - 1 {
      AllRowsHold(summary, groups[..|groups| - 1], k, i);
    }
  }

  lemma {:induction false} AllRowsOk(summary: Summary, groups: seq<Group>)
    requires forall k :: 0 <= k < |groups| ==> GroupRows(summary, groups[k]).Ok?
    ensures AllRows(summary, groups).Ok?
  {
    hide GroupRows;
    if groups != [] {
      AllRowsOk(summary, groups[..|groups| - 1]);
    }
  }

  /** Row `i` of a call is found at its record and stands at its own first output. */
  predicate StandsAt(summary: Summary, group: Group, starts: nat -> nat, rows: seq<Row>, i: nat)
    requires i < |group.rows|
  {
    var record := group.rows[i].record;
    && record < |rows|
    && (rows[record].treeOut, rows[record].positionOut)
       == ExpectedOut(OwnOutputs(summary.outputs, group.transact), StartOf(group, starts),
                      Offset(Transactions(group.rows)[..i]))
  }

  predicate GroupStands(summary: Summary, group: Group, starts: nat -> nat, rows: seq<Row>) {
    forall i :: 0 <= i < |group.rows| ==> StandsAt(summary, group, starts, rows, i)
  }

  /** The rebuild succeeds and each of its rows stands at its own first output. */
  ghost predicate RowsPlaced(c: Crypto, summary: Summary, logs: seq<Log>, calldata: seq<CalldataTx>,
                             starts: nat -> nat)
  {
    && LogPath(c, summary, logs, calldata).Ok?
    && var groups := MatchedGroups(c, logs, calldata).value;
       forall k :: 0 <= k < |groups|
              ==> GroupStands(summary, groups[k], starts, LogPath(c, summary, logs, calldata).value)
  }

  /** In a successful rebuild the row of a call's `i`-th transaction is the one matched for it. */
  lemma RowAt(c: Crypto, summary: Summary, logs: seq<Log>, calldata: seq<CalldataTx>, k: nat, i: nat)
    requires LogPath(c, summary, logs, calldata).Ok? && k < |MatchedGroups(c, logs, calldata).value|
    ensures var group := MatchedGroups(c, logs, calldata).value[k];
            var own := PublicRows(CallSummary(summary, group), Transactions(group.rows));
            var rows := LogPath(c, summary, logs, calldata).value;
            && own.Ok?
            && (i < |group.rows| ==>
                  && group.rows[i].record < |rows|
                  && rows[group.rows[i].record] == own.value[i].(index := group.rows[i].record))
  {
    hide MatchedGroups, PublicRows, OwnOutputs;
    var groups := MatchedGroups(c, logs, calldata).value;
    AllRowsHold(summary, groups, k, i);
    RowsAtRecords(c, summary, logs, calldata);
    if i < |groups[k].rows| {
      var tagged := AllRows(summary, groups).value;
      var t :| 0 <= t < |tagged| && tagged[t] == GroupRows(summary, groups[k]).value[i];
    }
  }

  lemma StandsIffPlaced(c: Crypto, summary: Summary, logs: seq<Log>, calldata: seq<CalldataTx>, starts: nat -> nat,
                        k: nat)
    requires LogPath(c, summary, logs, calldata).Ok? && k < |MatchedGroups(c, logs, calldata).value|
    ensures GroupStands(summary, MatchedGroups(c, logs, calldata).value[k], starts,
                        LogPath(c, summary, logs, calldata).value)
            <==> Placed(summary, MatchedGroups(c, logs, calldata).value[k], starts)
  {
    var group := MatchedGroups(c, logs, calldata).value[k];
    hide MatchedGroups, LogPath, PublicRows, OwnOutputs, ExpectedOut, Offset;
    RowAt(c, summary, logs, calldata, k, 0);
    forall i | 0 <= i < |group.rows|
      ensures StandsAt(summary, group, starts, LogPath(c, summary, logs, calldata).value, i) <==>
              var row := PublicRows(CallSummary(summary, group), Transactions(group.rows)).value[i];
              (row.treeOut, row.positionOut)
              == ExpectedOut(CallSummary(summary, group).outputs, StartOf(group, starts),
                             Offset(Transactions(group.rows)[..i]))
    {
      RowAt(c, summary, logs, calldata, k, i);
    }
  }

  /** For every stream whose Transact logs emitted their hashes at consecutive leaves: the rebuild succeeds with every
      row at its own first output if and only if calldata does not contradict the logs, no unshield commitment, as
      calldata states it, equals the next hash emitted in its call, and every configuration has an output or an
      unshield. */
  lemma {:induction false} StreamPlaced(c: Crypto, summary: Summary, logs: seq<Log>, calldata: seq<CalldataTx>,
                                        starts: nat -> nat)
    requires Emitting(summary, logs, starts)
    ensures RowsPlaced(c, summary, logs, calldata, starts) <==>
            && MatchedGroups(c, logs, calldata).Ok?
            && var groups := MatchedGroups(c, logs, calldata).value;
               forall k :: 0 <= k < |groups| ==> Clean(summary, groups[k])
  {
    if MatchedGroups(c, logs, calldata).Ok? {
      MatchedHanded(c, logs, calldata);
      var groups := MatchedGroups(c, logs, calldata).value;
      hide MatchedGroups, Handed, Emitting, Placed, Clean, ActionRows, GroupStands;
      forall k | 0 <= k < |groups| ensures Placed(summary, groups[k], starts) <==> Clean(summary, groups[k]) {
        GroupPlaced(summary, logs, starts, groups[k]);
      }
      if forall k :: 0 <= k < |groups| ==> Clean(summary, groups[k]) {
        PlacedRebuilds(summary, groups, starts);
      }
      if LogPath(c, summary, logs, calldata).Ok? {
        forall k | 0 <= k < |groups|
          ensures GroupStands(summary, groups[k], starts, LogPath(c, summary, logs, calldata).value)
                  <==> Placed(summary, groups[k], starts)
        {
          StandsIffPlaced(c, summary, logs, calldata, starts, k);
        }
      }
    }
  }

  lemma PlacedRebuilds(summary: Summary, groups: seq<Group>, starts: nat -> nat)
    requires forall k :: 0 <= k < |groups| ==> Placed(summary, groups[k], starts)
    ensures ActionRows(summary, groups).Ok?
  {
    hide PublicRows, OwnOutputs, AllRows, Positioned;
    forall k | 0 <= k < |groups| ensures GroupRows(summary, groups[k]).Ok? {
      assert Placed(summary, groups[k], starts);
    }
    AllRowsOk(summary, groups);
  }
}
