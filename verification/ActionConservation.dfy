/** What every accepted stream conserves: record indexes number the configurations in Action order,
    each record keeps the Nullified log and configuration of its number, the outputs of the calls
    joined in completion order are the Transact hashes in log order, and every Unshield is used
    exactly once. */
module ActionConservation {
  import opened Wrappers
  import opened ActionLogs
  import opened ActionForest
  import opened ActionRebuild

  // ---------------------------------------------------------------------------------------------
  // What a stream carries
  // ---------------------------------------------------------------------------------------------

  /** The Nullified logs in log order. */
  function Inputs(logs: seq<Log>): seq<Input> {
    if logs == [] then [] else
    var log := logs[|logs| - 1];
    Inputs(logs[..|logs| - 1]) +
      (if log.event.Nullified? then [Input(log.index, log.event.tree, log.event.nullifiers)] else [])
  }

  /** The configurations of all Action logs in log order. */
  function Configs(logs: seq<Log>): seq<TxConfig> {
    if logs == [] then [] else
    var log := logs[|logs| - 1];
    Configs(logs[..|logs| - 1]) + (if log.event.Action? then log.event.configs else [])
  }

  /** The hashes of all Transact logs in log order. */
  function TransactHashes(logs: seq<Log>): seq<Hash> {
    if logs == [] then [] else
    var log := logs[|logs| - 1];
    TransactHashes(logs[..|logs| - 1]) + (if log.event.Transact? then log.event.hashes else [])
  }

  function Unshields(logs: seq<Log>): seq<Preimage> {
    if logs == [] then [] else
    var log := logs[|logs| - 1];
    Unshields(logs[..|logs| - 1]) + (if log.event.Withdrawal? then [PreimageOf(log.event.unshield)] else [])
  }

  // ---------------------------------------------------------------------------------------------
  // What transactions carry
  // ---------------------------------------------------------------------------------------------

  function Flatten(groups: seq<Group>): seq<Numbered> {
    if groups == [] then [] else Flatten(groups[..|groups| - 1]) + groups[|groups| - 1].rows
  }

  /** The commitments of a transaction without its unshield commitment. */
  function OwnCommitments(tx: Decoded): seq<Hash> {
    if tx.hasUnshield && tx.commitments != [] then tx.commitments[..|tx.commitments| - 1] else tx.commitments
  }

  function Owned(rows: seq<Numbered>): seq<Hash> {
    if rows == [] then [] else Owned(rows[..|rows| - 1]) + OwnCommitments(rows[|rows| - 1].tx)
  }

  function RecordsOf(rows: seq<Numbered>): seq<nat> {
    if rows == [] then [] else RecordsOf(rows[..|rows| - 1]) + [rows[|rows| - 1].record]
  }

  function Preimages(rows: seq<Numbered>): seq<Preimage> {
    if rows == [] then [] else
    var tx := rows[|rows| - 1].tx;
    Preimages(rows[..|rows| - 1]) + (if tx.preimage.Some? then [tx.preimage.value] else [])
  }

  function Range(base: nat, n: nat): seq<nat> {
    if n == 0 then [] else Range(base, n - 1) + [base + n - 1]
  }

  function PreimagesOf(unshields: seq<Unshield>): seq<Preimage> {
    if unshields == [] then []
    else PreimagesOf(unshields[..|unshields| - 1]) + [PreimageOf(unshields[|unshields| - 1])]
  }

  function OpenRecords(frames: seq<Frame>): seq<nat> {
    if frames == [] then [] else
    var frame := frames[|frames| - 1];
    OpenRecords(frames[..|frames| - 1]) + Range(frame.recordBase, |frame.configs|)
  }

  function OpenUnshields(frames: seq<Frame>): seq<Preimage> {
    if frames == [] then []
    else OpenUnshields(frames[..|frames| - 1]) + PreimagesOf(frames[|frames| - 1].unshields)
  }

  lemma {:induction false} OwnedConcat(a: seq<Numbered>, b: seq<Numbered>)
    ensures Owned(a + b) == Owned(a) + Owned(b)
    decreases |b|
  {
    hide OwnCommitments;
    if b == [] {
      assert a + b == a;
    } else {
      assert (a + b)[..|a + b| - 1] == a + b[..|b| - 1];
      OwnedConcat(a, b[..|b| - 1]);
    }
  }

  lemma {:induction false} RecordsConcat(a: seq<Numbered>, b: seq<Numbered>)
    ensures RecordsOf(a + b) == RecordsOf(a) + RecordsOf(b)
    decreases |b|
  {
    if b == [] {
      assert a + b == a;
    } else {
      assert (a + b)[..|a + b| - 1] == a + b[..|b| - 1];
      RecordsConcat(a, b[..|b| - 1]);
    }
  }

  lemma {:induction false} PreimagesConcat(a: seq<Numbered>, b: seq<Numbered>)
    ensures Preimages(a + b) == Preimages(a) + Preimages(b)
    decreases |b|
  {
    if b == [] {
      assert a + b == a;
    } else {
      assert (a + b)[..|a + b| - 1] == a + b[..|b| - 1];
      PreimagesConcat(a, b[..|b| - 1]);
    }
  }

  // ---------------------------------------------------------------------------------------------
  // The rows of one completed call
  // ---------------------------------------------------------------------------------------------

  /** Row `row` carries record `input` and configuration `config`. */
  predicate Carries(c: Crypto, row: Numbered, input: Input, config: TxConfig) {
    && row.tx.kind == ActionLogsCall
    && row.tx.nullifiers == input.nullifiers
    && row.tx.treeIn == input.tree
    && row.tx.boundParamsHash == config.boundParamsHash
    && row.tx.hasUnshield == config.hasUnshield == row.tx.preimage.Some?
    && |OwnCommitments(row.tx)| == config.commitmentsCount
    && row.tx.commitments ==
       OwnCommitments(row.tx) + (if row.tx.preimage.Some? then [c.commit(row.tx.preimage.value)] else [])
    && row.tx.txid == c.txid(row.tx.nullifiers, row.tx.commitments, row.tx.boundParamsHash)
  }

  lemma RowCarries(c: Crypto, configs: seq<TxConfig>, inputs: seq<Input>, unshields: seq<Unshield>, hashes: seq<Hash>,
                   record: nat, i: nat)
    requires Fits(configs, inputs, unshields, hashes) && i < |configs|
    ensures var tx := TransactionAt(c, configs, inputs, unshields, hashes, i);
            && CommitmentCount(configs[..i]) <= CommitmentCount(configs[..i + 1]) <= |hashes|
            && Carries(c, Numbered(record, tx), inputs[i], configs[i])
            && OwnCommitments(tx) == hashes[CommitmentCount(configs[..i])..CommitmentCount(configs[..i + 1])]
            && (configs[i].hasUnshield ==>
                  && UnshieldCount(configs[..i]) < |unshields|
                  && tx.preimage == Some(PreimageOf(unshields[UnshieldCount(configs[..i])])))
  {
    hide CommitmentCount, UnshieldCount, PreimageOf;
    CountsBound(configs, i);
    var tx := TransactionAt(c, configs, inputs, unshields, hashes, i);
    var own := hashes[CommitmentCount(configs[..i])..CommitmentCount(configs[..i + 1])];
    assert OwnCommitments(tx) == own;
  }

  lemma {:induction false} RowsAt(c: Crypto, configs: seq<TxConfig>, inputs: seq<Input>, unshields: seq<Unshield>,
                                  hashes: seq<Hash>, base: nat, n: nat)
    requires Fits(configs, inputs, unshields, hashes) && n <= |configs|
    ensures var rows := RowsUpTo(c, configs, inputs, unshields, hashes, base, n);
            && |rows| == n
            && forall i ::
                 0 <= i < n ==> rows[i] == Numbered(base + i, TransactionAt(c, configs, inputs, unshields, hashes, i))
  {
    hide TransactionAt;
    if n > 0 {
      RowsAt(c, configs, inputs, unshields, hashes, base, n - 1);
    }
  }

  lemma {:induction false} RecordsRange(rows: seq<Numbered>, base: nat)
    requires forall i :: 0 <= i < |rows| ==> rows[i].record == base + i
    ensures RecordsOf(rows) == Range(base, |rows|)
  {
    if rows != [] {
      RecordsRange(rows[..|rows| - 1], base);
    }
  }

  lemma RowsNumbered(c: Crypto, configs: seq<TxConfig>, inputs: seq<Input>, unshields: seq<Unshield>, hashes: seq<Hash>,
                     base: nat)
    requires Fits(configs, inputs, unshields, hashes)
    ensures var rows := RowsUpTo(c, configs, inputs, unshields, hashes, base, |configs|);
            && |rows| == |configs|
            && (forall i ::
                  0 <= i < |configs| ==> rows[i].record == base + i && Carries(c, rows[i], inputs[i], configs[i]))
            && RecordsOf(rows) == Range(base, |configs|)
  {
    hide Carries, TransactionAt, RowsUpTo, CommitmentCount, UnshieldCount, OwnCommitments, PreimageOf;
    RowsAt(c, configs, inputs, unshields, hashes, base, |configs|);
    var rows := RowsUpTo(c, configs, inputs, unshields, hashes, base, |configs|);
    RecordsRange(rows, base);
    forall i | 0 <= i < |configs|
      ensures Carries(c, rows[i], inputs[i], configs[i])
    {
      RowCarries(c, configs, inputs, unshields, hashes, base + i, i);
    }
  }

  lemma {:induction false} RowsOwned(c: Crypto, configs: seq<TxConfig>, inputs: seq<Input>, unshields: seq<Unshield>,
                                     hashes: seq<Hash>, base: nat, n: nat)
    requires Fits(configs, inputs, unshields, hashes) && n <= |configs|
    ensures CommitmentCount(configs[..n]) <= |hashes|
    ensures Owned(RowsUpTo(c, configs, inputs, unshields, hashes, base, n)) == hashes[..CommitmentCount(configs[..n])]
  {
    hide Carries, TransactionAt, OwnCommitments, Fits;
    if n == 0 {
      assert configs[..0] == [];
    } else {
      RowsOwned(c, configs, inputs, unshields, hashes, base, n - 1);
      RowCarries(c, configs, inputs, unshields, hashes, base + n - 1, n - 1);
      var fewer := RowsUpTo(c, configs, inputs, unshields, hashes, base, n - 1);
      var rows := RowsUpTo(c, configs, inputs, unshields, hashes, base, n);
      assert rows[..|rows| - 1] == fewer;
      var from, to := CommitmentCount(configs[..n - 1]), CommitmentCount(configs[..n]);
      assert hashes[..from] + hashes[from..to] == hashes[..to];
    }
  }

  lemma {:induction false} RowsPreimages(c: Crypto, configs: seq<TxConfig>, inputs: seq<Input>,
                                         unshields: seq<Unshield>, hashes: seq<Hash>, base: nat, n: nat)
    requires Fits(configs, inputs, unshields, hashes) && n <= |configs|
    ensures UnshieldCount(configs[..n]) <= |unshields|
    ensures Preimages(RowsUpTo(c, configs, inputs, unshields, hashes, base, n))
            == PreimagesOf(unshields[..UnshieldCount(configs[..n])])
  {
    hide TransactionAt, Fits, CommitmentCount;
    if n == 0 {
      assert configs[..0] == [];
    } else {
      RowsPreimages(c, configs, inputs, unshields, hashes, base, n - 1);
      RowCarries(c, configs, inputs, unshields, hashes, base + n - 1, n - 1);
      CountsBound(configs, n - 1);
      var fewer := RowsUpTo(c, configs, inputs, unshields, hashes, base, n - 1);
      var rows := RowsUpTo(c, configs, inputs, unshields, hashes, base, n);
      assert rows[..|rows| - 1] == fewer;
      var used := UnshieldCount(configs[..n - 1]);
      if configs[n - 1].hasUnshield {
        assert unshields[..used + 1][..used] == unshields[..used];
      }
    }
  }

  /** What a completed frame hands over. */
  lemma FrameHandsOver(c: Crypto, frame: Frame, hashes: seq<Hash>, logIndex: nat)
    requires FrameTransactions(c, frame, hashes, logIndex).Ok?
    requires CountsMatch(frame.nullified, frame.configs) && |frame.unshields| <= UnshieldCount(frame.configs)
    ensures var rows := FrameTransactions(c, frame, hashes, logIndex).value;
            && |rows| == |frame.configs|
            && (forall i :: 0 <= i < |rows| ==>
                  rows[i].record == frame.recordBase + i && Carries(c, rows[i], frame.nullified[i], frame.configs[i]))
            && RecordsOf(rows) == Range(frame.recordBase, |frame.configs|)
            && Owned(rows) == hashes
            && Preimages(rows) == PreimagesOf(frame.unshields)
  {
    hide Carries, RowsUpTo, FrameTransactions, Owned, RecordsOf, Preimages;
    var n := |frame.configs|;
    FrameOkFits(c, frame, hashes, logIndex);
    FrameOfCall(c, frame, hashes, logIndex);
    RowsNumbered(c, frame.configs, frame.nullified, frame.unshields, hashes, frame.recordBase);
    RowsOwned(c, frame.configs, frame.nullified, frame.unshields, hashes, frame.recordBase, n);
    RowsPreimages(c, frame.configs, frame.nullified, frame.unshields, hashes, frame.recordBase, n);
    assert frame.configs[..n] == frame.configs;
    assert hashes[..|hashes|] == hashes && frame.unshields[..|frame.unshields|] == frame.unshields;
  }

  // ---------------------------------------------------------------------------------------------
  // The invariant
  // ---------------------------------------------------------------------------------------------

  /** An open call keeps the Nullified logs and configurations of its records. */
  predicate FrameOk(inputs: seq<Input>, configs: seq<TxConfig>, frame: Frame) {
    && CountsMatch(frame.nullified, frame.configs)
    && |frame.unshields| <= UnshieldCount(frame.configs)
    && frame.expectsTransact == ExpectsTransact(frame.configs)
    && frame.recordBase + |frame.configs| <= |inputs|
    && frame.recordBase + |frame.configs| <= |configs|
    && frame.nullified == inputs[frame.recordBase..frame.recordBase + |frame.configs|]
    && frame.configs == configs[frame.recordBase..frame.recordBase + |frame.configs|]
  }

  predicate RowOk(c: Crypto, inputs: seq<Input>, configs: seq<TxConfig>, row: Numbered) {
    row.record < |inputs| && row.record < |configs| && Carries(c, row, inputs[row.record], configs[row.record])
  }

  predicate Fields(c: Crypto, logs: seq<Log>, s: State) {
    && |Configs(logs)| == s.nextRecord
    && |Inputs(logs)| == s.nextRecord + |s.pending|
    && s.pending == Inputs(logs)[s.nextRecord..]
    && (forall i :: 0 <= i < |s.frames| ==> FrameOk(Inputs(logs), Configs(logs), s.frames[i]))
    && (forall i :: 0 <= i < |Flatten(s.decoded)| ==> RowOk(c, Inputs(logs), Configs(logs), Flatten(s.decoded)[i]))
  }

  /** Every record is in exactly one place: a finished row or an open call. */
  predicate Numbering(s: State) {
    multiset(RecordsOf(Flatten(s.decoded))) + multiset(OpenRecords(s.frames)) == multiset(Range(0, s.nextRecord))
  }

  predicate UnshieldsKept(logs: seq<Log>, s: State) {
    multiset(Preimages(Flatten(s.decoded))) + multiset(OpenUnshields(s.frames)) == multiset(Unshields(logs))
  }

  predicate Conserved(c: Crypto, logs: seq<Log>, s: State) {
    && Fields(c, logs, s)
    && Numbering(s)
    && UnshieldsKept(logs, s)
    && Owned(Flatten(s.decoded)) == TransactHashes(logs)
  }

  lemma FlattenSnoc(groups: seq<Group>, group: Group)
    ensures Flatten(groups + [group]) == Flatten(groups) + group.rows
  {
    assert (groups + [group])[..|groups|] == groups;
  }

  lemma LogsSnoc(logs: seq<Log>, log: Log)
    ensures Inputs(logs + [log])
            == Inputs(logs) + (if log.event.Nullified? then [Input(log.index, log.event.tree, log.event.nullifiers)]
                               else [])
    ensures Configs(logs + [log]) == Configs(logs) + (if log.event.Action? then log.event.configs else [])
    ensures TransactHashes(logs + [log])
            == TransactHashes(logs) + (if log.event.Transact? then log.event.hashes else [])
    ensures Unshields(logs + [log])
            == Unshields(logs) + (if log.event.Withdrawal? then [PreimageOf(log.event.unshield)] else [])
  {
    assert (logs + [log])[..|logs|] == logs;
  }

  /** A longer stream keeps what was said about an open call. */
  lemma FrameGrows(inputs: seq<Input>, configs: seq<TxConfig>, inputs': seq<Input>, configs': seq<TxConfig>,
                   frame: Frame)
    requires inputs <= inputs' && configs <= configs' && FrameOk(inputs, configs, frame)
    ensures FrameOk(inputs', configs', frame)
  {
    hide CountsMatch, UnshieldCount;
    var to := frame.recordBase + |frame.configs|;
    assert inputs'[frame.recordBase..to] == inputs[frame.recordBase..to];
    assert configs'[frame.recordBase..to] == configs[frame.recordBase..to];
  }

  // ---------------------------------------------------------------------------------------------
  // Completing a call
  // ---------------------------------------------------------------------------------------------

  /** `t` is `s` with its innermost call completed on `hashes`. */
  predicate Pops(c: Crypto, s: State, transact: Option<nat>, hashes: seq<Hash>, logIndex: nat, t: State) {
    s.frames != [] && Complete(s, transact, FrameTransactions(c, Top(s), hashes, logIndex)) == Ok(t)
  }

  lemma PopKeeps(c: Crypto, logs: seq<Log>, s: State, transact: Option<nat>, hashes: seq<Hash>, logIndex: nat, t: State)
    requires Fields(c, logs, s) && Numbering(s) && UnshieldsKept(logs, s) && Pops(c, s, transact, hashes, logIndex, t)
    ensures Fields(c, logs, t) && Numbering(t) && UnshieldsKept(logs, t)
    ensures Owned(Flatten(t.decoded)) == Owned(Flatten(s.decoded)) + hashes
  {
    hide FrameTransactions, Carries, Owned, RecordsOf, Preimages, Flatten, Inputs, Configs, Unshields, CountsMatch,
      UnshieldCount, Range, PreimagesOf;
    var frame := Top(s);
    assert FrameOk(Inputs(logs), Configs(logs), frame);
    FrameHandsOver(c, frame, hashes, logIndex);
    var rows := FrameTransactions(c, frame, hashes, logIndex).value;
    FlattenSnoc(s.decoded, Group(transact, rows));
    assert t.decoded == s.decoded + [Group(transact, rows)] && t.frames == Rest(s);
    OwnedConcat(Flatten(s.decoded), rows);
    RecordsConcat(Flatten(s.decoded), rows);
    PreimagesConcat(Flatten(s.decoded), rows);
    assert OpenRecords(s.frames) == OpenRecords(t.frames) + Range(frame.recordBase, |frame.configs|);
    assert OpenUnshields(s.frames) == OpenUnshields(t.frames) + PreimagesOf(frame.unshields);
    forall i | 0 <= i < |rows|
      ensures RowOk(c, Inputs(logs), Configs(logs), rows[i])
    {
      assert frame.nullified[i] == Inputs(logs)[frame.recordBase + i];
      assert frame.configs[i] == Configs(logs)[frame.recordBase + i];
    }
  }

  // ---------------------------------------------------------------------------------------------
  // Reading a log
  // ---------------------------------------------------------------------------------------------

  /** A longer stream keeps what was said about open calls and finished rows. */
  predicate Kept(c: Crypto, inputs: seq<Input>, configs: seq<TxConfig>, s: State) {
    && (forall i :: 0 <= i < |s.frames| ==> FrameOk(inputs, configs, s.frames[i]))
    && (forall i :: 0 <= i < |Flatten(s.decoded)| ==> RowOk(c, inputs, configs, Flatten(s.decoded)[i]))
  }

  lemma KeptGrows(c: Crypto, inputs: seq<Input>, configs: seq<TxConfig>, inputs': seq<Input>, configs': seq<TxConfig>,
                  s: State)
    requires inputs <= inputs' && configs <= configs' && Kept(c, inputs, configs, s)
    ensures Kept(c, inputs', configs', s)
  {
    hide Carries, FrameOk, Flatten;
    forall i | 0 <= i < |s.frames| ensures FrameOk(inputs', configs', s.frames[i]) {
      FrameGrows(inputs, configs, inputs', configs', s.frames[i]);
    }
  }

  lemma ReadFields(c: Crypto, logs: seq<Log>, s: State, log: Log, u: State)
    requires Fields(c, logs, s) && !log.event.Transact? && Consume(c, s, log) == Ok(u)
    ensures Fields(c, logs + [log], u)
  {
    hide Flatten, Inputs, Configs, UnshieldCount, RowOk, ExpectsTransact;
    LogsSnoc(logs, log);
    KeptGrows(c, Inputs(logs), Configs(logs), Inputs(logs + [log]), Configs(logs + [log]), s);
  }

  lemma {:induction false} RangeConcat(base: nat, n: nat, m: nat)
    ensures Range(base, n + m) == Range(base, n) + Range(base + n, m)
  {
    if m > 0 {
      RangeConcat(base, n, m - 1);
    }
  }

  lemma OpenPush(frames: seq<Frame>, frame: Frame)
    ensures OpenRecords(frames + [frame]) == OpenRecords(frames) + Range(frame.recordBase, |frame.configs|)
    ensures OpenUnshields(frames + [frame]) == OpenUnshields(frames) + PreimagesOf(frame.unshields)
  {
    assert (frames + [frame])[..|frames|] == frames;
  }

  lemma PreimagesSnoc(unshields: seq<Unshield>, unshield: Unshield)
    ensures PreimagesOf(unshields + [unshield]) == PreimagesOf(unshields) + [PreimageOf(unshield)]
  {
    assert (unshields + [unshield])[..|unshields|] == unshields;
  }

  lemma OpenGive(frames: seq<Frame>, unshield: Unshield)
    requires frames != []
    ensures OpenRecords(GiveUnshields(frames, [unshield])) == OpenRecords(frames)
    ensures OpenUnshields(GiveUnshields(frames, [unshield])) == OpenUnshields(frames) + [PreimageOf(unshield)]
  {
    hide OpenRecords, OpenUnshields;
    var rest, top := frames[..|frames| - 1], frames[|frames| - 1];
    assert frames == rest + [top];
    OpenPush(rest, top);
    OpenPush(rest, top.(unshields := top.unshields + [unshield]));
    PreimagesSnoc(top.unshields, unshield);
  }

  lemma ReadNumbering(c: Crypto, s: State, log: Log, u: State)
    requires Numbering(s) && !log.event.Transact? && Consume(c, s, log) == Ok(u)
    ensures Numbering(u)
  {
    hide Flatten, RecordsOf, CountsMatch, ExpectsTransact, PendingUnshields, OpenRecords, Range;
    if log.event.Action? && log.event.configs != [] {
      RangeConcat(0, s.nextRecord, |log.event.configs|);
      OpenPush(s.frames, Top(u));
    } else if log.event.Withdrawal? {
      OpenGive(s.frames, log.event.unshield);
    }
  }

  lemma ReadUnshields(c: Crypto, logs: seq<Log>, s: State, log: Log, u: State)
    requires UnshieldsKept(logs, s) && !log.event.Transact? && Consume(c, s, log) == Ok(u)
    ensures UnshieldsKept(logs + [log], u)
  {
    hide Flatten, Preimages, CountsMatch, ExpectsTransact, PendingUnshields, OpenUnshields, Unshields, PreimageOf;
    LogsSnoc(logs, log);
    if log.event.Action? && log.event.configs != [] {
      OpenPush(s.frames, Top(u));
      assert OpenUnshields(s.frames) + [] == OpenUnshields(s.frames);
    } else if log.event.Withdrawal? {
      OpenGive(s.frames, log.event.unshield);
    }
    assert Unshields(logs) + [] == Unshields(logs);
  }

  // ---------------------------------------------------------------------------------------------
  // Whole streams
  // ---------------------------------------------------------------------------------------------

  lemma StepConserves(c: Crypto, logs: seq<Log>, s: State, log: Log, t: State)
    requires Conserved(c, logs, s) && Step(c, s, log) == Ok(t)
    ensures Conserved(c, logs + [log], t)
  {
    hide Fields, Numbering, UnshieldsKept, Owned, Flatten, TransactHashes, FrameTransactions;
    var u := Consume(c, s, log).value;
    LogsSnoc(logs, log);
    if log.event.Transact? {
      TransactReads(c, logs, s, log);
      PopKeeps(c, logs + [log], s, Some(log.index), log.event.hashes, log.index, u);
    } else {
      ReadFields(c, logs, s, log, u);
      ReadNumbering(c, s, log, u);
      ReadUnshields(c, logs, s, log, u);
      assert u.decoded == s.decoded;
    }
    if t != u {
      PopKeeps(c, logs + [log], u, None, [], Top(u).logIndex, t);
    }
  }

  lemma TransactReads(c: Crypto, logs: seq<Log>, s: State, log: Log)
    requires Conserved(c, logs, s) && log.event.Transact?
    ensures Fields(c, logs + [log], s) && UnshieldsKept(logs + [log], s)
  {
    hide Flatten, Preimages, OpenUnshields, Unshields, Inputs, Configs, FrameOk, RowOk, Owned;
    LogsSnoc(logs, log);
    assert Inputs(logs) + [] == Inputs(logs) && Configs(logs) + [] == Configs(logs)
           && Unshields(logs) + [] == Unshields(logs);
  }

  lemma StartConserved(c: Crypto)
    ensures Conserved(c, [], START)
  {
  }

  lemma {:induction false} RunConserves(c: Crypto, logs: seq<Log>)
    requires Run(c, START, logs).Ok?
    ensures Conserved(c, logs, Run(c, START, logs).value)
  {
    hide Conserved, Step;
    if logs == [] {
      StartConserved(c);
    } else {
      var before, log := logs[..|logs| - 1], logs[|logs| - 1];
      RunConserves(c, before);
      StepConserves(c, before, Run(c, START, before).value, log, Run(c, START, logs).value);
      assert before + [log] == logs;
    }
  }

  /** Conservation over every accepted stream. */
  lemma {:induction false} ParseConserves(c: Crypto, logs: seq<Log>)
    requires Parse(c, logs).Ok?
    ensures var rows := Flatten(Parse(c, logs).value);
            && |Inputs(logs)| == |Configs(logs)|
            && multiset(RecordsOf(rows)) == multiset(Range(0, |Configs(logs)|))
            && (forall i :: 0 <= i < |rows| ==> RowOk(c, Inputs(logs), Configs(logs), rows[i]))
            && Owned(rows) == TransactHashes(logs)
            && multiset(Preimages(rows)) == multiset(Unshields(logs))
  {
    hide Run, Owned, Flatten, RecordsOf, Preimages, Inputs, Configs, RowOk;
    RunConserves(c, logs);
  }

  // ---------------------------------------------------------------------------------------------
  // Logs without content leave no event
  // ---------------------------------------------------------------------------------------------

  /** Rows are stored per nullifier and per commitment, so a Nullified or Transact log with none
      leaves nothing to read back. */
  predicate LeavesEvent(log: Log) {
    match log.event
    case Nullified(_, nullifiers) => nullifiers != []
    case Transact(hashes) => hashes != []
    case Action(_) => true
    case Withdrawal(_) => true
  }

  function Recorded(logs: seq<Log>): seq<Log> {
    if logs == [] then [] else
    Recorded(logs[..|logs| - 1]) + (if LeavesEvent(logs[|logs| - 1]) then [logs[|logs| - 1]] else [])
  }

  lemma {:induction false} TransactsCarryHashes(c: Crypto, logs: seq<Log>)
    requires Run(c, START, logs).Ok?
    ensures forall i :: 0 <= i < |logs| && logs[i].event.Transact? ==> logs[i].event.hashes != []
  {
    hide Conserved, Step;
    if logs != [] {
      var before, log := logs[..|logs| - 1], logs[|logs| - 1];
      TransactsCarryHashes(c, before);
      if log.event.Transact? {
        RunConserves(c, before);
        TransactCarriesHashes(c, before, Run(c, START, before).value, log);
      }
    }
  }

  lemma TransactCarriesHashes(c: Crypto, logs: seq<Log>, s: State, log: Log)
    requires Conserved(c, logs, s) && log.event.Transact? && Step(c, s, log).Ok?
    ensures log.event.hashes != []
  {
    hide FrameTransactions;
    assert FrameOk(Inputs(logs), Configs(logs), Top(s));
    FrameOkFits(c, Top(s), log.event.hashes, log.index);
    NoCommitments(Top(s).configs);
  }

  lemma {:induction false} RecordedCounts(logs: seq<Log>)
    ensures Configs(Recorded(logs)) == Configs(logs)
    ensures |Inputs(Recorded(logs))| <= |Inputs(logs)|
    ensures |Inputs(Recorded(logs))| == |Inputs(logs)| ==>
              forall i :: 0 <= i < |logs| && logs[i].event.Nullified? ==> LeavesEvent(logs[i])
  {
    hide Inputs, Configs;
    if logs != [] {
      var before, log := logs[..|logs| - 1], logs[|logs| - 1];
      assert before + [log] == logs;
      RecordedCounts(before);
      LogsSnoc(before, log);
      LogsSnoc(Recorded(before), log);
      assert Recorded(before) + [] == Recorded(before) && Configs(before) + [] == Configs(before);
    }
  }

  lemma {:induction false} RecordedAll(logs: seq<Log>)
    requires forall i :: 0 <= i < |logs| ==> LeavesEvent(logs[i])
    ensures Recorded(logs) == logs
  {
    hide LeavesEvent;
    if logs != [] {
      RecordedAll(logs[..|logs| - 1]);
    }
  }

  /** Of the streams the parser accepts, it still accepts those read back from storage exactly when
      no Nullified log was empty. */
  lemma {:induction false} ReadBackAccepted(c: Crypto, logs: seq<Log>)
    requires Parse(c, logs).Ok?
    ensures Parse(c, Recorded(logs)).Ok? <==>
            forall i :: 0 <= i < |logs| && logs[i].event.Nullified? ==> logs[i].event.nullifiers != []
    ensures Parse(c, Recorded(logs)).Ok? ==> Recorded(logs) == logs
  {
    hide Run, Carries, RowOk, Owned, Preimages, RecordsOf, Flatten;
    TransactsCarryHashes(c, logs);
    RecordedCounts(logs);
    ParseConserves(c, logs);
    if Parse(c, Recorded(logs)).Ok? {
      ParseConserves(c, Recorded(logs));
    }
    if forall i :: 0 <= i < |logs| && logs[i].event.Nullified? ==> logs[i].event.nullifiers != [] {
      RecordedAll(logs);
    }
  }
}
