/** The stack parser that rebuilds Railgun transactions from the logs of one outer transaction.

    A Railgun call emits one `Nullified` log per configuration, then `Action`, then `Unshield` logs
    and whole nested calls in any order, then at most one `Transact`. The parser keeps the open
    calls on a stack and returns one group of transactions per call, in completion order, each
    transaction numbered in `Action` order. */
module ActionLogs {
  import opened Wrappers

  type Hash = nat

  // ---------------------------------------------------------------------------------------------
  // Logs
  // ---------------------------------------------------------------------------------------------

  /** `commitmentsCount` excludes the unshield commitment. */
  datatype TxConfig = TxConfig(
    nullifiersCount: nat, commitmentsCount: nat, hasUnshield: bool, boundParamsHash: Hash)

  datatype Unshield = Unshield(to: nat, token: nat, amount: nat, fee: nat)

  datatype Event =
    | Nullified(tree: nat, nullifiers: seq<Hash>)
    | Action(configs: seq<TxConfig>)
    | Withdrawal(unshield: Unshield)
    | Transact(hashes: seq<Hash>)

  datatype Log = Log(index: nat, event: Event)

  // ---------------------------------------------------------------------------------------------
  // Results
  // ---------------------------------------------------------------------------------------------

  datatype Preimage = Preimage(npk: nat, token: nat, value: nat)

  datatype CallKind = TransactCall | RelayCall | ExecuteCall | ActionLogsCall

  datatype Decoded = Decoded(
    kind: CallKind, nullifiers: seq<Hash>, commitments: seq<Hash>, boundParamsHash: Hash,
    hasUnshield: bool, preimage: Option<Preimage>, treeIn: nat, txid: nat)

  /** A transaction with its record index, counted in `Action` order across all calls. */
  datatype Numbered = Numbered(record: nat, tx: Decoded)

  /** One completed call: the log index of its `Transact`, if any, and its transactions. */
  datatype Group = Group(transact: Option<nat>, rows: seq<Numbered>)

  datatype Error =
    | NullifierCountMismatch(logIndex: nat)
    | UnmatchedLog(logIndex: nat)
    | MissingUnshield(logIndex: nat)
    | CommitmentCountMismatch(logIndex: nat)
    | UnshieldValueOverflow

  /** The hash functions the parser calls, left uninterpreted. */
  datatype Crypto = Crypto(
    commit: Preimage -> Hash,
    txid: (seq<Hash>, seq<Hash>, Hash) -> nat)

  // ---------------------------------------------------------------------------------------------
  // Parser state
  // ---------------------------------------------------------------------------------------------

  /** One `Nullified` log waiting for its `Action`. */
  datatype Input = Input(index: nat, tree: nat, nullifiers: seq<Hash>)

  /** An open call and the logs gathered for it so far. */
  datatype Frame = Frame(
    logIndex: nat, recordBase: nat, configs: seq<TxConfig>, nullified: seq<Input>,
    unshields: seq<Unshield>, expectsTransact: bool)

  datatype State = State(pending: seq<Input>, frames: seq<Frame>, nextRecord: nat, decoded: seq<Group>)

  const START := State([], [], 0, [])

  function UnshieldCount(configs: seq<TxConfig>): nat {
    if configs == [] then 0
    else UnshieldCount(configs[..|configs| - 1]) + (if configs[|configs| - 1].hasUnshield then 1 else 0)
  }

  function CommitmentCount(configs: seq<TxConfig>): nat {
    if configs == [] then 0
    else CommitmentCount(configs[..|configs| - 1]) + configs[|configs| - 1].commitmentsCount
  }

  /** Unshields a frame still waits for, saturating at zero. */
  function PendingUnshields(frame: Frame): nat {
    var expected := UnshieldCount(frame.configs);
    if expected <= |frame.unshields| then 0 else expected - |frame.unshields|
  }

  predicate ExpectsTransact(configs: seq<TxConfig>) {
    exists i :: 0 <= i < |configs| && configs[i].commitmentsCount > 0
  }

  predicate CountsMatch(inputs: seq<Input>, configs: seq<TxConfig>) {
    && |inputs| == |configs|
    && forall i :: 0 <= i < |configs| ==> configs[i].nullifiersCount == |inputs[i].nullifiers|
  }

  const UNSHIELD_VALUE_LIMIT: nat := 0x1_000000_00000000_00000000_00000000

  predicate ValueFits(unshield: Unshield) {
    unshield.amount + unshield.fee < UNSHIELD_VALUE_LIMIT
  }

  /** `npk` is the recipient and the value is the amount plus the fee. */
  function PreimageOf(unshield: Unshield): Preimage {
    Preimage(unshield.to, unshield.token, unshield.amount + unshield.fee)
  }

  // ---------------------------------------------------------------------------------------------
  // Splitting one call into transactions
  // ---------------------------------------------------------------------------------------------

  function MakeTransaction(c: Crypto, config: TxConfig, input: Input, own: seq<Hash>,
                           unshield: Option<Unshield>): Decoded {
    var commitments := if unshield.Some? then own + [c.commit(PreimageOf(unshield.value))] else own;
    Decoded(
      ActionLogsCall, input.nullifiers, commitments, config.boundParamsHash, config.hasUnshield,
      if unshield.Some? then Some(PreimageOf(unshield.value)) else None,
      input.tree, c.txid(input.nullifiers, commitments, config.boundParamsHash))
  }

  /** The state of the splitting loop after the first configurations of a frame. */
  datatype Split = Split(offset: nat, used: nat, rows: seq<Numbered>)

  /** The Unshield of a configuration that has one, when `used` are already taken. */
  function NextUnshield(frame: Frame, config: TxConfig, used: nat): Result<Option<Unshield>, Error> {
    if !config.hasUnshield then Ok(None)
    else if used >= |frame.unshields| then Err(MissingUnshield(frame.logIndex))
    else if !ValueFits(frame.unshields[used]) then Err(UnshieldValueOverflow)
    else Ok(Some(frame.unshields[used]))
  }

  /** Splits off configuration `i`. */
  function SplitNext(c: Crypto, frame: Frame, hashes: seq<Hash>, logIndex: nat, i: nat,
                     s: Split): (r: Result<Split, Error>)
    requires i < |frame.configs| && i < |frame.nullified|
    requires s.offset <= |hashes|
    ensures r.Ok? ==> r.value.offset <= |hashes|
  {
    var config := frame.configs[i];
    var end := s.offset + config.commitmentsCount;
    if end > |hashes| then Err(CommitmentCountMismatch(logIndex)) else
    match NextUnshield(frame, config, s.used)
    case Err(error) => Err(error)
    case Ok(unshield) =>
      Ok(Split(end, if unshield.Some? then s.used + 1 else s.used,
        s.rows + [Numbered(frame.recordBase + i,
          MakeTransaction(c, config, frame.nullified[i], hashes[s.offset..end], unshield))]))
  }

  /** Runs the splitting loop over the first `n` configurations. */
  function SplitUpTo(c: Crypto, frame: Frame, hashes: seq<Hash>, logIndex: nat, n: nat): (r: Result<Split, Error>)
    requires n <= |frame.configs| && n <= |frame.nullified|
    ensures r.Ok? ==> r.value.offset <= |hashes|
  {
    if n == 0 then Ok(Split(0, 0, [])) else
    match SplitUpTo(c, frame, hashes, logIndex, n - 1)
    case Err(error) => Err(error)
    case Ok(s) => SplitNext(c, frame, hashes, logIndex, n - 1, s)
  }

  function Shortest(frame: Frame): nat {
    if |frame.configs| <= |frame.nullified| then |frame.configs| else |frame.nullified|
  }

  function Conclude(split: Result<Split, Error>, hashes: seq<Hash>, logIndex: nat): Result<seq<Numbered>, Error> {
    match split
    case Err(error) => Err(error)
    case Ok(s) => if s.offset != |hashes| then Err(CommitmentCountMismatch(logIndex)) else Ok(s.rows)
  }

  function FrameTransactions(c: Crypto, frame: Frame, hashes: seq<Hash>, logIndex: nat): Result<seq<Numbered>, Error> {
    if PendingUnshields(frame) > 0 then Err(MissingUnshield(frame.logIndex)) else
    Conclude(SplitUpTo(c, frame, hashes, logIndex, Shortest(frame)), hashes, logIndex)
  }

  method SplitFrame(c: Crypto, frame: Frame, hashes: seq<Hash>, logIndex: nat) returns (r: Result<Split, Error>)
    ensures r == SplitUpTo(c, frame, hashes, logIndex, Shortest(frame))
  {
    hide NextUnshield, MakeTransaction;
    r := Ok(Split(0, 0, []));
    var i := 0;
    while i < Shortest(frame) && r.Ok?
      invariant 0 <= i <= Shortest(frame)
      invariant r == SplitUpTo(c, frame, hashes, logIndex, i)
    {
      r := SplitNext(c, frame, hashes, logIndex, i, r.value);
      i := i + 1;
    }
    if r.Err? {
      SplitFails(c, frame, hashes, logIndex, i, Shortest(frame));
    }
  }

  method TransactionsFromFrame(c: Crypto, frame: Frame, hashes: seq<Hash>, logIndex: nat)
    returns (r: Result<seq<Numbered>, Error>)
    ensures r == FrameTransactions(c, frame, hashes, logIndex)
  {
    if PendingUnshields(frame) > 0 {
      return Err(MissingUnshield(frame.logIndex));
    }
    var split := SplitFrame(c, frame, hashes, logIndex);
    if split.Err? {
      return Err(split.error);
    }
    if split.value.offset != |hashes| {
      return Err(CommitmentCountMismatch(logIndex));
    }
    return Ok(split.value.rows);
  }

  /** Once a configuration fails, the loop reports that failure. */
  lemma {:induction false} SplitFails(c: Crypto, frame: Frame, hashes: seq<Hash>, logIndex: nat, i: nat, n: nat)
    requires i <= n <= |frame.configs| && n <= |frame.nullified|
    requires SplitUpTo(c, frame, hashes, logIndex, i).Err?
    ensures SplitUpTo(c, frame, hashes, logIndex, n) == SplitUpTo(c, frame, hashes, logIndex, i)
  {
    if i < n {
      SplitFails(c, frame, hashes, logIndex, i, n - 1);
    }
  }

  // ---------------------------------------------------------------------------------------------
  // The parser
  // ---------------------------------------------------------------------------------------------

  /** Applies one log, before any call without commitments is closed. */
  function Consume(c: Crypto, s: State, log: Log): Result<State, Error> {
    match log.event
    case Nullified(tree, nullifiers) =>
      Ok(s.(pending := s.pending + [Input(log.index, tree, nullifiers)]))
    case Action(configs) =>
      if !CountsMatch(s.pending, configs) then Err(NullifierCountMismatch(log.index))
      // A shield emits an Action with no configurations and opens no call.
      else if configs == [] then Ok(s)
      else Ok(s.(pending := [], nextRecord := s.nextRecord + |configs|,
          frames := s.frames + [Frame(log.index, s.nextRecord, configs, s.pending, [], ExpectsTransact(configs))]))
    case Withdrawal(unshield) =>
      if s.frames == [] || PendingUnshields(Top(s)) == 0 then Err(UnmatchedLog(log.index))
      else Ok(s.(frames := Rest(s) + [Top(s).(unshields := Top(s).unshields + [unshield])]))
    case Transact(hashes) =>
      if s.frames == [] || !Top(s).expectsTransact then Err(UnmatchedLog(log.index)) else
      Complete(s, Some(log.index), FrameTransactions(c, Top(s), hashes, log.index))
  }

  function Top(s: State): Frame
    requires s.frames != []
  {
    s.frames[|s.frames| - 1]
  }

  function Rest(s: State): seq<Frame>
    requires s.frames != []
  {
    s.frames[..|s.frames| - 1]
  }

  /** Pops the innermost open call and appends its transactions. */
  function Complete(s: State, transact: Option<nat>, rows: Result<seq<Numbered>, Error>): Result<State, Error>
    requires s.frames != []
  {
    match rows
    case Err(error) => Err(error)
    case Ok(rows) => Ok(s.(frames := Rest(s), decoded := s.decoded + [Group(transact, rows)]))
  }

  /** A call without commitments completes at its last Unshield. */
  predicate Closable(frame: Frame) {
    !frame.expectsTransact && PendingUnshields(frame) == 0
  }

  function CloseTop(c: Crypto, s: State): Result<State, Error> {
    if s.frames == [] || !Closable(Top(s)) then Ok(s) else
    Complete(s, None, FrameTransactions(c, Top(s), [], Top(s).logIndex))
  }

  function Step(c: Crypto, s: State, log: Log): Result<State, Error> {
    match Consume(c, s, log)
    case Err(error) => Err(error)
    case Ok(consumed) => CloseTop(c, consumed)
  }

  function Then(c: Crypto, before: Result<State, Error>, log: Log): Result<State, Error> {
    match before
    case Err(error) => Err(error)
    case Ok(s) => Step(c, s, log)
  }

  function Run(c: Crypto, s: State, logs: seq<Log>): Result<State, Error> {
    if logs == [] then Ok(s) else
    Then(c, Run(c, s, logs[..|logs| - 1]), logs[|logs| - 1])
  }

  function Finish(s: State): Result<seq<Group>, Error> {
    if s.pending != [] then Err(NullifierCountMismatch(s.pending[0].index))
    else if s.frames != [] then
      if PendingUnshields(Top(s)) > 0 then Err(MissingUnshield(Top(s).logIndex))
      else Err(CommitmentCountMismatch(Top(s).logIndex))
    else Ok(s.decoded)
  }

  function Parse(c: Crypto, logs: seq<Log>): Result<seq<Group>, Error> {
    match Run(c, START, logs)
    case Err(error) => Err(error)
    case Ok(s) => Finish(s)
  }

  method ConsumeLog(c: Crypto, s: State, log: Log) returns (r: Result<State, Error>)
    ensures r == Consume(c, s, log)
  {
    var pending, frames, nextRecord, decoded := s.pending, s.frames, s.nextRecord, s.decoded;
    match log.event {
      case Nullified(tree, nullifiers) =>
        pending := pending + [Input(log.index, tree, nullifiers)];
      case Action(configs) =>
        if !CountsMatch(pending, configs) {
          return Err(NullifierCountMismatch(log.index));
        }
        if configs != [] {
          frames := frames + [Frame(log.index, nextRecord, configs, pending, [], ExpectsTransact(configs))];
          nextRecord := nextRecord + |configs|;
          pending := [];
        }
      case Withdrawal(unshield) =>
        if frames == [] || PendingUnshields(frames[|frames| - 1]) == 0 {
          return Err(UnmatchedLog(log.index));
        }
        var top := frames[|frames| - 1];
        frames := frames[..|frames| - 1] + [top.(unshields := top.unshields + [unshield])];
      case Transact(hashes) =>
        if frames == [] || !frames[|frames| - 1].expectsTransact {
          return Err(UnmatchedLog(log.index));
        }
        var rows := TransactionsFromFrame(c, frames[|frames| - 1], hashes, log.index);
        if rows.Err? {
          return Err(rows.error);
        }
        frames := frames[..|frames| - 1];
        decoded := decoded + [Group(Some(log.index), rows.value)];
    }
    return Ok(State(pending, frames, nextRecord, decoded));
  }

  method CloseCompleted(c: Crypto, s: State) returns (r: Result<State, Error>)
    ensures r == CloseTop(c, s)
  {
    var frames := s.frames;
    if frames == [] || !Closable(frames[|frames| - 1]) {
      return Ok(s);
    }
    var top := frames[|frames| - 1];
    frames := frames[..|frames| - 1];
    var rows := TransactionsFromFrame(c, top, [], top.logIndex);
    if rows.Err? {
      return Err(rows.error);
    }
    return Ok(s.(frames := frames, decoded := s.decoded + [Group(None, rows.value)]));
  }

  method ParseLogs(c: Crypto, logs: seq<Log>) returns (r: Result<seq<Group>, Error>)
    ensures r == Parse(c, logs)
  {
    var s := START;
    for i := 0 to |logs|
      invariant Run(c, START, logs[..i]) == Ok(s)
    {
      RunSnoc(c, START, logs, i);
      var next := ConsumeLog(c, s, logs[i]);
      if next.Ok? {
        next := CloseCompleted(c, next.value);
      }
      if next.Err? {
        RunFails(c, START, logs, i + 1);
        return Err(next.error);
      }
      s := next.value;
    }
    assert logs[..|logs|] == logs;
    if s.pending != [] {
      return Err(NullifierCountMismatch(s.pending[0].index));
    }
    if s.frames != [] {
      var top := s.frames[|s.frames| - 1];
      return if PendingUnshields(top) > 0 then Err(MissingUnshield(top.logIndex))
             else Err(CommitmentCountMismatch(top.logIndex));
    }
    return Ok(s.decoded);
  }

  lemma RunSnoc(c: Crypto, s: State, logs: seq<Log>, i: nat)
    requires i < |logs|
    ensures Run(c, s, logs[..i + 1]) ==
            Then(c, Run(c, s, logs[..i]), logs[i])
  {
    assert logs[..i + 1][..i] == logs[..i];
  }

  /** A failed prefix fails the whole stream with the same error. */
  lemma {:induction false} RunFails(c: Crypto, s: State, logs: seq<Log>, i: nat)
    requires i <= |logs|
    requires Run(c, s, logs[..i]).Err?
    ensures Run(c, s, logs) == Run(c, s, logs[..i])
    decreases |logs| - i
  {
    if i == |logs| {
      assert logs[..i] == logs;
    } else {
      RunSnoc(c, s, logs, i);
      RunFails(c, s, logs, i + 1);
    }
  }

  lemma {:induction false} RunConcat(c: Crypto, s: State, a: seq<Log>, b: seq<Log>)
    ensures Run(c, s, a + b) == (match Run(c, s, a) case Err(error) => Err(error) case Ok(middle) => Run(c, middle, b))
    decreases |b|
  {
    if b == [] {
      assert a + b == a;
    } else {
      RunConcat(c, s, a, b[..|b| - 1]);
      assert (a + b)[..|a + b| - 1] == a + b[..|b| - 1];
    }
  }
}
