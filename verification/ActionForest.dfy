/** Forests of nested Railgun calls, the logs they emit, and the proof that the parser inverts the
    emission: parsing the logs of a forest returns its transactions, and every accepted stream whose
    `Nullified` logs sit next to their `Action` is the emission of a forest. */
module ActionForest {
  import opened Wrappers
  import opened ActionLogs

  /** What may happen while a call is open, or at the top level of the outer transaction. */
  datatype Item =
    | Withdraw(index: nat, unshield: Unshield)
    | Nested(call: Call)
    | Shield(index: nat)

  datatype Closing = Silent | Outputs(index: nat, hashes: seq<Hash>)

  datatype Call = Call(
    inputs: seq<Input>, logIndex: nat, configs: seq<TxConfig>, body: seq<Item>, closing: Closing)

  // ---------------------------------------------------------------------------------------------
  // Emission
  // ---------------------------------------------------------------------------------------------

  function InputLog(input: Input): Log {
    Log(input.index, Nullified(input.tree, input.nullifiers))
  }

  function EmitInputs(inputs: seq<Input>): seq<Log> {
    if inputs == [] then [] else EmitInputs(inputs[..|inputs| - 1]) + [InputLog(inputs[|inputs| - 1])]
  }

  function EmitOpening(inputs: seq<Input>, logIndex: nat, configs: seq<TxConfig>): seq<Log> {
    EmitInputs(inputs) + [Log(logIndex, Action(configs))]
  }

  function EmitClosing(closing: Closing): seq<Log> {
    match closing
    case Silent => []
    case Outputs(index, hashes) => [Log(index, Transact(hashes))]
  }

  function EmitCall(call: Call): seq<Log> {
    EmitOpening(call.inputs, call.logIndex, call.configs) + EmitItems(call.body) + EmitClosing(call.closing)
  }

  function EmitItem(item: Item): seq<Log> {
    match item
    case Withdraw(index, unshield) => [Log(index, Withdrawal(unshield))]
    case Nested(call) => EmitCall(call)
    case Shield(index) => [Log(index, Action([]))]
  }

  function EmitItems(items: seq<Item>): seq<Log> {
    if items == [] then [] else EmitItems(items[..|items| - 1]) + EmitItem(items[|items| - 1])
  }

  // ---------------------------------------------------------------------------------------------
  // Well-formed calls
  // ---------------------------------------------------------------------------------------------

  /** The Unshields emitted by the call itself, not by its nested calls. */
  function Withdrawals(items: seq<Item>): seq<Unshield> {
    if items == [] then []
    else
      var last := items[|items| - 1];
      Withdrawals(items[..|items| - 1]) + (if last.Withdraw? then [last.unshield] else [])
  }

  function Hashes(closing: Closing): seq<Hash> {
    match closing
    case Silent => []
    case Outputs(_, hashes) => hashes
  }

  function TransactIndex(closing: Closing): Option<nat> {
    match closing
    case Silent => None
    case Outputs(index, _) => Some(index)
  }

  /** The parts of a call fit its configurations. */
  predicate Fits(configs: seq<TxConfig>, inputs: seq<Input>, unshields: seq<Unshield>, hashes: seq<Hash>) {
    && CountsMatch(inputs, configs)
    && |unshields| == UnshieldCount(configs)
    && |hashes| == CommitmentCount(configs)
    && forall i :: 0 <= i < |unshields| ==> ValueFits(unshields[i])
  }

  /** A call without commitments emits no Transact and ends at its last Unshield. */
  predicate WellFormedCall(call: Call)
    decreases call
  {
    && call.configs != []
    && Fits(call.configs, call.inputs, Withdrawals(call.body), Hashes(call.closing))
    && WellFormed(call.body)
    && (if ExpectsTransact(call.configs) then call.closing.Outputs?
        else call.closing.Silent? && (call.body == [] || call.body[|call.body| - 1].Withdraw?))
  }

  predicate WellFormed(items: seq<Item>)
    decreases items
  {
    forall i :: 0 <= i < |items| ==> WellFormedItem(items[i])
  }

  predicate WellFormedItem(item: Item) {
    match item
    case Nested(call) => WellFormedCall(call)
    case Withdraw(_, _) => true
    case Shield(_) => true
  }

  /** The calls of an outer transaction: no Unshield stands outside a call. */
  predicate WellFormedForest(forest: seq<Item>) {
    WellFormed(forest) && Withdrawals(forest) == []
  }

  // ---------------------------------------------------------------------------------------------
  // The transactions of a forest
  // ---------------------------------------------------------------------------------------------

  lemma {:induction false} CountsBound(configs: seq<TxConfig>, i: nat)
    requires i < |configs|
    ensures CommitmentCount(configs[..i + 1]) == CommitmentCount(configs[..i]) + configs[i].commitmentsCount
    ensures UnshieldCount(configs[..i + 1]) == UnshieldCount(configs[..i]) + (if configs[i].hasUnshield then 1 else 0)
    ensures CommitmentCount(configs[..i + 1]) <= CommitmentCount(configs)
    ensures UnshieldCount(configs[..i + 1]) <= UnshieldCount(configs)
    decreases |configs|
  {
    assert configs[..i + 1][..i] == configs[..i];
    if i + 1 == |configs| {
      assert configs[..i + 1] == configs;
    } else {
      var shorter := configs[..|configs| - 1];
      assert shorter[..i + 1] == configs[..i + 1] && shorter[..i] == configs[..i];
      CountsBound(shorter, i);
    }
  }

  /** Transaction `i` of a call: the `i`-th Nullified log, the commitments that follow those of the
      earlier configurations, and the Unshield that follows those of the earlier configurations. */
  function TransactionAt(c: Crypto, configs: seq<TxConfig>, inputs: seq<Input>, unshields: seq<Unshield>,
                         hashes: seq<Hash>, i: nat): Decoded
    requires Fits(configs, inputs, unshields, hashes) && i < |configs|
  {
    CountsBound(configs, i);
    MakeTransaction(c, configs[i], inputs[i],
      hashes[CommitmentCount(configs[..i])..CommitmentCount(configs[..i + 1])],
      if configs[i].hasUnshield then Some(unshields[UnshieldCount(configs[..i])]) else None)
  }

  function RowsUpTo(c: Crypto, configs: seq<TxConfig>, inputs: seq<Input>, unshields: seq<Unshield>,
                    hashes: seq<Hash>, base: nat, n: nat): seq<Numbered>
    requires Fits(configs, inputs, unshields, hashes) && n <= |configs|
  {
    if n == 0 then [] else
    RowsUpTo(c, configs, inputs, unshields, hashes, base, n - 1) +
      [Numbered(base + n - 1, TransactionAt(c, configs, inputs, unshields, hashes, n - 1))]
  }

  function CallRows(c: Crypto, call: Call, base: nat): seq<Numbered>
    requires WellFormedCall(call)
  {
    RowsUpTo(c, call.configs, call.inputs, Withdrawals(call.body), Hashes(call.closing), base, |call.configs|)
  }

  /** Records used by a call and its nested calls. */
  function CallRecords(call: Call): nat {
    |call.configs| + Records(call.body)
  }

  function Records(items: seq<Item>): nat {
    if items == [] then 0 else Records(items[..|items| - 1]) + ItemRecords(items[|items| - 1])
  }

  function ItemRecords(item: Item): nat {
    match item
    case Nested(call) => CallRecords(call)
    case Withdraw(_, _) => 0
    case Shield(_) => 0
  }

  /** The groups of a call in completion order, numbering configurations in Action order. */
  function CallGroups(c: Crypto, call: Call, base: nat): seq<Group>
    requires WellFormedCall(call)
    decreases call
  {
    Groups(c, call.body, base + |call.configs|) + [Group(TransactIndex(call.closing), CallRows(c, call, base))]
  }

  function ItemGroups(c: Crypto, item: Item, base: nat): seq<Group>
    requires WellFormedItem(item)
    decreases item
  {
    match item
    case Nested(call) => CallGroups(c, call, base)
    case Withdraw(_, _) => []
    case Shield(_) => []
  }

  function Groups(c: Crypto, items: seq<Item>, base: nat): seq<Group>
    requires WellFormed(items)
    decreases items
  {
    if items == [] then [] else
    var init := items[..|items| - 1];
    Groups(c, init, base) + ItemGroups(c, items[|items| - 1], base + Records(init))
  }

  // ---------------------------------------------------------------------------------------------
  // Parsing an emission
  // ---------------------------------------------------------------------------------------------

  function SplitOfCall(c: Crypto, frame: Frame, hashes: seq<Hash>, n: nat): Split
    requires Fits(frame.configs, frame.nullified, frame.unshields, hashes) && n <= |frame.configs|
  {
    Split(CommitmentCount(frame.configs[..n]), UnshieldCount(frame.configs[..n]),
          RowsUpTo(c, frame.configs, frame.nullified, frame.unshields, hashes, frame.recordBase, n))
  }

  lemma SplitCallNext(c: Crypto, frame: Frame, hashes: seq<Hash>, logIndex: nat, i: nat)
    requires Fits(frame.configs, frame.nullified, frame.unshields, hashes) && i < |frame.configs|
    requires CommitmentCount(frame.configs[..i]) <= |hashes|
    ensures SplitNext(c, frame, hashes, logIndex, i, SplitOfCall(c, frame, hashes, i)) ==
            Ok(SplitOfCall(c, frame, hashes, i + 1))
  {
    hide CommitmentCount, UnshieldCount, MakeTransaction;
    CountsBound(frame.configs, i);
  }

  lemma {:induction false} SplitCall(c: Crypto, frame: Frame, hashes: seq<Hash>, logIndex: nat, n: nat)
    requires Fits(frame.configs, frame.nullified, frame.unshields, hashes) && n <= |frame.configs|
    ensures SplitUpTo(c, frame, hashes, logIndex, n) == Ok(SplitOfCall(c, frame, hashes, n))
  {
    if n == 0 {
      assert frame.configs[..0] == [];
    } else {
      SplitCall(c, frame, hashes, logIndex, n - 1);
      SplitCallNext(c, frame, hashes, logIndex, n - 1);
    }
  }

  lemma FrameOfCall(c: Crypto, frame: Frame, hashes: seq<Hash>, logIndex: nat)
    requires Fits(frame.configs, frame.nullified, frame.unshields, hashes)
    ensures FrameTransactions(c, frame, hashes, logIndex) ==
            Ok(RowsUpTo(c, frame.configs, frame.nullified, frame.unshields, hashes, frame.recordBase, |frame.configs|))
  {
    SplitCall(c, frame, hashes, logIndex, |frame.configs|);
    assert frame.configs[..|frame.configs|] == frame.configs;
  }

  lemma {:induction false} NoCommitments(configs: seq<TxConfig>)
    ensures CommitmentCount(configs) == 0 <==> !ExpectsTransact(configs)
  {
    if configs != [] {
      var shorter := configs[..|configs| - 1];
      NoCommitments(shorter);
      assert forall i :: 0 <= i < |shorter| ==> shorter[i] == configs[i];
    }
  }

  /** Every open call still waits for an Unshield or a Transact. */
  predicate Awaiting(frames: seq<Frame>) {
    forall i :: 0 <= i < |frames| ==> !Closable(frames[i])
  }

  lemma RunOne(c: Crypto, s: State, log: Log)
    ensures Run(c, s, [log]) == Step(c, s, log)
  {
    assert [log][..0] == [];
  }

  lemma {:induction false} RunInputs(c: Crypto, s: State, inputs: seq<Input>)
    requires s.pending == [] && (s.frames != [] ==> !Closable(Top(s)))
    ensures Run(c, s, EmitInputs(inputs)) == Ok(s.(pending := inputs))
  {
    hide Closable, FrameTransactions;
    if inputs != [] {
      var init, last := inputs[..|inputs| - 1], inputs[|inputs| - 1];
      RunInputs(c, s, init);
      assert EmitInputs(inputs)[..|EmitInputs(inputs)| - 1] == EmitInputs(init);
      assert init + [Input(last.index, last.tree, last.nullifiers)] == inputs;
    }
  }

  /** The parser state after the logs of `items`, started in a state with no pending Nullified. */
  function After(c: Crypto, s: State, items: seq<Item>): State
    requires WellFormed(items)
  {
    State([], GiveUnshields(s.frames, Withdrawals(items)), s.nextRecord + Records(items),
          s.decoded + Groups(c, items, s.nextRecord))
  }

  function GiveUnshields(frames: seq<Frame>, unshields: seq<Unshield>): seq<Frame> {
    if frames == [] then [] else
    var top := frames[|frames| - 1];
    frames[..|frames| - 1] + [top.(unshields := top.unshields + unshields)]
  }

  lemma GiveNothing(frames: seq<Frame>)
    ensures GiveUnshields(frames, []) == frames
  {
    if frames != [] {
      var top := frames[|frames| - 1];
      assert top.unshields + [] == top.unshields;
    }
  }

  lemma GiveTwice(frames: seq<Frame>, first: seq<Unshield>, second: seq<Unshield>)
    ensures GiveUnshields(GiveUnshields(frames, first), second) == GiveUnshields(frames, first + second)
  {
    if frames != [] {
      var top := frames[|frames| - 1];
      assert (top.unshields + first) + second == top.unshields + (first + second);
      assert GiveUnshields(frames, first)[..|frames| - 1] == frames[..|frames| - 1];
    }
  }

  /** The innermost open call takes the Unshields of `items` and stays open. */
  predicate Accepts(frames: seq<Frame>, items: seq<Item>) {
    if frames == [] then Withdrawals(items) == []
    else
      var top := frames[|frames| - 1];
      |Withdrawals(items)| < PendingUnshields(top) ||
      (top.expectsTransact && |Withdrawals(items)| == PendingUnshields(top))
  }

  function AfterItem(c: Crypto, s: State, item: Item): State
    requires WellFormedItem(item)
  {
    State([], GiveUnshields(s.frames, Withdrawals([item])), s.nextRecord + ItemRecords(item),
          s.decoded + ItemGroups(c, item, s.nextRecord))
  }

  lemma GroupsLast(c: Crypto, decoded: seq<Group>, items: seq<Item>, base: nat)
    requires items != [] && WellFormed(items)
    ensures var init := items[..|items| - 1];
            (decoded + Groups(c, init, base)) + ItemGroups(c, items[|items| - 1], base + Records(init)) ==
            decoded + Groups(c, items, base)
  {
    hide ItemGroups, ItemRecords;
  }

  lemma FramesLast(frames: seq<Frame>, items: seq<Item>)
    requires items != []
    ensures GiveUnshields(GiveUnshields(frames, Withdrawals(items[..|items| - 1])),
                          Withdrawals([items[|items| - 1]])) ==
            GiveUnshields(frames, Withdrawals(items))
  {
    hide GiveUnshields;
    var init, last := items[..|items| - 1], items[|items| - 1];
    WithdrawalsOne(last);
    assert Withdrawals(init) + Withdrawals([last]) == Withdrawals(items);
    GiveTwice(frames, Withdrawals(init), Withdrawals([last]));
  }

  lemma AfterLast(c: Crypto, s: State, items: seq<Item>)
    requires items != [] && WellFormed(items)
    ensures AfterItem(c, After(c, s, items[..|items| - 1]), items[|items| - 1]) == After(c, s, items)
  {
    hide GiveUnshields, ItemGroups, Groups, ItemRecords, Withdrawals, WellFormed;
    FramesLast(s.frames, items);
    GroupsLast(c, s.decoded, items, s.nextRecord);
  }

  lemma AfterNothing(c: Crypto, s: State)
    requires s.pending == []
    ensures After(c, s, []) == s
  {
    GiveNothing(s.frames);
    assert s.decoded + [] == s.decoded;
  }

  lemma {:induction false} RunItems(c: Crypto, s: State, items: seq<Item>)
    requires s.pending == [] && WellFormed(items) && Accepts(s.frames, items)
    ensures Run(c, s, EmitItems(items)) == Ok(After(c, s, items))
    decreases items
  {
    hide Step, Accepts, GiveUnshields, WellFormedItem, ItemRecords, ItemGroups, Groups, Records, Withdrawals;
    if items == [] {
      AfterNothing(c, s);
    } else {
      var init, last := items[..|items| - 1], items[|items| - 1];
      RunItems(c, s, init) by { AcceptsFewer(s.frames, items); }
      RunItem(c, After(c, s, init), last) by { AcceptsLast(s.frames, items); }
      RunConcat(c, s, EmitItems(init), EmitItem(last));
      AfterLast(c, s, items);
    }
  }

  lemma AcceptsFewer(frames: seq<Frame>, items: seq<Item>)
    requires items != [] && Accepts(frames, items)
    ensures Accepts(frames, items[..|items| - 1])
  {
  }

  lemma AcceptsLast(frames: seq<Frame>, items: seq<Item>)
    requires items != [] && Accepts(frames, items)
    ensures Accepts(GiveUnshields(frames, Withdrawals(items[..|items| - 1])), [items[|items| - 1]])
  {
    WithdrawalsOne(items[|items| - 1]);
  }

  lemma WithdrawalsOne(item: Item)
    ensures Withdrawals([item]) == if item.Withdraw? then [item.unshield] else []
  {
    assert [item][..0] == [];
  }

  lemma {:induction false} RunItem(c: Crypto, s: State, item: Item)
    requires s.pending == [] && WellFormedItem(item) && Accepts(s.frames, [item])
    ensures Run(c, s, EmitItem(item)) == Ok(AfterItem(c, s, item))
    decreases item
  {
    hide Step, Run, EmitCall, CallGroups, CallRecords, WellFormedCall;
    WithdrawalsOne(item);
    match item
    case Withdraw(index, unshield) => RunWithdraw(c, s, index, unshield);
    case Shield(index) => RunShield(c, s, index);
    case Nested(call) =>
      GiveNothing(s.frames);
      RunCall(c, s, call);
  }

  lemma RunWithdraw(c: Crypto, s: State, index: nat, unshield: Unshield)
    requires s.pending == [] && Accepts(s.frames, [Withdraw(index, unshield)])
    ensures Run(c, s, EmitItem(Withdraw(index, unshield))) ==
            Ok(AfterItem(c, s, Withdraw(index, unshield)))
  {
    WithdrawalsOne(Withdraw(index, unshield));
    RunOne(c, s, Log(index, Withdrawal(unshield)));
    assert s.decoded + [] == s.decoded;
  }

  lemma RunShield(c: Crypto, s: State, index: nat)
    requires s.pending == [] && Accepts(s.frames, [Shield(index)])
    ensures Run(c, s, EmitItem(Shield(index))) ==
            Ok(AfterItem(c, s, Shield(index)))
  {
    WithdrawalsOne(Shield(index));
    GiveNothing(s.frames);
    RunOne(c, s, Log(index, Action([])));
    assert s.decoded + [] == s.decoded;
  }

  /** The state right after a call's Action log, before its body. */
  function Opened(s: State, call: Call): State {
    State([], s.frames + [Frame(call.logIndex, s.nextRecord, call.configs, call.inputs, [],
                                ExpectsTransact(call.configs))],
          s.nextRecord + |call.configs|, s.decoded)
  }

  lemma RunOpening(c: Crypto, s: State, call: Call)
    requires s.pending == [] && WellFormedCall(call) && (s.frames != [] ==> !Closable(Top(s)))
    ensures Run(c, s, EmitOpening(call.inputs, call.logIndex, call.configs)) == CloseTop(c, Opened(s, call))
  {
    hide Run, EmitInputs, Closable, FrameTransactions, WellFormed, Withdrawals;
    var action := Log(call.logIndex, Action(call.configs));
    RunInputs(c, s, call.inputs);
    RunConcat(c, s, EmitInputs(call.inputs), [action]);
    RunOne(c, s.(pending := call.inputs), action);
  }

  /** The state when a call has emitted all its Unshields and is about to complete. */
  function Completing(c: Crypto, s: State, call: Call): State
    requires WellFormedCall(call)
  {
    After(c, Opened(s, call), call.body)
  }

  lemma CompleteCall(c: Crypto, s: State, call: Call, index: nat)
    requires WellFormedCall(call)
    ensures var t := Completing(c, s, call);
            && t.frames == s.frames + [Top(Opened(s, call)).(unshields := Withdrawals(call.body))]
            && Complete(t, TransactIndex(call.closing), FrameTransactions(c, Top(t), Hashes(call.closing), index)) ==
               Ok(State([], s.frames, s.nextRecord + CallRecords(call), s.decoded + CallGroups(c, call, s.nextRecord)))
  {
    hide FrameTransactions, Groups, RowsUpTo, Withdrawals, WellFormed;
    var t := Completing(c, s, call);
    var frame := Top(Opened(s, call)).(unshields := Withdrawals(call.body));
    assert t.frames == s.frames + [frame] by {
      assert [] + Withdrawals(call.body) == Withdrawals(call.body);
      assert Opened(s, call).frames[..|s.frames|] == s.frames;
    }
    FrameOfCall(c, frame, Hashes(call.closing), index);
    assert Rest(t) == s.frames;
    assert (s.decoded + Groups(c, call.body, s.nextRecord + |call.configs|)) +
           [Group(TransactIndex(call.closing), CallRows(c, call, s.nextRecord))] ==
           s.decoded + CallGroups(c, call, s.nextRecord);
  }

  /** What the parser holds once the call has completed. */
  function Completed(c: Crypto, s: State, call: Call): State
    requires WellFormedCall(call)
  {
    State([], s.frames, s.nextRecord + CallRecords(call), s.decoded + CallGroups(c, call, s.nextRecord))
  }

  lemma RunTransact(c: Crypto, s: State, call: Call)
    requires WellFormedCall(call) && ExpectsTransact(call.configs) && (s.frames != [] ==> !Closable(Top(s)))
    ensures Run(c, Completing(c, s, call), EmitClosing(call.closing)) == Ok(Completed(c, s, call))
  {
    hide After, FrameTransactions, CallGroups, PendingUnshields;
    var Outputs(index, hashes) := call.closing;
    RunOne(c, Completing(c, s, call), Log(index, Transact(hashes)));
    CompleteCall(c, s, call, index);
  }

  lemma CompletesSilently(c: Crypto, s: State, call: Call)
    requires WellFormedCall(call) && !ExpectsTransact(call.configs)
    ensures CloseTop(c, Completing(c, s, call)) == Ok(Completed(c, s, call))
  {
    hide After, FrameTransactions, CallGroups;
    CompleteCall(c, s, call, call.logIndex);
  }

  lemma RunLastUnshield(c: Crypto, s: State, call: Call)
    requires WellFormedCall(call) && !ExpectsTransact(call.configs) && call.body != []
    ensures WellFormed(call.body[..|call.body| - 1])
    ensures Run(c, After(c, Opened(s, call), call.body[..|call.body| - 1]), EmitItem(call.body[|call.body| - 1])) ==
            CloseTop(c, Completing(c, s, call))
  {
    hide CloseTop;
    var init, last := call.body[..|call.body| - 1], call.body[|call.body| - 1];
    var t := After(c, Opened(s, call), init);
    WithdrawalsOne(last);
    AfterLast(c, Opened(s, call), call.body);
    RunOne(c, t, Log(last.index, Withdrawal(last.unshield)));
    assert t.decoded + [] == t.decoded;
  }

  lemma StaysOpen(c: Crypto, s: State, call: Call)
    requires WellFormedCall(call) && (ExpectsTransact(call.configs) || call.body != [])
    ensures CloseTop(c, Opened(s, call)) == Ok(Opened(s, call))
    ensures ExpectsTransact(call.configs) ==> Accepts(Opened(s, call).frames, call.body)
    ensures !ExpectsTransact(call.configs) ==>
              WellFormed(call.body[..|call.body| - 1]) && Accepts(Opened(s, call).frames, call.body[..|call.body| - 1])
  {
    hide FrameTransactions, WellFormedItem;
  }

  lemma {:induction false} RunCall(c: Crypto, s: State, call: Call)
    requires s.pending == [] && WellFormedCall(call) && (s.frames != [] ==> !Closable(Top(s)))
    ensures Run(c, s, EmitCall(call)) == Ok(Completed(c, s, call))
    decreases call
  {
    hide Run, Accepts, Closable, CloseTop, Fits, Withdrawals, CallGroups;
    var opening := EmitOpening(call.inputs, call.logIndex, call.configs);
    var body := EmitItems(call.body);
    var t := Opened(s, call);
    RunOpening(c, s, call);
    RunConcat(c, s, opening, body);
    RunConcat(c, s, opening + body, EmitClosing(call.closing));
    if ExpectsTransact(call.configs) {
      StaysOpen(c, s, call);
      RunItems(c, t, call.body);
      RunTransact(c, s, call);
    } else {
      CompletesSilently(c, s, call);
      assert opening + body + [] == opening + body;
      if call.body == [] {
        AfterNothing(c, t);
        assert opening + [] == opening;
      } else {
        StaysOpen(c, s, call);
        RunItems(c, t, call.body[..|call.body| - 1]);
        RunConcat(c, t, EmitItems(call.body[..|call.body| - 1]), EmitItem(call.body[|call.body| - 1]));
        RunLastUnshield(c, s, call);
      }
    }
  }

  /** Parsing the logs of a forest succeeds and returns exactly the transactions of its calls, one
      group per call in completion order. */
  lemma ParseEmission(c: Crypto, forest: seq<Item>)
    requires WellFormedForest(forest)
    ensures Parse(c, EmitItems(forest)) == Ok(Groups(c, forest, 0))
  {
    RunItems(c, START, forest);
    assert [] + Groups(c, forest, 0) == Groups(c, forest, 0);
  }
}
