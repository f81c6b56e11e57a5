/** Which streams the parser accepts: the call forest behind an accepted stream is rebuilt log by
    log, next to the parser's own stack. */
module ActionRebuild {
  import opened Wrappers
  import opened ActionLogs
  import opened ActionForest

  /** A call whose last log has not been read yet. */
  datatype Open = Open(inputs: seq<Input>, logIndex: nat, configs: seq<TxConfig>, body: seq<Item>)

  /** The completed part of the forest and the calls still open, outermost first. */
  datatype Trail = Trail(forest: seq<Item>, opens: seq<Open>)

  function EmitOpen(call: Open): seq<Log> {
    EmitOpening(call.inputs, call.logIndex, call.configs) + EmitItems(call.body)
  }

  function EmitOpens(opens: seq<Open>): seq<Log> {
    if opens == [] then [] else EmitOpens(opens[..|opens| - 1]) + EmitOpen(opens[|opens| - 1])
  }

  /** The logs read so far, without the Nullified logs still waiting for an Action. */
  function EmitTrail(trail: Trail): seq<Log> {
    EmitItems(trail.forest) + EmitOpens(trail.opens)
  }

  predicate Mirrors(frame: Frame, call: Open) {
    && frame.logIndex == call.logIndex
    && frame.configs == call.configs != []
    && frame.nullified == call.inputs
    && frame.unshields == Withdrawals(call.body)
    && frame.expectsTransact == ExpectsTransact(call.configs)
    && CountsMatch(call.inputs, call.configs)
    && |frame.unshields| <= UnshieldCount(call.configs)
    && WellFormed(call.body)
  }

  predicate Explains(s: State, trail: Trail) {
    && |s.frames| == |trail.opens|
    && (forall i :: 0 <= i < |s.frames| ==> Mirrors(s.frames[i], trail.opens[i]))
    && Awaiting(s.frames)
    && WellFormedForest(trail.forest)
  }

  // ---------------------------------------------------------------------------------------------
  // Growing the trail
  // ---------------------------------------------------------------------------------------------

  /** Adds an item to the innermost open call, or to the forest when no call is open. */
  function Append(trail: Trail, item: Item): Trail {
    if trail.opens == [] then trail.(forest := trail.forest + [item]) else
    var top := trail.opens[|trail.opens| - 1];
    trail.(opens := trail.opens[..|trail.opens| - 1] + [top.(body := top.body + [item])])
  }

  function Close(trail: Trail, closing: Closing): Trail
    requires trail.opens != []
  {
    var top := trail.opens[|trail.opens| - 1];
    Append(trail.(opens := trail.opens[..|trail.opens| - 1]),
           Nested(Call(top.inputs, top.logIndex, top.configs, top.body, closing)))
  }

  lemma EmitSnoc(items: seq<Item>, item: Item)
    ensures EmitItems(items + [item]) == EmitItems(items) + EmitItem(item)
    ensures Withdrawals(items + [item]) == Withdrawals(items) + (if item.Withdraw? then [item.unshield] else [])
  {
    assert (items + [item])[..|items|] == items;
  }

  lemma EmitAppend(trail: Trail, item: Item)
    ensures EmitTrail(Append(trail, item)) == EmitTrail(trail) + EmitItem(item)
  {
    hide EmitItems, EmitItem, EmitOpening;
    if trail.opens == [] {
      EmitSnoc(trail.forest, item);
      assert EmitItems(trail.forest) + [] == EmitItems(trail.forest);
    } else {
      var init, top := trail.opens[..|trail.opens| - 1], trail.opens[|trail.opens| - 1];
      EmitSnoc(top.body, item);
      var grown := init + [top.(body := top.body + [item])];
      assert grown[..|grown| - 1] == init;
      assert EmitOpen(grown[|grown| - 1]) == EmitOpen(top) + EmitItem(item);
    }
  }

  lemma EmitClose(trail: Trail, closing: Closing)
    requires trail.opens != []
    ensures EmitTrail(Close(trail, closing)) == EmitTrail(trail) + EmitClosing(closing)
  {
    hide EmitItems, EmitOpening, EmitClosing;
    var init, top := trail.opens[..|trail.opens| - 1], trail.opens[|trail.opens| - 1];
    var call := Call(top.inputs, top.logIndex, top.configs, top.body, closing);
    EmitAppend(trail.(opens := init), Nested(call));
    assert EmitItem(Nested(call)) == EmitOpen(top) + EmitClosing(closing);
  }

  // ---------------------------------------------------------------------------------------------
  // A call that splits into transactions fits its configurations
  // ---------------------------------------------------------------------------------------------

  lemma SplitNextOk(c: Crypto, frame: Frame, hashes: seq<Hash>, logIndex: nat, i: nat, s: Split)
    requires i < |frame.configs| && i < |frame.nullified| && s.offset <= |hashes|
    requires SplitNext(c, frame, hashes, logIndex, i, s).Ok?
    ensures var t := SplitNext(c, frame, hashes, logIndex, i, s).value;
            && t.offset == s.offset + frame.configs[i].commitmentsCount
            && t.used == s.used + (if frame.configs[i].hasUnshield then 1 else 0)
            && (frame.configs[i].hasUnshield ==> s.used < |frame.unshields| && ValueFits(frame.unshields[s.used]))
  {
    hide MakeTransaction, ValueFits;
  }

  lemma {:induction false} SplitOkFits(c: Crypto, frame: Frame, hashes: seq<Hash>, logIndex: nat, n: nat)
    requires n <= |frame.configs| && n <= |frame.nullified|
    requires SplitUpTo(c, frame, hashes, logIndex, n).Ok?
    ensures var s := SplitUpTo(c, frame, hashes, logIndex, n).value;
            && s.offset == CommitmentCount(frame.configs[..n])
            && s.used == UnshieldCount(frame.configs[..n]) <= |frame.unshields|
            && forall i :: 0 <= i < s.used ==> ValueFits(frame.unshields[i])
  {
    hide SplitNext, ValueFits;
    if n == 0 {
      assert frame.configs[..0] == [];
    } else {
      SplitOkFits(c, frame, hashes, logIndex, n - 1);
      SplitNextOk(c, frame, hashes, logIndex, n - 1, SplitUpTo(c, frame, hashes, logIndex, n - 1).value);
      CountsBound(frame.configs, n - 1);
    }
  }

  lemma FrameOkFits(c: Crypto, frame: Frame, hashes: seq<Hash>, logIndex: nat)
    requires FrameTransactions(c, frame, hashes, logIndex).Ok?
    requires CountsMatch(frame.nullified, frame.configs) && |frame.unshields| <= UnshieldCount(frame.configs)
    ensures Fits(frame.configs, frame.nullified, frame.unshields, hashes)
  {
    SplitOkFits(c, frame, hashes, logIndex, |frame.configs|);
    assert frame.configs[..|frame.configs|] == frame.configs;
  }

  // ---------------------------------------------------------------------------------------------
  // One log
  // ---------------------------------------------------------------------------------------------

  lemma MirrorsAppend(frame: Frame, call: Open, item: Item)
    requires Mirrors(frame, call) && WellFormedItem(item) && !item.Withdraw?
    ensures Mirrors(frame, call.(body := call.body + [item]))
  {
    hide CountsMatch, ExpectsTransact, UnshieldCount, WellFormedItem;
    EmitSnoc(call.body, item);
    assert Withdrawals(call.body) + [] == Withdrawals(call.body);
  }

  lemma ExplainsAppend(s: State, trail: Trail, item: Item)
    requires Explains(s, trail) && WellFormedItem(item) && !item.Withdraw?
    ensures Explains(s, Append(trail, item))
  {
    hide Mirrors, Awaiting, WellFormedItem, EmitItems;
    if trail.opens == [] {
      EmitSnoc(trail.forest, item);
    } else {
      MirrorsAppend(Top(s), trail.opens[|trail.opens| - 1], item);
    }
  }

  /** Popping a completed frame moves the call behind it into its parent. */
  lemma ExplainsClose(c: Crypto, s: State, trail: Trail, closing: Closing, logIndex: nat, t: State)
    requires |s.frames| == |trail.opens| > 0 && WellFormedForest(trail.forest)
    requires forall i :: 0 <= i < |s.frames| ==> Mirrors(s.frames[i], trail.opens[i])
    requires Awaiting(Rest(s))
    requires Complete(s, TransactIndex(closing), FrameTransactions(c, Top(s), Hashes(closing), logIndex)) == Ok(t)
    requires if Top(s).expectsTransact then closing.Outputs?
             else
               var body := trail.opens[|trail.opens| - 1].body;
               closing.Silent? && (body == [] || body[|body| - 1].Withdraw?)
    ensures Explains(t, Close(trail, closing))
  {
    hide FrameTransactions, WellFormedItem, Closable;
    FrameOkFits(c, Top(s), Hashes(closing), logIndex);
    var top := trail.opens[|trail.opens| - 1];
    var call := Call(top.inputs, top.logIndex, top.configs, top.body, closing);
    assert WellFormedCall(call);
    assert WellFormedItem(Nested(call)) by { NestedWellFormed(call); }
    ExplainsAppend(t, trail.(opens := trail.opens[..|trail.opens| - 1]), Nested(call));
  }

  lemma NestedWellFormed(call: Call)
    requires WellFormedCall(call)
    ensures WellFormedItem(Nested(call))
  {
  }

  /** Everything read so far. */
  function ReadSoFar(s: State, trail: Trail): seq<Log> {
    EmitTrail(trail) + EmitInputs(s.pending)
  }

  /** `next` explains the state after `log` and the logs up to and including it. */
  predicate Follows(s: State, trail: Trail, log: Log, t: State, next: Trail) {
    Explains(t, next) && ReadSoFar(t, next) == ReadSoFar(s, trail) + [log]
  }

  lemma FollowNullified(c: Crypto, s: State, trail: Trail, log: Log, t: State)
    requires Explains(s, trail) && log.event.Nullified? && Step(c, s, log) == Ok(t)
    ensures Follows(s, trail, log, t, trail)
  {
    hide Mirrors, Closable, EmitTrail;
    var input := Input(log.index, log.event.tree, log.event.nullifiers);
    assert t.pending[..|s.pending|] == s.pending;
    assert EmitInputs(t.pending) == EmitInputs(s.pending) + [log];
  }

  lemma FollowShield(c: Crypto, s: State, trail: Trail, log: Log, t: State)
    requires Explains(s, trail) && log.event == Action([]) && Step(c, s, log) == Ok(t)
    ensures Follows(s, trail, log, t, Append(trail, Shield(log.index)))
  {
    hide Explains, Closable, EmitTrail, Append;
    assert t == s by { StepShield(c, s, trail, log, t); }
    ExplainsAppend(s, trail, Shield(log.index));
    EmitAppend(trail, Shield(log.index));
  }

  lemma StepShield(c: Crypto, s: State, trail: Trail, log: Log, t: State)
    requires Explains(s, trail) && log.event == Action([]) && Step(c, s, log) == Ok(t)
    ensures t == s && s.pending == []
  {
    hide Mirrors, Closable;
  }

  lemma FollowAction(c: Crypto, s: State, trail: Trail, log: Log, t: State) returns (next: Trail)
    requires Explains(s, trail) && log.event.Action? && log.event.configs != [] && Step(c, s, log) == Ok(t)
    ensures Follows(s, trail, log, t, next)
  {
    hide Mirrors, Closable, FrameTransactions, EmitItems, EmitOpens, ExpectsTransact, CountsMatch;
    var configs := log.event.configs;
    var frame := Frame(log.index, s.nextRecord, configs, s.pending, [], ExpectsTransact(configs));
    var call := Open(s.pending, log.index, configs, []);
    var u := State([], s.frames + [frame], s.nextRecord + |configs|, s.decoded);
    var pushed := trail.(opens := trail.opens + [call]);
    assert Consume(c, s, log) == Ok(u) && CloseTop(c, u) == Ok(t);
    assert EmitTrail(pushed) == ReadSoFar(s, trail) + [log] by {
      EmitPush(trail, call);
    }
    if Closable(frame) {
      next := Close(pushed, Silent);
      ExplainsPush(s, trail, frame, call);
      assert Rest(u) == s.frames;
      ClosableSilent(frame);
      ExplainsClose(c, u, pushed, Silent, log.index, t);
      EmitClose(pushed, Silent);
    } else {
      next := pushed;
      ExplainsPush(s, trail, frame, call);
    }
  }

  lemma EmitPush(trail: Trail, call: Open)
    requires call.body == []
    ensures EmitTrail(trail.(opens := trail.opens + [call])) ==
            EmitTrail(trail) + EmitInputs(call.inputs) + [Log(call.logIndex, Action(call.configs))]
  {
    assert (trail.opens + [call])[..|trail.opens|] == trail.opens;
  }

  lemma ExplainsPush(s: State, trail: Trail, frame: Frame, call: Open)
    requires Explains(s, trail) && frame.unshields == [] && call.body == []
    requires frame == Frame(call.logIndex, frame.recordBase, call.configs, call.inputs, [],
                            ExpectsTransact(call.configs))
    requires call.configs != [] && CountsMatch(call.inputs, call.configs)
    ensures forall i :: 0 <= i <= |s.frames| ==> Mirrors((s.frames + [frame])[i], (trail.opens + [call])[i])
    ensures !Closable(frame) ==> Awaiting(s.frames + [frame])
  {
    hide Closable;
    assert Mirrors(frame, call);
  }

  lemma MirrorsWithdraw(frame: Frame, call: Open, index: nat, unshield: Unshield)
    requires Mirrors(frame, call) && PendingUnshields(frame) > 0
    ensures Mirrors(frame.(unshields := frame.unshields + [unshield]),
                    call.(body := call.body + [Withdraw(index, unshield)]))
  {
    hide CountsMatch, ExpectsTransact, UnshieldCount;
    var item := Withdraw(index, unshield);
    EmitSnoc(call.body, item);
    assert WellFormedItem(item);
  }

  lemma FollowWithdrawal(c: Crypto, s: State, trail: Trail, log: Log, t: State) returns (next: Trail)
    requires Explains(s, trail) && log.event.Withdrawal? && Step(c, s, log) == Ok(t) && s.pending == []
    ensures Follows(s, trail, log, t, next)
  {
    hide Mirrors, Closable, FrameTransactions, PendingUnshields, EmitTrail;
    var unshield := log.event.unshield;
    var item := Withdraw(log.index, unshield);
    var frame := Top(s).(unshields := Top(s).unshields + [unshield]);
    var u := s.(frames := Rest(s) + [frame]);
    assert CloseTop(c, u) == Ok(t);
    var grown := Append(trail, item);
    MirrorsWithdraw(Top(s), trail.opens[|trail.opens| - 1], log.index, unshield);
    EmitAppend(trail, item);
    assert ReadSoFar(s, trail) == EmitTrail(trail) && EmitTrail(grown) == EmitTrail(trail) + [log];
    if Closable(frame) {
      next := Close(grown, Silent);
      assert Rest(u) == Rest(s);
      assert !frame.expectsTransact by { ClosableSilent(frame); }
      ExplainsClose(c, u, grown, Silent, frame.logIndex, t);
      EmitClose(grown, Silent);
      assert t.pending == [];
    } else {
      next := grown;
    }
  }

  lemma ClosableSilent(frame: Frame)
    requires Closable(frame)
    ensures !frame.expectsTransact
  {
  }

  lemma FollowTransact(c: Crypto, s: State, trail: Trail, log: Log, t: State) returns (next: Trail)
    requires Explains(s, trail) && log.event.Transact? && Step(c, s, log) == Ok(t) && s.pending == []
    ensures Follows(s, trail, log, t, next)
  {
    hide Mirrors, Closable, FrameTransactions, EmitTrail;
    var closing := Outputs(log.index, log.event.hashes);
    next := Close(trail, closing);
    var u := Consume(c, s, log).value;
    assert u.frames == Rest(s) && CloseTop(c, u) == Ok(u);
    ExplainsClose(c, s, trail, closing, log.index, t);
    EmitClose(trail, closing);
  }

  // ---------------------------------------------------------------------------------------------
  // Whole streams
  // ---------------------------------------------------------------------------------------------

  /** Every Nullified log but a last one is followed by another Nullified or by an Action. */
  predicate Adjacent(logs: seq<Log>) {
    forall i :: 0 <= i < |logs| - 1 && logs[i].event.Nullified? ==>
      logs[i + 1].event.Nullified? || logs[i + 1].event.Action?
  }

  lemma {:induction false} Rebuild(c: Crypto, logs: seq<Log>) returns (trail: Trail)
    requires Run(c, START, logs).Ok? && Adjacent(logs)
    ensures Explains(Run(c, START, logs).value, trail)
    ensures logs == ReadSoFar(Run(c, START, logs).value, trail)
  {
    hide Explains, Step, EmitTrail;
    if logs == [] {
      trail := Trail([], []);
      ExplainsStart();
    } else {
      var before, log := logs[..|logs| - 1], logs[|logs| - 1];
      trail := Rebuild(c, before);
      var s, t := Run(c, START, before).value, Run(c, START, logs).value;
      if s.pending != [] {
        LastIsNullified(s, trail);
        assert before[|before| - 1] == logs[|logs| - 2];
      }
      assert logs == before + [log];
      match log.event
      case Nullified(_, _) => FollowNullified(c, s, trail, log, t);
      case Action(configs) =>
        if configs == [] {
          FollowShield(c, s, trail, log, t);
          trail := Append(trail, Shield(log.index));
        } else {
          trail := FollowAction(c, s, trail, log, t);
        }
      case Withdrawal(_) => trail := FollowWithdrawal(c, s, trail, log, t);
      case Transact(_) => trail := FollowTransact(c, s, trail, log, t);
    }
  }

  lemma ExplainsStart()
    ensures Explains(START, Trail([], [])) && ReadSoFar(START, Trail([], [])) == []
  {
  }

  lemma LastIsNullified(s: State, trail: Trail)
    requires s.pending != []
    ensures var logs := ReadSoFar(s, trail); logs != [] && logs[|logs| - 1].event.Nullified?
  {
    var logs := EmitInputs(s.pending);
    assert logs[|logs| - 1] == InputLog(s.pending[|s.pending| - 1]);
  }

  // ---------------------------------------------------------------------------------------------
  // Emissions are adjacent
  // ---------------------------------------------------------------------------------------------

  /** Adjacent, and ending with something other than a Nullified log. */
  predicate Sealed(logs: seq<Log>) {
    Adjacent(logs) && (logs != [] ==> !logs[|logs| - 1].event.Nullified?)
  }

  lemma SealedConcat(a: seq<Log>, b: seq<Log>)
    requires Sealed(a) && Sealed(b)
    ensures Sealed(a + b)
  {
  }

  lemma {:induction false} InputsNullified(inputs: seq<Input>)
    ensures forall i :: 0 <= i < |EmitInputs(inputs)| ==> EmitInputs(inputs)[i].event.Nullified?
  {
    if inputs != [] {
      InputsNullified(inputs[..|inputs| - 1]);
    }
  }

  lemma {:induction false} EmitItemsSealed(items: seq<Item>)
    ensures Sealed(EmitItems(items))
    decreases items
  {
    if items != [] {
      EmitItemsSealed(items[..|items| - 1]);
      EmitItemSealed(items[|items| - 1]);
      SealedConcat(EmitItems(items[..|items| - 1]), EmitItem(items[|items| - 1]));
    }
  }

  lemma {:induction false} EmitItemSealed(item: Item)
    ensures Sealed(EmitItem(item))
    decreases item
  {
    if item.Nested? {
      var call := item.call;
      InputsNullified(call.inputs);
      EmitItemsSealed(call.body);
      var opening := EmitOpening(call.inputs, call.logIndex, call.configs);
      SealedConcat(opening, EmitItems(call.body));
      SealedConcat(opening + EmitItems(call.body), EmitClosing(call.closing));
    }
  }

  // ---------------------------------------------------------------------------------------------
  // Streams whose Nullified logs stand early
  // ---------------------------------------------------------------------------------------------

  /** A stream with every Nullified log delayed to its Action, and the Nullified logs still held. */
  datatype Settled = Settled(logs: seq<Log>, held: seq<Input>)

  function SettleFrom(logs: seq<Log>): Settled {
    if logs == [] then Settled([], []) else
    var before, last := SettleFrom(logs[..|logs| - 1]), logs[|logs| - 1];
    match last.event
    case Nullified(tree, nullifiers) => before.(held := before.held + [Input(last.index, tree, nullifiers)])
    case Action(_) => Settled(before.logs + EmitInputs(before.held) + [last], [])
    case Withdrawal(_) => before.(logs := before.logs + [last])
    case Transact(_) => before.(logs := before.logs + [last])
  }

  function Settle(logs: seq<Log>): seq<Log> {
    SettleFrom(logs).logs + EmitInputs(SettleFrom(logs).held)
  }

  /** After any log every open call waits for an Unshield or a Transact, so closing at most one call
      per log suffices. */
  lemma {:induction false} OpenCallsAwait(c: Crypto, s: State, logs: seq<Log>)
    requires Awaiting(s.frames) && Run(c, s, logs).Ok?
    ensures Awaiting(Run(c, s, logs).value.frames)
  {
    hide Closable, Step;
    if logs != [] {
      OpenCallsAwait(c, s, logs[..|logs| - 1]);
      StepAwaits(c, Run(c, s, logs[..|logs| - 1]).value, logs[|logs| - 1]);
    }
  }

  lemma StepAwaits(c: Crypto, s: State, log: Log)
    requires Awaiting(s.frames) && Step(c, s, log).Ok?
    ensures Awaiting(Step(c, s, log).value.frames)
  {
    hide Closable, FrameTransactions, PendingUnshields;
  }

  function WithPending(r: Result<State, Error>, pending: seq<Input>): Result<State, Error> {
    match r
    case Ok(s) => Ok(s.(pending := pending))
    case Err(error) => Err(error)
  }

  lemma StepIgnoresPending(c: Crypto, s: State, log: Log, pending: seq<Input>)
    requires log.event.Withdrawal? || log.event.Transact?
    ensures Step(c, s.(pending := pending), log) == WithPending(Step(c, s, log), pending)
  {
    hide Closable, FrameTransactions, PendingUnshields;
  }

  /** Reading a Nullified log early changes nothing but the list of waiting Nullified logs. */
  lemma {:induction false} RunSettled(c: Crypto, logs: seq<Log>)
    ensures var settled := SettleFrom(logs);
            && Run(c, START, logs) == WithPending(Run(c, START, settled.logs), settled.held)
            && (Run(c, START, settled.logs).Ok? ==> Run(c, START, settled.logs).value.pending == [])
  {
    hide Step;
    if logs != [] {
      var before, log := logs[..|logs| - 1], logs[|logs| - 1];
      RunSettled(c, before);
      var settled := SettleFrom(before);
      if Run(c, START, settled.logs).Ok? {
        var s := Run(c, START, settled.logs).value;
        OpenCallsAwait(c, START, settled.logs);
        RunSettledLog(c, s, settled, log);
      } else if log.event.Action? {
        RunConcat(c, START, settled.logs, EmitInputs(settled.held) + [log]);
        assert settled.logs + EmitInputs(settled.held) + [log] == settled.logs + (EmitInputs(settled.held) + [log]);
      } else {
        RunConcat(c, START, settled.logs, [log]);
      }
    }
  }

  lemma RunSettledLog(c: Crypto, s: State, settled: Settled, log: Log)
    requires Run(c, START, settled.logs) == Ok(s) && s.pending == [] && Awaiting(s.frames)
    ensures !log.event.Nullified? && !log.event.Action? ==>
              && Step(c, s.(pending := settled.held), log)
                 == WithPending(Run(c, START, settled.logs + [log]), settled.held)
              && (Step(c, s, log).Ok? ==> Step(c, s, log).value.pending == [])
              && Run(c, START, settled.logs + [log]) == Step(c, s, log)
    ensures log.event.Action? ==>
              var longer := settled.logs + EmitInputs(settled.held) + [log];
              && Run(c, START, longer) == Step(c, s.(pending := settled.held), log)
              && (Run(c, START, longer).Ok? ==> Run(c, START, longer).value.pending == [])
    ensures log.event.Nullified? ==>
              Step(c, s.(pending := settled.held), log) ==
              Ok(s.(pending := settled.held + [Input(log.index, log.event.tree, log.event.nullifiers)]))
  {
    hide Closable, FrameTransactions, PendingUnshields, Run;
    if log.event.Action? {
      RunInputs(c, s, settled.held);
      RunConcat(c, START, settled.logs, EmitInputs(settled.held));
      RunConcat(c, START, settled.logs + EmitInputs(settled.held), [log]);
      RunOne(c, s.(pending := settled.held), log);
    } else if !log.event.Nullified? {
      StepIgnoresPending(c, s, log, settled.held);
      RunConcat(c, START, settled.logs, [log]);
      RunOne(c, s, log);
    }
  }

  lemma {:induction false} SettleAdjacent(logs: seq<Log>)
    ensures Sealed(SettleFrom(logs).logs) && Adjacent(Settle(logs))
  {
    var settled := SettleFrom(logs);
    InputsNullified(settled.held);
    if logs != [] {
      SettleAdjacent(logs[..|logs| - 1]);
      InputsNullified(SettleFrom(logs[..|logs| - 1]).held);
    }
  }

  /** Streams that already are adjacent stay as they are. */
  lemma {:induction false} SettleOfAdjacent(logs: seq<Log>)
    requires Adjacent(logs)
    ensures Settle(logs) == logs
  {
    if logs != [] {
      var before, log := logs[..|logs| - 1], logs[|logs| - 1];
      SettleOfAdjacent(before);
      assert logs == before + [log];
      var held := SettleFrom(before).held;
      if log.event.Nullified? {
        assert SettleFrom(logs).held[..|held|] == held;
      } else if held != [] {
        assert EmitInputs(held)[|EmitInputs(held)| - 1] == before[|before| - 1];
        InputsNullified(held);
        assert before[|before| - 1] == logs[|logs| - 2];
      }
    }
  }

  // ---------------------------------------------------------------------------------------------
  // The language of the parser
  // ---------------------------------------------------------------------------------------------

  lemma AcceptedIffEmittedAdjacent(c: Crypto, logs: seq<Log>)
    requires Adjacent(logs)
    ensures Parse(c, logs).Ok? <==> exists forest :: WellFormedForest(forest) && EmitItems(forest) == logs
    ensures forall forest :: WellFormedForest(forest) && EmitItems(forest) == logs ==>
              Parse(c, logs) == Ok(Groups(c, forest, 0))
  {
    hide Groups, Run, EmitItems, Adjacent, Withdrawals, WellFormed;
    forall forest | WellFormedForest(forest) && EmitItems(forest) == logs
      ensures Parse(c, logs) == Ok(Groups(c, forest, 0))
    {
      ParseEmission(c, forest);
    }
    if Parse(c, logs).Ok? {
      var trail := Rebuild(c, logs);
      assert WellFormedForest(trail.forest) && EmitItems(trail.forest) + [] + [] == logs;
      assert EmitItems(trail.forest) + [] + [] == EmitItems(trail.forest);
    }
  }

  /** Exactly the streams that a well-formed forest emits, up to reading Nullified logs early, are
      accepted, and the answer is that forest's transactions. */
  lemma AcceptedIffEmitted(c: Crypto, logs: seq<Log>)
    ensures Parse(c, logs).Ok? <==> exists forest :: WellFormedForest(forest) && EmitItems(forest) == Settle(logs)
    ensures forall forest :: WellFormedForest(forest) && EmitItems(forest) == Settle(logs) ==>
              Parse(c, logs) == Ok(Groups(c, forest, 0))
  {
    hide Groups, Run, EmitItems, Adjacent, Withdrawals, WellFormed, EmitInputs;
    SettleAdjacent(logs);
    AcceptedIffEmittedAdjacent(c, Settle(logs));
    ParseSettled(c, logs);
  }

  /** Of the streams that are accepted, exactly those are themselves emissions in which every Nullified log is followed
      by another or by its Action. */
  lemma {:induction false} EmittedIffAdjacent(c: Crypto, logs: seq<Log>)
    requires Parse(c, logs).Ok?
    ensures (exists forest :: WellFormedForest(forest) && EmitItems(forest) == logs) <==> Adjacent(logs)
  {
    hide Groups, Run, EmitItems, Adjacent, Withdrawals, WellFormed, Settle;
    AcceptedIffEmitted(c, logs);
    if Adjacent(logs) {
      SettleOfAdjacent(logs);
    }
    forall forest | WellFormedForest(forest) && EmitItems(forest) == logs ensures Adjacent(logs) {
      EmitItemsSealed(forest);
      SealedAdjacent(logs);
    }
  }

  lemma SealedAdjacent(logs: seq<Log>)
    requires Sealed(logs)
    ensures Adjacent(logs)
  {
  }

  lemma ParseSettled(c: Crypto, logs: seq<Log>)
    ensures Parse(c, Settle(logs)).Ok? || Parse(c, logs).Ok? ==> Parse(c, Settle(logs)) == Parse(c, logs)
  {
    hide Step;
    var settled := SettleFrom(logs);
    RunSettled(c, logs);
    RunConcat(c, START, settled.logs, EmitInputs(settled.held));
    if Run(c, START, settled.logs).Ok? {
      var s := Run(c, START, settled.logs).value;
      OpenCallsAwait(c, START, settled.logs);
      RunInputs(c, s, settled.held);
    }
  }

  lemma OneInput(input: Input)
    ensures EmitInputs([input]) == [InputLog(input)]
  {
    assert [input][..0] == [];
  }

  lemma SettleStep(logs: seq<Log>, i: nat)
    requires i < |logs|
    ensures SettleFrom(logs[..i + 1]) ==
            (var before, last := SettleFrom(logs[..i]), logs[i];
             match last.event
             case Nullified(tree, nullifiers) => before.(held := before.held + [Input(last.index, tree, nullifiers)])
             case Action(_) => Settled(before.logs + EmitInputs(before.held) + [last], [])
             case Withdrawal(_) => before.(logs := before.logs + [last])
             case Transact(_) => before.(logs := before.logs + [last]))
  {
    assert logs[..i + 1][..i] == logs[..i];
  }

  /** A call with one input and one output. */
  lemma SingleOutputCall(input: Input, logIndex: nat, config: TxConfig, index: nat, hash: Hash)
    requires |input.nullifiers| == config.nullifiersCount && config.commitmentsCount == 1 && !config.hasUnshield
    ensures var call := Call([input], logIndex, [config], [], Outputs(index, [hash]));
            && WellFormedCall(call)
            && EmitCall(call) == [InputLog(input), Log(logIndex, Action([config])), Log(index, Transact([hash]))]
  {
    OneInput(input);
    assert [config][..0] == [];
    assert ExpectsTransact([config]) by { assert [config][0].commitmentsCount > 0; }
  }

  const ONE_OUTPUT := TxConfig(1, 1, false, 0)

  /** Two consecutive calls; the Nullified log of the second stands before the Transact that
      completes the first. */
  const EARLY_NULLIFIED := [
    Log(0, Nullified(0, [1])), Log(1, Action([ONE_OUTPUT])), Log(2, Nullified(0, [2])),
    Log(3, Transact([7])), Log(4, Action([ONE_OUTPUT])), Log(5, Transact([8]))]

  const TWO_CALLS := [
    Nested(Call([Input(0, 0, [1])], 1, [ONE_OUTPUT], [], Outputs(3, [7]))),
    Nested(Call([Input(2, 0, [2])], 4, [ONE_OUTPUT], [], Outputs(5, [8])))]

  const IN_ORDER := [
    Log(0, Nullified(0, [1])), Log(1, Action([ONE_OUTPUT])), Log(3, Transact([7])),
    Log(2, Nullified(0, [2])), Log(4, Action([ONE_OUTPUT])), Log(5, Transact([8]))]

  lemma TwoCallsInOrder()
    ensures WellFormedForest(TWO_CALLS) && EmitItems(TWO_CALLS) == IN_ORDER
  {
    hide EmitCall;
    SingleOutputCall(Input(0, 0, [1]), 1, ONE_OUTPUT, 3, 7);
    SingleOutputCall(Input(2, 0, [2]), 4, ONE_OUTPUT, 5, 8);
    EmitSnoc([], TWO_CALLS[0]);
    EmitSnoc([TWO_CALLS[0]], TWO_CALLS[1]);
    assert [] + [TWO_CALLS[0]] == [TWO_CALLS[0]] && [TWO_CALLS[0]] + [TWO_CALLS[1]] == TWO_CALLS;
    assert EmitItem(TWO_CALLS[0]) == IN_ORDER[..3] && EmitItem(TWO_CALLS[1]) == IN_ORDER[3..];
    assert WellFormedItem(TWO_CALLS[0]) && WellFormedItem(TWO_CALLS[1]);
  }

  lemma EarlySettles()
    ensures Settle(EARLY_NULLIFIED) == IN_ORDER
  {
    hide SettleFrom;
    var logs := EARLY_NULLIFIED;
    OneInput(Input(0, 0, [1]));
    OneInput(Input(2, 0, [2]));
    assert SettleFrom(logs[..0]) == Settled([], []) by { SettleNothing(logs); }
    SettleStep(logs, 0);
    assert SettleFrom(logs[..1]) == Settled([], [Input(0, 0, [1])]);
    SettleStep(logs, 1);
    assert SettleFrom(logs[..2]) == Settled(IN_ORDER[..2], []);
    SettleStep(logs, 2);
    SettleStep(logs, 3);
    assert SettleFrom(logs[..4]) == Settled(IN_ORDER[..3], [Input(2, 0, [2])]);
    SettleStep(logs, 4);
    assert SettleFrom(logs[..5]) == Settled(IN_ORDER[..5], []);
    SettleStep(logs, 5);
    assert SettleFrom(logs[..6]) == Settled(IN_ORDER, []) && logs[..6] == logs;
  }

  lemma SettleNothing(logs: seq<Log>)
    ensures SettleFrom(logs[..0]) == Settled([], [])
  {
  }

  /** Not every accepted stream is itself an emission. */
  lemma AcceptsSomeUnemitted(c: Crypto)
    ensures Parse(c, EARLY_NULLIFIED).Ok?
    ensures !exists forest :: WellFormedForest(forest) && EmitItems(forest) == EARLY_NULLIFIED
  {
    hide Settle, EmitItems, Parse, WellFormedForest;
    EarlySettles();
    TwoCallsInOrder();
    AcceptedIffEmitted(c, EARLY_NULLIFIED);
    assert EARLY_NULLIFIED[2].event.Nullified? && EARLY_NULLIFIED[3].event.Transact?;
    forall other | EmitItems(other) == EARLY_NULLIFIED
      ensures false
    {
      EmitItemsSealed(other);
    }
  }
}
