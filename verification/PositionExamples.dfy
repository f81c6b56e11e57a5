/** A call whose Unshield log and calldata may state different commitments: what decides the placing of its rows. */
module PositionExamples {
  import opened Wrappers
  import opened ActionLogs
  import opened OutputMatch
  import opened OutputPositions
  import opened Hydration
  import opened ParsedPositions

  const CONFIGS := [TxConfig(1, 1, true, 0), TxConfig(1, 1, false, 0)]

  const INPUTS := [Input(0, 0, [1]), Input(1, 0, [2])]

  const WITHDRAWN := Unshield(0, 0, 0, 0)

  const LOGS := [
    Log(0, Nullified(0, [1])), Log(1, Nullified(0, [2])), Log(2, Action(CONFIGS)), Log(3, Withdrawal(WITHDRAWN)),
    Log(4, Transact([7, 9]))]

  const OUTPUTS := [Emitted(TransactFamily, 4, 0, 0, 7), Emitted(TransactFamily, 4, 0, 1, 9)]

  const SUMMARY := Summary(0, 4, OUTPUTS)

  function Calldata(stated: Hash): seq<CalldataTx> {
    [CalldataTx([1], [7, stated], 0, 0, 1, PreimageOf(WITHDRAWN)), CalldataTx([2], [9], 0, 0, 0, PreimageOf(WITHDRAWN))]
  }

  /** The first transaction with this unshield commitment. */
  function First(c: Crypto, unshield: Hash): Decoded {
    Decoded(ActionLogsCall, [1], [7, unshield], 0, true, Some(PreimageOf(WITHDRAWN)), 0, c.txid([1], [7, unshield], 0))
  }

  function Second(c: Crypto): Decoded {
    Decoded(ActionLogsCall, [2], [9], 0, false, None, 0, c.txid([2], [9], 0))
  }

  function CallOf(c: Crypto, unshield: Hash): Group {
    Group(Some(4), [Numbered(0, First(c, unshield)), Numbered(1, Second(c))])
  }

  function Derived(c: Crypto): Hash {
    c.commit(PreimageOf(WITHDRAWN))
  }

  // ---------------------------------------------------------------------------------------------
  // Parsing
  // ---------------------------------------------------------------------------------------------

  function Opening(unshields: seq<Unshield>): Frame {
    Frame(2, 0, CONFIGS, INPUTS, unshields, true)
  }

  lemma Awaits()
    ensures UnshieldCount(CONFIGS) == 1
  {
    assert CONFIGS[..1] == [CONFIGS[0]] && [CONFIGS[0]][..0] == [];
    assert UnshieldCount([CONFIGS[0]]) == 1;
  }

  lemma SplitsFirst(c: Crypto)
    ensures SplitUpTo(c, Opening([WITHDRAWN]), [7, 9], 4, 1) == Ok(Split(1, 1, [Numbered(0, First(c, Derived(c)))]))
  {
    var frame, hashes, row := Opening([WITHDRAWN]), [7, 9], Numbered(0, First(c, Derived(c)));
    assert hashes[0..1] == [7] && [7] + [Derived(c)] == [7, Derived(c)];
    assert MakeTransaction(c, CONFIGS[0], INPUTS[0], [7], Some(WITHDRAWN)) == row.tx;
    assert [] + [row] == [row];
    assert SplitUpTo(c, frame, hashes, 4, 0) == Ok(Split(0, 0, []));
    assert NextUnshield(frame, CONFIGS[0], 0) == Ok(Some(WITHDRAWN));
    hide MakeTransaction;
  }

  lemma SplitsSecond(c: Crypto)
    ensures SplitUpTo(c, Opening([WITHDRAWN]), [7, 9], 4, 2) == Ok(Split(2, 1, CallOf(c, Derived(c)).rows))
  {
    SplitsFirst(c);
    var frame, hashes := Opening([WITHDRAWN]), [7, 9];
    var one, two := Numbered(0, First(c, Derived(c))), Numbered(1, Second(c));
    assert hashes[1..2] == [9] && [one] + [two] == [one, two];
    assert MakeTransaction(c, CONFIGS[1], INPUTS[1], [9], None) == two.tx;
    assert NextUnshield(frame, CONFIGS[1], 1) == Ok(None);
    hide MakeTransaction;
    assert SplitNext(c, frame, hashes, 4, 1, Split(1, 1, [one])) == Ok(Split(2, 1, [one, two]));
    hide SplitNext;
  }

  lemma Splits(c: Crypto)
    ensures FrameTransactions(c, Opening([WITHDRAWN]), [7, 9], 4) == Ok(CallOf(c, Derived(c)).rows)
  {
    Awaits();
    SplitsSecond(c);
    hide SplitUpTo, UnshieldCount;
  }

  lemma Opens(c: Crypto)
    ensures Run(c, START, LOGS[..3]) == Ok(State([], [Opening([])], 2, []))
  {
    hide FrameTransactions, UnshieldCount;
    Awaits();
    assert [] + [INPUTS[0]] == [INPUTS[0]] && [INPUTS[0]] + [INPUTS[1]] == INPUTS
           && [] + [Opening([])] == [Opening([])];
    assert ExpectsTransact(CONFIGS) by { assert CONFIGS[0].commitmentsCount > 0; }
    assert LOGS[..0] == [];
    RunSnoc(c, START, LOGS, 0);
    assert Run(c, START, LOGS[..1]) == Ok(State([INPUTS[0]], [], 0, []));
    RunSnoc(c, START, LOGS, 1);
    assert Run(c, START, LOGS[..2]) == Ok(State(INPUTS, [], 0, []));
    RunSnoc(c, START, LOGS, 2);
    hide Run;
    assert !Closable(Opening([]));
  }

  lemma Withdraws(c: Crypto)
    ensures Step(c, State([], [Opening([])], 2, []), LOGS[3]) == Ok(State([], [Opening([WITHDRAWN])], 2, []))
  {
    Awaits();
    hide FrameTransactions, UnshieldCount;
    assert [] + [WITHDRAWN] == [WITHDRAWN] && [] + [Opening([WITHDRAWN])] == [Opening([WITHDRAWN])];
  }

  lemma Closes(c: Crypto)
    ensures Step(c, State([], [Opening([WITHDRAWN])], 2, []), LOGS[4]) == Ok(State([], [], 2, [CallOf(c, Derived(c))]))
  {
    Splits(c);
    hide FrameTransactions, UnshieldCount;
    assert [Opening([WITHDRAWN])][..0] == [] && [] + [CallOf(c, Derived(c))] == [CallOf(c, Derived(c))];
  }

  lemma Parses(c: Crypto)
    ensures Parse(c, LOGS) == Ok([CallOf(c, Derived(c))])
  {
    Opens(c);
    Withdraws(c);
    Closes(c);
    hide Step;
    RunSnoc(c, START, LOGS, 3);
    RunSnoc(c, START, LOGS, 4);
    assert LOGS[..5] == LOGS;
  }

  // ---------------------------------------------------------------------------------------------
  // Resolving and matching
  // ---------------------------------------------------------------------------------------------

  lemma ResolvesFirst(c: Crypto, stated: Hash)
    ensures var r := ResolveTransaction(c, Calldata(stated), First(c, Derived(c)));
            r.Ok? && r.value.tx == First(c, stated)
  {
    var calldata := Calldata(stated);
    assert calldata[..1] == [calldata[0]] && [calldata[0]][..0] == [];
    assert Matching([calldata[0]], [1]) == [calldata[0]];
    assert Matching(calldata, [1]) == [calldata[0]];
    assert [7, Derived(c)][..1] == [7] == [7, stated][..1] && [7] + [stated] == [7, stated];
    hide Matching;
  }

  lemma ResolvesSecond(c: Crypto, stated: Hash)
    ensures ResolveTransaction(c, Calldata(stated), Second(c)) == Ok(Resolved(Second(c), 0))
  {
    hide Matching;
  }

  lemma ResolvesRows(c: Crypto, stated: Hash)
    ensures var r := ResolveRows(c, Calldata(stated), CallOf(c, Derived(c)).rows);
            r.Ok? && r.value.value == CallOf(c, stated).rows
  {
    ResolvesFirst(c, stated);
    ResolvesSecond(c, stated);
    hide ResolveTransaction;
    var calldata, rows := Calldata(stated), CallOf(c, Derived(c)).rows;
    assert rows[..1] == [rows[0]] && [rows[0]][..0] == [];
    assert ResolveRows(c, calldata, [rows[0]]).Ok?;
    assert ResolveRows(c, calldata, [rows[0]]).value.value == [CallOf(c, stated).rows[0]];
  }

  /** The commitment that is matched is the one calldata states. */
  lemma Resolves(c: Crypto, stated: Hash)
    ensures MatchedGroups(c, LOGS, Calldata(stated)) == Ok([CallOf(c, stated)])
  {
    Parses(c);
    ResolvesRows(c, stated);
    hide Parse, ResolveRows;
    var calldata, group := Calldata(stated), CallOf(c, Derived(c));
    assert AnyUnshield([group]) by { assert [group][0].rows[0].tx.hasUnshield; }
    assert [group][..0] == [];
    assert ResolveGroups(c, calldata, []) == Ok(Resolution([], 0));
    assert ResolveGroups(c, calldata, [group]).Ok?;
    assert ResolveGroups(c, calldata, [group]).value.value == [CallOf(c, stated)];
    hide ResolveGroups;
    assert !NullifiersMissing(calldata);
  }

  lemma OwnAll()
    ensures OwnOutputs(OUTPUTS, Some(4)) == OUTPUTS
  {
    assert OUTPUTS[..1] == [OUTPUTS[0]] && [OUTPUTS[0]][..0] == [];
    assert OwnOutputs([OUTPUTS[0]], Some(4)) == [OUTPUTS[0]];
  }

  lemma Emits()
    ensures Emitting(SUMMARY, LOGS, _ => 0)
  {
    OwnAll();
    assert HashesOf(OUTPUTS) == [7, 9];
  }

  /** The call is clean exactly when its unshield commitment is not the hash emitted next. */
  lemma CleanUnless(c: Crypto, unshield: Hash)
    ensures Clean(SUMMARY, CallOf(c, unshield)) <==> unshield != 9
  {
    OwnAll();
    var txs := Transactions(CallOf(c, unshield).rows);
    assert txs == [First(c, unshield), Second(c)] && txs[..0] == [];
    assert [7, unshield][..1] == [7];
    assert Clash(OUTPUTS, 0, txs[0]) <==> unshield == 9;
    assert Produces(txs[0]) && Produces(txs[1]);
  }

  lemma RunsPast(c: Crypto)
    ensures var r := AddRows(SUMMARY, OUTPUTS, [First(c, 9)]); r.Ok? ==> r.value.cursor == 2
  {
    assert [First(c, 9)][..0] == [] && [7, 9][..1] == [7] && [7][..0] == [];
    assert ScanUpTo(OUTPUTS, 0, []) == Ok(Scan(0, None));
    var one := ScanUpTo(OUTPUTS, 0, [7]);
    assert one.Ok? ==> one.value.cursor == 1;
    var two := ScanUpTo(OUTPUTS, 0, [7, 9]);
    assert two.Ok? ==> two.value.cursor == 2;
    hide ScanUpTo, OutputPosition, MakeRow;
  }

  lemma Unmatched(c: Crypto)
    ensures AddRows(SUMMARY, OUTPUTS, [First(c, 9), Second(c)]).Err?
  {
    RunsPast(c);
    assert [First(c, 9), Second(c)][..1] == [First(c, 9)] && [9][..0] == [];
    assert ScanUpTo(OUTPUTS, 2, []) == Ok(Scan(2, None));
    assert ScanUpTo(OUTPUTS, 2, [9]) == Ok(Scan(2, None));
    hide ScanUpTo;
    assert forall index :: Match(OUTPUTS, 2, Second(c), index).Err?;
    hide Match;
  }

  /** A stated commitment equal to the next hash uses that hash up, and the second transaction finds none. */
  lemma Refused(c: Crypto)
    ensures LogPath(c, SUMMARY, LOGS, Calldata(9)).Err?
  {
    Resolves(c, 9);
    OwnAll();
    SortOfSorted(OUTPUTS);
    Unmatched(c);
    hide MatchedGroups, OwnOutputs, SortByPosition, AddRows;
    assert SUMMARY.(outputs := OUTPUTS) == SUMMARY;
    assert Transactions(CallOf(c, 9).rows) == [First(c, 9), Second(c)];
    assert GroupRows(SUMMARY, CallOf(c, 9)).Err?;
  }

  /** Rows are placed by the commitment calldata states, whatever the Unshield log derives: a derived clash does no
      harm, and a stated one does without a derived one. */
  lemma {:induction false} StatedDecides(c: Crypto, stated: Hash)
    ensures Parse(c, LOGS) == Ok([CallOf(c, Derived(c))])
    ensures Clean(SUMMARY, CallOf(c, Derived(c))) <==> Derived(c) != 9
    ensures RowsPlaced(c, SUMMARY, LOGS, Calldata(stated), _ => 0) <==> stated != 9
    ensures stated == 9 ==> LogPath(c, SUMMARY, LOGS, Calldata(stated)).Err?
  {
    hide Parse, MatchedGroups, LogPath, Clean, RowsPlaced, Emitting;
    Refused(c);
    Parses(c);
    CleanUnless(c, Derived(c));
    Emits();
    Resolves(c, stated);
    CleanUnless(c, stated);
    StreamPlaced(c, SUMMARY, LOGS, Calldata(stated), _ => 0);
    assert [CallOf(c, stated)][0] == CallOf(c, stated);
  }
}
