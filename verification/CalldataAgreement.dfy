/** The two ways to build rows agree: for an outer transaction that makes one Railgun call, the rows
    rebuilt from its logs are the rows decoded from its calldata, even where an Unshield log would
    give another unshield commitment. */
module CalldataAgreement {
  import opened Wrappers
  import opened ActionLogs
  import opened ActionForest
  import opened ActionConservation
  import opened OutputMatch
  import opened Hydration
  import opened HydrationOrder

  function OwnOf(t: CalldataTx): seq<Hash> {
    if t.unshieldType != 0 && t.commitments != [] then t.commitments[..|t.commitments| - 1] else t.commitments
  }

  function JoinOwn(calldata: seq<CalldataTx>): seq<Hash> {
    if calldata == [] then [] else JoinOwn(calldata[..|calldata| - 1]) + OwnOf(calldata[|calldata| - 1])
  }

  /** Configuration `i` of the call describes transaction `i` of the calldata. */
  predicate ConfigOf(config: TxConfig, input: Input, t: CalldataTx) {
    && config.nullifiersCount == |t.nullifiers| && config.commitmentsCount == |OwnOf(t)|
    && config.hasUnshield == (t.unshieldType != 0) && config.boundParamsHash == t.boundParamsHash
    && input.nullifiers == t.nullifiers && input.tree == t.tree
    && (t.unshieldType != 0 ==> t.commitments != [])
  }

  /** The logs the call emits for its calldata. Nothing relates the Unshield logs to the unshield
      commitments in the calldata. */
  predicate Emits(call: Call, calldata: seq<CalldataTx>) {
    && WellFormedCall(call)
    && |call.configs| == |calldata|
    && (forall i :: 0 <= i < |calldata| ==> ConfigOf(call.configs[i], call.inputs[i], calldata[i]))
    && Hashes(call.closing) == JoinOwn(calldata)
    && (forall i :: 0 <= i < |call.body| ==> !call.body[i].Nested?)
  }

  predicate Distinguishable(calldata: seq<CalldataTx>) {
    && (forall i :: 0 <= i < |calldata| ==> calldata[i].nullifiers != [])
    && (forall i, j :: 0 <= i < j < |calldata| ==> calldata[i].nullifiers != calldata[j].nullifiers)
  }

  // ---------------------------------------------------------------------------------------------
  // What the parser returns
  // ---------------------------------------------------------------------------------------------

  lemma {:induction false} CountIsJoin(configs: seq<TxConfig>, inputs: seq<Input>, calldata: seq<CalldataTx>, n: nat)
    requires |configs| == |inputs| == |calldata| && n <= |configs|
    requires forall i :: 0 <= i < |calldata| ==> ConfigOf(configs[i], inputs[i], calldata[i])
    ensures CommitmentCount(configs[..n]) == |JoinOwn(calldata[..n])|
    ensures JoinOwn(calldata[..n]) <= JoinOwn(calldata)
    decreases n
  {
    hide OwnOf;
    if n == 0 {
      assert configs[..0] == [] && calldata[..0] == [];
    } else {
      CountIsJoin(configs, inputs, calldata, n - 1);
      assert configs[..n][..n - 1] == configs[..n - 1] && calldata[..n][..n - 1] == calldata[..n - 1];
      assert ConfigOf(configs[n - 1], inputs[n - 1], calldata[n - 1]);
    }
    JoinPrefix(calldata, n);
  }

  lemma {:induction false} JoinPrefix(calldata: seq<CalldataTx>, n: nat)
    requires n <= |calldata|
    ensures JoinOwn(calldata[..n]) <= JoinOwn(calldata)
    decreases |calldata| - n
  {
    hide OwnOf;
    if n == |calldata| {
      assert calldata[..n] == calldata;
    } else {
      assert calldata[..n + 1][..n] == calldata[..n];
      JoinPrefix(calldata, n + 1);
    }
  }

  /** The parsed transaction, before its unshield commitment is taken from calldata. */
  predicate LogDerived(c: Crypto, tx: Decoded, t: CalldataTx) {
    && tx.kind == ActionLogsCall && tx.nullifiers == t.nullifiers && tx.treeIn == t.tree
    && tx.boundParamsHash == t.boundParamsHash && tx.hasUnshield == (t.unshieldType != 0)
    && tx.txid == c.txid(tx.nullifiers, tx.commitments, tx.boundParamsHash)
    && (if tx.hasUnshield then |tx.commitments| == |OwnOf(t)| + 1 && tx.commitments[..|OwnOf(t)|] == OwnOf(t)
        else tx.commitments == t.commitments && tx.preimage == None)
  }

  lemma ParsedTransaction(c: Crypto, call: Call, calldata: seq<CalldataTx>, i: nat)
    requires Emits(call, calldata) && i < |calldata|
    ensures LogDerived(c, TransactionAt(c, call.configs, call.inputs, Withdrawals(call.body), Hashes(call.closing), i),
                       calldata[i])
  {
    hide Withdrawals, WellFormed, JoinOwn, CommitmentCount, UnshieldCount, PreimageOf;
    var hashes := Hashes(call.closing);
    CountIsJoin(call.configs, call.inputs, calldata, i);
    CountIsJoin(call.configs, call.inputs, calldata, i + 1);
    CountsBound(call.configs, i);
    JoinSnoc(calldata, i);
    var from, to := CommitmentCount(call.configs[..i]), CommitmentCount(call.configs[..i + 1]);
    assert ConfigOf(call.configs[i], call.inputs[i], calldata[i]);
    assert hashes[from..to] == OwnOf(calldata[i]) by {
      assert hashes[..to] == JoinOwn(calldata[..i + 1]);
    }
  }

  lemma JoinSnoc(calldata: seq<CalldataTx>, i: nat)
    requires i < |calldata|
    ensures JoinOwn(calldata[..i + 1]) == JoinOwn(calldata[..i]) + OwnOf(calldata[i])
  {
    assert calldata[..i + 1][..i] == calldata[..i];
  }

  /** Rows numbered from 0, each derived from the calldata transaction of its number. */
  predicate RowsDerived(c: Crypto, rows: seq<Numbered>, calldata: seq<CalldataTx>) {
    && |rows| == |calldata|
    && forall i :: 0 <= i < |rows| ==> rows[i].record == i && LogDerived(c, rows[i].tx, calldata[i])
  }

  lemma {:induction false} NoNestedGroups(c: Crypto, items: seq<Item>, base: nat)
    requires WellFormed(items) && forall i :: 0 <= i < |items| ==> !items[i].Nested?
    ensures Groups(c, items, base) == []
  {
    if items != [] {
      NoNestedGroups(c, items[..|items| - 1], base);
    }
  }

  lemma OneCallGroups(c: Crypto, call: Call)
    requires WellFormedCall(call) && WellFormed([Nested(call)])
             && forall i :: 0 <= i < |call.body| ==> !call.body[i].Nested?
    ensures Groups(c, [Nested(call)], 0) == [Group(TransactIndex(call.closing), CallRows(c, call, 0))]
  {
    hide WellFormedCall, CallRows;
    var forest := [Nested(call)];
    var group := Group(TransactIndex(call.closing), CallRows(c, call, 0));
    assert forest[..0] == [] && Records([]) == 0 && Groups(c, [], 0) == [];
    NoNestedGroups(c, call.body, |call.configs|) by { BodyWellFormed(call); }
    assert ItemGroups(c, Nested(call), 0) == CallGroups(c, call, 0) == [] + [group];
    assert Groups(c, forest, 0) == [] + ItemGroups(c, Nested(call), 0);
  }

  lemma BodyWellFormed(call: Call)
    requires WellFormedCall(call)
    ensures WellFormed(call.body)
  {
  }

  lemma ParsedCall(c: Crypto, call: Call, calldata: seq<CalldataTx>)
    requires Emits(call, calldata)
    ensures Parse(c, EmitItems([Nested(call)])) == Ok([Group(TransactIndex(call.closing), CallRows(c, call, 0))])
  {
    hide Parse, EmitItems, WellFormedCall, CallRows, Groups;
    var forest := [Nested(call)];
    assert WellFormedItem(Nested(call));
    WithdrawalsOne(Nested(call));
    ParseEmission(c, forest);
    OneCallGroups(c, call);
  }

  lemma CallRowsDerived(c: Crypto, call: Call, calldata: seq<CalldataTx>)
    requires Emits(call, calldata)
    ensures RowsDerived(c, CallRows(c, call, 0), calldata)
  {
    hide LogDerived, ConfigOf, RowsUpTo, TransactionAt, Withdrawals, WellFormed;
    RowsAt(c, call.configs, call.inputs, Withdrawals(call.body), Hashes(call.closing), 0, |call.configs|);
    forall i | 0 <= i < |calldata|
      ensures LogDerived(c, CallRows(c, call, 0)[i].tx, calldata[i])
    {
      ParsedTransaction(c, call, calldata, i);
    }
  }

  // ---------------------------------------------------------------------------------------------
  // Resolving against the calldata
  // ---------------------------------------------------------------------------------------------

  lemma {:induction false} MatchingOnlyOne(calldata: seq<CalldataTx>, i: nat, n: nat)
    requires Distinguishable(calldata) && i < |calldata| && n <= |calldata|
    ensures Matching(calldata[..n], calldata[i].nullifiers) == if i < n then [calldata[i]] else []
  {
    if n > 0 {
      MatchingOnlyOne(calldata, i, n - 1);
      assert calldata[..n][..n - 1] == calldata[..n - 1];
    }
  }

  lemma ReplaceGives(c: Crypto, tx: Decoded, t: CalldataTx)
    requires LogDerived(c, tx, t) && t.unshieldType != 0 && t.commitments != []
    ensures ReplaceUnshield(c, tx, t).Ok?
    ensures ReplaceUnshield(c, tx, t).value.tx == FromCalldata(c, t).(kind := ActionLogsCall)
  {
    var own := OwnOf(t);
    var n := |t.commitments| - 1;
    assert tx.commitments[..n] == t.commitments[..n];
    if tx.commitments[n] == t.commitments[n] {
      assert tx.commitments == own + [tx.commitments[n]] && t.commitments == own + [t.commitments[n]];
    } else {
      assert t.commitments == own + [t.commitments[n]];
    }
  }

  lemma ResolveGives(c: Crypto, calldata: seq<CalldataTx>, tx: Decoded, i: nat)
    requires Distinguishable(calldata) && i < |calldata| && LogDerived(c, tx, calldata[i])
    requires calldata[i].unshieldType != 0 ==> calldata[i].commitments != []
    ensures ResolveTransaction(c, calldata, tx).Ok?
    ensures ResolveTransaction(c, calldata, tx).value.tx == FromCalldata(c, calldata[i]).(kind := ActionLogsCall)
  {
    hide ReplaceUnshield;
    MatchingOnlyOne(calldata, i, |calldata|);
    assert calldata[..|calldata|] == calldata;
    if tx.hasUnshield {
      ReplaceGives(c, tx, calldata[i]);
    }
  }

  /** Rows equal to those decoded from calldata, but for the kind of call. */
  predicate SameAsCalldata(c: Crypto, rows: seq<Numbered>, calldata: seq<CalldataTx>) {
    |rows| == |calldata| &&
    forall i :: 0 <= i < |rows| ==> rows[i] == Numbered(i, FromCalldata(c, calldata[i]).(kind := ActionLogsCall))
  }

  lemma {:induction false} ResolveRowsGives(c: Crypto, calldata: seq<CalldataTx>, rows: seq<Numbered>, n: nat)
    requires Distinguishable(calldata) && RowsDerived(c, rows, calldata) && n <= |rows|
    requires forall i :: 0 <= i < |calldata| ==> calldata[i].unshieldType != 0 ==> calldata[i].commitments != []
    ensures ResolveRows(c, calldata, rows[..n]).Ok?
    ensures var resolved := ResolveRows(c, calldata, rows[..n]).value.value;
            && |resolved| == n
            && forall i ::
                 0 <= i < n ==> resolved[i] == Numbered(i, FromCalldata(c, calldata[i]).(kind := ActionLogsCall))
  {
    hide LogDerived, ResolveTransaction, FromCalldata;
    if n > 0 {
      ResolveRowsGives(c, calldata, rows, n - 1);
      assert rows[..n][..n - 1] == rows[..n - 1];
      ResolveGives(c, calldata, rows[n - 1].tx, n - 1);
    }
  }

  /** Without unshields the parsed rows already are those of the calldata. */
  lemma UnresolvedSame(c: Crypto, calldata: seq<CalldataTx>, rows: seq<Numbered>)
    requires RowsDerived(c, rows, calldata)
    requires forall i :: 0 <= i < |rows| ==> !rows[i].tx.hasUnshield
    ensures SameAsCalldata(c, rows, calldata)
  {
  }

  // ---------------------------------------------------------------------------------------------
  // Rows do not depend on the kind of call
  // ---------------------------------------------------------------------------------------------

  lemma {:induction false} KindIrrelevant(summary: Summary, outputs: seq<Emitted>, a: seq<Decoded>, b: seq<Decoded>)
    requires |a| == |b| && forall i :: 0 <= i < |a| ==> a[i] == b[i].(kind := a[i].kind)
    ensures AddRows(summary, outputs, a) == AddRows(summary, outputs, b)
  {
    hide ScanUpTo, PlaceTransaction, OutputPosition;
    if a != [] {
      KindIrrelevant(summary, outputs, a[..|a| - 1], b[..|b| - 1]);
      AddRowKind(summary, outputs, a[|a| - 1], b[|b| - 1]);
    }
  }

  lemma AddRowKind(summary: Summary, outputs: seq<Emitted>, a: Decoded, b: Decoded)
    requires a == b.(kind := a.kind)
    ensures forall p :: AddRow(summary, outputs, p, a) == AddRow(summary, outputs, p, b)
  {
  }

  lemma {:induction false} AllOwnOutputs(outputs: seq<Emitted>, transact: Option<nat>)
    requires forall i :: 0 <= i < |outputs| ==> transact == Some(outputs[i].logIndex)
    ensures OwnOutputs(outputs, transact) == outputs
  {
    if outputs != [] {
      AllOwnOutputs(outputs[..|outputs| - 1], transact);
    }
  }

  lemma {:induction false} SortOfNumbered(rows: seq<Tagged>)
    requires forall i :: 0 <= i < |rows| ==> rows[i].record == i
    ensures SortByRecord(rows) == rows
  {
    if rows != [] {
      SortOfNumbered(rows[..|rows| - 1]);
    }
  }

  lemma OneGroupRows(c: Crypto, summary: Summary, transact: Option<nat>, rows: seq<Numbered>, calldata: seq<CalldataTx>)
    requires SameAsCalldata(c, rows, calldata)
    requires forall i :: 0 <= i < |summary.outputs| ==> transact == Some(summary.outputs[i].logIndex)
    ensures ActionRows(summary, [Group(transact, rows)]) == CalldataPath(c, summary, calldata)
  {
    hide AddRows, SortByRecord, SortByPosition, FromCalldata, RowOf;
    var group := Group(transact, rows);
    var groups := [group];
    AllOwnOutputs(summary.outputs, transact);
    assert summary.(outputs := summary.outputs) == summary;
    var a, b := Transactions(rows), DecodeCalldata(c, calldata);
    var outputs := SortByPosition(summary.outputs);
    KindIrrelevant(summary, outputs, a, b);
    assert PublicRows(summary, a) == PublicRows(summary, b);
    OneGroup(summary, group);
    if PublicRows(summary, a).Ok? {
      var tagged := Tag(PublicRows(summary, a).value, rows);
      AddRowsKeep(summary, outputs, a);
      SortOfNumbered(tagged);
      assert Renumber(tagged) == PublicRows(summary, a).value;
    }
  }

  lemma OneGroup(summary: Summary, group: Group)
    ensures AllRows(summary, [group]) == GroupRows(summary, group)
  {
    assert [group][..0] == [];
    if GroupRows(summary, group).Ok? {
      assert [] + GroupRows(summary, group).value == GroupRows(summary, group).value;
    }
  }

  // ---------------------------------------------------------------------------------------------
  // Agreement
  // ---------------------------------------------------------------------------------------------

  /** The outer transaction emitted outputs only through this call. */
  predicate OnlyOutputs(summary: Summary, call: Call) {
    forall i :: 0 <= i < |summary.outputs| ==> TransactIndex(call.closing) == Some(summary.outputs[i].logIndex)
  }

  lemma LogsAgreeWithCalldata(c: Crypto, summary: Summary, call: Call, calldata: seq<CalldataTx>)
    requires Emits(call, calldata) && Distinguishable(calldata) && OnlyOutputs(summary, call)
    ensures LogPath(c, summary, EmitItems([Nested(call)]), calldata) == CalldataPath(c, summary, calldata)
  {
    hide Parse, EmitItems, ActionRows, CalldataPath, CallRows, LogDerived, FromCalldata;
    var rows := CallRows(c, call, 0);
    var group := Group(TransactIndex(call.closing), rows);
    ParsedCall(c, call, calldata);
    CallRowsDerived(c, call, calldata);
    if AnyUnshield([group]) {
      forall i | 0 <= i < |calldata| && calldata[i].unshieldType != 0 ensures calldata[i].commitments != [] {
        assert ConfigOf(call.configs[i], call.inputs[i], calldata[i]);
      }
      ResolveRowsGives(c, calldata, rows, |rows|);
      assert rows[..|rows|] == rows;
      var resolved := ResolveRows(c, calldata, rows).value.value;
      ResolveOneGroup(c, calldata, group);
      OneGroupRows(c, summary, group.transact, resolved, calldata);
    } else {
      assert forall i :: 0 <= i < |rows| ==> [group][0].rows[i] == rows[i];
      UnresolvedSame(c, calldata, rows);
      OneGroupRows(c, summary, group.transact, rows, calldata);
    }
  }

  lemma ResolveOneGroup(c: Crypto, calldata: seq<CalldataTx>, group: Group)
    requires calldata != [] && !NullifiersMissing(calldata) && ResolveRows(c, calldata, group.rows).Ok?
    ensures ResolveUnshields(c, calldata, [group]).Ok?
    ensures ResolveUnshields(c, calldata, [group]).value.value ==
            [Group(group.transact, ResolveRows(c, calldata, group.rows).value.value)]
  {
    hide ResolveRows;
    assert [group][..0] == [] && ResolveGroups(c, calldata, []) == Ok(Resolution([], 0));
    var rows := ResolveRows(c, calldata, group.rows).value;
    assert ResolveGroups(c, calldata, [group])
           == Ok(Resolution([] + [Group(group.transact, rows.value)], 0 + rows.divergences));
  }
}
