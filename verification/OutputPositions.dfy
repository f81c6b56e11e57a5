/** When greedy matching gives every transaction of a call the position of its own outputs. */
module OutputPositions {
  import opened Wrappers
  import opened ActionLogs
  import opened ActionConservation
  import opened OutputMatch

  /** The number of outputs emitted for these transactions. */
  function Offset(txs: seq<Decoded>): nat {
    if txs == [] then 0 else Offset(txs[..|txs| - 1]) + |OwnCommitments(txs[|txs| - 1])|
  }

  /** The call emitted the transactions' own commitments, in order, at consecutive leaves. */
  predicate EmittedFor(outputs: seq<Emitted>, start: nat, txs: seq<Decoded>) {
    && Consecutive(outputs, start)
    && |outputs| == Offset(txs)
    && (forall i :: 0 <= i < |txs| ==> txs[i].hasUnshield ==> txs[i].commitments != [])
    && (forall i :: 0 <= i < |txs| ==> HashesAt(outputs, Offset(txs[..i]), OwnCommitments(txs[i])))
  }

  /** The outputs from `at` on start with these hashes. */
  predicate HashesAt(outputs: seq<Emitted>, at: nat, hashes: seq<Hash>) {
    at + |hashes| <= |outputs| && forall k :: 0 <= k < |hashes| ==> outputs[at + k].hash == hashes[k]
  }

  /** No unshield commitment equals the hash of the output that comes right after it. */
  predicate NoClash(outputs: seq<Emitted>, txs: seq<Decoded>) {
    forall i :: 0 <= i < |txs| ==> !Clash(outputs, Offset(txs[..i]), txs[i])
  }

  predicate Clash(outputs: seq<Emitted>, at: nat, tx: Decoded) {
    var next := at + |OwnCommitments(tx)|;
    tx.hasUnshield && tx.commitments != [] && next < |outputs|
      && tx.commitments[|tx.commitments| - 1] == outputs[next].hash
  }

  /** Every transaction has an output or an unshield. */
  predicate EachProduces(txs: seq<Decoded>) {
    forall i :: 0 <= i < |txs| ==> Produces(txs[i])
  }

  predicate Produces(tx: Decoded) {
    tx.hasUnshield || tx.commitments != []
  }

  /** The leaf of the first own output; for an unshield-only transaction the next free leaf; the
      sentinel when the call emitted nothing. */
  function ExpectedOut(outputs: seq<Emitted>, start: nat, at: nat): (nat, nat) {
    if outputs == [] then (UNSHIELD_ONLY_TREE, UNSHIELD_ONLY_POSITION)
    else ((start + at) / TREE_LEAF_COUNT, (start + at) % TREE_LEAF_COUNT)
  }

  predicate Positioned(outputs: seq<Emitted>, start: nat, txs: seq<Decoded>, rows: seq<Row>) {
    |rows| == |txs| &&
    forall i :: 0 <= i < |txs|
           ==> (rows[i].treeOut, rows[i].positionOut) == ExpectedOut(outputs, start, Offset(txs[..i]))
  }

  lemma {:induction false} OffsetGrows(txs: seq<Decoded>, i: nat)
    requires i <= |txs|
    ensures Offset(txs[..i]) <= Offset(txs)
    ensures i < |txs| ==> Offset(txs[..i + 1]) == Offset(txs[..i]) + |OwnCommitments(txs[i])|
    decreases |txs|
  {
    hide OwnCommitments;
    if i == |txs| {
      assert txs[..i] == txs;
    } else {
      assert txs[..i + 1][..i] == txs[..i];
      var shorter := txs[..|txs| - 1];
      if i < |shorter| {
        assert shorter[..i] == txs[..i] && shorter[i] == txs[i];
        OffsetGrows(shorter, i);
      } else {
        assert txs[..i] == shorter;
      }
    }
  }

  // ---------------------------------------------------------------------------------------------
  // One transaction without a clash
  // ---------------------------------------------------------------------------------------------

  lemma {:induction false} ScanOwn(outputs: seq<Emitted>, start: nat, at: nat, own: seq<Hash>)
    requires Consecutive(outputs, start) && HashesAt(outputs, at, own)
    ensures ScanUpTo(outputs, at, own) == Ok(Scan(at + |own|, if own == [] then None else Some(start + at)))
  {
    if own != [] {
      var init := own[..|own| - 1];
      assert HashesAt(outputs, at, init);
      ScanOwn(outputs, start, at, init);
      assert outputs[at + |init|].hash == own[|own| - 1];
    }
  }

  /** The scan of a whole transaction: its own outputs, and one output too many in a clash. */
  lemma ScanTransaction(outputs: seq<Emitted>, start: nat, at: nat, tx: Decoded)
    requires Consecutive(outputs, start) && HashesAt(outputs, at, OwnCommitments(tx))
             && (tx.hasUnshield ==> tx.commitments != [])
    ensures var own := OwnCommitments(tx);
            ScanUpTo(outputs, at, tx.commitments) ==
            Ok(if Clash(outputs, at, tx) then Scan(at + |own| + 1, Some(start + at))
               else Scan(at + |own|, if own == [] then None else Some(start + at)))
  {
    hide ScanUpTo;
    var own := OwnCommitments(tx);
    ScanOwn(outputs, start, at, own);
    if tx.hasUnshield {
      ScanLast(outputs, at, tx.commitments);
      assert tx.commitments[..|tx.commitments| - 1] == own;
    }
  }

  lemma ScanLast(outputs: seq<Emitted>, at: nat, commitments: seq<Hash>)
    requires commitments != [] && ScanUpTo(outputs, at, commitments[..|commitments| - 1]).Ok?
    ensures ScanUpTo(outputs, at, commitments) ==
            ScanNext(outputs, ScanUpTo(outputs, at, commitments[..|commitments| - 1]).value,
                     commitments[|commitments| - 1])
  {
  }

  lemma MatchWithoutClash(outputs: seq<Emitted>, start: nat, at: nat, tx: Decoded, index: nat)
    requires Consecutive(outputs, start) && HashesAt(outputs, at, OwnCommitments(tx))
             && (tx.hasUnshield ==> tx.commitments != [])
    requires !Clash(outputs, at, tx) && at <= |outputs|
    ensures if Produces(tx)
            then Match(outputs, at, tx, index)
              == Ok(Placed(at + |OwnCommitments(tx)|, if outputs == [] then 0 else start + at))
            else Match(outputs, at, tx, index) == Err(UnmatchedTransaction(index))
  {
    hide ScanUpTo;
    ScanTransaction(outputs, start, at, tx);
  }

  /** In a clash the cursor runs one output too far. */
  lemma MatchWithClash(outputs: seq<Emitted>, start: nat, at: nat, tx: Decoded, index: nat)
    requires Consecutive(outputs, start) && HashesAt(outputs, at, OwnCommitments(tx)) && Clash(outputs, at, tx)
    ensures Match(outputs, at, tx, index) == Ok(Placed(at + |OwnCommitments(tx)| + 1, start + at))
  {
    hide ScanUpTo;
    ScanTransaction(outputs, start, at, tx);
  }

  // ---------------------------------------------------------------------------------------------
  // All transactions without a clash
  // ---------------------------------------------------------------------------------------------

  lemma PositionAt(outputs: seq<Emitted>, start: nat, at: nat, tx: Decoded)
    requires Consecutive(outputs, start) && at <= |outputs| && Produces(tx) && (tx.hasUnshield ==> tx.commitments != [])
    requires outputs == [] ==> OwnCommitments(tx) == []
    ensures OutputPosition(outputs, tx, if outputs == [] then 0 else start + at) == Ok(ExpectedOut(outputs, start, at))
  {
  }

  /** What the loop holds after the first transactions, when nothing clashed so far. */
  predicate OnTrack(outputs: seq<Emitted>, start: nat, txs: seq<Decoded>, p: Progress) {
    p.cursor == Offset(txs) && Positioned(outputs, start, txs, p.rows)
  }

  lemma AddRowOnTrack(summary: Summary, outputs: seq<Emitted>, start: nat, txs: seq<Decoded>, n: nat, p: Progress)
    requires EmittedFor(outputs, start, txs) && n < |txs| && OnTrack(outputs, start, txs[..n], p)
    requires !Clash(outputs, Offset(txs[..n]), txs[n]) && Produces(txs[n])
    ensures AddRow(summary, outputs, p, txs[n]).Ok?
    ensures OnTrack(outputs, start, txs[..n + 1], AddRow(summary, outputs, p, txs[n]).value)
  {
    hide Offset, Match, OutputPosition, Consecutive, Clash, Produces, HashesAt, OwnCommitments, ExpectedOut;
    var at := Offset(txs[..n]);
    OffsetGrows(txs, n);
    assert HashesAt(outputs, at, OwnCommitments(txs[n]));
    MatchWithoutClash(outputs, start, at, txs[n], n);
    OffsetGrows(txs, n + 1);
    PositionAt(outputs, start, at, txs[n]) by {
      assert |outputs| == Offset(txs);
    }
    var next := AddRow(summary, outputs, p, txs[n]).value;
    forall i | 0 <= i <= n
      ensures (next.rows[i].treeOut, next.rows[i].positionOut) == ExpectedOut(outputs, start, Offset(txs[..n + 1][..i]))
    {
      assert txs[..n + 1][..i] == txs[..i];
      if i < n {
        assert txs[..n][..i] == txs[..i];
      }
    }
  }

  lemma {:induction false} AddRowsOnTrack(summary: Summary, outputs: seq<Emitted>, start: nat, txs: seq<Decoded>,
                                          n: nat)
    requires EmittedFor(outputs, start, txs) && n <= |txs|
    requires forall i :: 0 <= i < n ==> !Clash(outputs, Offset(txs[..i]), txs[i]) && Produces(txs[i])
    ensures AddRows(summary, outputs, txs[..n]).Ok?
    ensures OnTrack(outputs, start, txs[..n], AddRows(summary, outputs, txs[..n]).value)
  {
    hide EmittedFor, AddRow, Clash, Produces, OnTrack;
    if n == 0 {
      OnTrackStart(outputs, start);
      assert txs[..0] == [];
    } else {
      AddRowsOnTrack(summary, outputs, start, txs, n - 1);
      assert txs[..n][..n - 1] == txs[..n - 1];
      AddRowOnTrack(summary, outputs, start, txs, n - 1, AddRows(summary, outputs, txs[..n - 1]).value);
    }
  }

  lemma OnTrackStart(outputs: seq<Emitted>, start: nat)
    ensures OnTrack(outputs, start, [], Progress(0, []))
  {
  }

  // ---------------------------------------------------------------------------------------------
  // A clash always misplaces the next transaction
  // ---------------------------------------------------------------------------------------------

  lemma {:induction false} ScanNotBefore(outputs: seq<Emitted>, start: nat, cursor: nat, commitments: seq<Hash>)
    requires Consecutive(outputs, start) && ScanUpTo(outputs, cursor, commitments).Ok?
    ensures var s := ScanUpTo(outputs, cursor, commitments).value;
            s.cursor >= cursor && (s.start.Some? ==> s.start.value >= start + cursor)
  {
    if commitments != [] {
      ScanNotBefore(outputs, start, cursor, commitments[..|commitments| - 1]);
    }
  }

  lemma MatchNotBefore(outputs: seq<Emitted>, start: nat, cursor: nat, tx: Decoded, index: nat)
    requires Consecutive(outputs, start) && outputs != [] && Match(outputs, cursor, tx, index).Ok?
    ensures Match(outputs, cursor, tx, index).value.start >= start + cursor
  {
    hide ScanUpTo;
    ScanNotBefore(outputs, start, cursor, tx.commitments);
  }

  lemma {:induction false} AddRowsPrefix(summary: Summary, outputs: seq<Emitted>, txs: seq<Decoded>, n: nat)
    requires n <= |txs| && AddRows(summary, outputs, txs).Ok?
    ensures AddRows(summary, outputs, txs[..n]).Ok?
    ensures AddRows(summary, outputs, txs).value.rows[..n] == AddRows(summary, outputs, txs[..n]).value.rows
    decreases |txs|
  {
    if n == |txs| {
      assert txs[..n] == txs;
    } else {
      var shorter := txs[..|txs| - 1];
      AddRowsPrefix(summary, outputs, shorter, n);
      assert shorter[..n] == txs[..n];
    }
  }

  /** After a cursor one too far, the next row cannot be where it belongs. */
  lemma TooFarMisplaces(summary: Summary, outputs: seq<Emitted>, start: nat, at: nat, p: Progress, tx: Decoded)
    requires Consecutive(outputs, start) && outputs != [] && p.cursor == at + 1 && AddRow(summary, outputs, p, tx).Ok?
    ensures var row := AddRow(summary, outputs, p, tx).value.rows[|p.rows|];
            (row.treeOut, row.positionOut) != ExpectedOut(outputs, start, at)
  {
    hide Match, Consecutive;
    MatchNotBefore(outputs, start, p.cursor, tx, |p.rows|);
    NormalizeGlobal(Match(outputs, p.cursor, tx, |p.rows|).value.start);
  }

  lemma ClashRunsTooFar(summary: Summary, outputs: seq<Emitted>, start: nat, txs: seq<Decoded>, n: nat, p: Progress)
    requires EmittedFor(outputs, start, txs) && n < |txs| && Clash(outputs, Offset(txs[..n]), txs[n])
    requires OnTrack(outputs, start, txs[..n], p) && AddRow(summary, outputs, p, txs[n]).Ok?
    ensures n + 1 < |txs| && outputs != []
    ensures AddRow(summary, outputs, p, txs[n]).value.cursor == Offset(txs[..n + 1]) + 1
  {
    hide Match, Consecutive, HashesAt, OutputPosition, Offset, Positioned;
    OffsetGrows(txs, n);
    assert txs[..|txs|] == txs;
    MatchWithClash(outputs, start, Offset(txs[..n]), txs[n], |p.rows|);
  }

  lemma {:induction false} ClashMisplaces(summary: Summary, outputs: seq<Emitted>, start: nat, txs: seq<Decoded>,
                                          n: nat)
    requires EmittedFor(outputs, start, txs) && n < |txs| && Clash(outputs, Offset(txs[..n]), txs[n])
    requires forall i :: 0 <= i < n ==> !Clash(outputs, Offset(txs[..i]), txs[i]) && Produces(txs[i])
    requires AddRows(summary, outputs, txs).Ok?
    ensures !Positioned(outputs, start, txs, AddRows(summary, outputs, txs).value.rows)
  {
    hide AddRow, OnTrack, Clash, Produces, Consecutive, HashesAt, ExpectedOut, Offset;
    AddRowsOnTrack(summary, outputs, start, txs, n);
    assert txs[..n + 1][..n] == txs[..n];
    AddRowsPrefix(summary, outputs, txs, n + 1);
    ClashRunsTooFar(summary, outputs, start, txs, n, AddRows(summary, outputs, txs[..n]).value);
    AddRowsPrefix(summary, outputs, txs, n + 2);
    assert txs[..n + 2][..n + 1] == txs[..n + 1];
    var p := AddRows(summary, outputs, txs[..n + 1]).value;
    TooFarMisplaces(summary, outputs, start, Offset(txs[..n + 1]), p, txs[n + 1]);
    var rows := AddRows(summary, outputs, txs).value.rows;
    assert rows[n + 1] == rows[..n + 2][n + 1];
  }

  // ---------------------------------------------------------------------------------------------
  // The exact condition
  // ---------------------------------------------------------------------------------------------

  /** The first transaction that clashes or produces nothing, if any. */
  lemma {:induction false} FirstTrouble(outputs: seq<Emitted>, txs: seq<Decoded>, n: nat) returns (i: nat)
    requires n <= |txs|
    requires exists k :: 0 <= k < n && (Clash(outputs, Offset(txs[..k]), txs[k]) || !Produces(txs[k]))
    ensures i < n && (Clash(outputs, Offset(txs[..i]), txs[i]) || !Produces(txs[i]))
    ensures forall k :: 0 <= k < i ==> !Clash(outputs, Offset(txs[..k]), txs[k]) && Produces(txs[k])
  {
    hide Clash, Produces;
    if k :| 0 <= k < n - 1 && (Clash(outputs, Offset(txs[..k]), txs[k]) || !Produces(txs[k])) {
      i := FirstTrouble(outputs, txs, n - 1);
    } else {
      i := n - 1;
    }
  }

  lemma BarrenFails(summary: Summary, outputs: seq<Emitted>, start: nat, txs: seq<Decoded>, n: nat)
    requires EmittedFor(outputs, start, txs) && n < |txs| && !Produces(txs[n])
    requires forall i :: 0 <= i < n ==> !Clash(outputs, Offset(txs[..i]), txs[i]) && Produces(txs[i])
    ensures AddRows(summary, outputs, txs).Err?
  {
    hide Match, Consecutive, HashesAt, Offset;
    OffsetGrows(txs, n);
    AddRowsOnTrack(summary, outputs, start, txs, n);
    assert txs[..n + 1][..n] == txs[..n];
    MatchWithoutClash(outputs, start, Offset(txs[..n]), txs[n], n);
    AddRowsFails(summary, outputs, txs, n + 1);
  }

  /** A call's rows are all matched, every emitted output is consumed, and each row stands at its own
      first output exactly when no unshield commitment equals the output right after it and every
      transaction has an output or an unshield. */
  lemma PositionsExact(summary: Summary, start: nat, txs: seq<Decoded>)
    requires EmittedFor(summary.outputs, start, txs)
    ensures (PublicRows(summary, txs).Ok?
             && Positioned(summary.outputs, start, txs, PublicRows(summary, txs).value)) <==>
            NoClash(summary.outputs, txs) && EachProduces(txs)
  {
    hide Clash, Produces, Positioned, Offset, HashesAt, AddRows;
    var outputs := summary.outputs;
    SortOfSorted(outputs);
    if NoClash(outputs, txs) && EachProduces(txs) {
      AddRowsOnTrack(summary, outputs, start, txs, |txs|);
      assert txs[..|txs|] == txs;
    } else {
      var n := FirstTrouble(outputs, txs, |txs|);
      if !Produces(txs[n]) {
        BarrenFails(summary, outputs, start, txs, n);
      } else if AddRows(summary, outputs, txs).Ok? {
        ClashMisplaces(summary, outputs, start, txs, n);
      }
    }
  }

  /** A clash: the unshield commitment of the first transaction is the second one's output. */
  lemma {:induction false} ClashExample(c: Crypto)
    ensures var first := Decoded(ActionLogsCall, [1], [7, 9], 0, true, Some(Preimage(0, 0, 0)), 0, 0);
            var second := Decoded(ActionLogsCall, [2], [9], 0, false, None, 0, 0);
            var outputs := [Emitted(TransactFamily, 0, 0, 0, 7), Emitted(TransactFamily, 0, 0, 1, 9)];
            && EmittedFor(outputs, 0, [first, second]) && EachProduces([first, second])
            && Clash(outputs, Offset([first, second][..0]), first)
  {
    var first := Decoded(ActionLogsCall, [1], [7, 9], 0, true, Some(Preimage(0, 0, 0)), 0, 0);
    var second := Decoded(ActionLogsCall, [2], [9], 0, false, None, 0, 0);
    var txs := [first, second];
    assert txs[..0] == [] && txs[..1] == [first] && [first][..0] == [];
    OffsetGrows(txs, 1);
    assert txs[..2] == txs;
  }
}
