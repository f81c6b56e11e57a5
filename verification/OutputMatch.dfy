/** Matching the transactions of a call against the commitments it emitted, to give each
    transaction the tree position of its first output. */
module OutputMatch {
  import opened Wrappers
  import opened ActionLogs

  const TREE_LEAF_COUNT: nat := 65536
  const U32_LIMIT: nat := 0x1_0000_0000
  const U64_LIMIT: nat := 0x1_0000_0000_0000_0000
  const UNSHIELD_ONLY_TREE: nat := 99999
  const UNSHIELD_ONLY_POSITION: nat := 99999

  datatype Family = TransactFamily | LegacyEncrypted | LegacyGenerated

  datatype Emitted = Emitted(family: Family, logIndex: nat, tree: nat, position: nat, hash: Hash)

  datatype Summary = Summary(firstLog: nat, lastLog: nat, outputs: seq<Emitted>)

  datatype Row = Row(
    index: nat, firstLog: nat, lastLog: nat, nullifiers: seq<Hash>, commitments: seq<Hash>,
    boundParamsHash: Hash, hasUnshield: bool, preimage: Option<Preimage>, treeIn: nat,
    treeOut: nat, positionOut: nat, txid: nat)

  datatype MatchError =
    | UnmatchedTransaction(index: nat)
    | UnmatchedEmitted(consumed: nat, emitted: nat)
    | PositionOverflow

  // ---------------------------------------------------------------------------------------------
  // Tree positions
  // ---------------------------------------------------------------------------------------------

  function GlobalPosition(tree: nat, position: nat): Result<nat, MatchError> {
    var global := tree * TREE_LEAF_COUNT + position;
    if global < U64_LIMIT then Ok(global) else Err(PositionOverflow)
  }

  /** Carries positions past the end of a tree into the following trees. */
  function Normalize(tree: nat, position: nat): Result<(nat, nat), MatchError> {
    var carried := tree + position / TREE_LEAF_COUNT;
    if position / TREE_LEAF_COUNT < U32_LIMIT && carried < U32_LIMIT
    then Ok((carried, position % TREE_LEAF_COUNT)) else Err(PositionOverflow)
  }

  /** The position of output `index` of an event that starts at `start` in `tree`. */
  function EventPosition(tree: nat, start: nat, index: nat): Result<(nat, nat), MatchError> {
    if start + index < U64_LIMIT then Normalize(tree, start + index) else Err(PositionOverflow)
  }

  /** Normalizing moves no leaf: the global position of an output is that of the event's start plus
      its index, also across a tree boundary. */
  lemma {:induction false} EventPositionGlobal(tree: nat, start: nat, index: nat)
    requires EventPosition(tree, start, index).Ok?
    ensures var (t, p) := EventPosition(tree, start, index).value;
            && p < TREE_LEAF_COUNT && t < U32_LIMIT
            && GlobalPosition(t, p) == Ok(tree * TREE_LEAF_COUNT + start + index)
  {
  }

  /** Splitting a global position and joining it again is the identity. */
  lemma {:induction false} NormalizeGlobal(global: nat)
    requires Normalize(0, global).Ok?
    ensures var (t, p) := Normalize(0, global).value;
            t * TREE_LEAF_COUNT + p == global && p < TREE_LEAF_COUNT
  {
  }

  /** Outputs at consecutive leaves from global position `start`, all rooms for one more leaf. */
  predicate Consecutive(outputs: seq<Emitted>, start: nat) {
    && (forall j :: 0 <= j < |outputs| ==>
          && outputs[j].family == TransactFamily
          && outputs[j].tree * TREE_LEAF_COUNT + outputs[j].position == start + j)
    && start + |outputs| < U32_LIMIT * TREE_LEAF_COUNT
  }

  // ---------------------------------------------------------------------------------------------
  // Matching one transaction
  // ---------------------------------------------------------------------------------------------

  /** The matching loop's variables. */
  datatype Scan = Scan(cursor: nat, start: Option<nat>)

  function ScanNext(outputs: seq<Emitted>, s: Scan, commitment: Hash): Result<Scan, MatchError> {
    if s.cursor >= |outputs| || outputs[s.cursor].hash != commitment then Ok(s)
    else if s.start.Some? then Ok(Scan(s.cursor + 1, s.start))
    else
      match GlobalPosition(outputs[s.cursor].tree, outputs[s.cursor].position)
      case Ok(start) => Ok(Scan(s.cursor + 1, Some(start)))
      case Err(error) => Err(error)
  }

  function ScanUpTo(outputs: seq<Emitted>, cursor: nat, commitments: seq<Hash>): Result<Scan, MatchError> {
    if commitments == [] then Ok(Scan(cursor, None)) else
    match ScanUpTo(outputs, cursor, commitments[..|commitments| - 1])
    case Err(error) => Err(error)
    case Ok(s) => ScanNext(outputs, s, commitments[|commitments| - 1])
  }

  /** All modelled call kinds are modern ones. */
  predicate IsUnshieldOnly(tx: Decoded) {
    tx.hasUnshield && |tx.commitments| == 1
  }

  /** An unshield-only transaction takes the next free slot, or 0 when nothing was emitted. */
  function UnshieldOnlyStart(outputs: seq<Emitted>, cursor: nat, index: nat): Result<nat, MatchError> {
    if cursor < |outputs| then GlobalPosition(outputs[cursor].tree, outputs[cursor].position)
    else if outputs == [] then Ok(0)
    else if cursor == 0 || cursor - 1 >= |outputs| then Err(UnmatchedTransaction(index))
    else
      match GlobalPosition(outputs[cursor - 1].tree, outputs[cursor - 1].position)
      case Err(error) => Err(error)
      case Ok(previous) => if previous + 1 < U64_LIMIT then Ok(previous + 1) else Err(PositionOverflow)
  }

  /** The cursor after the transaction and the global position of its outputs. */
  datatype Placed = Placed(cursor: nat, start: nat)

  function AtCursor(cursor: nat, start: Result<nat, MatchError>): Result<Placed, MatchError> {
    match start
    case Ok(start) => Ok(Placed(cursor, start))
    case Err(error) => Err(error)
  }

  function PlaceTransaction(outputs: seq<Emitted>, tx: Decoded, index: nat, s: Scan): Result<Placed, MatchError> {
    if tx.hasUnshield && s.cursor < |outputs| && outputs[s.cursor].family == LegacyGenerated then
      AtCursor(s.cursor + 1, GlobalPosition(outputs[s.cursor].tree, outputs[s.cursor].position))
    else if s.start.Some? then Ok(Placed(s.cursor, s.start.value))
    else if IsUnshieldOnly(tx) then AtCursor(s.cursor, UnshieldOnlyStart(outputs, s.cursor, index))
    else Err(UnmatchedTransaction(index))
  }

  function Match(outputs: seq<Emitted>, cursor: nat, tx: Decoded, index: nat): Result<Placed, MatchError> {
    match ScanUpTo(outputs, cursor, tx.commitments)
    case Err(error) => Err(error)
    case Ok(s) => PlaceTransaction(outputs, tx, index, s)
  }

  method MatchedOutputStart(outputs: seq<Emitted>, cursor: nat, tx: Decoded, index: nat)
    returns (r: Result<Placed, MatchError>)
    ensures r == Match(outputs, cursor, tx, index)
  {
    hide PlaceTransaction;
    var emittedIndex: nat := cursor;
    var start: Option<nat> := None;
    var i := 0;
    while i < |tx.commitments|
      invariant 0 <= i <= |tx.commitments|
      invariant ScanUpTo(outputs, cursor, tx.commitments[..i]) == Ok(Scan(emittedIndex, start))
    {
      assert tx.commitments[..i + 1][..i] == tx.commitments[..i];
      if emittedIndex >= |outputs| {
        ScanPastEnd(outputs, cursor, tx.commitments, i);
        break;
      }
      if outputs[emittedIndex].hash == tx.commitments[i] {
        if start.None? {
          var global := GlobalPosition(outputs[emittedIndex].tree, outputs[emittedIndex].position);
          if global.Err? {
            ScanFails(outputs, cursor, tx.commitments, i + 1);
            return Err(global.error);
          }
          start := Some(global.value);
        }
        emittedIndex := emittedIndex + 1;
      }
      i := i + 1;
    }
    assert i == |tx.commitments| ==> tx.commitments[..i] == tx.commitments;
    return PlaceTransaction(outputs, tx, index, Scan(emittedIndex, start));
  }

  lemma {:induction false} ScanPastEnd(outputs: seq<Emitted>, cursor: nat, commitments: seq<Hash>, i: nat)
    requires i <= |commitments|
    requires ScanUpTo(outputs, cursor, commitments[..i]).Ok?
             && ScanUpTo(outputs, cursor, commitments[..i]).value.cursor >= |outputs|
    ensures ScanUpTo(outputs, cursor, commitments) == ScanUpTo(outputs, cursor, commitments[..i])
    decreases |commitments| - i
  {
    if i < |commitments| {
      assert commitments[..i + 1][..i] == commitments[..i];
      ScanPastEnd(outputs, cursor, commitments, i + 1);
    } else {
      assert commitments[..i] == commitments;
    }
  }

  lemma {:induction false} ScanFails(outputs: seq<Emitted>, cursor: nat, commitments: seq<Hash>, i: nat)
    requires i <= |commitments| && ScanUpTo(outputs, cursor, commitments[..i]).Err?
    ensures ScanUpTo(outputs, cursor, commitments) == ScanUpTo(outputs, cursor, commitments[..i])
    decreases |commitments| - i
  {
    if i < |commitments| {
      assert commitments[..i + 1][..i] == commitments[..i];
      ScanFails(outputs, cursor, commitments, i + 1);
    } else {
      assert commitments[..i] == commitments;
    }
  }

  // ---------------------------------------------------------------------------------------------
  // Rows of all transactions
  // ---------------------------------------------------------------------------------------------

  function Key(output: Emitted): nat {
    output.tree * TREE_LEAF_COUNT + output.position
  }

  /** Inserts after every output that is not above it, as a stable sort does. */
  function Insert(sorted: seq<Emitted>, output: Emitted): seq<Emitted> {
    if sorted == [] || Key(sorted[|sorted| - 1]) <= Key(output) then sorted + [output]
    else Insert(sorted[..|sorted| - 1], output) + [sorted[|sorted| - 1]]
  }

  function SortByPosition(outputs: seq<Emitted>): seq<Emitted> {
    if outputs == [] then [] else Insert(SortByPosition(outputs[..|outputs| - 1]), outputs[|outputs| - 1])
  }

  lemma {:induction false} SortOfSorted(outputs: seq<Emitted>)
    requires forall i :: 0 < i < |outputs| ==> Key(outputs[i - 1]) <= Key(outputs[i])
    ensures SortByPosition(outputs) == outputs
  {
    if outputs != [] {
      SortOfSorted(outputs[..|outputs| - 1]);
    }
  }

  function OutputPosition(outputs: seq<Emitted>, tx: Decoded, start: nat): Result<(nat, nat), MatchError> {
    if outputs == [] && IsUnshieldOnly(tx) then Ok((UNSHIELD_ONLY_TREE, UNSHIELD_ONLY_POSITION))
    else Normalize(0, start)
  }

  function MakeRow(summary: Summary, tx: Decoded, index: nat, out: (nat, nat)): Row {
    Row(index, summary.firstLog, summary.lastLog, tx.nullifiers, tx.commitments, tx.boundParamsHash,
        tx.hasUnshield, tx.preimage, tx.treeIn, out.0, out.1, tx.txid)
  }

  datatype Progress = Progress(cursor: nat, rows: seq<Row>)

  function AddRow(summary: Summary, outputs: seq<Emitted>, p: Progress, tx: Decoded): Result<Progress, MatchError> {
    match Match(outputs, p.cursor, tx, |p.rows|)
    case Err(error) => Err(error)
    case Ok(placed) =>
      match OutputPosition(outputs, tx, placed.start)
      case Err(error) => Err(error)
      case Ok(out) => Ok(Progress(placed.cursor, p.rows + [MakeRow(summary, tx, |p.rows|, out)]))
  }

  function AddRows(summary: Summary, outputs: seq<Emitted>, txs: seq<Decoded>): (r: Result<Progress, MatchError>)
    ensures r.Ok? ==> |r.value.rows| == |txs|
  {
    if txs == [] then Ok(Progress(0, [])) else
    match AddRows(summary, outputs, txs[..|txs| - 1])
    case Err(error) => Err(error)
    case Ok(p) => AddRow(summary, outputs, p, txs[|txs| - 1])
  }

  function CheckConsumed(outputs: seq<Emitted>, r: Result<Progress, MatchError>): Result<seq<Row>, MatchError> {
    match r
    case Err(error) => Err(error)
    case Ok(p) => if p.cursor != |outputs| then Err(UnmatchedEmitted(p.cursor, |outputs|)) else Ok(p.rows)
  }

  function PublicRows(summary: Summary, txs: seq<Decoded>): (r: Result<seq<Row>, MatchError>)
    ensures r.Ok? ==> |r.value| == |txs|
  {
    var outputs := SortByPosition(summary.outputs);
    CheckConsumed(outputs, AddRows(summary, outputs, txs))
  }

  /** Relay calls with legacy outputs take another branch, which is not modelled. */
  predicate UsesLegacyAnchoring(summary: Summary, txs: seq<Decoded>) {
    && (exists i :: 0 <= i < |txs| && txs[i].kind == RelayCall)
    && (exists j :: 0 <= j < |summary.outputs| && summary.outputs[j].family != TransactFamily)
  }

  method PublicTransactions(summary: Summary, txs: seq<Decoded>) returns (r: Result<seq<Row>, MatchError>)
    requires !UsesLegacyAnchoring(summary, txs)
    ensures r == PublicRows(summary, txs)
  {
    hide Match, Normalize, IsUnshieldOnly, SortByPosition;
    var outputs := SortByPosition(summary.outputs);
    var cursor: nat := 0;
    var rows: seq<Row> := [];
    for i := 0 to |txs|
      invariant AddRows(summary, outputs, txs[..i]) == Ok(Progress(cursor, rows))
    {
      assert txs[..i + 1][..i] == txs[..i];
      var placed := MatchedOutputStart(outputs, cursor, txs[i], i);
      if placed.Err? {
        AddRowsFails(summary, outputs, txs, i + 1);
        return Err(placed.error);
      }
      var out := OutputPosition(outputs, txs[i], placed.value.start);
      if out.Err? {
        AddRowsFails(summary, outputs, txs, i + 1);
        return Err(out.error);
      }
      cursor := placed.value.cursor;
      rows := rows + [MakeRow(summary, txs[i], i, out.value)];
    }
    assert txs[..|txs|] == txs;
    if cursor != |outputs| {
      return Err(UnmatchedEmitted(cursor, |outputs|));
    }
    return Ok(rows);
  }

  lemma {:induction false} AddRowsFails(summary: Summary, outputs: seq<Emitted>, txs: seq<Decoded>, i: nat)
    requires i <= |txs| && AddRows(summary, outputs, txs[..i]).Err?
    ensures AddRows(summary, outputs, txs) == AddRows(summary, outputs, txs[..i])
    decreases |txs| - i
  {
    hide AddRow;
    if i < |txs| {
      assert txs[..i + 1][..i] == txs[..i];
      AddRowsFails(summary, outputs, txs, i + 1);
    } else {
      assert txs[..i] == txs;
    }
  }
}
