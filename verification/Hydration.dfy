/** Building public transaction rows of one outer transaction: from its logs, with unshield
    commitments taken from calldata, and directly from calldata. */
module Hydration {
  import opened Wrappers
  import opened ActionLogs
  import opened OutputMatch

  /** A Railgun transaction decoded from calldata; unshield type 0 means none. */
  datatype CalldataTx = CalldataTx(
    nullifiers: seq<Hash>, commitments: seq<Hash>, boundParamsHash: Hash, tree: nat,
    unshieldType: nat, preimage: Preimage)

  datatype Field = NullifiersField | UnshieldTypeField | TreeField | CommitmentsField

  datatype PathError =
    | ParseFailed(parse: Error)
    | AmbiguousUnshield(matches: nat)
    | Contradiction(field: Field)
    | MatchFailed(match_: MatchError)

  // ---------------------------------------------------------------------------------------------
  // Calldata is authoritative for unshields
  // ---------------------------------------------------------------------------------------------

  function Matching(calldata: seq<CalldataTx>, nullifiers: seq<Hash>): seq<CalldataTx> {
    if calldata == [] then [] else
    var last := calldata[|calldata| - 1];
    Matching(calldata[..|calldata| - 1], nullifiers) + (if last.nullifiers == nullifiers then [last] else [])
  }

  datatype Resolved = Resolved(tx: Decoded, diverged: nat)

  function ReplaceUnshield(c: Crypto, tx: Decoded, matched: CalldataTx): Result<Resolved, PathError> {
    if matched.unshieldType == 0 then Err(Contradiction(UnshieldTypeField))
    else if matched.tree != tx.treeIn then Err(Contradiction(TreeField))
    else if matched.commitments == [] || tx.commitments == [] then Err(Contradiction(CommitmentsField))
    else if tx.commitments[..|tx.commitments| - 1] != matched.commitments[..|matched.commitments| - 1]
    then Err(Contradiction(CommitmentsField))
    else if tx.commitments[|tx.commitments| - 1] == matched.commitments[|matched.commitments| - 1]
    then Ok(Resolved(tx.(preimage := Some(matched.preimage)), 0))
    else
      var commitments := tx.commitments[..|tx.commitments| - 1] + [matched.commitments[|matched.commitments| - 1]];
      Ok(Resolved(tx.(commitments := commitments, preimage := Some(matched.preimage),
                      txid := c.txid(tx.nullifiers, commitments, tx.boundParamsHash)), 1))
  }

  function ResolveTransaction(c: Crypto, calldata: seq<CalldataTx>, tx: Decoded): Result<Resolved, PathError> {
    if !tx.hasUnshield then Ok(Resolved(tx, 0))
    else if tx.nullifiers == [] then Err(Contradiction(NullifiersField))
    else
      var matches := Matching(calldata, tx.nullifiers);
      if |matches| != 1 then Err(AmbiguousUnshield(|matches|)) else ReplaceUnshield(c, tx, matches[0])
  }

  datatype Resolution<T> = Resolution(value: T, divergences: nat)

  function AddResolved(done: Resolution<seq<Numbered>>, record: nat,
                       r: Result<Resolved, PathError>): Result<Resolution<seq<Numbered>>, PathError> {
    match r
    case Err(error) => Err(error)
    case Ok(resolved) => Ok(Resolution(done.value + [Numbered(record, resolved.tx)],
                                       done.divergences + resolved.diverged))
  }

  function ResolveRows(c: Crypto, calldata: seq<CalldataTx>,
                       rows: seq<Numbered>): Result<Resolution<seq<Numbered>>, PathError> {
    if rows == [] then Ok(Resolution([], 0)) else
    match ResolveRows(c, calldata, rows[..|rows| - 1])
    case Err(error) => Err(error)
    case Ok(done) =>
      var row := rows[|rows| - 1];
      AddResolved(done, row.record, ResolveTransaction(c, calldata, row.tx))
  }

  function AddGroup(done: Resolution<seq<Group>>, transact: Option<nat>,
                    r: Result<Resolution<seq<Numbered>>, PathError>): Result<Resolution<seq<Group>>, PathError> {
    match r
    case Err(error) => Err(error)
    case Ok(rows) => Ok(Resolution(done.value + [Group(transact, rows.value)], done.divergences + rows.divergences))
  }

  function ResolveGroups(c: Crypto, calldata: seq<CalldataTx>,
                         groups: seq<Group>): Result<Resolution<seq<Group>>, PathError> {
    if groups == [] then Ok(Resolution([], 0)) else
    match ResolveGroups(c, calldata, groups[..|groups| - 1])
    case Err(error) => Err(error)
    case Ok(done) =>
      var group := groups[|groups| - 1];
      AddGroup(done, group.transact, ResolveRows(c, calldata, group.rows))
  }

  predicate NullifiersMissing(calldata: seq<CalldataTx>) {
    exists i :: 0 <= i < |calldata| && calldata[i].nullifiers == []
  }

  /** When no calldata decodes at all, the commitments derived from the logs stand. */
  function ResolveUnshields(c: Crypto, calldata: seq<CalldataTx>,
                            groups: seq<Group>): Result<Resolution<seq<Group>>, PathError> {
    if calldata == [] then Ok(Resolution(groups, 0))
    else if NullifiersMissing(calldata) then Err(Contradiction(NullifiersField))
    else ResolveGroups(c, calldata, groups)
  }

  method ResolveUnshieldCommitments(c: Crypto, calldata: seq<CalldataTx>, groups: seq<Group>)
    returns (r: Result<Resolution<seq<Group>>, PathError>)
    ensures r == ResolveUnshields(c, calldata, groups)
  {
    hide ResolveTransaction;
    if calldata == [] {
      return Ok(Resolution(groups, 0));
    }
    if NullifiersMissing(calldata) {
      return Err(Contradiction(NullifiersField));
    }
    var done: Resolution<seq<Group>> := Resolution([], 0);
    for i := 0 to |groups|
      invariant ResolveGroups(c, calldata, groups[..i]) == Ok(done)
    {
      assert groups[..i + 1][..i] == groups[..i];
      var rows := ResolveGroupRows(c, calldata, groups[i].rows);
      if rows.Err? {
        ResolveGroupsFails(c, calldata, groups, i + 1);
        return Err(rows.error);
      }
      done := Resolution(done.value + [Group(groups[i].transact, rows.value.value)],
                         done.divergences + rows.value.divergences);
    }
    assert groups[..|groups|] == groups;
    return Ok(done);
  }

  method ResolveGroupRows(c: Crypto, calldata: seq<CalldataTx>, rows: seq<Numbered>)
    returns (r: Result<Resolution<seq<Numbered>>, PathError>)
    ensures r == ResolveRows(c, calldata, rows)
  {
    hide ResolveTransaction;
    var done: Resolution<seq<Numbered>> := Resolution([], 0);
    for i := 0 to |rows|
      invariant ResolveRows(c, calldata, rows[..i]) == Ok(done)
    {
      assert rows[..i + 1][..i] == rows[..i];
      var resolved := ResolveTransaction(c, calldata, rows[i].tx);
      if resolved.Err? {
        ResolveRowsFails(c, calldata, rows, i + 1);
        return Err(resolved.error);
      }
      done := Resolution(done.value + [Numbered(rows[i].record, resolved.value.tx)],
                         done.divergences + resolved.value.diverged);
    }
    assert rows[..|rows|] == rows;
    return Ok(done);
  }

  lemma {:induction false} ResolveRowsFails(c: Crypto, calldata: seq<CalldataTx>, rows: seq<Numbered>, i: nat)
    requires i <= |rows| && ResolveRows(c, calldata, rows[..i]).Err?
    ensures ResolveRows(c, calldata, rows) == ResolveRows(c, calldata, rows[..i])
    decreases |rows| - i
  {
    hide ResolveTransaction;
    if i < |rows| {
      assert rows[..i + 1][..i] == rows[..i];
      ResolveRowsFails(c, calldata, rows, i + 1);
    } else {
      assert rows[..i] == rows;
    }
  }

  lemma {:induction false} ResolveGroupsFails(c: Crypto, calldata: seq<CalldataTx>, groups: seq<Group>, i: nat)
    requires i <= |groups| && ResolveGroups(c, calldata, groups[..i]).Err?
    ensures ResolveGroups(c, calldata, groups) == ResolveGroups(c, calldata, groups[..i])
    decreases |groups| - i
  {
    hide ResolveRows;
    if i < |groups| {
      assert groups[..i + 1][..i] == groups[..i];
      ResolveGroupsFails(c, calldata, groups, i + 1);
    } else {
      assert groups[..i] == groups;
    }
  }

  // ---------------------------------------------------------------------------------------------
  // Rows in Action order
  // ---------------------------------------------------------------------------------------------

  /** Each call matches only the outputs of its own Transact log. */
  function OwnOutputs(outputs: seq<Emitted>, transact: Option<nat>): seq<Emitted> {
    if outputs == [] then [] else
    var last := outputs[|outputs| - 1];
    OwnOutputs(outputs[..|outputs| - 1], transact) + (if transact == Some(last.logIndex) then [last] else [])
  }

  datatype Tagged = Tagged(record: nat, row: Row)

  function Transactions(rows: seq<Numbered>): seq<Decoded> {
    seq(|rows|, i requires 0 <= i < |rows| => rows[i].tx)
  }

  function Tag(rows: seq<Row>, numbered: seq<Numbered>): seq<Tagged>
    requires |rows| == |numbered|
  {
    seq(|rows|, i requires 0 <= i < |rows| => Tagged(numbered[i].record, rows[i]))
  }

  function GroupRows(summary: Summary, group: Group): (r: Result<seq<Tagged>, PathError>)
  {
    match PublicRows(summary.(outputs := OwnOutputs(summary.outputs, group.transact)), Transactions(group.rows))
    case Err(error) => Err(MatchFailed(error))
    case Ok(rows) => Ok(Tag(rows, group.rows))
  }

  function AllRows(summary: Summary, groups: seq<Group>): Result<seq<Tagged>, PathError> {
    if groups == [] then Ok([]) else
    match AllRows(summary, groups[..|groups| - 1])
    case Err(error) => Err(error)
    case Ok(before) =>
      match GroupRows(summary, groups[|groups| - 1])
      case Err(error) => Err(error)
      case Ok(rows) => Ok(before + rows)
  }

  function InsertByRecord(sorted: seq<Tagged>, tagged: Tagged): seq<Tagged> {
    if sorted == [] || sorted[|sorted| - 1].record <= tagged.record then sorted + [tagged]
    else InsertByRecord(sorted[..|sorted| - 1], tagged) + [sorted[|sorted| - 1]]
  }

  function SortByRecord(rows: seq<Tagged>): seq<Tagged> {
    if rows == [] then [] else InsertByRecord(SortByRecord(rows[..|rows| - 1]), rows[|rows| - 1])
  }

  /** Rows are renumbered by their place in Action order. */
  function Renumber(rows: seq<Tagged>): seq<Row> {
    seq(|rows|, i requires 0 <= i < |rows| => rows[i].row.(index := i))
  }

  function ActionRows(summary: Summary, groups: seq<Group>): Result<seq<Row>, PathError> {
    match AllRows(summary, groups)
    case Err(error) => Err(error)
    case Ok(rows) => Ok(Renumber(SortByRecord(rows)))
  }

  predicate AnyUnshield(groups: seq<Group>) {
    exists i, j :: 0 <= i < |groups| && 0 <= j < |groups[i].rows| && groups[i].rows[j].tx.hasUnshield
  }

  /** The calls to match: calldata is read only when some transaction unshields, and then states the commitments. */
  function MatchedGroups(c: Crypto, logs: seq<Log>, calldata: seq<CalldataTx>): Result<seq<Group>, PathError> {
    match Parse(c, logs)
    case Err(error) => Err(ParseFailed(error))
    case Ok(groups) =>
      if !AnyUnshield(groups) then Ok(groups) else
      match ResolveUnshields(c, calldata, groups)
      case Err(error) => Err(error)
      case Ok(resolved) => Ok(resolved.value)
  }

  /** Rows rebuilt from logs. */
  function LogPath(c: Crypto, summary: Summary, logs: seq<Log>,
                   calldata: seq<CalldataTx>): Result<seq<Row>, PathError> {
    match MatchedGroups(c, logs, calldata)
    case Err(error) => Err(error)
    case Ok(groups) => ActionRows(summary, groups)
  }

  // ---------------------------------------------------------------------------------------------
  // Rows from calldata
  // ---------------------------------------------------------------------------------------------

  function FromCalldata(c: Crypto, t: CalldataTx): Decoded {
    Decoded(TransactCall, t.nullifiers, t.commitments, t.boundParamsHash, t.unshieldType != 0,
            if t.unshieldType != 0 then Some(t.preimage) else None, t.tree,
            c.txid(t.nullifiers, t.commitments, t.boundParamsHash))
  }

  function DecodeCalldata(c: Crypto, calldata: seq<CalldataTx>): seq<Decoded> {
    seq(|calldata|, i requires 0 <= i < |calldata| => FromCalldata(c, calldata[i]))
  }

  function CalldataPath(c: Crypto, summary: Summary, calldata: seq<CalldataTx>): Result<seq<Row>, PathError> {
    match PublicRows(summary, DecodeCalldata(c, calldata))
    case Err(error) => Err(MatchFailed(error))
    case Ok(rows) => Ok(rows)
  }
}
