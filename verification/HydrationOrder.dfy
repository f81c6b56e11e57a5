/** Final rows stand in Action order: row `i` is the transaction of the `i`-th configuration and the
    `i`-th Nullified log, whatever order the calls completed in. */
module HydrationOrder {
  import opened Wrappers
  import opened ActionLogs
  import opened ActionConservation
  import opened OutputMatch
  import opened Hydration

  // ---------------------------------------------------------------------------------------------
  // Sorting by record
  // ---------------------------------------------------------------------------------------------

  function TagRecords(rows: seq<Tagged>): seq<nat> {
    if rows == [] then [] else TagRecords(rows[..|rows| - 1]) + [rows[|rows| - 1].record]
  }

  predicate Sorted(values: seq<nat>) {
    forall i, j :: 0 <= i < j < |values| ==> values[i] <= values[j]
  }

  predicate SortedTags(rows: seq<Tagged>) {
    forall i, j :: 0 <= i < j < |rows| ==> rows[i].record <= rows[j].record
  }

  lemma {:induction false} InsertSorts(sorted: seq<Tagged>, tagged: Tagged)
    requires SortedTags(sorted)
    ensures SortedTags(InsertByRecord(sorted, tagged))
    ensures multiset(InsertByRecord(sorted, tagged)) == multiset(sorted) + multiset{tagged}
  {
    if sorted != [] && sorted[|sorted| - 1].record > tagged.record {
      var init, last := sorted[..|sorted| - 1], sorted[|sorted| - 1];
      InsertSorts(init, tagged);
      assert sorted == init + [last];
      var inserted := InsertByRecord(init, tagged);
      forall i | 0 <= i < |inserted| ensures inserted[i].record <= last.record {
        assert inserted[i] in multiset(inserted);
      }
    }
  }

  lemma {:induction false} SortSorts(rows: seq<Tagged>)
    ensures SortedTags(SortByRecord(rows))
    ensures multiset(SortByRecord(rows)) == multiset(rows)
  {
    hide InsertByRecord;
    if rows != [] {
      var init, last := rows[..|rows| - 1], rows[|rows| - 1];
      SortSorts(init);
      InsertSorts(SortByRecord(init), last);
      assert rows == init + [last];
    }
  }

  lemma {:induction false} RangeMembers(n: nat, k: nat)
    ensures k in multiset(Range(0, n)) <==> k < n
  {
    if n > 0 {
      RangeMembers(n - 1, k);
    }
  }

  lemma {:induction false} RangeLength(n: nat)
    ensures |Range(0, n)| == n
  {
    if n > 0 {
      RangeLength(n - 1);
    }
  }

  lemma Cancel<T>(a: multiset<T>, b: multiset<T>, x: T)
    requires a + multiset{x} == b + multiset{x}
    ensures a == b
  {
    assert a == (a + multiset{x}) - multiset{x};
    assert b == (b + multiset{x}) - multiset{x};
  }

  lemma DropLast(values: seq<nat>, n: nat)
    requires n > 0 && |values| == n && values[n - 1] == n - 1 && multiset(values) == multiset(Range(0, n))
    ensures multiset(values[..n - 1]) == multiset(Range(0, n - 1))
  {
    var last := values[n - 1];
    assert values == values[..n - 1] + [last] && Range(0, n) == Range(0, n - 1) + [last];
    Cancel(multiset(values[..n - 1]), multiset(Range(0, n - 1)), last);
  }

  /** A sorted permutation of 0..n-1 is 0..n-1. */
  lemma {:induction false} SortedRange(values: seq<nat>, n: nat)
    requires Sorted(values) && multiset(values) == multiset(Range(0, n))
    ensures |values| == n && forall i :: 0 <= i < n ==> values[i] == i
    decreases n
  {
    hide Range;
    RangeLength(n);
    assert |values| == |multiset(values)| == |multiset(Range(0, n))| == n;
    if n > 0 {
      var init, last := values[..n - 1], values[n - 1];
      assert values == init + [last];
      RangeMembers(n, n - 1);
      RangeMembers(n, last);
      assert n - 1 in multiset(values);
      var k :| 0 <= k < n && values[k] == n - 1;
      assert values[k] <= last < n by { assert last in multiset(values); }
      DropLast(values, n);
      SortedRange(init, n - 1);
    }
  }

  lemma {:induction false} TagRecordsAt(rows: seq<Tagged>)
    ensures |TagRecords(rows)| == |rows| && forall i :: 0 <= i < |rows| ==> TagRecords(rows)[i] == rows[i].record
  {
    if rows != [] {
      TagRecordsAt(rows[..|rows| - 1]);
    }
  }

  /** Taking one element out of a sequence. */
  lemma TakeOut(rows: seq<Tagged>, k: nat)
    requires k < |rows|
    ensures multiset(rows) == multiset(rows[..k] + rows[k + 1..]) + multiset{rows[k]}
    ensures multiset(TagRecords(rows)) == multiset(TagRecords(rows[..k] + rows[k + 1..])) + multiset{rows[k].record}
  {
    hide TagRecords;
    var before, after := rows[..k], rows[k + 1..];
    assert rows == before + [rows[k]] + after;
    TagRecordsConcat(before + [rows[k]], after);
    TagRecordsConcat(before, [rows[k]]);
    TagRecordsConcat(before, after);
    TagOne(rows[k]);
  }

  lemma TagOne(tagged: Tagged)
    ensures TagRecords([tagged]) == [tagged.record]
  {
    assert [tagged][..0] == [];
  }

  lemma {:induction false} TagRecordsMultiset(a: seq<Tagged>, b: seq<Tagged>)
    requires multiset(a) == multiset(b)
    ensures multiset(TagRecords(a)) == multiset(TagRecords(b))
    decreases |a|
  {
    hide TagRecords;
    if a == [] {
      assert |b| == |multiset(b)| == 0;
    } else {
      var init, last := a[..|a| - 1], a[|a| - 1];
      assert last in multiset(b);
      var k :| 0 <= k < |b| && b[k] == last;
      TakeOut(b, k);
      TakeOut(a, |a| - 1);
      assert init + a[|a|..] == init;
      Cancel(multiset(init), multiset(b[..k] + b[k + 1..]), last);
      TagRecordsMultiset(init, b[..k] + b[k + 1..]);
    }
  }

  lemma {:induction false} TagRecordsConcat(a: seq<Tagged>, b: seq<Tagged>)
    ensures TagRecords(a + b) == TagRecords(a) + TagRecords(b)
    decreases |b|
  {
    if b == [] {
      assert a + b == a;
    } else {
      assert (a + b)[..|a + b| - 1] == a + b[..|b| - 1];
      TagRecordsConcat(a, b[..|b| - 1]);
    }
  }

  // ---------------------------------------------------------------------------------------------
  // Rows keep their transaction
  // ---------------------------------------------------------------------------------------------

  /** The row carries the fields of the transaction and its record. */
  predicate RowOf(t: Tagged, numbered: Numbered) {
    && t.record == numbered.record
    && t.row.nullifiers == numbered.tx.nullifiers && t.row.commitments == numbered.tx.commitments
    && t.row.boundParamsHash == numbered.tx.boundParamsHash && t.row.hasUnshield == numbered.tx.hasUnshield
    && t.row.preimage == numbered.tx.preimage && t.row.treeIn == numbered.tx.treeIn && t.row.txid == numbered.tx.txid
  }

  predicate RowsOf(tagged: seq<Tagged>, rows: seq<Numbered>) {
    |tagged| == |rows| && forall i :: 0 <= i < |rows| ==> RowOf(tagged[i], rows[i])
  }

  lemma {:induction false} AddRowsKeep(summary: Summary, outputs: seq<Emitted>, txs: seq<Decoded>)
    requires AddRows(summary, outputs, txs).Ok?
    ensures forall i ::
              0 <= i < |txs| ==> RowOf(Tagged(0, AddRows(summary, outputs, txs).value.rows[i]), Numbered(0, txs[i]))
    ensures forall i :: 0 <= i < |txs| ==> AddRows(summary, outputs, txs).value.rows[i].index == i
  {
    hide Match, OutputPosition;
    if txs != [] {
      AddRowsKeep(summary, outputs, txs[..|txs| - 1]);
    }
  }

  lemma GroupRowsKeep(summary: Summary, group: Group)
    requires GroupRows(summary, group).Ok?
    ensures RowsOf(GroupRows(summary, group).value, group.rows)
  {
    hide AddRows, OwnOutputs, SortByPosition;
    var own := summary.(outputs := OwnOutputs(summary.outputs, group.transact));
    AddRowsKeep(own, SortByPosition(own.outputs), Transactions(group.rows));
  }

  lemma {:induction false} AllRowsKeep(summary: Summary, groups: seq<Group>)
    requires AllRows(summary, groups).Ok?
    ensures RowsOf(AllRows(summary, groups).value, Flatten(groups))
  {
    hide GroupRows, RowOf;
    if groups != [] {
      AllRowsKeep(summary, groups[..|groups| - 1]);
      GroupRowsKeep(summary, groups[|groups| - 1]);
    }
  }

  lemma {:induction false} TagsAreRecords(tagged: seq<Tagged>, rows: seq<Numbered>)
    requires RowsOf(tagged, rows)
    ensures TagRecords(tagged) == RecordsOf(rows)
  {
    if rows != [] {
      TagsAreRecords(tagged[..|rows| - 1], rows[..|rows| - 1]);
    }
  }

  // ---------------------------------------------------------------------------------------------
  // Resolving keeps everything but commitments, preimage and id
  // ---------------------------------------------------------------------------------------------

  predicate SameIdentity(a: Numbered, b: Numbered) {
    && a.record == b.record && a.tx.nullifiers == b.tx.nullifiers && a.tx.treeIn == b.tx.treeIn
    && a.tx.boundParamsHash == b.tx.boundParamsHash && a.tx.hasUnshield == b.tx.hasUnshield
    && a.tx.kind == b.tx.kind
  }

  predicate SameIdentities(a: seq<Numbered>, b: seq<Numbered>) {
    |a| == |b| && forall i :: 0 <= i < |a| ==> SameIdentity(a[i], b[i])
  }

  lemma {:induction false} ResolveRowsKeep(c: Crypto, calldata: seq<CalldataTx>, rows: seq<Numbered>)
    requires ResolveRows(c, calldata, rows).Ok?
    ensures SameIdentities(rows, ResolveRows(c, calldata, rows).value.value)
  {
    hide Matching;
    if rows != [] {
      ResolveRowsKeep(c, calldata, rows[..|rows| - 1]);
    }
  }

  lemma {:induction false} ResolveGroupsKeep(c: Crypto, calldata: seq<CalldataTx>, groups: seq<Group>)
    requires ResolveGroups(c, calldata, groups).Ok?
    ensures SameIdentities(Flatten(groups), Flatten(ResolveGroups(c, calldata, groups).value.value))
  {
    hide ResolveRows, SameIdentity;
    if groups != [] {
      var init, last := groups[..|groups| - 1], groups[|groups| - 1];
      ResolveGroupsKeep(c, calldata, init);
      ResolveRowsKeep(c, calldata, last.rows);
      var done := ResolveGroups(c, calldata, init).value.value;
      FlattenSnoc(done, Group(last.transact, ResolveRows(c, calldata, last.rows).value.value));
    }
  }

  lemma SameRecords(a: seq<Numbered>, b: seq<Numbered>)
    requires SameIdentities(a, b)
    ensures RecordsOf(a) == RecordsOf(b)
  {
    if a != [] {
      SameRecords(a[..|a| - 1], b[..|b| - 1]);
    }
  }

  // ---------------------------------------------------------------------------------------------
  // Action order
  // ---------------------------------------------------------------------------------------------

  /** The row of configuration `i`. */
  predicate RowFor(inputs: seq<Input>, configs: seq<TxConfig>, row: Row, i: nat)
    requires i < |inputs| && i < |configs|
  {
    && row.nullifiers == inputs[i].nullifiers && row.treeIn == inputs[i].tree
    && row.boundParamsHash == configs[i].boundParamsHash && row.hasUnshield == configs[i].hasUnshield
  }

  predicate TagFor(inputs: seq<Input>, configs: seq<TxConfig>, t: Tagged) {
    t.record < |inputs| && t.record < |configs| && RowFor(inputs, configs, t.row, t.record)
  }

  /** Rows tagged 0 to n-1 in any order end up each at its own tag. */
  lemma {:induction false} RenumberPlaces(tagged: seq<Tagged>, n: nat)
    requires multiset(TagRecords(tagged)) == multiset(Range(0, n))
    ensures var rows := Renumber(SortByRecord(tagged));
            && |rows| == n
            && forall k :: 0 <= k < |tagged| ==>
                 tagged[k].record < n && rows[tagged[k].record] == tagged[k].row.(index := tagged[k].record)
  {
    hide TagRecords, SortByRecord, Range;
    var sorted := SortByRecord(tagged);
    SortSorts(tagged);
    TagRecordsMultiset(sorted, tagged);
    TagRecordsAt(sorted);
    SortedRange(TagRecords(sorted), n);
    forall k | 0 <= k < |tagged|
      ensures tagged[k].record < n && Renumber(sorted)[tagged[k].record] == tagged[k].row.(index := tagged[k].record)
    {
      assert tagged[k] in multiset(sorted);
      var i :| 0 <= i < |sorted| && sorted[i] == tagged[k];
      assert TagRecords(sorted)[i] == i;
    }
  }

  lemma OrderRows(inputs: seq<Input>, configs: seq<TxConfig>, tagged: seq<Tagged>)
    requires |inputs| == |configs| && multiset(TagRecords(tagged)) == multiset(Range(0, |configs|))
    requires forall i :: 0 <= i < |tagged| ==> TagFor(inputs, configs, tagged[i])
    ensures var rows := Renumber(SortByRecord(tagged));
            && |rows| == |configs|
            && forall i :: 0 <= i < |configs| ==> rows[i].index == i && RowFor(inputs, configs, rows[i], i)
  {
    hide TagRecords, SortByRecord, Range;
    var sorted := SortByRecord(tagged);
    SortSorts(tagged);
    TagRecordsMultiset(sorted, tagged);
    TagRecordsAt(sorted);
    SortedRange(TagRecords(sorted), |configs|);
    forall i | 0 <= i < |sorted| ensures TagFor(inputs, configs, sorted[i]) {
      assert sorted[i] in multiset(tagged);
    }
  }

  lemma GroupsInActionOrder(c: Crypto, summary: Summary, logs: seq<Log>, groups: seq<Group>)
    requires Parse(c, logs).Ok? && SameIdentities(Flatten(Parse(c, logs).value), Flatten(groups))
    requires ActionRows(summary, groups).Ok?
    ensures var rows := ActionRows(summary, groups).value;
            && |rows| == |Configs(logs)| == |Inputs(logs)|
            && forall i :: 0 <= i < |rows| ==> rows[i].index == i && RowFor(Inputs(logs), Configs(logs), rows[i], i)
  {
    hide Parse, AllRows, Flatten, Inputs, Configs, Renumber, SortByRecord, RecordsOf, TagRecords, Owned, Preimages,
      Range;
    var parsed := Flatten(Parse(c, logs).value);
    ParseConserves(c, logs);
    AllRowsKeep(summary, groups);
    var tagged := AllRows(summary, groups).value;
    TagsAreRecords(tagged, Flatten(groups));
    SameRecords(parsed, Flatten(groups));
    forall i | 0 <= i < |tagged| ensures TagFor(Inputs(logs), Configs(logs), tagged[i]) {
      assert RowOk(c, Inputs(logs), Configs(logs), parsed[i]);
      assert SameIdentity(parsed[i], Flatten(groups)[i]) && RowOf(tagged[i], Flatten(groups)[i]);
    }
    OrderRows(Inputs(logs), Configs(logs), tagged);
  }

  /** The calls to match have the records of the parse. */
  lemma MatchedSame(c: Crypto, logs: seq<Log>, calldata: seq<CalldataTx>)
    requires MatchedGroups(c, logs, calldata).Ok?
    ensures SameIdentities(Flatten(Parse(c, logs).value), Flatten(MatchedGroups(c, logs, calldata).value))
  {
    hide Parse, ResolveUnshields, Flatten, SameIdentity;
    var groups := Parse(c, logs).value;
    SelfIdentical(Flatten(groups));
    if AnyUnshield(groups) {
      ResolvedSame(c, calldata, groups);
    }
  }

  /** Every row matched for a call is found at its record, unchanged but for its number. */
  lemma {:induction false} RowsAtRecords(c: Crypto, summary: Summary, logs: seq<Log>, calldata: seq<CalldataTx>)
    requires LogPath(c, summary, logs, calldata).Ok?
    ensures var rows := LogPath(c, summary, logs, calldata).value;
            var tagged := AllRows(summary, MatchedGroups(c, logs, calldata).value).value;
            forall k :: 0 <= k < |tagged| ==>
              tagged[k].record < |rows| && rows[tagged[k].record] == tagged[k].row.(index := tagged[k].record)
  {
    hide Parse, MatchedGroups, AllRows, Flatten, Inputs, Configs, Renumber, SortByRecord, RecordsOf, TagRecords, Owned,
      Preimages, Range;
    var groups := MatchedGroups(c, logs, calldata).value;
    MatchedParsed(c, logs, calldata);
    MatchedSame(c, logs, calldata);
    ParseConserves(c, logs);
    AllRowsKeep(summary, groups);
    TagsAreRecords(AllRows(summary, groups).value, Flatten(groups));
    SameRecords(Flatten(Parse(c, logs).value), Flatten(groups));
    RenumberPlaces(AllRows(summary, groups).value, |Configs(logs)|);
  }

  lemma MatchedParsed(c: Crypto, logs: seq<Log>, calldata: seq<CalldataTx>)
    requires MatchedGroups(c, logs, calldata).Ok?
    ensures Parse(c, logs).Ok?
  {
    hide Parse, ResolveUnshields;
  }

  /** Every successful rebuild numbers its rows in Action order. */
  lemma {:induction false} RowsInActionOrder(c: Crypto, summary: Summary, logs: seq<Log>, calldata: seq<CalldataTx>)
    requires LogPath(c, summary, logs, calldata).Ok?
    ensures var rows := LogPath(c, summary, logs, calldata).value;
            && |rows| == |Configs(logs)| == |Inputs(logs)|
            && forall i :: 0 <= i < |rows| ==> rows[i].index == i && RowFor(Inputs(logs), Configs(logs), rows[i], i)
  {
    hide Parse, ActionRows, MatchedGroups, Flatten, Inputs, Configs, SameIdentities;
    MatchedParsed(c, logs, calldata);
    MatchedSame(c, logs, calldata);
    GroupsInActionOrder(c, summary, logs, MatchedGroups(c, logs, calldata).value);
  }

  lemma SelfIdentical(rows: seq<Numbered>)
    ensures SameIdentities(rows, rows)
  {
  }

  // ---------------------------------------------------------------------------------------------
  // The Action branch as it runs
  // ---------------------------------------------------------------------------------------------

  lemma {:induction false} FlattenHolds(groups: seq<Group>, i: nat, j: nat)
    requires i < |groups| && j < |groups[i].rows|
    ensures groups[i].rows[j] in Flatten(groups)
  {
    if i < |groups| - 1 {
      FlattenHolds(groups[..|groups| - 1], i, j);
    }
  }

  predicate FromLogs(groups: seq<Group>) {
    forall i, j :: 0 <= i < |groups| && 0 <= j < |groups[i].rows| ==> groups[i].rows[j].tx.kind == ActionLogsCall
  }

  lemma ParsedFromLogs(c: Crypto, logs: seq<Log>, groups: seq<Group>)
    requires Parse(c, logs).Ok? && SameIdentities(Flatten(Parse(c, logs).value), Flatten(groups))
    ensures FromLogs(groups)
  {
    hide Parse, Flatten, Inputs, Configs, Owned, Preimages, RecordsOf, Range;
    ParseConserves(c, logs);
    var parsed := Flatten(Parse(c, logs).value);
    forall i, j | 0 <= i < |groups| && 0 <= j < |groups[i].rows|
      ensures groups[i].rows[j].tx.kind == ActionLogsCall
    {
      FlattenHolds(groups, i, j);
      var k :| 0 <= k < |Flatten(groups)| && Flatten(groups)[k] == groups[i].rows[j];
      assert RowOk(c, Inputs(logs), Configs(logs), parsed[k]) && SameIdentity(parsed[k], Flatten(groups)[k]);
    }
  }

  lemma {:induction false} AllRowsFails(summary: Summary, groups: seq<Group>, i: nat)
    requires i <= |groups| && AllRows(summary, groups[..i]).Err?
    ensures AllRows(summary, groups) == AllRows(summary, groups[..i])
    decreases |groups| - i
  {
    hide GroupRows;
    if i < |groups| {
      assert groups[..i + 1][..i] == groups[..i];
      AllRowsFails(summary, groups, i + 1);
    } else {
      assert groups[..i] == groups;
    }
  }

  method RowsOfGroups(summary: Summary, groups: seq<Group>) returns (r: Result<seq<Row>, PathError>)
    requires FromLogs(groups)
    ensures r == ActionRows(summary, groups)
  {
    hide PublicRows, OwnOutputs, SortByRecord;
    var rows: seq<Tagged> := [];
    for i := 0 to |groups|
      invariant AllRows(summary, groups[..i]) == Ok(rows)
    {
      assert groups[..i + 1][..i] == groups[..i];
      var own := summary.(outputs := OwnOutputs(summary.outputs, groups[i].transact));
      var matched := PublicTransactions(own, Transactions(groups[i].rows));
      if matched.Err? {
        AllRowsFails(summary, groups, i + 1);
        return Err(MatchFailed(matched.error));
      }
      rows := rows + Tag(matched.value, groups[i].rows);
    }
    assert groups[..|groups|] == groups;
    rows := SortByRecord(rows);
    return Ok(Renumber(rows));
  }

  method HydrateActionLogs(c: Crypto, summary: Summary, logs: seq<Log>, calldata: seq<CalldataTx>)
    returns (r: Result<seq<Row>, PathError>)
    ensures r == LogPath(c, summary, logs, calldata)
  {
    hide Parse, ActionRows, ResolveUnshields;
    var parsed := ParseLogs(c, logs);
    if parsed.Err? {
      return Err(ParseFailed(parsed.error));
    }
    var groups := parsed.value;
    SelfIdentical(Flatten(groups));
    if AnyUnshield(groups) {
      var resolved := ResolveUnshieldCommitments(c, calldata, groups);
      if resolved.Err? {
        return Err(resolved.error);
      }
      ResolvedSame(c, calldata, groups);
      groups := resolved.value.value;
    }
    ParsedFromLogs(c, logs, groups);
    r := RowsOfGroups(summary, groups);
  }

  lemma ResolvedSame(c: Crypto, calldata: seq<CalldataTx>, groups: seq<Group>)
    requires ResolveUnshields(c, calldata, groups).Ok?
    ensures SameIdentities(Flatten(groups), Flatten(ResolveUnshields(c, calldata, groups).value.value))
  {
    hide ResolveGroups, Flatten, SameIdentity;
    SelfIdentical(Flatten(groups));
    if calldata != [] {
      ResolveGroupsKeep(c, calldata, groups);
    }
  }
}
