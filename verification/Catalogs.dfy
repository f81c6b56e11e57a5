/** The loops that cut the stored rows into catalog chunks. */
module Catalogs {
  import opened Wrappers

  const TREE_LEAVES: nat := 65536

  /** Positions in the order the store returns them. */
  ghost predicate Rising(rows: seq<nat>) {
    forall i, j :: 0 <= i < j < |rows| ==> rows[i] < rows[j]
  }

  /** The rows at the positions [from, to). */
  function Range(rows: seq<nat>, from: nat, to: nat): seq<nat> {
    if rows == [] then []
    else
      var rest, row := Range(rows[..|rows| - 1], from, to), rows[|rows| - 1];
      if from <= row < to then rest + [row] else rest
  }

  function Concat(chunks: seq<seq<nat>>): seq<nat> {
    if chunks == [] then [] else Concat(chunks[..|chunks| - 1]) + chunks[|chunks| - 1]
  }

  /** What the chunk planner may return: the items in order, cut into nonempty groups. */
  ghost predicate Groups(groups: seq<seq<nat>>, rows: seq<nat>) {
    Concat(groups) == rows && forall i :: 0 <= i < |groups| ==> groups[i] != []
  }

  ghost predicate Plans(plan: seq<nat> -> seq<seq<nat>>) {
    forall rows :: Groups(plan(rows), rows)
  }

  // ---------------------------------------------------------------------------------------------
  // Ranges of rising rows
  // ---------------------------------------------------------------------------------------------

  lemma {:induction false} RangeMembers(rows: seq<nat>, from: nat, to: nat)
    requires Rising(rows)
    ensures Rising(Range(rows, from, to))
    ensures forall row :: row in Range(rows, from, to) <==> row in rows && from <= row < to
  {
    if rows != [] {
      var rest, row := Range(rows[..|rows| - 1], from, to), rows[|rows| - 1];
      RangeMembers(rows[..|rows| - 1], from, to);
      assert rows == rows[..|rows| - 1] + [row];
      forall i | 0 <= i < |rest| ensures rest[i] < row {
        assert rest[i] in rest;
      }
    }
  }

  /** The elements of a rising list but its last are those below the last. */
  lemma RisingInit(rows: seq<nat>, row: nat)
    requires Rising(rows) && rows != []
    ensures row in rows[..|rows| - 1] <==> row in rows && row < rows[|rows| - 1]
    ensures row in rows ==> row <= rows[|rows| - 1]
  {
    var n := |rows| - 1;
    assert rows == rows[..n] + [rows[n]];
    if row in rows[..n] {
      var k :| 0 <= k < n && rows[..n][k] == row;
      assert rows[k] < rows[n];
    }
  }

  lemma {:induction false} RisingUnique(a: seq<nat>, b: seq<nat>)
    requires Rising(a) && Rising(b) && forall row :: row in a <==> row in b
    ensures a == b
    decreases |a|
  {
    assert b != [] ==> b[0] in b;
    assert a != [] ==> a[0] in a;
    if a != [] && b != [] {
      var x, y := a[|a| - 1], b[|b| - 1];
      var shortA, shortB := a[..|a| - 1], b[..|b| - 1];
      assert Rising(shortA) && Rising(shortB);
      hide Rising;
      assert x in a && y in b;
      RisingInit(a, y);
      RisingInit(b, x);
      forall row ensures row in shortA <==> row in shortB {
        RisingInit(a, row);
        RisingInit(b, row);
      }
      RisingUnique(shortA, shortB);
      assert a == shortA + [x] && b == shortB + [y];
    }
  }

  lemma RangeSplits(rows: seq<nat>, from: nat, middle: nat, to: nat)
    requires Rising(rows) && from <= middle <= to
    ensures Range(rows, from, to) == Range(rows, from, middle) + Range(rows, middle, to)
  {
    RangeMembers(rows, from, to);
    RangeMembers(rows, from, middle);
    RangeMembers(rows, middle, to);
    var joined := Range(rows, from, middle) + Range(rows, middle, to);
    assert Rising(joined) by {
      forall i, j | 0 <= i < j < |joined| ensures joined[i] < joined[j] {
        assert i < |Range(rows, from, middle)| <= j
               ==> joined[i] in Range(rows, from, middle) && joined[j] in Range(rows, middle, to);
      }
    }
    RisingUnique(Range(rows, from, to), joined);
  }

  /** A rising list holds its slice between two of its elements and nothing else there. */
  lemma SliceMembers(window: seq<nat>, first: nat, last: nat, row: nat)
    requires Rising(window) && first <= last < |window|
    ensures row in window[first..last + 1] <==> row in window && window[first] <= row <= window[last]
  {
    var slice := window[first..last + 1];
    if row in slice {
      var k :| 0 <= k < |slice| && slice[k] == row;
      assert window[first + k] == row;
    }
    if row in window && window[first] <= row <= window[last] {
      var k :| 0 <= k < |window| && window[k] == row;
      assert first <= k <= last;
      assert slice[k - first] == row;
    }
  }

  /** Reading the rows between the first and the last of a group again gives the group. */
  lemma GroupReread(rows: seq<nat>, from: nat, to: nat, before: seq<nat>, group: seq<nat>, after: seq<nat>)
    requires Rising(rows) && Range(rows, from, to) == before + group + after && group != []
    ensures Rising(group) && Range(rows, group[0], group[|group| - 1] + 1) == group
  {
    hide Range;
    RangeMembers(rows, from, to);
    var window := Range(rows, from, to);
    var first, last := |before|, |before| + |group| - 1;
    assert group == window[first..last + 1];
    assert window[first] in window && window[last] in window;
    var again := Range(rows, group[0], group[|group| - 1] + 1);
    RangeMembers(rows, group[0], group[|group| - 1] + 1);
    forall row ensures row in again <==> row in group {
      SliceMembers(window, first, last, row);
    }
    RisingUnique(again, group);
  }

  lemma {:induction false} ConcatSplit(groups: seq<seq<nat>>, k: nat)
    requires k <= |groups|
    ensures Concat(groups) == Concat(groups[..k]) + Concat(groups[k..])
    decreases |groups|
  {
    if k == |groups| {
      assert groups[..k] == groups && groups[k..] == [];
    } else {
      var n := |groups| - 1;
      ConcatSplit(groups[..n], k);
      assert groups[..n][..k] == groups[..k];
      assert groups[k..][..n - k] == groups[..n][k..];
    }
  }

  // ---------------------------------------------------------------------------------------------
  // Commitments
  // ---------------------------------------------------------------------------------------------

  /** Every stored row up to the highest position, gaps or not, lands in exactly one chunk, in order. */
  method CommitmentCatalog(stored: seq<nat>, maxPosition: nat, limit: nat, plan: seq<nat> -> seq<seq<nat>>)
    returns (chunks: seq<seq<nat>>)
    requires Rising(stored) && Plans(plan)
    ensures Concat(chunks) == Range(stored, 0, maxPosition + 1)
    ensures forall i :: 0 <= i < |chunks| ==> chunks[i] != []
  {
    hide Range, Concat, Rising, Plans;
    chunks := [];
    var start := 0;
    NothingYet(stored);
    while start <= maxPosition
      invariant start <= maxPosition + 1
      invariant Concat(chunks) == Range(stored, 0, start)
      invariant forall i :: 0 <= i < |chunks| ==> chunks[i] != []
      decreases maxPosition + 1 - start
    {
      var end := Min(start + (if limit == 0 then 0 else limit - 1), maxPosition);
      var rows := Range(stored, start, end + 1);
      if rows == [] {
        RangeSplits(stored, 0, start, end + 1);
        assert Range(stored, 0, start) + [] == Range(stored, 0, start);
        start := end + 1;
      } else {
        var groups := plan(rows);
        assert Groups(groups, rows) by { Planned(plan, rows); }
        var published, next := PublishGroups(stored, start, end + 1, groups);
        WindowDone(stored, start, end + 1, next);
        ConcatJoin(chunks, published);
        chunks, start := chunks + published, next;
      }
    }
  }

  lemma NothingYet(stored: seq<nat>)
    requires Rising(stored)
    ensures Range(stored, 0, 0) == [] && Concat([]) == []
  {
    RangeMembers(stored, 0, 0);
    RisingUnique(Range(stored, 0, 0), []);
  }

  lemma Planned(plan: seq<nat> -> seq<seq<nat>>, rows: seq<nat>)
    requires Plans(plan)
    ensures Groups(plan(rows), rows)
  {
  }

  /** Reads each planned group again and publishes it. */
  method PublishGroups(stored: seq<nat>, from: nat, to: nat, groups: seq<seq<nat>>)
      returns (chunks: seq<seq<nat>>, next: nat)
    requires Rising(stored) && Range(stored, from, to) != [] && Groups(groups, Range(stored, from, to))
    ensures chunks == groups
    ensures next == Range(stored, from, to)[|Range(stored, from, to)| - 1] + 1
  {
    hide Range, Rising, Concat;
    var window := Range(stored, from, to);
    chunks, next := [], from;
    for i := 0 to |groups|
      invariant chunks == groups[..i]
      invariant i > 0 ==> next == groups[i - 1][|groups[i - 1]| - 1] + 1
    {
      var group := groups[i];
      ConcatSplit(groups, i);
      ConcatSplit(groups[i..], 1);
      ConcatOne(groups[i..][..1]);
      assert window == Concat(groups[..i]) + group + Concat(groups[i..][1..]);
      GroupReread(stored, from, to, Concat(groups[..i]), group, Concat(groups[i..][1..]));
      var rows := Range(stored, group[0], group[|group| - 1] + 1);
      chunks, next := chunks + [rows], rows[|rows| - 1] + 1;
    }
    LastOfFlatten(groups);
  }

  lemma ConcatOne(groups: seq<seq<nat>>)
    requires |groups| == 1
    ensures Concat(groups) == groups[0]
  {
    assert groups[..0] == [];
    assert Concat(groups) == Concat([]) + groups[0];
  }

  /** The last item of the last group is the last item. */
  lemma LastOfFlatten(groups: seq<seq<nat>>)
    requires Concat(groups) != [] && forall i :: 0 <= i < |groups| ==> groups[i] != []
    ensures |groups| > 0
    ensures var group := groups[|groups| - 1]; Concat(groups)[|Concat(groups)| - 1] == group[|group| - 1]
  {
  }

  lemma {:induction false} ConcatJoin(a: seq<seq<nat>>, b: seq<seq<nat>>)
    ensures Concat(a + b) == Concat(a) + Concat(b)
    decreases |b|
  {
    ConcatSplit(a + b, |a|);
    assert (a + b)[..|a|] == a && (a + b)[|a|..] == b;
  }

  /** Behind the last row of a window there is none up to its end. */
  lemma WindowDone(stored: seq<nat>, from: nat, to: nat, next: nat)
    requires Rising(stored) && from <= to && Range(stored, from, to) != []
    requires next == Range(stored, from, to)[|Range(stored, from, to)| - 1] + 1
    ensures from < next <= to && Range(stored, 0, next) == Range(stored, 0, from) + Range(stored, from, to)
  {
    var window := Range(stored, from, to);
    RangeMembers(stored, from, to);
    assert window[|window| - 1] in window;
    RangeSplits(stored, 0, from, next);
    RangeMembers(stored, from, next);
    forall row ensures row in Range(stored, from, next) <==> row in window {
      if row in window {
        var k :| 0 <= k < |window| && window[k] == row;
        assert row <= window[|window| - 1];
      }
    }
    RisingUnique(Range(stored, from, next), window);
  }

  // ---------------------------------------------------------------------------------------------
  // Public transactions
  // ---------------------------------------------------------------------------------------------

  /** The indexes [from, to). */
  function Indexes(from: nat, to: nat): (r: seq<nat>)
    requires from <= to
    ensures |r| == to - from && forall i :: 0 <= i < |r| ==> r[i] == from + i
  {
    seq(to - from, i => from + i)
  }

  function RowLimit(offset: nat, configured: nat): nat {
    Min(configured, TREE_LEAVES - offset % TREE_LEAVES)
  }

  /** One page of the rows, which the store numbers from zero. */
  function Page(count: nat, offset: nat, limit: nat): seq<nat> {
    Indexes(Min(offset, count), Min(offset + limit, count))
  }

  predicate OneTree(chunk: seq<nat>) {
    chunk != [] && chunk[0] / TREE_LEAVES == chunk[|chunk| - 1] / TREE_LEAVES
  }

  lemma {:induction false} LimitStaysInTree(offset: nat, configured: nat, index: nat)
    requires offset <= index < offset + RowLimit(offset, configured)
    ensures index / TREE_LEAVES == offset / TREE_LEAVES
  {
  }

  /** Every public transaction row lands in exactly one chunk, in order, and no chunk crosses a tree boundary. */
  method TxidCatalog(count: nat, configured: nat, plan: seq<nat> -> seq<seq<nat>>) returns (chunks: seq<seq<nat>>)
    requires configured > 0 && Plans(plan)
    ensures Concat(chunks) == Indexes(0, count)
    ensures forall i :: 0 <= i < |chunks| ==> OneTree(chunks[i])
  {
    chunks := [];
    var offset := 0;
    while true
      invariant offset <= count
      invariant Concat(chunks) == Indexes(0, offset)
      invariant forall i :: 0 <= i < |chunks| ==> OneTree(chunks[i])
      decreases count - offset
    {
      hide Concat, OneTree;
      var limit := RowLimit(offset, configured);
      var rows := Page(count, offset, limit);
      if rows == [] {
        break;
      }
      var groups := plan(rows);
      assert Groups(groups, rows);
      var published, next := PublishTxidGroups(count, offset, limit, configured, groups);
      ConcatJoin(chunks, published);
      assert Indexes(0, offset) + rows == Indexes(0, next);
      chunks, offset := chunks + published, next;
      if |rows| < limit {
        break;
      }
    }
  }

  method PublishTxidGroups(count: nat, offset: nat, limit: nat, configured: nat, groups: seq<seq<nat>>)
    returns (chunks: seq<seq<nat>>, next: nat)
    requires offset < count && limit == RowLimit(offset, configured) && limit > 0
             && Groups(groups, Page(count, offset, limit))
    ensures chunks == groups && next == Min(offset + limit, count)
    ensures forall i :: 0 <= i < |chunks| ==> OneTree(chunks[i])
  {
    hide Concat, RowLimit;
    var window := Page(count, offset, limit);
    chunks, next := [], offset;
    for i := 0 to |groups|
      invariant chunks == groups[..i]
      invariant forall k :: 0 <= k < i ==> OneTree(chunks[k])
      invariant i > 0 ==> next == groups[i - 1][|groups[i - 1]| - 1] + 1
    {
      var group := groups[i];
      ConcatSplit(groups, i);
      ConcatSplit(groups[i..], 1);
      ConcatOne(groups[i..][..1]);
      var before := Concat(groups[..i]);
      assert window == before + group + Concat(groups[i..][1..]);
      var rows := Page(count, group[0], |group|);
      SamePage(count, offset, limit, before, group, Concat(groups[i..][1..]));
      LimitStaysInTree(offset, configured, group[0]);
      LimitStaysInTree(offset, configured, group[|group| - 1]);
      chunks, next := chunks + [rows], rows[|rows| - 1] + 1;
    }
    LastOfFlatten(groups);
  }

  /** Reading a planned group again by its first index and length gives the group, inside the page. */
  lemma SamePage(count: nat, offset: nat, limit: nat, before: seq<nat>, group: seq<nat>, after: seq<nat>)
    requires offset < count && Page(count, offset, limit) == before + group + after && group != []
    ensures Page(count, group[0], |group|) == group
    ensures offset <= group[0] < offset + limit && offset <= group[|group| - 1] < offset + limit
  {
    var window := Page(count, offset, limit);
    assert forall i :: 0 <= i < |group| ==> group[i] == window[|before| + i] == offset + |before| + i;
  }
}
