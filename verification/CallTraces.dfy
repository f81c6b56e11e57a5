/** Collecting Railgun transactions from an execution trace: recursively from a call tree, and from a
    flat listing of the same frames where calls are known only by their path. */
module CallTraces {
  import opened Wrappers
  import opened ActionLogs

  /** What decoding the input of a frame gives: nothing when the frame does not target the Railgun
      contract or is not a known call. */
  datatype Outcome = Nothing | Found(txs: seq<Decoded>) | Undecodable

  datatype CallTree = CallTree(failed: bool, outcome: Outcome, calls: seq<CallTree>)

  datatype FlatFrame = FlatFrame(path: Option<seq<nat>>, failed: bool, outcome: Outcome)

  type Collected = Result<seq<Decoded>, ()>

  function Own(outcome: Outcome): Collected {
    match outcome
    case Nothing => Ok([])
    case Found(txs) => Ok(txs)
    case Undecodable => Err(())
  }

  function Join(a: Collected, b: Collected): Collected {
    match a
    case Err(error) => Err(error)
    case Ok(first) =>
      match b
      case Err(error) => Err(error)
      case Ok(second) => Ok(first + second)
  }

  lemma JoinAssociates(a: Collected, b: Collected, c: Collected)
    ensures Join(Join(a, b), c) == Join(a, Join(b, c))
    ensures Join(a, Ok([])) == a
    ensures Join(Ok([]), a) == a
  {
    if a.Ok? && b.Ok? && c.Ok? {
      assert (a.value + b.value) + c.value == a.value + (b.value + c.value);
    }
    if a.Ok? {
      assert a.value + [] == a.value && [] + a.value == a.value;
    }
  }

  // ---------------------------------------------------------------------------------------------
  // The recursive collector
  // ---------------------------------------------------------------------------------------------

  /** A reverted call contributes nothing, and neither do the calls it made. */
  function Collect(tree: CallTree): Collected {
    if tree.failed then Ok([]) else Join(Own(tree.outcome), CollectCalls(tree.calls))
  }

  function CollectCalls(calls: seq<CallTree>): Collected {
    if calls == [] then Ok([]) else Join(CollectCalls(calls[..|calls| - 1]), Collect(calls[|calls| - 1]))
  }

  // ---------------------------------------------------------------------------------------------
  // The flat collector
  // ---------------------------------------------------------------------------------------------

  function FailedPaths(frames: seq<FlatFrame>): set<seq<nat>> {
    set i | 0 <= i < |frames| && frames[i].failed && frames[i].path.Some? :: frames[i].path.value
  }

  predicate Skipped(failedPaths: set<seq<nat>>, frame: FlatFrame) {
    frame.failed || (frame.path.Some? && exists path :: path in failedPaths && path <= frame.path.value)
  }

  function CollectOne(failedPaths: set<seq<nat>>, frame: FlatFrame): Collected {
    if Skipped(failedPaths, frame) then Ok([]) else Own(frame.outcome)
  }

  function CollectFrames(failedPaths: set<seq<nat>>, frames: seq<FlatFrame>): Collected {
    if frames == [] then Ok([])
    else Join(CollectFrames(failedPaths, frames[..|frames| - 1]), CollectOne(failedPaths, frames[|frames| - 1]))
  }

  function CollectFlat(frames: seq<FlatFrame>): Collected {
    CollectFrames(FailedPaths(frames), frames)
  }

  method CollectTrace(frames: seq<FlatFrame>) returns (r: Collected)
    ensures r == CollectFlat(frames)
  {
    hide Own;
    var failedPaths: set<seq<nat>> := {};
    for i := 0 to |frames|
      invariant failedPaths == FailedPaths(frames[..i])
    {
      FailedPathsSnoc(frames, i);
      if frames[i].failed && frames[i].path.Some? {
        failedPaths := failedPaths + {frames[i].path.value};
      }
    }
    assert frames[..|frames|] == frames;
    var decoded: seq<Decoded> := [];
    for i := 0 to |frames|
      invariant CollectFrames(failedPaths, frames[..i]) == Ok(decoded)
    {
      assert frames[..i + 1][..i] == frames[..i];
      var own := CollectOne(failedPaths, frames[i]);
      if own.Err? {
        CollectFails(failedPaths, frames, i + 1);
        return own;
      }
      decoded := decoded + own.value;
    }
    return Ok(decoded);
  }

  lemma FailedPathsSnoc(frames: seq<FlatFrame>, i: nat)
    requires i < |frames|
    ensures FailedPaths(frames[..i + 1]) ==
            FailedPaths(frames[..i]) + (if frames[i].failed && frames[i].path.Some? then {frames[i].path.value} else {})
  {
    var longer, shorter := frames[..i + 1], frames[..i];
    forall p | p in FailedPaths(longer)
      ensures p in FailedPaths(shorter) || (frames[i].failed && frames[i].path == Some(p))
    {
      var k :| 0 <= k < |longer| && longer[k].failed && longer[k].path == Some(p);
      if k < i {
        assert shorter[k] == longer[k];
      }
    }
    forall p | p in FailedPaths(shorter) ensures p in FailedPaths(longer) {
      var k :| 0 <= k < |shorter| && shorter[k].failed && shorter[k].path == Some(p);
      assert longer[k] == shorter[k];
    }
    if frames[i].failed && frames[i].path.Some? {
      assert longer[i] == frames[i];
    }
  }

  lemma {:induction false} CollectFails(failedPaths: set<seq<nat>>, frames: seq<FlatFrame>, i: nat)
    requires i <= |frames| && CollectFrames(failedPaths, frames[..i]).Err?
    ensures CollectFrames(failedPaths, frames) == CollectFrames(failedPaths, frames[..i])
    decreases |frames| - i
  {
    hide CollectOne;
    if i < |frames| {
      assert frames[..i + 1][..i] == frames[..i];
      CollectFails(failedPaths, frames, i + 1);
    } else {
      assert frames[..i] == frames;
    }
  }

  // ---------------------------------------------------------------------------------------------
  // The flat listing of a call tree
  // ---------------------------------------------------------------------------------------------

  /** A call before the calls it made, each under its path. */
  function Listing(path: seq<nat>, tree: CallTree): seq<FlatFrame>
    decreases tree
  {
    [FlatFrame(Some(path), tree.failed, tree.outcome)] + ListingOfCalls(path, tree.calls)
  }

  function ListingOfCalls(path: seq<nat>, calls: seq<CallTree>): seq<FlatFrame>
    decreases calls
  {
    if calls == [] then []
    else ListingOfCalls(path, calls[..|calls| - 1]) + Listing(path + [|calls| - 1], calls[|calls| - 1])
  }

  /** Every frame of the listing has a path that extends `path`. */
  predicate Under(path: seq<nat>, frames: seq<FlatFrame>) {
    forall i :: 0 <= i < |frames| ==> frames[i].path.Some? && path <= frames[i].path.value
  }

  lemma {:induction false} ListingUnder(path: seq<nat>, tree: CallTree)
    ensures Under(path, Listing(path, tree))
    decreases tree
  {
    ListingOfCallsUnder(path, tree.calls);
  }

  lemma {:induction false} ListingOfCallsUnder(path: seq<nat>, calls: seq<CallTree>)
    ensures Under(path, ListingOfCalls(path, calls))
    ensures forall i :: 0 <= i < |ListingOfCalls(path, calls)| ==>
              |ListingOfCalls(path, calls)[i].path.value| > |path|
                && ListingOfCalls(path, calls)[i].path.value[|path|] < |calls|
    decreases calls
  {
    if calls != [] {
      var n := |calls| - 1;
      ListingOfCallsUnder(path, calls[..n]);
      ListingUnder(path + [n], calls[n]);
      var before, last := ListingOfCalls(path, calls[..n]), Listing(path + [n], calls[n]);
      forall i | 0 <= i < |last|
        ensures path <= last[i].path.value && |last[i].path.value| > |path| && last[i].path.value[|path|] == n
      {
        assert (path + [n])[|path|] == n;
      }
    }
  }

  // ---------------------------------------------------------------------------------------------
  // Agreement
  // ---------------------------------------------------------------------------------------------

  /** At and below `path` the failed paths are those of the listing, and nothing above failed. */
  ghost predicate Local(failedPaths: set<seq<nat>>, path: seq<nat>, frames: seq<FlatFrame>) {
    && (forall q :: q in failedPaths && q <= path ==> q == path)
    && (forall q :: path <= q ==> (q in failedPaths <==> q in FailedPaths(frames)))
  }

  lemma {:induction false} CollectConcat(failedPaths: set<seq<nat>>, a: seq<FlatFrame>, b: seq<FlatFrame>)
    ensures CollectFrames(failedPaths, a + b) == Join(CollectFrames(failedPaths, a), CollectFrames(failedPaths, b))
    decreases |b|
  {
    hide CollectOne, Join;
    if b == [] {
      assert a + b == a;
      JoinAssociates(CollectFrames(failedPaths, a), Ok([]), Ok([]));
    } else {
      var init, last := b[..|b| - 1], b[|b| - 1];
      assert (a + b)[..|a + b| - 1] == a + init;
      CollectConcat(failedPaths, a, init);
      JoinAssociates(CollectFrames(failedPaths, a), CollectFrames(failedPaths, init), CollectOne(failedPaths, last));
    }
  }

  /** Below a failed call nothing is collected. */
  lemma {:induction false} CollectBelowFailed(failedPaths: set<seq<nat>>, path: seq<nat>, frames: seq<FlatFrame>)
    requires path in failedPaths && Under(path, frames)
    ensures CollectFrames(failedPaths, frames) == Ok([])
  {
    if frames != [] {
      CollectBelowFailed(failedPaths, path, frames[..|frames| - 1]);
      assert Skipped(failedPaths, frames[|frames| - 1]);
      JoinAssociates(Ok([]), Ok([]), Ok([]));
    }
  }

  lemma RootPathFailed(path: seq<nat>, tree: CallTree)
    ensures path in FailedPaths(Listing(path, tree)) <==> tree.failed
  {
    var frames := Listing(path, tree);
    ListingOfCallsUnder(path, tree.calls);
    if tree.failed {
      assert frames[0].failed && frames[0].path == Some(path);
    }
    forall i | 0 < i < |frames| ensures frames[i].path != Some(path) {
      assert frames[i] == ListingOfCalls(path, tree.calls)[i - 1];
    }
  }

  /** The failed paths below call `n` are those of its own listing. */
  lemma {:induction false} FailedBelowCall(path: seq<nat>, calls: seq<CallTree>, n: nat, q: seq<nat>)
    requires n < |calls| && path + [n] <= q
    ensures q in FailedPaths(ListingOfCalls(path, calls)) <==> q in FailedPaths(Listing(path + [n], calls[n]))
    decreases |calls|
  {
    hide Listing;
    var m := |calls| - 1;
    var init := calls[..m];
    var before, last := ListingOfCalls(path, init), Listing(path + [m], calls[m]);
    FailedConcat(before, last);
    ListingOfCallsUnder(path, init);
    ListingUnder(path + [m], calls[m]);
    assert q[|path|] == (path + [n])[|path|] == n;
    if n < m {
      FailedBelowCall(path, init, n, q);
      forall p | p in FailedPaths(last) ensures p != q {
        assert p[|path|] == (path + [m])[|path|] == m;
      }
    }
  }

  lemma FailedConcat(a: seq<FlatFrame>, b: seq<FlatFrame>)
    ensures FailedPaths(a + b) == FailedPaths(a) + FailedPaths(b)
  {
    forall p | p in FailedPaths(a + b) ensures p in FailedPaths(a) + FailedPaths(b) {
      var k :| 0 <= k < |a + b| && (a + b)[k].failed && (a + b)[k].path == Some(p);
      if k >= |a| {
        assert b[k - |a|] == (a + b)[k];
      }
    }
    forall p | p in FailedPaths(a) ensures p in FailedPaths(a + b) {
      var k :| 0 <= k < |a| && a[k].failed && a[k].path == Some(p);
      assert (a + b)[k] == a[k];
    }
    forall p | p in FailedPaths(b) ensures p in FailedPaths(a + b) {
      var k :| 0 <= k < |b| && b[k].failed && b[k].path == Some(p);
      assert (a + b)[|a| + k] == b[k];
    }
  }

  /** Nothing at or above a call that did not fail itself can be a failed path. */
  lemma ListedAt(failedPaths: set<seq<nat>>, path: seq<nat>, tree: CallTree)
    requires Local(failedPaths, path, Listing(path, tree)) && !tree.failed
    ensures forall q :: q in failedPaths ==> !(q <= path)
  {
    RootPathFailed(path, tree);
  }

  lemma LocalToCall(failedPaths: set<seq<nat>>, path: seq<nat>, tree: CallTree, n: nat)
    requires Local(failedPaths, path, Listing(path, tree)) && !tree.failed && n < |tree.calls|
    ensures Local(failedPaths, path + [n], Listing(path + [n], tree.calls[n]))
  {
    var child := path + [n];
    ListedAt(failedPaths, path, tree);
    forall q | q in failedPaths && q <= child ensures q == child {
      assert path == child[..|path|];
      assert |q| <= |path| ==> q <= path;
    }
    forall q | child <= q ensures q in failedPaths <==> q in FailedPaths(Listing(child, tree.calls[n])) {
      assert path <= q by { assert path == child[..|path|]; }
      FailedBelowCall(path, tree.calls, n, q);
      FailedConcat([FlatFrame(Some(path), tree.failed, tree.outcome)], ListingOfCalls(path, tree.calls));
      assert FailedPaths([FlatFrame(Some(path), false, tree.outcome)]) == {};
    }
  }

  lemma {:induction false} ListingCollects(failedPaths: set<seq<nat>>, path: seq<nat>, tree: CallTree)
    requires Local(failedPaths, path, Listing(path, tree))
    ensures CollectFrames(failedPaths, Listing(path, tree)) == Collect(tree)
    decreases tree
  {
    if tree.failed {
      RootPathFailed(path, tree);
      ListingUnder(path, tree);
      CollectBelowFailed(failedPaths, path, Listing(path, tree));
    } else {
      var root := FlatFrame(Some(path), tree.failed, tree.outcome);
      ListedAt(failedPaths, path, tree);
      CollectConcat(failedPaths, [root], ListingOfCalls(path, tree.calls));
      CollectSingle(failedPaths, root);
      forall n | 0 <= n < |tree.calls| ensures Local(failedPaths, path + [n], Listing(path + [n], tree.calls[n])) {
        LocalToCall(failedPaths, path, tree, n);
      }
      ListingOfCallsCollects(failedPaths, path, tree.calls);
    }
  }

  lemma CollectSingle(failedPaths: set<seq<nat>>, frame: FlatFrame)
    ensures CollectFrames(failedPaths, [frame]) == CollectOne(failedPaths, frame)
  {
    assert [frame][..0] == [];
    JoinAssociates(CollectOne(failedPaths, frame), Ok([]), Ok([]));
  }

  lemma {:induction false} ListingOfCallsCollects(failedPaths: set<seq<nat>>, path: seq<nat>, calls: seq<CallTree>)
    requires forall n :: 0 <= n < |calls| ==> Local(failedPaths, path + [n], Listing(path + [n], calls[n]))
    ensures CollectFrames(failedPaths, ListingOfCalls(path, calls)) == CollectCalls(calls)
    decreases calls
  {
    hide Local, Join, CollectOne, Listing, Collect;
    if calls != [] {
      var n := |calls| - 1;
      ListingOfCallsCollects(failedPaths, path, calls[..n]);
      ListingCollects(failedPaths, path + [n], calls[n]);
      CollectConcat(failedPaths, ListingOfCalls(path, calls[..n]), Listing(path + [n], calls[n]));
    }
  }

  /** The flat collector on the listing of a call tree finds the same transactions in the same order as the
      recursive collector on the tree, and fails exactly when that one does. */
  lemma FlatAgreesWithRecursive(tree: CallTree)
    ensures CollectFlat(Listing([], tree)) == Collect(tree)
  {
    ListingCollects(FailedPaths(Listing([], tree)), [], tree);
  }

  // ---------------------------------------------------------------------------------------------
  // Order of the frames
  // ---------------------------------------------------------------------------------------------

  lemma SamePaths(a: seq<FlatFrame>, b: seq<FlatFrame>)
    requires multiset(a) == multiset(b)
    ensures FailedPaths(a) == FailedPaths(b)
  {
    FailedPathsSubset(a, b);
    FailedPathsSubset(b, a);
  }

  lemma FailedPathsSubset(a: seq<FlatFrame>, b: seq<FlatFrame>)
    requires multiset(a) == multiset(b)
    ensures FailedPaths(a) <= FailedPaths(b)
  {
    forall p | p in FailedPaths(a) ensures p in FailedPaths(b) {
      var k :| 0 <= k < |a| && a[k].failed && a[k].path == Some(p);
      assert a[k] in multiset(a);
      assert a[k] in multiset(b);
      assert a[k] in b;
    }
  }

  /** Taking any one frame out first changes neither success nor the multiset of transactions found. */
  lemma {:induction false} CollectWithout(failedPaths: set<seq<nat>>, frames: seq<FlatFrame>, k: nat)
    requires k < |frames|
    ensures var rest := CollectFrames(failedPaths, frames[..k] + frames[k + 1..]);
            var own := CollectOne(failedPaths, frames[k]);
            var all := CollectFrames(failedPaths, frames);
            && (all.Ok? <==> rest.Ok? && own.Ok?)
            && (all.Ok? ==> multiset(all.value) == multiset(rest.value) + multiset(own.value))
  {
    hide CollectOne, CollectFrames;
    var before, frame, after := frames[..k], frames[k], frames[k + 1..];
    assert frames == (before + [frame]) + after;
    CollectConcat(failedPaths, before + [frame], after);
    CollectConcat(failedPaths, before, [frame]);
    CollectConcat(failedPaths, before, after);
    CollectSingle(failedPaths, frame);
  }

  lemma {:induction false} ReorderedFrames(failedPaths: set<seq<nat>>, a: seq<FlatFrame>, b: seq<FlatFrame>)
    requires multiset(a) == multiset(b)
    ensures CollectFrames(failedPaths, a).Ok? <==> CollectFrames(failedPaths, b).Ok?
    ensures CollectFrames(failedPaths, a).Ok? ==>
              multiset(CollectFrames(failedPaths, a).value) == multiset(CollectFrames(failedPaths, b).value)
    decreases |a|
  {
    hide CollectOne;
    if a == [] {
      assert |b| == |multiset(b)| == 0;
    } else {
      hide CollectFrames;
      assert a[0] in multiset(b);
      var k :| 0 <= k < |b| && b[k] == a[0];
      var restA, restB := a[..0] + a[1..], b[..k] + b[k + 1..];
      assert a == [a[0]] + restA;
      assert b == b[..k] + [b[k]] + b[k + 1..];
      assert multiset(restA) == multiset(a) - multiset{a[0]} == multiset(restB);
      ReorderedFrames(failedPaths, restA, restB);
      CollectWithout(failedPaths, a, 0);
      CollectWithout(failedPaths, b, k);
    }
  }

  /** A provider that lists the frames in another order yields a collection that succeeds equally and holds
      the same transactions equally often. */
  lemma OrderIrrelevant(a: seq<FlatFrame>, b: seq<FlatFrame>)
    requires multiset(a) == multiset(b)
    ensures CollectFlat(a).Ok? <==> CollectFlat(b).Ok?
    ensures CollectFlat(a).Ok? ==> multiset(CollectFlat(a).value) == multiset(CollectFlat(b).value)
  {
    SamePaths(a, b);
    ReorderedFrames(FailedPaths(a), a, b);
  }
}
