/** What the WatchfulGuerilla accumulators hold once a list of nodes has
    been aggregated from empty, stated against the nodes themselves. */
module GuerillaAggregate {
  import opened Text
  import opened Tables
  import opened Sums
  import opened GuerillaNode

  /** Block time less overhead of `m` when it belongs to category `c`. */
  function BlockIn(c: string): Node -> real
  {
    (m: Node) => if m.category == c then m.totalTime - m.overheadTime else 0.0
  }

  function PureIn(c: string): Node -> real
  {
    (m: Node) => if m.category == c then PureTime(m) else 0.0
  }

  function OverheadIn(c: string): Node -> real
  {
    (m: Node) => if m.category == c then m.overheadTime else 0.0
  }

  predicate CategorySeen(ns: seq<Node>, c: string)
  {
    exists i :: 0 <= i < |ns| && ns[i].category == c
  }

  lemma SeenSnoc(ns: seq<Node>, m: Node, c: string)
    ensures CategorySeen(ns + [m], c) <==> CategorySeen(ns, c) || m.category == c
  {
    assert (ns + [m])[|ns|] == m;
    assert forall i :: 0 <= i < |ns| ==> (ns + [m])[i] == ns[i];
  }

  lemma {:induction false} UnseenSumsZero(ns: seq<Node>, c: string)
    requires !CategorySeen(ns, c)
    ensures SumOf(ns, BlockIn(c)) == 0.0 && SumOf(ns, PureIn(c)) == 0.0 && SumOf(ns, OverheadIn(c)) == 0.0
    decreases |ns|
  {
    if |ns| > 0 {
      assert ns[0].category != c;
      assert !CategorySeen(ns[1..], c) by {
        assert forall i :: 0 <= i < |ns[1..]| ==> ns[1..][i] == ns[i + 1];
      }
      UnseenSumsZero(ns[1..], c);
    }
  }

  /** The entry the aggregation of `ns` should leave for category `c`. */
  function Expected(ns: seq<Node>, c: string): Option<Times>
  {
    if CategorySeen(ns, c)
    then Some(Times(SumOf(ns, BlockIn(c)), SumOf(ns, PureIn(c)), SumOf(ns, OverheadIn(c))))
    else None
  }

  lemma ExpectedBump(init: seq<Node>, m: Node, c: string)
    requires m.category == c
    ensures Expected(init + [m], c) == Some(Plus(Expected(init, c).GetOr(NoTimes), Contribution(m)))
  {
    SumSnoc(init, m, BlockIn(c));
    SumSnoc(init, m, PureIn(c));
    SumSnoc(init, m, OverheadIn(c));
    SeenSnoc(init, m, c);
    if !CategorySeen(init, c) {
      UnseenSumsZero(init, c);
    }
  }

  lemma ExpectedOther(init: seq<Node>, m: Node, c: string)
    requires m.category != c
    ensures Expected(init + [m], c) == Expected(init, c)
  {
    SumSnoc(init, m, BlockIn(c));
    SumSnoc(init, m, PureIn(c));
    SumSnoc(init, m, OverheadIn(c));
    SeenSnoc(init, m, c);
  }

  /** The entry of `@category_times` for category `c` after aggregating
      `ns`: absent when no node has that category; otherwise the sums, over
      those nodes, of block time less overhead, of pure time and of
      overhead. */
  lemma {:induction false} CategoryAggregate(ns: seq<Node>, threshold: real, c: string)
    ensures Get(FoldNodes(Empty, ns, threshold).categoryTimes, c)
         == if CategorySeen(ns, c)
            then Some(Times(SumOf(ns, BlockIn(c)), SumOf(ns, PureIn(c)), SumOf(ns, OverheadIn(c))))
            else None
    decreases |ns|
  {
    if |ns| > 0 {
      var init := ns[..|ns| - 1];
      var m := ns[|ns| - 1];
      assert ns == init + [m];
      FoldLast(Empty, ns, threshold);
      CategoryAggregate(init, threshold, c);
      IncrementEntry(FoldNodes(Empty, init, threshold), m, threshold, c);
      if m.category == c {
        ExpectedBump(init, m, c);
      } else {
        ExpectedOther(init, m, c);
      }
    }
  }

  /** The nodes whose pure time is strictly above the threshold, in order. */
  function Slow(ns: seq<Node>, threshold: real): seq<Node>
  {
    if |ns| == 0 then []
    else (if PureTime(ns[0]) > threshold then [ns[0]] else []) + Slow(ns[1..], threshold)
  }

  /** A node is among the slow ones exactly when it is in the list and its
      pure time is strictly above the threshold. */
  lemma {:induction false} SlowMembers(ns: seq<Node>, threshold: real, m: Node)
    ensures m in Slow(ns, threshold) <==> m in ns && PureTime(m) > threshold
    decreases |ns|
  {
    if |ns| > 0 {
      SlowMembers(ns[1..], threshold, m);
      assert ns == [ns[0]] + ns[1..];
    }
  }

  lemma SlowSnoc(ns: seq<Node>, m: Node, threshold: real)
    ensures Slow(ns + [m], threshold) == Slow(ns, threshold) + (if PureTime(m) > threshold then [m] else [])
  {
    if |ns| > 0 {
      assert (ns + [m])[1..] == ns[1..] + [m];
      SlowSnoc(ns[1..], m, threshold);
    } else {
      assert ns + [m] == [m];
    }
  }

  function AsLongCall(m: Node): LongCall
  {
    LongCall(Identifier(m.category, m.identifiers), PureTime(m))
  }

  /** `[identifier, pure_time]` for each node, in order. */
  function AsLongCalls(ms: seq<Node>): (r: seq<LongCall>)
    ensures |r| == |ms|
    ensures forall i :: 0 <= i < |ms| ==> r[i] == AsLongCall(ms[i])
  {
    if |ms| == 0 then [] else [AsLongCall(ms[0])] + AsLongCalls(ms[1..])
  }

  lemma AsLongCallsConcat(a: seq<Node>, b: seq<Node>)
    ensures AsLongCalls(a + b) == AsLongCalls(a) + AsLongCalls(b)
  {
  }

  /** `@long_calls` after aggregating `ns`: `[identifier, pure_time]` for
      exactly the nodes whose pure time is strictly above the threshold, in
      the order they were aggregated. */
  lemma {:induction false} LongCallsAggregate(ns: seq<Node>, threshold: real)
    ensures FoldNodes(Empty, ns, threshold).longCalls == AsLongCalls(Slow(ns, threshold))
    decreases |ns|
  {
    if |ns| > 0 {
      var init := ns[..|ns| - 1];
      var m := ns[|ns| - 1];
      assert ns == init + [m];
      FoldLast(Empty, ns, threshold);
      IncrementLongCalls(FoldNodes(Empty, init, threshold), m, threshold);
      LongCallsAggregate(init, threshold);
      SlowSnoc(init, m, threshold);
      var tail := if PureTime(m) > threshold then [m] else [];
      AsLongCallsConcat(Slow(init, threshold), tail);
      assert AsLongCalls(tail) == if PureTime(m) > threshold then [AsLongCall(m)] else [];
    }
  }

  /** The category table never holds a category twice. */
  lemma {:induction false} TableDistinct(ns: seq<Node>, threshold: real)
    ensures DistinctKeys(FoldNodes(Empty, ns, threshold).categoryTimes)
    decreases |ns|
  {
    if |ns| > 0 {
      TableDistinct(ns[..|ns| - 1], threshold);
    }
  }

  /** Pure time of a node whose category passes `keep`. */
  function PureIf(keep: string -> bool): Node -> real
  {
    (m: Node) => if keep(m.category) then PureTime(m) else 0.0
  }

  function OverheadIf(keep: string -> bool): Node -> real
  {
    (m: Node) => if keep(m.category) then m.overheadTime else 0.0
  }

  /** Aggregation neither drops nor double-counts a node: over any set of
      categories, the pure column of the category table adds up to the pure
      times of the nodes in those categories, and the overhead column to
      their overheads. */
  lemma {:induction false} TableTotals(ns: seq<Node>, threshold: real, keep: string -> bool)
    ensures SumOf(FoldNodes(Empty, ns, threshold).categoryTimes, EntryPureIf(keep)) == SumOf(ns, PureIf(keep))
    ensures SumOf(FoldNodes(Empty, ns, threshold).categoryTimes, EntryOverheadIf(keep)) == SumOf(ns, OverheadIf(keep))
    decreases |ns|
  {
    if |ns| > 0 {
      var init := ns[..|ns| - 1];
      var m := ns[|ns| - 1];
      assert ns == init + [m];
      TableTotals(init, threshold, keep);
      var prev := FoldNodes(Empty, init, threshold);
      FoldLast(Empty, ns, threshold);
      IncrementPureSum(prev, m, threshold, keep);
      IncrementOverheadSum(prev, m, threshold, keep);
      SumSnoc(init, m, PureIf(keep));
      SumSnoc(init, m, OverheadIf(keep));
    }
  }
}
