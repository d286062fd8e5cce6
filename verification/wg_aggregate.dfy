/** What the WG accumulators hold once a list of nodes has been aggregated
    from empty, stated against the nodes themselves: per-category sums of
    self time and overhead share, the errored flag, the long-call list, and
    the grand totals. */
module WgAggregate {
  import opened Text
  import opened Tables
  import opened Sums
  import opened WgTree

  /** Self time of `m` when it belongs to category `c`, else nothing. */
  function SelfIn(c: string): Node -> real
  {
    (m: Node) => if m.category == c then SelfTime(m) else 0.0
  }

  function OverheadIn(c: string): Node -> real
  {
    (m: Node) => if m.category == c then OverheadShare(m) else 0.0
  }

  predicate CategorySeen(ns: seq<Node>, c: string)
  {
    exists i :: 0 <= i < |ns| && ns[i].category == c
  }

  predicate CategoryErrored(ns: seq<Node>, c: string)
  {
    exists i :: 0 <= i < |ns| && ns[i].category == c && !ns[i].complete
  }

  lemma SeenSnoc(ns: seq<Node>, m: Node, c: string)
    ensures CategorySeen(ns + [m], c) <==> CategorySeen(ns, c) || m.category == c
    ensures CategoryErrored(ns + [m], c) <==> CategoryErrored(ns, c) || (m.category == c && !m.complete)
  {
    assert (ns + [m])[|ns|] == m;
    assert forall i :: 0 <= i < |ns| ==> (ns + [m])[i] == ns[i];
  }

  lemma {:induction false} UnseenSumsZero(ns: seq<Node>, c: string)
    requires !CategorySeen(ns, c)
    ensures SumOf(ns, SelfIn(c)) == 0.0 && SumOf(ns, OverheadIn(c)) == 0.0
    decreases |ns|
  {
    if |ns| > 0 {
      assert ns[0].category != c;
      assert !CategorySeen(ns[1..], c) by {
        assert forall i :: 0 <= i < |ns[1..]| ==> ns[1..][i] == ns[i + 1];
      }
      UnseenSumsZero(ns[1..], c);
    }
  }

  /** The entry the aggregation of `ns` should leave for category `c`. */
  function Expected(ns: seq<Node>, c: string): Option<Stat>
  {
    if CategorySeen(ns, c)
    then Some(Stat(SumOf(ns, SelfIn(c)), SumOf(ns, OverheadIn(c)), CategoryErrored(ns, c)))
    else None
  }

  /** Aggregating a node of category `c` bumps the expected entry. */
  lemma ExpectedBump(init: seq<Node>, m: Node, c: string)
    requires m.category == c
    ensures Expected(init + [m], c) == Some(Bump(Expected(init, c).GetOr(Fresh), VisitOf(m)))
  {
    SumSnoc(init, m, SelfIn(c));
    SumSnoc(init, m, OverheadIn(c));
    SeenSnoc(init, m, c);
    if !CategorySeen(init, c) {
      UnseenSumsZero(init, c);
    }
  }

  /** Aggregating a node of another category leaves it be. */
  lemma ExpectedOther(init: seq<Node>, m: Node, c: string)
    requires m.category != c
    ensures Expected(init + [m], c) == Expected(init, c)
  {
    SumSnoc(init, m, SelfIn(c));
    SumSnoc(init, m, OverheadIn(c));
    SeenSnoc(init, m, c);
  }

  /** The entry of `@category_times` for category `c` after aggregating `ns`:
      absent when no node has that category; otherwise the sum of those
      nodes' self times, the sum of their overhead shares, and a flag that
      is set exactly when one of them is incomplete. */
  lemma {:induction false} CategoryAggregate(ns: seq<Node>, threshold: real, c: string)
    ensures Get(FoldNodes(Empty, ns, threshold).categoryTimes, c)
         == if CategorySeen(ns, c)
            then Some(Stat(SumOf(ns, SelfIn(c)), SumOf(ns, OverheadIn(c)), CategoryErrored(ns, c)))
            else None
    decreases |ns|
  {
    if |ns| > 0 {
      var init := ns[..|ns| - 1];
      var m := ns[|ns| - 1];
      assert ns == init + [m];
      var prev := FoldNodes(Empty, init, threshold);
      FoldLast(Empty, ns, threshold);
      CategoryAggregate(init, threshold, c);
      IncrementEntry(prev, VisitOf(m), threshold, c);
      if m.category == c {
        ExpectedBump(init, m, c);
      } else {
        ExpectedOther(init, m, c);
      }
    }
  }

  /** The nodes whose self time is strictly above the threshold, in order. */
  function Slow(ns: seq<Node>, threshold: real): seq<Node>
  {
    if |ns| == 0 then []
    else (if SelfTime(ns[0]) > threshold then [ns[0]] else []) + Slow(ns[1..], threshold)
  }

  /** A node is among the slow ones exactly when it is in the list and its
      self time is strictly above the threshold. */
  lemma {:induction false} SlowMembers(ns: seq<Node>, threshold: real, m: Node)
    ensures m in Slow(ns, threshold) <==> m in ns && SelfTime(m) > threshold
    decreases |ns|
  {
    if |ns| > 0 {
      SlowMembers(ns[1..], threshold, m);
      assert ns == [ns[0]] + ns[1..];
    }
  }

  function AsLongCall(m: Node): LongCall
  {
    LongCall(Identifier(m.category, m.identifiers), SelfTime(m))
  }

  /** `(identifier, self_time)` for each node, in order. */
  function AsLongCalls(ms: seq<Node>): (r: seq<LongCall>)
    ensures |r| == |ms|
    ensures forall i :: 0 <= i < |ms| ==> r[i] == AsLongCall(ms[i])
  {
    if |ms| == 0 then [] else [AsLongCall(ms[0])] + AsLongCalls(ms[1..])
  }

  lemma AsLongCallsConcat(a: seq<Node>, b: seq<Node>)
    ensures AsLongCalls(a + b) == AsLongCalls(a) + AsLongCalls(b)
  {
  }

  lemma SlowSnoc(ns: seq<Node>, m: Node, threshold: real)
    ensures Slow(ns + [m], threshold) == Slow(ns, threshold) + (if SelfTime(m) > threshold then [m] else [])
  {
    if |ns| > 0 {
      assert (ns + [m])[1..] == ns[1..] + [m];
      SlowSnoc(ns[1..], m, threshold);
    } else {
      assert ns + [m] == [m];
    }
  }

  /** `@long_calls` after aggregating `ns`: `(identifier, self_time)` for
      exactly the nodes whose self time is strictly above the threshold, in
      the order they were aggregated. */
  lemma {:induction false} LongCallsAggregate(ns: seq<Node>, threshold: real)
    ensures FoldNodes(Empty, ns, threshold).longCalls == AsLongCalls(Slow(ns, threshold))
    decreases |ns|
  {
    if |ns| > 0 {
      var init := ns[..|ns| - 1];
      var m := ns[|ns| - 1];
      assert ns == init + [m];
      var prev := FoldNodes(Empty, init, threshold);
      FoldLast(Empty, ns, threshold);
      IncrementLongCalls(prev, VisitOf(m), threshold);
      LongCallsAggregate(init, threshold);
      SlowSnoc(init, m, threshold);
      var tail := if SelfTime(m) > threshold then [m] else [];
      AsLongCallsConcat(Slow(init, threshold), tail);
      assert AsLongCalls(tail) == if SelfTime(m) > threshold then [AsLongCall(m)] else [];
    }
  }

  /** The category table never holds a category twice. */
  lemma {:induction false} TableDistinct(ns: seq<Node>, threshold: real)
    ensures DistinctKeys(FoldNodes(Empty, ns, threshold).categoryTimes)
    decreases |ns|
  {
    if |ns| > 0 {
      TableDistinct(ns[..|ns| - 1], threshold);
    }
  }

  /** Self time of a node whose category passes `keep`. */
  function SelfIf(keep: string -> bool): Node -> real
  {
    (m: Node) => if keep(m.category) then SelfTime(m) else 0.0
  }

  function OverheadIf(keep: string -> bool): Node -> real
  {
    (m: Node) => if keep(m.category) then OverheadShare(m) else 0.0
  }

  /** Aggregation neither drops nor double-counts a node: over any set of
      categories, the self column of the category table adds up to the self
      times of the nodes in those categories, and the overhead column to
      their overhead shares. */
  lemma {:induction false} TableTotals(ns: seq<Node>, threshold: real, keep: string -> bool)
    ensures SumOf(FoldNodes(Empty, ns, threshold).categoryTimes, EntrySelfIf(keep)) == SumOf(ns, SelfIf(keep))
    ensures SumOf(FoldNodes(Empty, ns, threshold).categoryTimes, EntryOverheadIf(keep)) == SumOf(ns, OverheadIf(keep))
    decreases |ns|
  {
    if |ns| > 0 {
      var init := ns[..|ns| - 1];
      var m := ns[|ns| - 1];
      assert ns == init + [m];
      TableTotals(init, threshold, keep);
      var prev := FoldNodes(Empty, init, threshold);
      FoldLast(Empty, ns, threshold);
      IncrementSelfSum(prev, VisitOf(m), threshold, keep);
      IncrementOverheadSum(prev, VisitOf(m), threshold, keep);
      SumSnoc(init, m, SelfIf(keep));
      SumSnoc(init, m, OverheadIf(keep));
    }
  }

  /** Self time plus overhead share, summed over a whole tree, telescopes to
      the root's outer wall time: each non-root node's outer time is counted
      once in its own figures and subtracted once as its parent's child
      time. */
  lemma {:induction false} Telescope(n: Node)
    ensures SumOf(PostOrder(n), SelfTime) + SumOf(PostOrder(n), OverheadShare) == OuterTime(n)
    decreases n, 1
  {
    TelescopeAll(n.children);
    SumConcat(PostOrderAll(n.children), [n], SelfTime);
    SumConcat(PostOrderAll(n.children), [n], OverheadShare);
  }

  lemma {:induction false} TelescopeAll(cs: seq<Node>)
    ensures SumOf(PostOrderAll(cs), SelfTime) + SumOf(PostOrderAll(cs), OverheadShare) == ChildSum(cs)
    decreases cs
  {
    if |cs| > 0 {
      Telescope(cs[0]);
      TelescopeAll(cs[1..]);
      SumConcat(PostOrder(cs[0]), PostOrderAll(cs[1..]), SelfTime);
      SumConcat(PostOrder(cs[0]), PostOrderAll(cs[1..]), OverheadShare);
    }
  }
}
