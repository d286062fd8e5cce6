/** The call tree of the earlier WatchfulGuerilla engine
    (lib/watchful_guerilla.rb) and its per-category accumulation. Unlike WG,
    a node here works out its own times as soon as its block ends, and the
    node is aggregated right then, so the nodes of a tree reach the
    accumulators in post-order. */
module GuerillaNode {
  import opened Text
  import opened Tables
  import opened Sums
  import opened Blocks

  /** A node once `Node#measure` has finished with it. `totalTime` is the
      block's wall time, measured whether or not it raised; `overheadTime`
      is what the nested `measure` calls charged to it; `exception` is what
      the block raised, if anything. */
  datatype Node = Node(
    category: string,
    identifiers: seq<string>,
    children: seq<Node>,
    totalTime: real,
    overheadTime: real,
    exception: Option<Exn>)

  function TotalOf(n: Node): real
  {
    n.totalTime
  }

  function OverheadOf(n: Node): real
  {
    n.overheadTime
  }

  /** `child_time`: the children's block times added up (not their outer
      times, so the parent's overhead charge is what accounts for the
      difference). */
  function ChildTime(n: Node): real
  {
    SumOf(n.children, TotalOf)
  }

  /** `self_time`: block time not spent inside a child's block. */
  function SelfTime(n: Node): real
  {
    n.totalTime - ChildTime(n)
  }

  /** `pure_time`: self time less the engine's own time spent on the
      children. */
  function PureTime(n: Node): real
  {
    SelfTime(n) - n.overheadTime
  }

  /** Pure time and overhead together account for the node's block time
      beyond its children's. */
  lemma PureTimeSplit(n: Node)
    ensures PureTime(n) + n.overheadTime + ChildTime(n) == n.totalTime
  {
  }

  /** A category's triple `[block time, unmarked (pure) time, overhead]`. */
  datatype Times = Times(blockTime: real, pureTime: real, overheadTime: real)

  const NoTimes := Times(0.0, 0.0, 0.0)

  function Plus(a: Times, b: Times): Times
  {
    Times(a.blockTime + b.blockTime, a.pureTime + b.pureTime, a.overheadTime + b.overheadTime)
  }

  /** What one node adds to its category: its block time less its overhead,
      its pure time and its overhead. */
  function Contribution(n: Node): Times
  {
    Times(n.totalTime - n.overheadTime, PureTime(n), n.overheadTime)
  }

  /** The module-level accumulators `@category_times` and `@long_calls`. */
  datatype Agg = Agg(categoryTimes: Table<Times>, longCalls: seq<LongCall>)

  const Empty := Agg([], [])

  /** `increment_category_time`: adds the node's contribution to its
      category (starting from `[0, 0, 0]` on first sight) and records a long
      call when the pure time is strictly above the threshold. */
  function IncrementCategoryTime(agg: Agg, n: Node, threshold: real): Agg
  {
    var longCalls := if PureTime(n) > threshold
                     then agg.longCalls + [LongCall(Identifier(n.category, n.identifiers), PureTime(n))]
                     else agg.longCalls;
    Agg(Put(agg.categoryTimes, n.category, Plus(Get(agg.categoryTimes, n.category).GetOr(NoTimes), Contribution(n))), longCalls)
  }

  /** What `increment_category_time` does to one category's entry. */
  lemma IncrementEntry(agg: Agg, n: Node, threshold: real, c: string)
    ensures Get(IncrementCategoryTime(agg, n, threshold).categoryTimes, c)
         == if c == n.category then Some(Plus(Get(agg.categoryTimes, c).GetOr(NoTimes), Contribution(n)))
            else Get(agg.categoryTimes, c)
  {
  }

  /** What `increment_category_time` does to the long-call list. */
  lemma IncrementLongCalls(agg: Agg, n: Node, threshold: real)
    ensures IncrementCategoryTime(agg, n, threshold).longCalls
         == agg.longCalls + if PureTime(n) > threshold then [LongCall(Identifier(n.category, n.identifiers), PureTime(n))] else []
  {
  }

  /** A table entry's pure time when its category passes `keep`. */
  function EntryPureIf(keep: string -> bool): ((string, Times)) -> real
  {
    (e: (string, Times)) => if keep(e.0) then e.1.pureTime else 0.0
  }

  function EntryOverheadIf(keep: string -> bool): ((string, Times)) -> real
  {
    (e: (string, Times)) => if keep(e.0) then e.1.overheadTime else 0.0
  }

  /** Each increment adds the node's pure time to the table's pure column
      over any set of categories that includes the node's. */
  lemma IncrementPureSum(agg: Agg, n: Node, threshold: real, keep: string -> bool)
    ensures SumOf(IncrementCategoryTime(agg, n, threshold).categoryTimes, EntryPureIf(keep))
         == SumOf(agg.categoryTimes, EntryPureIf(keep)) + (if keep(n.category) then PureTime(n) else 0.0)
  {
    var t := agg.categoryTimes;
    SumPut(t, n.category, Plus(Get(t, n.category).GetOr(NoTimes), Contribution(n)), EntryPureIf(keep));
  }

  /** Likewise for the overhead column. */
  lemma IncrementOverheadSum(agg: Agg, n: Node, threshold: real, keep: string -> bool)
    ensures SumOf(IncrementCategoryTime(agg, n, threshold).categoryTimes, EntryOverheadIf(keep))
         == SumOf(agg.categoryTimes, EntryOverheadIf(keep)) + (if keep(n.category) then n.overheadTime else 0.0)
  {
    var t := agg.categoryTimes;
    SumPut(t, n.category, Plus(Get(t, n.category).GetOr(NoTimes), Contribution(n)), EntryOverheadIf(keep));
  }

  /** The order in which nodes close: children first, left to right, then
      the node itself. */
  function PostOrder(n: Node): (r: seq<Node>)
    ensures |r| > 0 && r[|r| - 1] == n
    decreases n, 1
  {
    PostOrderAll(n.children) + [n]
  }

  function PostOrderAll(cs: seq<Node>): seq<Node>
    decreases cs
  {
    if |cs| == 0 then [] else PostOrder(cs[0]) + PostOrderAll(cs[1..])
  }

  lemma {:induction false} PostOrderAllConcat(a: seq<Node>, b: seq<Node>)
    ensures PostOrderAll(a + b) == PostOrderAll(a) + PostOrderAll(b)
    decreases |a|
  {
    if |a| > 0 {
      assert (a + b)[1..] == a[1..] + b;
      PostOrderAllConcat(a[1..], b);
    } else {
      assert a + b == b;
    }
  }

  lemma PostOrderAllOne(n: Node)
    ensures PostOrderAll([n]) == PostOrder(n)
  {
    assert [n][1..] == [];
  }

  /** Aggregating a list of nodes in order. */
  function FoldNodes(agg: Agg, ns: seq<Node>, threshold: real): Agg
  {
    if |ns| == 0 then agg
    else IncrementCategoryTime(FoldNodes(agg, ns[..|ns| - 1], threshold), ns[|ns| - 1], threshold)
  }

  lemma FoldLast(agg: Agg, ns: seq<Node>, threshold: real)
    requires |ns| > 0
    ensures FoldNodes(agg, ns, threshold)
         == IncrementCategoryTime(FoldNodes(agg, ns[..|ns| - 1], threshold), ns[|ns| - 1], threshold)
  {
  }

  lemma {:induction false} FoldConcat(agg: Agg, a: seq<Node>, b: seq<Node>, threshold: real)
    ensures FoldNodes(agg, a + b, threshold) == FoldNodes(FoldNodes(agg, a, threshold), b, threshold)
    decreases |b|
  {
    if |b| > 0 {
      assert (a + b)[..|a + b| - 1] == a + b[..|b| - 1];
      assert (a + b)[|a + b| - 1] == b[|b| - 1];
      FoldConcat(agg, a, b[..|b| - 1], threshold);
    } else {
      assert a + b == a;
    }
  }

  /** Aggregating a node right after its children's subtrees is aggregating
      its post-order. */
  lemma PostOrderStep(agg: Agg, n: Node, threshold: real)
    ensures FoldNodes(agg, PostOrder(n), threshold)
         == IncrementCategoryTime(FoldNodes(agg, PostOrderAll(n.children), threshold), n, threshold)
  {
    FoldConcat(agg, PostOrderAll(n.children), [n], threshold);
    assert [n][..0] == [];
  }
}
