/** The call tree of the WG engine (lib/w_g.rb) and its post-order
    `sumarize` pass, which decomposes each node's time and feeds the
    per-category aggregation. */
module WgTree {
  import opened Text
  import opened Tables
  import opened Sums

  /** A node as `measure` leaves it. `totalTime` is the block's wall time and
      `overheadTime` the wall time of the whole `measure` call; both stay 0
      and `complete` stays false when the block raised. */
  datatype Node = Node(
    category: string,
    identifiers: seq<string>,
    children: seq<Node>,
    totalTime: real,
    overheadTime: real,
    complete: bool)

  /** The value `sumarize` returns for a node: the full outer wall time of a
      complete node, and for an incomplete one the time of its children. */
  function OuterTime(n: Node): real
    decreases n, 1
  {
    if n.complete then n.overheadTime else ChildSum(n.children)
  }

  function ChildSum(cs: seq<Node>): real
    decreases cs
  {
    if |cs| == 0 then 0.0 else OuterTime(cs[0]) + ChildSum(cs[1..])
  }

  lemma {:induction false} ChildSumConcat(a: seq<Node>, b: seq<Node>)
    ensures ChildSum(a + b) == ChildSum(a) + ChildSum(b)
    decreases |a|
  {
    if |a| > 0 {
      assert (a + b)[1..] == a[1..] + b;
      ChildSumConcat(a[1..], b);
    } else {
      assert a + b == b;
    }
  }

  /** `child_time`: the children's outer wall times added up. */
  function ChildTime(n: Node): real
  {
    ChildSum(n.children)
  }

  /** `total_time` after `sumarize`: an incomplete node takes its child time. */
  function TotalTime(n: Node): real
  {
    if n.complete then n.totalTime else ChildTime(n)
  }

  /** `self_time`: block time not spent in measured children; never clamped.
      An incomplete node has none. */
  function SelfTime(n: Node): (r: real)
    ensures !n.complete ==> r == 0.0
    ensures n.complete ==> r + ChildTime(n) == n.totalTime
  {
    TotalTime(n) - ChildTime(n)
  }

  /** What the node adds to its category's overhead: `overhead_time -
      total_time`. An incomplete node adds nothing. */
  function OverheadShare(n: Node): (r: real)
    ensures !n.complete ==> r == 0.0
    ensures n.complete ==> r + n.totalTime == n.overheadTime
  {
    OuterTime(n) - TotalTime(n)
  }

  /** The order in which `sumarize` visits nodes: children first, left to
      right, then the node itself. */
  function PostOrder(n: Node): (r: seq<Node>)
    ensures |r| > 0 && r[|r| - 1] == n
    decreases n, 1
  {
    PostOrderAll(n.children) + [n]
  }

  function PostOrderAll(cs: seq<Node>): seq<Node>
    decreases cs
  {
    if |cs| == 0 then [] else PostOrder(cs[0]) + PostOrderAll(cs[1..])
  }

  /** Per-category triple `[self, overhead, errored]`. */
  datatype Stat = Stat(selfTime: real, overheadTime: real, errored: bool)

  const Fresh := Stat(0.0, 0.0, false)

  /** The class-level accumulators `@category_times` and `@long_calls`. */
  datatype Agg = Agg(categoryTimes: Table<Stat>, longCalls: seq<LongCall>)

  const Empty := Agg([], [])

  /** The figures `sumarize` hands to `increment_category_time` for one node. */
  datatype Visit = Visit(
    category: string,
    identifier: string,
    selfTime: real,
    overheadShare: real,
    complete: bool)

  function VisitOf(n: Node): Visit
  {
    Visit(n.category, Identifier(n.category, n.identifiers), SelfTime(n), OverheadShare(n), n.complete)
  }

  /** A category's triple before an increment: `[0, 0, false]` on first
      sight. */
  function Prior(t: Table<Stat>, c: string): Stat
  {
    Get(t, c).GetOr(Fresh)
  }

  /** The triple after adding a visit's figures. */
  function Bump(before: Stat, v: Visit): Stat
  {
    Stat(before.selfTime + v.selfTime, before.overheadTime + v.overheadShare, before.errored || !v.complete)
  }

  /** `increment_category_time`: adds the node's self time and overhead share
      to its category (creating `[0, 0, false]` on first sight), ORs in
      "not complete", and records a long call when the self time is strictly
      above the threshold. */
  function IncrementCategoryTime(agg: Agg, v: Visit, threshold: real): Agg
  {
    var longCalls := if v.selfTime > threshold
                     then agg.longCalls + [LongCall(v.identifier, v.selfTime)]
                     else agg.longCalls;
    Agg(Put(agg.categoryTimes, v.category, Bump(Prior(agg.categoryTimes, v.category), v)), longCalls)
  }

  /** What `increment_category_time` does to one category's entry. */
  lemma IncrementEntry(agg: Agg, v: Visit, threshold: real, c: string)
    ensures Get(IncrementCategoryTime(agg, v, threshold).categoryTimes, c)
         == if c == v.category then Some(Bump(Prior(agg.categoryTimes, c), v)) else Get(agg.categoryTimes, c)
  {
  }

  /** What `increment_category_time` does to the long-call list. */
  lemma IncrementLongCalls(agg: Agg, v: Visit, threshold: real)
    ensures IncrementCategoryTime(agg, v, threshold).longCalls
         == agg.longCalls + if v.selfTime > threshold then [LongCall(v.identifier, v.selfTime)] else []
  {
  }

  /** A table entry's self time when its category passes `keep`. */
  function EntrySelfIf(keep: string -> bool): ((string, Stat)) -> real
  {
    (e: (string, Stat)) => if keep(e.0) then e.1.selfTime else 0.0
  }

  function EntryOverheadIf(keep: string -> bool): ((string, Stat)) -> real
  {
    (e: (string, Stat)) => if keep(e.0) then e.1.overheadTime else 0.0
  }

  /** Each increment adds the visit's self time to the table's self column
      over any set of categories that includes the visit's, whether or not
      the category was new. */
  lemma IncrementSelfSum(agg: Agg, v: Visit, threshold: real, keep: string -> bool)
    ensures SumOf(IncrementCategoryTime(agg, v, threshold).categoryTimes, EntrySelfIf(keep))
         == SumOf(agg.categoryTimes, EntrySelfIf(keep)) + (if keep(v.category) then v.selfTime else 0.0)
  {
    var t := agg.categoryTimes;
    SumPut(t, v.category, Bump(Prior(t, v.category), v), EntrySelfIf(keep));
  }

  /** Likewise for the overhead column and the visit's overhead share. */
  lemma IncrementOverheadSum(agg: Agg, v: Visit, threshold: real, keep: string -> bool)
    ensures SumOf(IncrementCategoryTime(agg, v, threshold).categoryTimes, EntryOverheadIf(keep))
         == SumOf(agg.categoryTimes, EntryOverheadIf(keep)) + (if keep(v.category) then v.overheadShare else 0.0)
  {
    var t := agg.categoryTimes;
    SumPut(t, v.category, Bump(Prior(t, v.category), v), EntryOverheadIf(keep));
  }

  /** Aggregating a list of nodes in order. */
  function FoldNodes(agg: Agg, ns: seq<Node>, threshold: real): Agg
  {
    if |ns| == 0 then agg
    else IncrementCategoryTime(FoldNodes(agg, ns[..|ns| - 1], threshold), VisitOf(ns[|ns| - 1]), threshold)
  }

  /** The last node of a list is aggregated last. */
  lemma FoldLast(agg: Agg, ns: seq<Node>, threshold: real)
    requires |ns| > 0
    ensures FoldNodes(agg, ns, threshold)
         == IncrementCategoryTime(FoldNodes(agg, ns[..|ns| - 1], threshold), VisitOf(ns[|ns| - 1]), threshold)
  {
  }

  lemma {:induction false} FoldConcat(agg: Agg, a: seq<Node>, b: seq<Node>, threshold: real)
    ensures FoldNodes(agg, a + b, threshold) == FoldNodes(FoldNodes(agg, a, threshold), b, threshold)
    decreases |b|
  {
    if |b| > 0 {
      assert (a + b)[..|a + b| - 1] == a + b[..|b| - 1];
      assert (a + b)[|a + b| - 1] == b[|b| - 1];
      FoldConcat(agg, a, b[..|b| - 1], threshold);
    } else {
      assert a + b == a;
    }
  }

  lemma FoldOne(agg: Agg, n: Node, threshold: real)
    ensures FoldNodes(agg, [n], threshold) == IncrementCategoryTime(agg, VisitOf(n), threshold)
  {
    assert [n][..0] == [];
  }

  /** The figures `sumarize` computes for a node once its children have
      returned `childTime`: an incomplete node's total and overhead become
      the child time, the self time is total minus child time, and the
      overhead share is overhead minus total. */
  function VisitAfter(n: Node, childTime: real): Visit
  {
    var totalTime := if n.complete then n.totalTime else childTime;
    var overheadTime := if n.complete then n.overheadTime else childTime;
    Visit(n.category, Identifier(n.category, n.identifiers), totalTime - childTime, overheadTime - totalTime, n.complete)
  }

  /** `sumarize` returns what `VisitAfter` used as the outer time. */
  function OuterAfter(n: Node, childTime: real): real
  {
    if n.complete then n.overheadTime else childTime
  }

  /** With the children's true outer times, those figures are the node's
      self time and overhead share. */
  lemma VisitAfterChildren(n: Node)
    ensures VisitAfter(n, ChildSum(n.children)) == VisitOf(n)
    ensures OuterAfter(n, ChildSum(n.children)) == OuterTime(n)
  {
  }

  /** Aggregating a node after its children's subtrees is aggregating its
      post-order. */
  lemma PostOrderStep(agg: Agg, n: Node, threshold: real)
    ensures FoldNodes(agg, PostOrder(n), threshold)
         == IncrementCategoryTime(FoldNodes(agg, PostOrderAll(n.children), threshold), VisitOf(n), threshold)
  {
    FoldConcat(agg, PostOrderAll(n.children), [n], threshold);
    FoldOne(FoldNodes(agg, PostOrderAll(n.children), threshold), n, threshold);
  }

  /** `sumarize`, as the code computes it: children first (their return
      values summed into `child_time`), then the node's own figures are
      aggregated. It returns the node's outer wall time and leaves the
      accumulators as if every node of the subtree had been aggregated in
      post-order. */
  function Summarize(n: Node, agg: Agg, threshold: real): (r: (real, Agg))
    ensures r.0 == OuterTime(n)
    ensures r.1 == FoldNodes(agg, PostOrder(n), threshold)
    decreases n, 1
  {
    var children := SummarizeAll(n.children, agg, threshold);
    VisitAfterChildren(n);
    PostOrderStep(agg, n, threshold);
    (OuterAfter(n, children.0), IncrementCategoryTime(children.1, VisitAfter(n, children.0), threshold))
  }

  /** `children.map(&:sumarize).sum`. */
  function SummarizeAll(cs: seq<Node>, agg: Agg, threshold: real): (r: (real, Agg))
    ensures r.0 == ChildSum(cs)
    ensures r.1 == FoldNodes(agg, PostOrderAll(cs), threshold)
    decreases cs
  {
    if |cs| == 0 then (0.0, agg)
    else
      var first := Summarize(cs[0], agg, threshold);
      var rest := SummarizeAll(cs[1..], first.1, threshold);
      PostOrderAllCons(agg, cs, threshold);
      (first.0 + rest.0, rest.1)
  }

  /** Aggregating a list of subtrees is aggregating the first, then the rest. */
  lemma PostOrderAllCons(agg: Agg, cs: seq<Node>, threshold: real)
    requires |cs| > 0
    ensures FoldNodes(agg, PostOrderAll(cs), threshold)
         == FoldNodes(FoldNodes(agg, PostOrder(cs[0]), threshold), PostOrderAll(cs[1..]), threshold)
    ensures ChildSum(cs) == OuterTime(cs[0]) + ChildSum(cs[1..])
  {
    FoldConcat(agg, PostOrder(cs[0]), PostOrderAll(cs[1..]), threshold);
  }
}
