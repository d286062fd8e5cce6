/** What the WG report says about the call tree it was given: each section
    stated directly against the nodes of the tree, independently of the
    accumulators and sorts that produce it. */
module WgReportProps {
  import opened Text
  import opened Tables
  import opened Sums
  import opened Sorting
  import opened WgTree
  import opened WgSuper
  import opened WgAggregate
  import opened WgReport

  /** The category table `sumarize` leaves for a tree. */
  function CategoryTable(root: Node, threshold: real): Table<Stat>
  {
    FoldNodes(Empty, PostOrder(root), threshold).categoryTimes
  }

  /** The line a category should get: its name, the self times of its nodes
      added up, and their overhead shares added up. */
  function CategoryLine(ns: seq<Node>, c: string): Line
  {
    Line(c, SumOf(ns, SelfIn(c)), SumOf(ns, OverheadIn(c)))
  }

  /** Some node's category has super-category `g`. */
  predicate SuperSeen(ns: seq<Node>, g: string)
  {
    exists i :: 0 <= i < |ns| && SuperCategory(ns[i].category) == Some(g)
  }

  /** The report is built from the accumulators of a post-order fold. */
  lemma ReportSource(root: Node, threshold: real, printTime: real)
    ensures PrintMeasuredResults(root, threshold, printTime)
         == ReportOf(FoldNodes(Empty, PostOrder(root), threshold), printTime)
  {
    var r := Summarize(root, Empty, threshold);
  }

  /** Every entry of the category table is a category of the tree, with the
      figures its nodes add up to. */
  lemma EntryOfTable(ns: seq<Node>, threshold: real, e: (string, Stat))
    requires e in FoldNodes(Empty, ns, threshold).categoryTimes
    ensures CategorySeen(ns, e.0)
    ensures e.1 == Stat(SumOf(ns, SelfIn(e.0)), SumOf(ns, OverheadIn(e.0)), CategoryErrored(ns, e.0))
  {
    var t := FoldNodes(Empty, ns, threshold).categoryTimes;
    var i :| 0 <= i < |t| && t[i] == e;
    TableDistinct(ns, threshold);
    GetAt(t, i);
    CategoryAggregate(ns, threshold, e.0);
  }

  /** Every category of the tree has its entry in the category table. */
  lemma TableOfCategory(ns: seq<Node>, threshold: real, c: string)
    requires CategorySeen(ns, c)
    ensures (c, Stat(SumOf(ns, SelfIn(c)), SumOf(ns, OverheadIn(c)), CategoryErrored(ns, c)))
            in FoldNodes(Empty, ns, threshold).categoryTimes
  {
    CategoryAggregate(ns, threshold, c);
  }

  /** The `errors` and `blocks` sections. A line is under `errors` exactly
      when its category has an incomplete node, and under `blocks` exactly
      when its category has nodes and none of them is incomplete; either way
      it carries the category's summed self time and overhead share. No
      category is listed twice, and both sections run from the largest self
      time down. */
  lemma ReportCategories(root: Node, threshold: real, printTime: real)
    ensures forall l :: l in PrintMeasuredResults(root, threshold, printTime).errors <==>
              CategoryErrored(PostOrder(root), l.name) && l == CategoryLine(PostOrder(root), l.name)
    ensures forall l :: l in PrintMeasuredResults(root, threshold, printTime).blocks <==>
              CategorySeen(PostOrder(root), l.name) && !CategoryErrored(PostOrder(root), l.name)
              && l == CategoryLine(PostOrder(root), l.name)
    ensures DistinctNames(PrintMeasuredResults(root, threshold, printTime).errors + PrintMeasuredResults(root, threshold, printTime).blocks)
    ensures NonIncreasing(PrintMeasuredResults(root, threshold, printTime).errors, LineSelf) && NonIncreasing(PrintMeasuredResults(root, threshold, printTime).blocks, LineSelf)
  {
    var ns := PostOrder(root);
    var t := CategoryTable(root, threshold);
    var sorted := SortDesc(t, StatSelf);
    var r := PrintMeasuredResults(root, threshold, printTime);
    ReportSource(root, threshold, printTime);
    assert r.errors == Pick(sorted, true) && r.blocks == Pick(sorted, false);
    PermutationMembers(t, sorted);
    TableDistinct(ns, threshold);
    DistinctPermutation(t, sorted);
    PickDistinct(sorted);
    forall l ensures l in r.errors <==> CategoryErrored(ns, l.name) && l == CategoryLine(ns, l.name) {
      PickedLine(ns, threshold, sorted, true, l);
    }
    forall l ensures l in r.blocks <==>
      CategorySeen(ns, l.name) && !CategoryErrored(ns, l.name) && l == CategoryLine(ns, l.name) {
      PickedLine(ns, threshold, sorted, false, l);
    }
  }

  /** A line picked from a reordering of the category table, by errored flag. */
  lemma PickedLine(ns: seq<Node>, threshold: real, sorted: Table<Stat>, errored: bool, l: Line)
    requires multiset(sorted) == multiset(FoldNodes(Empty, ns, threshold).categoryTimes)
    ensures l in Pick(sorted, errored) <==>
      CategorySeen(ns, l.name) && CategoryErrored(ns, l.name) == errored && l == CategoryLine(ns, l.name)
  {
    var t := FoldNodes(Empty, ns, threshold).categoryTimes;
    PermutationMembers(t, sorted);
    if l in Pick(sorted, errored) {
      var e :| e in sorted && e.1.errored == errored && l == LineOf(e);
      assert e in t;
      EntryOfTable(ns, threshold, e);
    }
    if CategorySeen(ns, l.name) && CategoryErrored(ns, l.name) == errored && l == CategoryLine(ns, l.name) {
      var c := l.name;
      var e := (c, Stat(SumOf(ns, SelfIn(c)), SumOf(ns, OverheadIn(c)), CategoryErrored(ns, c)));
      TableOfCategory(ns, threshold, c);
      assert e in sorted;
    }
  }

  /** Every category falls in the `""` bucket. */
  lemma GrandBucketAll(ns: seq<Node>)
    ensures SumOf(ns, SelfIf(InBucket(""))) == SumOf(ns, SelfTime)
    ensures SumOf(ns, OverheadIf(InBucket(""))) == SumOf(ns, OverheadShare)
  {
    SumPointwise(ns, SelfIf(InBucket("")), SelfTime);
    SumPointwise(ns, OverheadIf(InBucket("")), OverheadShare);
  }

  /** The bucket `g` of the super-category table, filled from a reordering
      of the category table of `ns`, read back against the nodes: present
      exactly when some node's category falls in it, and holding the self
      times and overhead shares of the nodes that do. */
  lemma BucketOfNodes(ns: seq<Node>, threshold: real, sorted: Table<Stat>, g: string)
    requires multiset(sorted) == multiset(FoldNodes(Empty, ns, threshold).categoryTimes)
    ensures Get(SuperTotals(sorted), g).Some? <==> exists i :: 0 <= i < |ns| && Falls(ns[i].category, g)
    ensures Get(SuperTotals(sorted), g).Some? ==>
              Get(SuperTotals(sorted), g).value == Pair(SumOf(ns, SelfIf(InBucket(g))), SumOf(ns, OverheadIf(InBucket(g))))
  {
    var t := FoldNodes(Empty, ns, threshold).categoryTimes;
    SuperBucket(sorted, g);
    SumPermutation(sorted, t, EntrySelfIf(InBucket(g)));
    SumPermutation(sorted, t, EntryOverheadIf(InBucket(g)));
    TableTotals(ns, threshold, InBucket(g));
    if BucketSeen(sorted, g) {
      SeenBucketHasNode(ns, threshold, sorted, g);
    }
    if exists i :: 0 <= i < |ns| && Falls(ns[i].category, g) {
      NodeBucketSeen(ns, threshold, sorted, g);
    }
  }

  /** A bucket some table entry falls in has a node that falls in it. */
  lemma SeenBucketHasNode(ns: seq<Node>, threshold: real, sorted: Table<Stat>, g: string)
    requires multiset(sorted) == multiset(FoldNodes(Empty, ns, threshold).categoryTimes)
    requires BucketSeen(sorted, g)
    ensures exists i :: 0 <= i < |ns| && Falls(ns[i].category, g)
  {
    var t := FoldNodes(Empty, ns, threshold).categoryTimes;
    PermutationMembers(t, sorted);
    var k :| 0 <= k < |sorted| && InBucket(g)(sorted[k].0);
    assert sorted[k] in t;
    EntryOfTable(ns, threshold, sorted[k]);
    var i :| 0 <= i < |ns| && ns[i].category == sorted[k].0;
    assert Falls(ns[i].category, g);
  }

  /** A bucket some node falls in has a table entry that falls in it. */
  lemma NodeBucketSeen(ns: seq<Node>, threshold: real, sorted: Table<Stat>, g: string)
    requires multiset(sorted) == multiset(FoldNodes(Empty, ns, threshold).categoryTimes)
    requires exists i :: 0 <= i < |ns| && Falls(ns[i].category, g)
    ensures BucketSeen(sorted, g)
  {
    var t := FoldNodes(Empty, ns, threshold).categoryTimes;
    PermutationMembers(t, sorted);
    var i :| 0 <= i < |ns| && Falls(ns[i].category, g);
    var c := ns[i].category;
    assert CategorySeen(ns, c);
    TableOfCategory(ns, threshold, c);
    var e := (c, Stat(SumOf(ns, SelfIn(c)), SumOf(ns, OverheadIn(c)), CategoryErrored(ns, c)));
    assert e in sorted;
    var k :| 0 <= k < |sorted| && sorted[k] == e;
    assert InBucket(g)(sorted[k].0);
  }

  /** The grand-totals line: the self time is the self times of all nodes
      added up, the overhead is all overhead shares plus the report's own
      time, and the total is the root's wall time (its whole `measure` call,
      or its children's when it raised) plus the report's own time. */
  lemma ReportGrandTotals(root: Node, threshold: real, printTime: real)
    ensures PrintMeasuredResults(root, threshold, printTime).grandTotals.selfTime == SumOf(PostOrder(root), SelfTime)
    ensures PrintMeasuredResults(root, threshold, printTime).grandTotals.overheadTime == SumOf(PostOrder(root), OverheadShare) + printTime
    ensures PrintMeasuredResults(root, threshold, printTime).grandTotals.total == OuterTime(root) + printTime
  {
    var ns := PostOrder(root);
    var sorted := SortDesc(CategoryTable(root, threshold), StatSelf);
    ReportSource(root, threshold, printTime);
    BucketOfNodes(ns, threshold, sorted, "");
    assert Falls(ns[|ns| - 1].category, "");
    GrandBucketAll(ns);
    Telescope(root);
  }

  /** The grand-totals line the loop as written yields: read from its `""`
      bucket, which counts some categories twice. */
  function GrandTotalsAsWritten(root: Node, threshold: real, printTime: real): GrandTotal
  {
    GrandTotalOf(SuperTotalsAsWritten(SortDesc(CategoryTable(root, threshold), StatSelf)), printTime)
  }

  /** The grand-totals line as the code is written, for any tree: the self
      time and the overhead share of every node whose category captures an
      empty super-category name are counted twice, in the self time, the
      overhead and the total alike. */
  lemma ReportGrandTotalsAsWritten(root: Node, threshold: real, printTime: real)
    ensures GrandTotalsAsWritten(root, threshold, printTime).selfTime
         == SumOf(PostOrder(root), SelfTime) + SumOf(PostOrder(root), SelfIf(CapturesEmpty))
    ensures GrandTotalsAsWritten(root, threshold, printTime).overheadTime
         == SumOf(PostOrder(root), OverheadShare) + SumOf(PostOrder(root), OverheadIf(CapturesEmpty)) + printTime
    ensures GrandTotalsAsWritten(root, threshold, printTime).total
         == OuterTime(root) + SumOf(PostOrder(root), SelfIf(CapturesEmpty))
            + SumOf(PostOrder(root), OverheadIf(CapturesEmpty)) + printTime
  {
    AsWrittenSurplus(root, threshold, printTime);
    ReportGrandTotals(root, threshold, printTime);
  }

  /** The as-written grand totals are the corrected ones plus the times of
      the nodes whose category captures an empty name. */
  lemma AsWrittenSurplus(root: Node, threshold: real, printTime: real)
    ensures GrandTotalsAsWritten(root, threshold, printTime)
         == Surplus(PrintMeasuredResults(root, threshold, printTime).grandTotals,
                    SumOf(PostOrder(root), SelfIf(CapturesEmpty)), SumOf(PostOrder(root), OverheadIf(CapturesEmpty)))
  {
    var ns := PostOrder(root);
    var t := CategoryTable(root, threshold);
    var sorted := SortDesc(t, StatSelf);
    ReportSource(root, threshold, printTime);
    assert PrintMeasuredResults(root, threshold, printTime).grandTotals == GrandTotalOf(SuperTotals(sorted), printTime);
    GrandTotalOfAsWritten(sorted, printTime);
    SumPermutation(sorted, t, EntrySelfIf(CapturesEmpty));
    SumPermutation(sorted, t, EntryOverheadIf(CapturesEmpty));
    TableTotals(ns, threshold, CapturesEmpty);
  }

  /** The double count is the only difference: for a tree none of whose
      categories captures an empty name, the code as written prints the
      corrected grand totals. */
  lemma GrandTotalsAgree(root: Node, threshold: real, printTime: real)
    requires forall i :: 0 <= i < |PostOrder(root)| ==> !CapturesEmpty(PostOrder(root)[i].category)
    ensures GrandTotalsAsWritten(root, threshold, printTime) == PrintMeasuredResults(root, threshold, printTime).grandTotals
  {
    AsWrittenSurplus(root, threshold, printTime);
    NoCaptureSumsZero(PostOrder(root));
  }

  lemma NoCaptureSumsZero(ns: seq<Node>)
    requires forall i :: 0 <= i < |ns| ==> !CapturesEmpty(ns[i].category)
    ensures SumOf(ns, SelfIf(CapturesEmpty)) == 0.0 && SumOf(ns, OverheadIf(CapturesEmpty)) == 0.0
  {
    forall i | 0 <= i < |ns|
      ensures SelfIf(CapturesEmpty)(ns[i]) == Nothing(ns[i])
      ensures OverheadIf(CapturesEmpty)(ns[i]) == Nothing(ns[i])
    {
    }
    SumPointwise(ns, SelfIf(CapturesEmpty), Nothing);
    SumPointwise(ns, OverheadIf(CapturesEmpty), Nothing);
    SumNothing(ns);
  }

  function Nothing(m: Node): real
  {
    0.0
  }

  lemma {:induction false} SumNothing(ns: seq<Node>)
    ensures SumOf(ns, Nothing) == 0.0
    decreases |ns|
  {
    if |ns| > 0 {
      SumNothing(ns[1..]);
    }
  }

  /** The `totals` section: one line for each non-blank super-category name
      that some category of the tree carries, each with the self times and
      overhead shares of the nodes in those categories added up, from the
      largest self time down. */
  lemma ReportTotals(root: Node, threshold: real, printTime: real)
    ensures forall l :: l in PrintMeasuredResults(root, threshold, printTime).totals ==>
              && !IsBlank(l.name)
              && SuperSeen(PostOrder(root), l.name)
              && l.selfTime == SumOf(PostOrder(root), SelfIf(InBucket(l.name)))
              && l.overheadTime == SumOf(PostOrder(root), OverheadIf(InBucket(l.name)))
    ensures forall g :: !IsBlank(g) && SuperSeen(PostOrder(root), g)
              ==> exists l :: l in PrintMeasuredResults(root, threshold, printTime).totals && l.name == g
    ensures NonIncreasing(PrintMeasuredResults(root, threshold, printTime).totals, LineSelf)
  {
    var ns := PostOrder(root);
    var sorted := SortDesc(CategoryTable(root, threshold), StatSelf);
    var r := PrintMeasuredResults(root, threshold, printTime);
    ReportSource(root, threshold, printTime);
    assert r.totals == Visible(SortDesc(SuperTotals(sorted), PairSelf));
    TotalsOfNodes(ns, threshold, sorted);
  }

  lemma TotalsOfNodes(ns: seq<Node>, threshold: real, sorted: Table<Stat>)
    requires multiset(sorted) == multiset(FoldNodes(Empty, ns, threshold).categoryTimes)
    ensures forall l :: l in Visible(SortDesc(SuperTotals(sorted), PairSelf)) ==>
              && !IsBlank(l.name)
              && SuperSeen(ns, l.name)
              && l.selfTime == SumOf(ns, SelfIf(InBucket(l.name)))
              && l.overheadTime == SumOf(ns, OverheadIf(InBucket(l.name)))
    ensures forall g :: !IsBlank(g) && SuperSeen(ns, g)
              ==> exists l :: l in Visible(SortDesc(SuperTotals(sorted), PairSelf)) && l.name == g
  {
    forall l | l in Visible(SortDesc(SuperTotals(sorted), PairSelf))
      ensures !IsBlank(l.name)
      ensures SuperSeen(ns, l.name)
      ensures l.selfTime == SumOf(ns, SelfIf(InBucket(l.name)))
      ensures l.overheadTime == SumOf(ns, OverheadIf(InBucket(l.name)))
    {
      TotalsLine(ns, threshold, sorted, l);
    }
    forall g | !IsBlank(g) && SuperSeen(ns, g)
      ensures exists l :: l in Visible(SortDesc(SuperTotals(sorted), PairSelf)) && l.name == g
    {
      TotalsHasBucket(ns, threshold, sorted, g);
    }
  }

  /** A line of `totals` names a non-blank super-category some node carries,
      with that bucket's sums. */
  lemma TotalsLine(ns: seq<Node>, threshold: real, sorted: Table<Stat>, l: Line)
    requires multiset(sorted) == multiset(FoldNodes(Empty, ns, threshold).categoryTimes)
    requires l in Visible(SortDesc(SuperTotals(sorted), PairSelf))
    ensures !IsBlank(l.name)
    ensures SuperSeen(ns, l.name)
    ensures l.selfTime == SumOf(ns, SelfIf(InBucket(l.name)))
    ensures l.overheadTime == SumOf(ns, OverheadIf(InBucket(l.name)))
  {
    SuperTotalsDistinct(sorted);
    ShownLine(SuperTotals(sorted), l);
    BucketOfNodes(ns, threshold, sorted, l.name);
    assert l.name != "" by {
      assert IsBlank([]);
    }
    var i :| 0 <= i < |ns| && Falls(ns[i].category, l.name);
  }

  /** A line of the totals section shows a non-blank bucket's value. */
  lemma ShownLine(buckets: Table<Pair>, l: Line)
    requires DistinctKeys(buckets)
    requires l in Visible(SortDesc(buckets, PairSelf))
    ensures !IsBlank(l.name)
    ensures Get(buckets, l.name) == Some(Pair(l.selfTime, l.overheadTime))
  {
    var shown := SortDesc(buckets, PairSelf);
    var x :| x in shown && !IsBlank(x.0) && l == PairLine(x);
    ShownEntry(buckets, shown, x);
  }

  /** An entry of a reordering of a table with distinct keys is what the
      table holds under that key. */
  lemma ShownEntry(buckets: Table<Pair>, shown: Table<Pair>, x: (string, Pair))
    requires DistinctKeys(buckets)
    requires multiset(buckets) == multiset(shown)
    requires x in shown
    ensures Get(buckets, x.0) == Some(x.1)
  {
    assert x in multiset(shown);
    var j :| 0 <= j < |buckets| && buckets[j] == x;
    GetAt(buckets, j);
  }

  /** Every non-blank super-category some node carries has its `totals` line. */
  lemma TotalsHasBucket(ns: seq<Node>, threshold: real, sorted: Table<Stat>, g: string)
    requires multiset(sorted) == multiset(FoldNodes(Empty, ns, threshold).categoryTimes)
    requires !IsBlank(g)
    requires SuperSeen(ns, g)
    ensures exists l :: l in Visible(SortDesc(SuperTotals(sorted), PairSelf)) && l.name == g
  {
    var buckets := SuperTotals(sorted);
    var shown := SortDesc(buckets, PairSelf);
    PermutationMembers(buckets, shown);
    var i :| 0 <= i < |ns| && SuperCategory(ns[i].category) == Some(g);
    assert Falls(ns[i].category, g);
    BucketOfNodes(ns, threshold, sorted, g);
    var x := (g, Get(buckets, g).value);
    GetMember(buckets, g);
    assert x in shown;
    assert PairLine(x) in Visible(shown);
  }

  /** The `long_blocks` section: one entry `(identifier, self time)` for each
      node whose self time is strictly above the threshold, and nothing
      else, from the largest self time down. */
  lemma ReportLongBlocks(root: Node, threshold: real, printTime: real)
    ensures multiset(PrintMeasuredResults(root, threshold, printTime).longBlocks) == multiset(AsLongCalls(Slow(PostOrder(root), threshold)))
    ensures forall c :: c in PrintMeasuredResults(root, threshold, printTime).longBlocks <==>
              exists m :: m in PostOrder(root) && SelfTime(m) > threshold && c == AsLongCall(m)
    ensures NonIncreasing(PrintMeasuredResults(root, threshold, printTime).longBlocks, CallTime)
  {
    var ns := PostOrder(root);
    var slow := Slow(ns, threshold);
    var r := PrintMeasuredResults(root, threshold, printTime);
    ReportSource(root, threshold, printTime);
    assert r.longBlocks == SortDesc(FoldNodes(Empty, ns, threshold).longCalls, CallTime);
    LongCallsAggregate(ns, threshold);
    PermutationMembers(r.longBlocks, AsLongCalls(slow));
    forall c ensures c in r.longBlocks <==> exists m :: m in ns && SelfTime(m) > threshold && c == AsLongCall(m) {
      LongCallMember(ns, threshold, c);
    }
  }

  lemma LongCallMember(ns: seq<Node>, threshold: real, c: LongCall)
    ensures c in AsLongCalls(Slow(ns, threshold)) <==>
            exists m :: m in ns && SelfTime(m) > threshold && c == AsLongCall(m)
  {
    var slow := Slow(ns, threshold);
    if c in AsLongCalls(slow) {
      var i :| 0 <= i < |slow| && AsLongCalls(slow)[i] == c;
      SlowMembers(ns, threshold, slow[i]);
    }
    if exists m :: m in ns && SelfTime(m) > threshold && c == AsLongCall(m) {
      var m :| m in ns && SelfTime(m) > threshold && c == AsLongCall(m);
      SlowMembers(ns, threshold, m);
      assert m in slow;
      var i :| 0 <= i < |slow| && slow[i] == m;
      assert AsLongCalls(slow)[i] == c;
    }
  }
}
