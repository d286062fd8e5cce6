/** `print_measured_results` of the WatchfulGuerilla engine: the category
    table sorted by block time, the TOTALS and SBN TOTALS lines, and the long
    calls sorted by pure time. The report is the list of values printed,
    without their text formatting. */
module GuerillaReport {
  import opened Text
  import opened Tables
  import opened Sums
  import opened Sorting
  import opened GuerillaNode
  import opened GuerillaAggregate

  /** Unmarked (pure) time and overhead, as on a TOTALS line. */
  datatype Totals = Totals(pureTime: real, overheadTime: real)

  datatype Report = Report(
    categories: Table<Times>,
    totals: Totals,
    sbnTotals: Totals,
    longCalls: seq<LongCall>)

  function BlockTimeOf(e: (string, Times)): real
  {
    e.1.blockTime
  }

  /** Categories the SBN TOTALS line covers. */
  predicate IsSbn(c: string)
  {
    StartsWith(c, "(SBN):")
  }

  predicate Everything(c: string)
  {
    true
  }

  /** The running sums of the printing loop, over the categories that pass
      `keep`, in the order the loop visits them. */
  function Tally(entries: Table<Times>, keep: string -> bool): Totals
  {
    if |entries| == 0 then Totals(0.0, 0.0)
    else
      var before := Tally(entries[..|entries| - 1], keep);
      var e := entries[|entries| - 1];
      if keep(e.0) then Totals(before.pureTime + e.1.pureTime, before.overheadTime + e.1.overheadTime)
      else before
  }

  /** The loop's running sums end as the column sums over the kept
      categories. */
  lemma {:induction false} TallyIsSum(entries: Table<Times>, keep: string -> bool)
    ensures Tally(entries, keep) == Totals(SumOf(entries, EntryPureIf(keep)), SumOf(entries, EntryOverheadIf(keep)))
    decreases |entries|
  {
    if |entries| > 0 {
      var init := entries[..|entries| - 1];
      var e := entries[|entries| - 1];
      assert entries == init + [e];
      TallyIsSum(init, keep);
      SumSnoc(init, e, EntryPureIf(keep));
      SumSnoc(init, e, EntryOverheadIf(keep));
    }
  }

  /** `print_measured_results`: categories by block time, largest first;
      totals over all categories and over the SBN ones; long calls by pure
      time, largest first. */
  function PrintMeasuredResults(agg: Agg): Report
  {
    var sorted := SortDesc(agg.categoryTimes, BlockTimeOf);
    Report(sorted, Tally(sorted, Everything), Tally(sorted, IsSbn), SortDesc(agg.longCalls, CallTime))
  }

  /** The report of the nodes `ns`: each category a node had appears exactly
      once, with the sums of its nodes' block time less overhead, pure time
      and overhead, and no other category appears; the rows run from the
      largest block time down. */
  lemma ReportCategories(ns: seq<Node>, threshold: real, c: string)
    ensures Get(PrintMeasuredResults(FoldNodes(Empty, ns, threshold)).categories, c)
         == if CategorySeen(ns, c)
            then Some(Times(SumOf(ns, BlockIn(c)), SumOf(ns, PureIn(c)), SumOf(ns, OverheadIn(c))))
            else None
    ensures DistinctKeys(PrintMeasuredResults(FoldNodes(Empty, ns, threshold)).categories)
    ensures NonIncreasing(PrintMeasuredResults(FoldNodes(Empty, ns, threshold)).categories, BlockTimeOf)
  {
    var t := FoldNodes(Empty, ns, threshold).categoryTimes;
    TableDistinct(ns, threshold);
    CategoryAggregate(ns, threshold, c);
    GetPermutation(t, SortDesc(t, BlockTimeOf), c);
    DistinctPermutation(t, SortDesc(t, BlockTimeOf));
  }

  lemma PureIfEverything(ns: seq<Node>)
    ensures SumOf(ns, PureIf(Everything)) == SumOf(ns, PureTime)
    ensures SumOf(ns, OverheadIf(Everything)) == SumOf(ns, OverheadOf)
  {
    forall i | 0 <= i < |ns|
      ensures PureIf(Everything)(ns[i]) == PureTime(ns[i])
      ensures OverheadIf(Everything)(ns[i]) == OverheadOf(ns[i])
    {
      assert Everything(ns[i].category);
    }
    SumPointwise(ns, PureIf(Everything), PureTime);
    SumPointwise(ns, OverheadIf(Everything), OverheadOf);
  }

  /** One totals line over the categories that pass `keep`: the pure times
      and the overheads of exactly the nodes in those categories. */
  lemma LineTotals(ns: seq<Node>, threshold: real, keep: string -> bool)
    ensures Tally(SortDesc(FoldNodes(Empty, ns, threshold).categoryTimes, BlockTimeOf), keep)
         == Totals(SumOf(ns, PureIf(keep)), SumOf(ns, OverheadIf(keep)))
  {
    var t := FoldNodes(Empty, ns, threshold).categoryTimes;
    var sorted := SortDesc(t, BlockTimeOf);
    TallyIsSum(sorted, keep);
    SumPermutation(sorted, t, EntryPureIf(keep));
    SumPermutation(sorted, t, EntryOverheadIf(keep));
    TableTotals(ns, threshold, keep);
  }

  /** TOTALS is the pure time and the overhead of every node aggregated;
      SBN TOTALS the same over the nodes whose category starts with
      `(SBN):`. */
  lemma ReportTotals(ns: seq<Node>, threshold: real)
    ensures PrintMeasuredResults(FoldNodes(Empty, ns, threshold)).totals
         == Totals(SumOf(ns, PureTime), SumOf(ns, OverheadOf))
    ensures PrintMeasuredResults(FoldNodes(Empty, ns, threshold)).sbnTotals
         == Totals(SumOf(ns, PureIf(IsSbn)), SumOf(ns, OverheadIf(IsSbn)))
  {
    LineTotals(ns, threshold, Everything);
    LineTotals(ns, threshold, IsSbn);
    PureIfEverything(ns);
  }

  /** The long calls listed are `[identifier, pure_time]` of exactly the
      nodes whose pure time is strictly above the threshold, each as often
      as it was recorded, from the largest pure time down. */
  lemma ReportLongCalls(ns: seq<Node>, threshold: real)
    ensures multiset(PrintMeasuredResults(FoldNodes(Empty, ns, threshold)).longCalls)
         == multiset(AsLongCalls(Slow(ns, threshold)))
    ensures NonIncreasing(PrintMeasuredResults(FoldNodes(Empty, ns, threshold)).longCalls, CallTime)
    ensures forall l :: l in PrintMeasuredResults(FoldNodes(Empty, ns, threshold)).longCalls
                   <==> exists m :: m in ns && PureTime(m) > threshold && l == AsLongCall(m)
  {
    var calls := FoldNodes(Empty, ns, threshold).longCalls;
    var sorted := SortDesc(calls, CallTime);
    LongCallsAggregate(ns, threshold);
    SlowCalls(ns, threshold);
    forall l ensures l in sorted <==> l in calls {
      PermutationMembers(calls, sorted);
    }
  }

  /** A long call is recorded exactly for the slow nodes. */
  lemma SlowCalls(ns: seq<Node>, threshold: real)
    ensures forall l :: l in AsLongCalls(Slow(ns, threshold))
                   <==> exists m :: m in ns && PureTime(m) > threshold && l == AsLongCall(m)
  {
    var slow := Slow(ns, threshold);
    forall l ensures l in AsLongCalls(slow) <==> exists m :: m in ns && PureTime(m) > threshold && l == AsLongCall(m)
    {
      if l in AsLongCalls(slow) {
        var i :| 0 <= i < |slow| && AsLongCalls(slow)[i] == l;
        SlowMembers(ns, threshold, slow[i]);
      }
      if exists m :: m in ns && PureTime(m) > threshold && l == AsLongCall(m) {
        var m :| m in ns && PureTime(m) > threshold && l == AsLongCall(m);
        SlowMembers(ns, threshold, m);
        var i :| 0 <= i < |slow| && slow[i] == m;
        assert AsLongCalls(slow)[i] == l;
      }
    }
  }
}
