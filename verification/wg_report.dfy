/** `print_measured_results` of the WG engine, without the text rendering:
    the category table is sorted by self time and split into error blocks
    and blocks, super-category totals are accumulated (the empty name being
    the grand-total bucket), and long calls are sorted by self time. */
module WgReport {
  import opened Text
  import opened Tables
  import opened Sums
  import opened Sorting
  import opened WgTree
  import opened WgSuper

  /** One report line: a label with a self time and an overhead time. */
  datatype Line = Line(name: string, selfTime: real, overheadTime: real)

  /** The grand-totals line: the total, the self time, and the overhead time
      including the time spent building the report. */
  datatype GrandTotal = GrandTotal(total: real, selfTime: real, overheadTime: real)

  datatype Report = Report(
    grandTotals: GrandTotal,
    totals: seq<Line>,
    blocks: seq<Line>,
    errors: seq<Line>,
    longBlocks: seq<LongCall>)

  /** A `@super_category_times` value `[self, overhead]`. */
  datatype Pair = Pair(selfTime: real, overheadTime: real)

  function LineOf(e: (string, Stat)): Line
  {
    Line(e.0, e.1.selfTime, e.1.overheadTime)
  }

  function StatSelf(e: (string, Stat)): real
  {
    e.1.selfTime
  }

  function PairSelf(e: (string, Pair)): real
  {
    e.1.selfTime
  }

  function LineSelf(l: Line): real
  {
    l.selfTime
  }

  predicate DistinctNames(ls: seq<Line>)
  {
    forall i, j :: 0 <= i < j < |ls| ==> ls[i].name != ls[j].name
  }

  /** The lines of the entries whose errored flag is `errored`, in order:
      one half of the loop that sends each category to `errors` or
      `blocks`. */
  function Pick(entries: Table<Stat>, errored: bool): (r: seq<Line>)
    ensures forall l :: l in r <==> exists e :: e in entries && e.1.errored == errored && l == LineOf(e)
    ensures NonIncreasing(entries, StatSelf) ==> NonIncreasing(r, LineSelf)
    ensures |r| <= |entries|
  {
    var keep := (e: (string, Stat)) => e.1.errored == errored;
    assert NonIncreasing(entries, StatSelf) ==> NonIncreasing(Select(entries, keep, LineOf), LineSelf) by {
      if NonIncreasing(entries, StatSelf) {
        SelectOrdered(entries, keep, LineOf, StatSelf, LineSelf);
      }
    }
    Select(entries, keep, LineOf)
  }

  /** `errors` and `blocks` together hold one line per entry. */
  lemma {:induction false} PickCount(entries: Table<Stat>)
    ensures |Pick(entries, true)| + |Pick(entries, false)| == |entries|
    decreases |entries|
  {
    if |entries| > 0 {
      PickCount(entries[1..]);
    }
  }

  lemma ConsDistinct(y: Line, xs: seq<Line>)
    requires DistinctNames(xs)
    requires forall l :: l in xs ==> l.name != y.name
    ensures DistinctNames([y] + xs)
  {
    var all := [y] + xs;
    forall i, j | 0 <= i < j < |all| ensures all[i].name != all[j].name {
      assert all[j] == xs[j - 1];
      if i > 0 {
        assert all[i] == xs[i - 1];
      }
    }
  }

  lemma MiddleDistinct(y: Line, a: seq<Line>, b: seq<Line>)
    requires DistinctNames(a + b)
    requires forall l :: l in a + b ==> l.name != y.name
    ensures DistinctNames(a + ([y] + b))
  {
    var ab := a + b;
    var all := a + ([y] + b);
    forall i, j | 0 <= i < j < |all| ensures all[i].name != all[j].name {
      if i == |a| {
        assert all[j] == ab[j - 1];
      } else if j == |a| {
        assert all[i] == ab[i];
      } else {
        var i' := if i < |a| then i else i - 1;
        var j' := if j < |a| then j else j - 1;
        assert all[i] == ab[i'] && all[j] == ab[j'];
      }
    }
  }

  /** With distinct keys, no name occurs twice across `errors ++ blocks`. */
  lemma {:induction false} PickDistinct(entries: Table<Stat>)
    requires DistinctKeys(entries)
    ensures DistinctNames(Pick(entries, true) + Pick(entries, false))
    decreases |entries|
  {
    if |entries| > 0 {
      var rest := entries[1..];
      var er := Pick(rest, true);
      var br := Pick(rest, false);
      var line := LineOf(entries[0]);
      HeadFresh(entries);
      PickDistinct(rest);
      if entries[0].1.errored {
        ConsDistinct(line, er + br);
        assert Pick(entries, true) + Pick(entries, false) == [line] + (er + br);
      } else {
        MiddleDistinct(line, er, br);
      }
    }
  }

  /** The first entry's name is not among the lines picked from the rest. */
  lemma HeadFresh(entries: Table<Stat>)
    requires DistinctKeys(entries) && |entries| > 0
    ensures DistinctKeys(entries[1..])
    ensures forall l :: l in Pick(entries[1..], true) + Pick(entries[1..], false) ==> l.name != entries[0].0
  {
    var rest := entries[1..];
    assert forall i :: 0 <= i < |rest| ==> rest[i] == entries[i + 1];
    forall l | l in Pick(rest, true) + Pick(rest, false) ensures l.name != entries[0].0 {
      var e :| e in rest && l == LineOf(e);
      var i :| 0 <= i < |rest| && rest[i] == e;
    }
  }

  const NoTime := Pair(0.0, 0.0)

  /** A bucket value with the given times added. */
  function AddTimes(p: Pair, selfTime: real, overheadTime: real): Pair
  {
    Pair(p.selfTime + selfTime, p.overheadTime + overheadTime)
  }

  /** `increment_summary_category`: adds to the named bucket of
      `@super_category_times`, creating it at `[0, 0]` on first use, and
      leaves every other bucket as it was. */
  function IncrementSummary(t: Table<Pair>, bucket: string, selfTime: real, overheadTime: real): (r: Table<Pair>)
    ensures Get(r, bucket) == Some(AddTimes(BucketOr(t, bucket), selfTime, overheadTime))
    ensures forall k :: k != bucket ==> Get(r, k) == Get(t, k)
  {
    Put(t, bucket, AddTimes(BucketOr(t, bucket), selfTime, overheadTime))
  }

  /** The categories whose times go into bucket `g`: every category for the
      grand-total bucket `""`, and for any other name the categories whose
      super-category is that name. */
  predicate Falls(c: string, g: string)
  {
    g == "" || SuperCategory(c) == Some(g)
  }

  function InBucket(g: string): string -> bool
  {
    (c: string) => Falls(c, g)
  }

  predicate BucketSeen(entries: Table<Stat>, g: string)
  {
    exists i :: 0 <= i < |entries| && InBucket(g)(entries[i].0)
  }

  /** One pass of the super-category loop body as the code is written: the
      entry is added to `""`, and then to its super-category whenever the
      pattern matched, even when the captured name is itself `""`. */
  function AddToBucketsAsWritten(t: Table<Pair>, e: (string, Stat)): Table<Pair>
  {
    var all := IncrementSummary(t, "", e.1.selfTime, e.1.overheadTime);
    var g := SuperCategory(e.0);
    if g.Some? then IncrementSummary(all, g.value, e.1.selfTime, e.1.overheadTime) else all
  }

  /** The loop body with an empty captured name not added a second time to
      the grand-total bucket. */
  function AddToBuckets(t: Table<Pair>, e: (string, Stat)): Table<Pair>
  {
    AddUnder(t, e, SuperCategory(e.0))
  }

  /** The corrected loop body for an entry whose super-category match is
      `sc`. */
  function AddUnder(t: Table<Pair>, e: (string, Stat), sc: Option<string>): Table<Pair>
  {
    var all := IncrementSummary(t, "", e.1.selfTime, e.1.overheadTime);
    if sc.Some? && sc.value != "" then IncrementSummary(all, sc.value, e.1.selfTime, e.1.overheadTime) else all
  }

  function SuperTotalsAsWritten(entries: Table<Stat>): Table<Pair>
  {
    if |entries| == 0 then []
    else AddToBucketsAsWritten(SuperTotalsAsWritten(entries[..|entries| - 1]), entries[|entries| - 1])
  }

  /** The loop over the sorted category entries, filling
      `@super_category_times`. */
  function SuperTotals(entries: Table<Stat>): Table<Pair>
  {
    if |entries| == 0 then []
    else AddToBuckets(SuperTotals(entries[..|entries| - 1]), entries[|entries| - 1])
  }

  function AddEntry(p: Pair, e: (string, Stat)): Pair
  {
    AddTimes(p, e.1.selfTime, e.1.overheadTime)
  }

  /** The corrected loop body adds the entry to exactly the buckets it falls
      in and leaves every other bucket alone. */
  lemma AddToBucketsGet(t: Table<Pair>, e: (string, Stat), g: string)
    ensures Get(AddToBuckets(t, e), g)
         == if Falls(e.0, g) then Some(AddEntry(BucketOr(t, g), e)) else Get(t, g)
  {
    AddUnderGet(t, e, SuperCategory(e.0), g);
  }

  lemma AddUnderGet(t: Table<Pair>, e: (string, Stat), sc: Option<string>, g: string)
    ensures Get(AddUnder(t, e, sc), g)
         == if g == "" || sc == Some(g) then Some(AddEntry(BucketOr(t, g), e)) else Get(t, g)
  {
  }

  /** The loop body keeps bucket names distinct. */
  lemma AddToBucketsDistinct(t: Table<Pair>, e: (string, Stat))
    requires DistinctKeys(t)
    ensures DistinctKeys(AddToBuckets(t, e))
  {
  }

  lemma {:induction false} SuperTotalsDistinct(entries: Table<Stat>)
    ensures DistinctKeys(SuperTotals(entries))
    decreases |entries|
  {
    if |entries| > 0 {
      SuperTotalsDistinct(entries[..|entries| - 1]);
      AddToBucketsDistinct(SuperTotals(entries[..|entries| - 1]), entries[|entries| - 1]);
    }
  }

  lemma {:induction false} UnseenBucketZero(entries: Table<Stat>, g: string)
    requires !BucketSeen(entries, g)
    ensures SumOf(entries, EntrySelfIf(InBucket(g))) == 0.0
    ensures SumOf(entries, EntryOverheadIf(InBucket(g))) == 0.0
    decreases |entries|
  {
    if |entries| > 0 {
      assert !InBucket(g)(entries[0].0);
      assert !BucketSeen(entries[1..], g) by {
        assert forall i :: 0 <= i < |entries[1..]| ==> entries[1..][i] == entries[i + 1];
      }
      UnseenBucketZero(entries[1..], g);
    }
  }

  lemma BucketSeenSnoc(entries: Table<Stat>, e: (string, Stat), g: string)
    ensures BucketSeen(entries + [e], g) <==> BucketSeen(entries, g) || InBucket(g)(e.0)
  {
    assert (entries + [e])[|entries|] == e;
    assert forall i :: 0 <= i < |entries| ==> (entries + [e])[i] == entries[i];
  }

  /** The bucket's value, or `[0, 0]` when the bucket is absent. */
  function BucketOr(t: Table<Pair>, g: string): Pair
  {
    Get(t, g).GetOr(NoTime)
  }

  /** What bucket `g` should hold after the entries were added. */
  function BucketExpected(entries: Table<Stat>, g: string): Option<Pair>
  {
    if BucketSeen(entries, g)
    then Some(Pair(SumOf(entries, EntrySelfIf(InBucket(g))), SumOf(entries, EntryOverheadIf(InBucket(g)))))
    else None
  }

  /** Adding an entry that falls in `g` adds its times to the bucket. */
  lemma BucketExpectedIn(init: Table<Stat>, e: (string, Stat), g: string)
    requires Falls(e.0, g)
    ensures BucketExpected(init + [e], g) == Some(AddEntry(BucketExpected(init, g).GetOr(NoTime), e))
  {
    BucketSeenSnoc(init, e, g);
    SumSnoc(init, e, EntrySelfIf(InBucket(g)));
    SumSnoc(init, e, EntryOverheadIf(InBucket(g)));
    if !BucketSeen(init, g) {
      UnseenBucketZero(init, g);
    }
  }

  /** Adding an entry that does not fall in `g` leaves the bucket be. */
  lemma BucketExpectedOut(init: Table<Stat>, e: (string, Stat), g: string)
    requires !Falls(e.0, g)
    ensures BucketExpected(init + [e], g) == BucketExpected(init, g)
  {
    BucketSeenSnoc(init, e, g);
    SumSnoc(init, e, EntrySelfIf(InBucket(g)));
    SumSnoc(init, e, EntryOverheadIf(InBucket(g)));
  }

  /** Each bucket of the corrected super-category table: present exactly when
      some entry falls in it, and then holding the sums of the self and
      overhead times of the entries that do. So the grand-total bucket adds
      every entry once. */
  lemma {:induction false} SuperBucket(entries: Table<Stat>, g: string)
    ensures Get(SuperTotals(entries), g)
         == if BucketSeen(entries, g)
            then Some(Pair(SumOf(entries, EntrySelfIf(InBucket(g))), SumOf(entries, EntryOverheadIf(InBucket(g)))))
            else None
    decreases |entries|
  {
    if |entries| > 0 {
      var init := entries[..|entries| - 1];
      var e := entries[|entries| - 1];
      assert entries == init + [e];
      SuperBucket(init, g);
      AddToBucketsGet(SuperTotals(init), e, g);
      if Falls(e.0, g) {
        BucketExpectedIn(init, e, g);
      } else {
        BucketExpectedOut(init, e, g);
      }
    }
  }

  /** The regular expression captures an empty name from "(): x". */
  lemma EmptySuperCategory()
    ensures SuperCategory("(): x") == Some("")
  {
    var s := "(): x";
    assert CloseAt(s, 1);
    assert RunEnd(s, 1) == 5 by {
      assert RunEnd(s, 5) == 5;
      assert RunEnd(s, 4) == 5;
      assert RunEnd(s, 3) == 5;
      assert RunEnd(s, 2) == 5;
    }
    assert LastClose(s, 0, 5) == Some(1) by {
      assert LastClose(s, 0, 1) == Some(1);
      assert !CloseAt(s, 2) && !CloseAt(s, 3) && !CloseAt(s, 4) && !CloseAt(s, 5);
    }
    assert MatchFrom(s, 0) == Some(1);
    assert FirstMatch(s, 0) == Some((0, 1));
    assert SuperCategory(s) == Some(s[1..1]);
    assert s[1..1] == "";
  }

  /** As written, a category whose parenthesised part is empty is added to
      the grand-total bucket twice: one category with self time 1 yields a
      grand self time of 2. The corrected loop counts it once. */
  lemma SuperTotalsDoubleCount()
    ensures Get(SuperTotalsAsWritten([("(): x", Stat(1.0, 0.0, false))]), "") == Some(Pair(2.0, 0.0))
    ensures Get(SuperTotals([("(): x", Stat(1.0, 0.0, false))]), "") == Some(Pair(1.0, 0.0))
  {
    var entries := [("(): x", Stat(1.0, 0.0, false))];
    EmptySuperCategory();
    assert entries[..0] == [];
  }

  /** The categories from which the pattern captures an empty
      super-category name, such as `"(): x"`. */
  predicate CapturesEmpty(c: string)
  {
    SuperCategory(c) == Some("")
  }

  /** The loop body as written touches the same buckets as the corrected
      one, except that an entry whose captured name is empty is added to
      `""` a second time. */
  lemma AddToBucketsAsWrittenGet(t: Table<Pair>, e: (string, Stat), g: string)
    ensures Get(AddToBucketsAsWritten(t, e), g)
         == if g == "" && CapturesEmpty(e.0) then Some(AddEntry(AddEntry(BucketOr(t, ""), e), e))
            else Get(AddToBuckets(t, e), g)
  {
    AddToBucketsGet(t, e, g);
  }

  /** The super-category table the loop builds as written, for any entries:
      every named bucket is what the corrected loop gives, and the
      grand-total bucket `""` additionally holds, a second time, the times
      of every entry whose captured name is empty. */
  lemma SuperBucketAsWritten(entries: Table<Stat>, g: string)
    ensures g != "" ==> Get(SuperTotalsAsWritten(entries), g) == Get(SuperTotals(entries), g)
    ensures Get(SuperTotalsAsWritten(entries), "")
         == if |entries| == 0 then None
            else Some(AddTimes(BucketOr(SuperTotals(entries), ""),
                               SumOf(entries, EntrySelfIf(CapturesEmpty)),
                               SumOf(entries, EntryOverheadIf(CapturesEmpty))))
  {
    if g != "" {
      NamedBucketAsWritten(entries, g);
    }
    GrandBucketAsWritten(entries);
  }

  lemma {:induction false} NamedBucketAsWritten(entries: Table<Stat>, g: string)
    requires g != ""
    ensures Get(SuperTotalsAsWritten(entries), g) == Get(SuperTotals(entries), g)
    decreases |entries|
  {
    if |entries| > 0 {
      var init := entries[..|entries| - 1];
      var e := entries[|entries| - 1];
      NamedBucketAsWritten(init, g);
      AddToBucketsAsWrittenGet(SuperTotalsAsWritten(init), e, g);
      AddToBucketsGet(SuperTotalsAsWritten(init), e, g);
      AddToBucketsGet(SuperTotals(init), e, g);
    }
  }

  lemma {:induction false} GrandBucketAsWritten(entries: Table<Stat>)
    ensures Get(SuperTotalsAsWritten(entries), "")
         == if |entries| == 0 then None
            else Some(AddTimes(BucketOr(SuperTotals(entries), ""),
                               SumOf(entries, EntrySelfIf(CapturesEmpty)),
                               SumOf(entries, EntryOverheadIf(CapturesEmpty))))
    decreases |entries|
  {
    if |entries| > 0 {
      var init := entries[..|entries| - 1];
      var e := entries[|entries| - 1];
      assert entries == init + [e];
      GrandBucketAsWritten(init);
      var a := SuperTotalsAsWritten(init);
      var c := SuperTotals(init);
      var sa := SumOf(init, EntrySelfIf(CapturesEmpty));
      var oa := SumOf(init, EntryOverheadIf(CapturesEmpty));
      assert BucketOr(a, "") == AddTimes(BucketOr(c, ""), sa, oa) by {
        if |init| == 0 {
          assert a == [] && c == [];
        }
      }
      assert SuperTotalsAsWritten(entries) == AddToBucketsAsWritten(a, e);
      assert SuperTotals(entries) == AddToBuckets(c, e);
      GrandStep(a, c, e, sa, oa);
      SumSnoc(init, e, EntrySelfIf(CapturesEmpty));
      SumSnoc(init, e, EntryOverheadIf(CapturesEmpty));
      assert SumOf(entries, EntrySelfIf(CapturesEmpty)) == sa + EntrySelfIf(CapturesEmpty)(e);
      assert SumOf(entries, EntryOverheadIf(CapturesEmpty)) == oa + EntryOverheadIf(CapturesEmpty)(e);
    }
  }

  /** One step of the loop on the grand-total bucket: a surplus over the
      corrected value grows by the entry's times when its captured name is
      empty. */
  lemma GrandStep(a: Table<Pair>, c: Table<Pair>, e: (string, Stat), selfTime: real, overheadTime: real)
    requires BucketOr(a, "") == AddTimes(BucketOr(c, ""), selfTime, overheadTime)
    ensures Get(AddToBucketsAsWritten(a, e), "")
         == Some(AddTimes(BucketOr(AddToBuckets(c, e), ""),
                          selfTime + EntrySelfIf(CapturesEmpty)(e),
                          overheadTime + EntryOverheadIf(CapturesEmpty)(e)))
  {
    AddToBucketsAsWrittenGet(a, e, "");
    AddToBucketsGet(a, e, "");
    AddToBucketsGet(c, e, "");
  }

  function PairLine(e: (string, Pair)): Line
  {
    Line(e.0, e.1.selfTime, e.1.overheadTime)
  }

  /** The `totals` section: one line per bucket whose name is not blank, in
      the order of the buckets. */
  function Visible(buckets: Table<Pair>): (r: seq<Line>)
    ensures forall l :: l in r <==> exists e :: e in buckets && !IsBlank(e.0) && l == PairLine(e)
    ensures NonIncreasing(buckets, PairSelf) ==> NonIncreasing(r, LineSelf)
  {
    var keep := (e: (string, Pair)) => !IsBlank(e.0);
    assert NonIncreasing(buckets, PairSelf) ==> NonIncreasing(Select(buckets, keep, PairLine), LineSelf) by {
      if NonIncreasing(buckets, PairSelf) {
        SelectOrdered(buckets, keep, PairLine, PairSelf, LineSelf);
      }
    }
    Select(buckets, keep, PairLine)
  }

  /** The grand-totals line read from the `""` bucket, with the report's own
      running time `printTime` added to the total and to the overhead. */
  function GrandTotalOf(buckets: Table<Pair>, printTime: real): GrandTotal
  {
    var grand := BucketOr(buckets, "");
    GrandTotal(grand.selfTime + grand.overheadTime + printTime, grand.selfTime, grand.overheadTime + printTime)
  }

  /** A grand-totals line with extra self and overhead time counted in. */
  function Surplus(g: GrandTotal, selfTime: real, overheadTime: real): GrandTotal
  {
    GrandTotal(g.total + selfTime + overheadTime, g.selfTime + selfTime, g.overheadTime + overheadTime)
  }

  /** The grand-totals line the loop as written yields exceeds the corrected
      one by the times of the entries whose captured name is empty. */
  lemma GrandTotalOfAsWritten(entries: Table<Stat>, printTime: real)
    ensures GrandTotalOf(SuperTotalsAsWritten(entries), printTime)
         == Surplus(GrandTotalOf(SuperTotals(entries), printTime),
                    SumOf(entries, EntrySelfIf(CapturesEmpty)), SumOf(entries, EntryOverheadIf(CapturesEmpty)))
  {
    SuperBucketAsWritten(entries, "");
  }

  /** The report built from the accumulators `sumarize` leaves: the category
      table sorted by self time (descending) and split into `errors` and
      `blocks`, the buckets filled in that order and sorted likewise for
      `totals`, the long calls sorted by self time, and the grand-totals line
      read from the `""` bucket, with the report's own running time
      `printTime` added to the total and to the overhead. */
  function ReportOf(agg: Agg, printTime: real): Report
  {
    var sorted := SortDesc(agg.categoryTimes, StatSelf);
    var buckets := SuperTotals(sorted);
    Report(
      GrandTotalOf(buckets, printTime),
      Visible(SortDesc(buckets, PairSelf)),
      Pick(sorted, false),
      Pick(sorted, true),
      SortDesc(agg.longCalls, CallTime))
  }

  /** `print_measured_results` without the rendering: `sumarize` from empty
      accumulators, then the report. */
  function PrintMeasuredResults(root: Node, threshold: real, printTime: real): Report
  {
    ReportOf(Summarize(root, Empty, threshold).1, printTime)
  }
}
