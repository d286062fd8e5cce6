/** `measure` of the WatchfulGuerilla engine, with the gate and threshold
    read from the attributes the setters write. Running a block under the
    engine yields, besides the block's own outcome, the wall time it took,
    the nodes the block's measured calls closed at this level (each with
    its subtree), the overhead those calls charge to the enclosing node, the
    accumulators, and the accumulator states printed by top-level calls.

    `nested` says whether a root node is open (`@root` present); `@top`
    is the node whose block is running, so linking a node to its parent is
    returning it in `closed`, and restoring `@top` afterwards is the return
    from the nested run. */
module GuerillaMeasure {
  import opened Tables
  import opened Sums
  import opened Blocks
  import opened GuerillaNode
  import opened GuerillaAggregate
  import opened GuerillaReport
  import opened GuerillaConfig

  datatype Step = Step(
    outcome: Outcome,
    elapsed: real,
    closed: seq<Node>,
    charge: real,
    agg: Agg,
    printed: seq<Agg>)

  /** A block run under the engine. It ends exactly as it would without the
      engine, and only a top-level `measure` call prints. */
  function Run(s: Settings, nested: bool, agg: Agg, w: Work): (r: Step)
    ensures r.outcome == Exec(w).outcome
    ensures nested ==> r.printed == []
    decreases w, 0
  {
    match w
    case Compute(d, v) => Step(Returned(v), d, [], 0.0, agg, [])
    case Fail(d, e) => Step(Raised(e), d, [], 0.0, agg, [])
    case Then(a, b) =>
      var ra := Run(s, nested, agg, a);
      if ra.outcome.Raised? then ra
      else
        var rb := Run(s, nested, ra.agg, b);
        Step(rb.outcome, ra.elapsed + rb.elapsed, ra.closed + rb.closed, ra.charge + rb.charge, rb.agg, ra.printed + rb.printed)
    case Rescue(b, fallback) =>
      var rb := Run(s, nested, agg, b);
      if rb.outcome.Raised? then rb.(outcome := Returned(fallback)) else rb
    case Measured(category, identifiers, body, costs) =>
      if MeasureGate(s) then MeasureCall(s, nested, agg, category, identifiers, body, costs)
      else Run(s, nested, agg, body)
  }

  /** One measured call. A root call starts the accumulators afresh; the
      block runs with the new node on top; the node takes the block's wall
      time, the overhead its children charged and the exception the block
      raised, if any, and is aggregated; a nested call charges the parent
      its outer time less its block time, and a root call prints. The
      block's outcome is passed on, so an exception is raised again. */
  function MeasureCall(s: Settings, nested: bool, agg: Agg, category: string, identifiers: seq<string>, body: Work, costs: Costs): (r: Step)
    ensures r.outcome == Exec(body).outcome
    ensures |r.closed| == 1
    ensures nested ==> r.printed == []
    decreases body, 1
  {
    var start := if nested then agg else Empty;
    var inner := Run(s, true, start, body);
    var node := Node(category, identifiers, inner.closed, inner.elapsed, inner.charge,
                     if inner.outcome.Raised? then Some(inner.outcome.error) else None);
    var done := IncrementCategoryTime(inner.agg, node, Threshold(s));
    var outer := costs.enter + inner.elapsed + costs.leave + (if nested then 0.0 else costs.report + costs.output);
    Step(inner.outcome, outer, [node], if nested then outer - inner.elapsed else 0.0, done, if nested then [] else [done])
  }

  /** With measuring off the engine is invisible: the block takes its
      uninstrumented time, no node is made, nothing is charged, aggregated
      or printed. */
  lemma {:induction false} RunDisabled(s: Settings, nested: bool, agg: Agg, w: Work)
    requires !MeasureGate(s)
    ensures Run(s, nested, agg, w).elapsed == Exec(w).elapsed
    ensures Run(s, nested, agg, w).closed == [] && Run(s, nested, agg, w).charge == 0.0
    ensures Run(s, nested, agg, w).agg == agg && Run(s, nested, agg, w).printed == []
    decreases w
  {
    match w
    case Compute(_, _) =>
    case Fail(_, _) =>
    case Then(a, b) =>
      RunDisabled(s, nested, agg, a);
      RunDisabled(s, nested, agg, b);
    case Rescue(b, _) =>
      RunDisabled(s, nested, agg, b);
    case Measured(_, _, b, _) =>
      RunDisabled(s, nested, agg, b);
  }

  /** Below the top level a block's wall time is its own time, plus the
      block times of the nodes it closed, plus the overhead those calls
      charge. */
  lemma {:induction false} ElapsedSplit(s: Settings, agg: Agg, w: Work)
    requires MeasureGate(s)
    ensures Run(s, true, agg, w).elapsed == Exec(w).own + SumOf(Run(s, true, agg, w).closed, TotalOf) + Run(s, true, agg, w).charge
    decreases w
  {
    match w
    case Compute(_, _) =>
    case Fail(_, _) =>
    case Then(a, b) =>
      var ra := Run(s, true, agg, a);
      ElapsedSplit(s, agg, a);
      if ra.outcome.Returned? {
        ElapsedSplit(s, ra.agg, b);
        SumConcat(ra.closed, Run(s, true, ra.agg, b).closed, TotalOf);
      }
    case Rescue(b, _) =>
      ElapsedSplit(s, agg, b);
    case Measured(_, _, _, _) =>
      assert [Run(s, true, agg, w).closed[0]][1..] == [];
  }

  /** The node a measured call makes: it carries the call's category and
      identifiers and the exception the block raised, and its pure time is
      exactly the block's own time, whether or not the block raised. The
      call's outer time is the block time plus the entry and exit
      bookkeeping, plus, for a root call, computing and writing the report,
      all of which the engine times as the call's overhead. */
  lemma MeasureNode(s: Settings, nested: bool, agg: Agg, category: string, identifiers: seq<string>, body: Work, costs: Costs)
    requires MeasureGate(s)
    ensures MeasureCall(s, nested, agg, category, identifiers, body, costs).closed[0].category == category
    ensures MeasureCall(s, nested, agg, category, identifiers, body, costs).closed[0].identifiers == identifiers
    ensures MeasureCall(s, nested, agg, category, identifiers, body, costs).closed[0].exception
         == if Exec(body).outcome.Raised? then Some(Exec(body).outcome.error) else None
    ensures PureTime(MeasureCall(s, nested, agg, category, identifiers, body, costs).closed[0]) == Exec(body).own
    ensures MeasureCall(s, nested, agg, category, identifiers, body, costs).elapsed
         == costs.enter + costs.leave + MeasureCall(s, nested, agg, category, identifiers, body, costs).closed[0].totalTime
            + (if nested then 0.0 else costs.report + costs.output)
  {
    ElapsedSplit(s, if nested then agg else Empty, body);
  }

  /** Below the top level, the pure times of every node the block closed,
      at any depth, add up to the block's uninstrumented time outside its
      own code: every instant of caller code is some node's pure time
      exactly once. */
  lemma {:induction false} PureSum(s: Settings, agg: Agg, w: Work)
    requires MeasureGate(s)
    ensures SumOf(PostOrderAll(Run(s, true, agg, w).closed), PureTime) + Exec(w).own == Exec(w).elapsed
    decreases w
  {
    match w
    case Compute(_, _) =>
    case Fail(_, _) =>
    case Then(a, b) =>
      var ra := Run(s, true, agg, a);
      PureSum(s, agg, a);
      if ra.outcome.Returned? {
        var rb := Run(s, true, ra.agg, b);
        PureSum(s, ra.agg, b);
        PostOrderAllConcat(ra.closed, rb.closed);
        SumConcat(PostOrderAll(ra.closed), PostOrderAll(rb.closed), PureTime);
      }
    case Rescue(b, _) =>
      PureSum(s, agg, b);
    case Measured(category, identifiers, body, costs) =>
      var node := MeasureCall(s, true, agg, category, identifiers, body, costs).closed[0];
      MeasureNode(s, true, agg, category, identifiers, body, costs);
      PureSum(s, agg, body);
      PostOrderAllOne(node);
      SumSnoc(PostOrderAll(node.children), node, PureTime);
  }

  /** Below the top level, the overheads of every node the block closed, at
      any depth, plus what the block's calls charge upwards, are the
      engine's entry and exit bookkeeping inside the block. */
  lemma {:induction false} OverheadSum(s: Settings, agg: Agg, w: Work)
    requires MeasureGate(s)
    ensures SumOf(PostOrderAll(Run(s, true, agg, w).closed), OverheadOf) + Run(s, true, agg, w).charge == Bookkeeping(true, w)
    decreases w
  {
    match w
    case Compute(_, _) =>
    case Fail(_, _) =>
    case Then(a, b) =>
      var ra := Run(s, true, agg, a);
      OverheadSum(s, agg, a);
      if ra.outcome.Returned? {
        var rb := Run(s, true, ra.agg, b);
        OverheadSum(s, ra.agg, b);
        PostOrderAllConcat(ra.closed, rb.closed);
        SumConcat(PostOrderAll(ra.closed), PostOrderAll(rb.closed), OverheadOf);
      }
    case Rescue(b, _) =>
      OverheadSum(s, agg, b);
    case Measured(category, identifiers, body, costs) =>
      var node := MeasureCall(s, true, agg, category, identifiers, body, costs).closed[0];
      OverheadSum(s, agg, body);
      PostOrderAllOne(node);
      SumSnoc(PostOrderAll(node.children), node, OverheadOf);
  }

  /** Below the top level, every node is aggregated as it closes: the
      accumulators end as if the closed subtrees had been aggregated in
      post-order. */
  lemma {:induction false} AggregatedInPostOrder(s: Settings, agg: Agg, w: Work)
    ensures Run(s, true, agg, w).agg == FoldNodes(agg, PostOrderAll(Run(s, true, agg, w).closed), Threshold(s))
    decreases w
  {
    match w
    case Compute(_, _) =>
    case Fail(_, _) =>
    case Then(a, b) =>
      var ra := Run(s, true, agg, a);
      AggregatedInPostOrder(s, agg, a);
      if ra.outcome.Returned? {
        var rb := Run(s, true, ra.agg, b);
        AggregatedInPostOrder(s, ra.agg, b);
        PostOrderAllConcat(ra.closed, rb.closed);
        FoldConcat(agg, PostOrderAll(ra.closed), PostOrderAll(rb.closed), Threshold(s));
      }
    case Rescue(b, _) =>
      AggregatedInPostOrder(s, agg, b);
    case Measured(category, identifiers, body, costs) =>
      if MeasureGate(s) {
        var node := MeasureCall(s, true, agg, category, identifiers, body, costs).closed[0];
        AggregatedInPostOrder(s, agg, body);
        PostOrderAllOne(node);
        PostOrderStep(agg, node, Threshold(s));
      } else {
        AggregatedInPostOrder(s, agg, body);
      }
  }

  /** The accumulator states a list of roots print: each root's own
      subtree, aggregated from empty. */
  function RootReports(roots: seq<Node>, threshold: real): (r: seq<Agg>)
    ensures |r| == |roots|
    ensures forall i :: 0 <= i < |roots| ==> r[i] == FoldNodes(Empty, PostOrder(roots[i]), threshold)
  {
    if |roots| == 0 then [] else [FoldNodes(Empty, PostOrder(roots[0]), threshold)] + RootReports(roots[1..], threshold)
  }

  lemma RootReportsConcat(a: seq<Node>, b: seq<Node>, threshold: real)
    ensures RootReports(a + b, threshold) == RootReports(a, threshold) + RootReports(b, threshold)
  {
  }

  /** A root call prints what its own tree aggregates to, whatever the
      accumulators held before. */
  lemma RootCall(s: Settings, agg: Agg, category: string, identifiers: seq<string>, body: Work, costs: Costs)
    requires MeasureGate(s)
    ensures MeasureCall(s, false, agg, category, identifiers, body, costs).printed
         == [FoldNodes(Empty, PostOrder(MeasureCall(s, false, agg, category, identifiers, body, costs).closed[0]), Threshold(s))]
  {
    var node := MeasureCall(s, false, agg, category, identifiers, body, costs).closed[0];
    AggregatedInPostOrder(s, Empty, body);
    PostOrderStep(Empty, node, Threshold(s));
  }

  /** At the top level, each measured call is a root and prints exactly
      once, in order, the aggregation of its own tree alone. */
  lemma {:induction false} TopLevelPrints(s: Settings, agg: Agg, w: Work)
    requires MeasureGate(s)
    ensures Run(s, false, agg, w).printed == RootReports(Run(s, false, agg, w).closed, Threshold(s))
    decreases w
  {
    match w
    case Compute(_, _) =>
    case Fail(_, _) =>
    case Then(a, b) =>
      var ra := Run(s, false, agg, a);
      TopLevelPrints(s, agg, a);
      if ra.outcome.Returned? {
        TopLevelPrints(s, ra.agg, b);
        RootReportsConcat(ra.closed, Run(s, false, ra.agg, b).closed, Threshold(s));
      }
    case Rescue(b, _) =>
      TopLevelPrints(s, agg, b);
    case Measured(category, identifiers, body, costs) =>
      RootCall(s, agg, category, identifiers, body, costs);
  }

  /** A root's whole tree: its pure times add up to the block's
      uninstrumented time, and its overheads to the bookkeeping of every
      nested `measure` call. */
  lemma RootTree(s: Settings, agg: Agg, category: string, identifiers: seq<string>, body: Work, costs: Costs)
    requires MeasureGate(s)
    ensures SumOf(PostOrder(MeasureCall(s, false, agg, category, identifiers, body, costs).closed[0]), PureTime) == Exec(body).elapsed
    ensures SumOf(PostOrder(MeasureCall(s, false, agg, category, identifiers, body, costs).closed[0]), OverheadOf) == Bookkeeping(true, body)
  {
    var node := MeasureCall(s, false, agg, category, identifiers, body, costs).closed[0];
    MeasureNode(s, false, agg, category, identifiers, body, costs);
    PureSum(s, Empty, body);
    OverheadSum(s, Empty, body);
    SumSnoc(PostOrderAll(node.children), node, PureTime);
    SumSnoc(PostOrderAll(node.children), node, OverheadOf);
  }

  /** The TOTALS line a root call prints: the unmarked time is the time the
      block would take without the engine, and the overhead is the entry
      and exit bookkeeping of every nested `measure` call it made. This
      holds when the block raised too; the exception is raised again after
      printing. */
  lemma RootTotals(s: Settings, agg: Agg, category: string, identifiers: seq<string>, body: Work, costs: Costs)
    requires MeasureGate(s)
    ensures |MeasureCall(s, false, agg, category, identifiers, body, costs).printed| == 1
    ensures PrintMeasuredResults(MeasureCall(s, false, agg, category, identifiers, body, costs).printed[0]).totals
         == Totals(Exec(body).elapsed, Bookkeeping(true, body))
    ensures MeasureCall(s, false, agg, category, identifiers, body, costs).outcome == Exec(body).outcome
  {
    var node := MeasureCall(s, false, agg, category, identifiers, body, costs).closed[0];
    RootCall(s, agg, category, identifiers, body, costs);
    ReportTotals(PostOrder(node), Threshold(s));
    RootTree(s, agg, category, identifiers, body, costs);
  }
}
