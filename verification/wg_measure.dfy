/** `WG.measure`: the `top`/`root` stack discipline that builds the call tree
    while caller blocks run, and the report printed when the root closes.
    Node objects live on a heap, a sequence indexed in allocation order, so
    `top` and `root` are optional heap positions as in the Ruby. Clock
    readings come from the block and its `Costs`. */
module WgMeasure {
  import opened Tables
  import opened Blocks
  import opened WgTree
  import opened WgReport
  import opened WgReportProps
  import opened WgConfig

  /** A node object: its category, identifiers, the heap positions of its
      children in the order they were linked, and its timings. */
  datatype Rec = Rec(
    category: string,
    identifiers: seq<string>,
    children: seq<nat>,
    totalTime: real,
    overheadTime: real,
    complete: bool)

  /** The class-level stack state `@top` and `@root`, and the heap. */
  datatype Engine = Engine(top: Option<nat>, root: Option<nat>, nodes: seq<Rec>)

  /** What a run of a block yields: the engine afterwards, how the block
      ended, the wall time it took, and the reports printed meanwhile. */
  datatype Step = Step(engine: Engine, outcome: Outcome, elapsed: real, reports: seq<Printout>)

  /** A `print_measured_results` call: the tree it was given, the threshold
      in force, and `print_time`, the time spent building the report's
      figures, which the report counts as overhead. Writing the lines out
      afterwards is not timed by the report. */
  datatype Printout = Printout(root: Node, threshold: real, printTime: real)

  /** The report such a call prints. */
  function ReportFor(p: Printout): Report
  {
    PrintMeasuredResults(p.root, p.threshold, p.printTime)
  }

  /** Every child was allocated after its parent, and exists. */
  predicate Linked(nodes: seq<Rec>)
  {
    forall i, k :: 0 <= i < |nodes| && 0 <= k < |nodes[i].children| ==> i < nodes[i].children[k] < |nodes|
  }

  /** The invariant between calls: `root` is nil exactly when `top` is, and
      both point at allocated nodes. */
  predicate Valid(e: Engine)
  {
    && Linked(e.nodes)
    && (e.root.None? <==> e.top.None?)
    && (e.top.Some? ==> e.top.value < |e.nodes|)
    && (e.root.Some? ==> e.root.value < |e.nodes|)
  }

  /** `initialize`: no children, zero times, not complete. */
  function NewRec(category: string, identifiers: seq<string>): Rec
  {
    Rec(category, identifiers, [], 0.0, 0.0, false)
  }

  /** The tree hanging from heap position `i`. */
  function Tree(nodes: seq<Rec>, i: nat): Node
    requires Linked(nodes) && i < |nodes|
    decreases |nodes| - i, 1, 0
  {
    Node(nodes[i].category, nodes[i].identifiers, TreeAll(nodes, nodes[i].children, i),
         nodes[i].totalTime, nodes[i].overheadTime, nodes[i].complete)
  }

  /** The trees hanging from `ids`, all allocated after `parent`. */
  function TreeAll(nodes: seq<Rec>, ids: seq<nat>, parent: nat): (r: seq<Node>)
    requires Linked(nodes)
    requires forall k :: 0 <= k < |ids| ==> parent < ids[k] < |nodes|
    ensures |r| == |ids|
    ensures forall k :: 0 <= k < |ids| ==> r[k] == Tree(nodes, ids[k])
    decreases |nodes| - parent, 0, |ids|
  {
    if |ids| == 0 then [] else [Tree(nodes, ids[0])] + TreeAll(nodes, ids[1..], parent)
  }

  lemma TreeAllConcat(nodes: seq<Rec>, a: seq<nat>, b: seq<nat>, parent: nat)
    requires Linked(nodes)
    requires forall k :: 0 <= k < |a| ==> parent < a[k] < |nodes|
    requires forall k :: 0 <= k < |b| ==> parent < b[k] < |nodes|
    ensures TreeAll(nodes, a + b, parent) == TreeAll(nodes, a, parent) + TreeAll(nodes, b, parent)
  {
    var ab := a + b;
    assert forall k :: 0 <= k < |ab| ==> parent < ab[k] < |nodes|;
  }

  /** A tree reads only its own nodes, which were all allocated after its
      root: changing earlier nodes or allocating later ones leaves it be. */
  lemma {:induction false} TreeFrame(nodes: seq<Rec>, nodes': seq<Rec>, c: nat)
    requires Linked(nodes) && Linked(nodes')
    requires c < |nodes| <= |nodes'|
    requires forall j :: c <= j < |nodes| ==> nodes'[j] == nodes[j]
    ensures Tree(nodes', c) == Tree(nodes, c)
    decreases |nodes| - c, 1, 0
  {
    TreeAllFrame(nodes, nodes', nodes[c].children, c);
  }

  lemma {:induction false} TreeAllFrame(nodes: seq<Rec>, nodes': seq<Rec>, ids: seq<nat>, parent: nat)
    requires Linked(nodes) && Linked(nodes')
    requires |nodes| <= |nodes'|
    requires forall k :: 0 <= k < |ids| ==> parent < ids[k] < |nodes|
    requires forall j :: parent < j < |nodes| ==> nodes'[j] == nodes[j]
    ensures TreeAll(nodes', ids, parent) == TreeAll(nodes, ids, parent)
    decreases |nodes| - parent, 0, |ids|
  {
    if |ids| > 0 {
      TreeFrame(nodes, nodes', ids[0]);
      TreeAllFrame(nodes, nodes', ids[1..], parent);
    }
  }

  /** The part of `measure` before the block runs, with measuring enabled: a
      new node is allocated and becomes `top`; when a root exists it is
      appended to the children of the previous top, and otherwise it becomes
      the root and is linked nowhere. */
  function Open(e: Engine, category: string, identifiers: seq<string>): (r: Engine)
    requires Valid(e)
    ensures Valid(r)
    ensures |r.nodes| == |e.nodes| + 1 && r.nodes[|e.nodes|] == NewRec(category, identifiers)
    ensures r.top == Some(|e.nodes|)
    ensures r.root == if e.root.Some? then e.root else Some(|e.nodes|)
    ensures forall j :: 0 <= j < |e.nodes| && Some(j) != e.top ==> r.nodes[j] == e.nodes[j]
    ensures e.top.Some? ==>
      r.nodes[e.top.value] == e.nodes[e.top.value].(children := e.nodes[e.top.value].children + [|e.nodes|])
  {
    var n := |e.nodes|;
    var nodes := e.nodes + [NewRec(category, identifiers)];
    if e.root.Some? then
      var p := e.top.value;
      Engine(Some(n), e.root, nodes[p := nodes[p].(children := nodes[p].children + [n])])
    else
      Engine(Some(n), Some(n), nodes)
  }

  /** The `ensure` clause of `measure`: `root` is cleared when it is the
      closing node `n`, and `top` goes back to `oldTop`. */
  function Close(e: Engine, n: nat, oldTop: Option<nat>): Engine
  {
    Engine(oldTop, if e.root == Some(n) then None else e.root, e.nodes)
  }

  /** After the block returned: its wall time, the wall time of the whole
      call, and `complete`. */
  function Finish(nodes: seq<Rec>, n: nat, totalTime: real, overheadTime: real): seq<Rec>
    requires n < |nodes|
  {
    nodes[n := nodes[n].(totalTime := totalTime, overheadTime := overheadTime, complete := true)]
  }

  /** `r` is `before` with children appended and nothing else changed. */
  predicate Grows(before: Rec, r: Rec)
  {
    r == before.(children := r.children) && before.children <= r.children
  }

  /** The stack discipline between an engine `e` and the engine `e'` after a
      block: `top` and `root` are as they were, the only existing node that
      changes is the current top, which only gains children, and nodes are
      only ever added. */
  predicate Keeps(e: Engine, e': Engine)
    requires Valid(e)
  {
    && Valid(e')
    && e'.top == e.top && e'.root == e.root
    && |e'.nodes| >= |e.nodes|
    && (forall j :: 0 <= j < |e.nodes| && Some(j) != e.top ==> e'.nodes[j] == e.nodes[j])
    && (e.top.Some? ==> Grows(e.nodes[e.top.value], e'.nodes[e.top.value]))
  }

  /** Runs a block with the engine in state `e`. Every `measure` call in it
      keeps the stack discipline: the engine's `top` and `root` come back as
      they were, the only existing node that changes is the current top,
      which only gains children, and the block ends as it would without any
      instrumentation. Reports are printed only by a top-level call. */
  function Run(cfg: Config, e: Engine, w: Work): (s: Step)
    requires Valid(e)
    ensures Keeps(e, s.engine)
    ensures s.outcome == Exec(w).outcome
    ensures e.root.Some? ==> s.reports == []
    decreases w, 0
  {
    match w
    case Compute(d, v) => Step(e, Returned(v), d, [])
    case Fail(d, x) => Step(e, Raised(x), d, [])
    case Then(a, b) =>
      var sa := Run(cfg, e, a);
      if sa.outcome.Raised? then sa
      else
        var sb := Run(cfg, sa.engine, b);
        Step(sb.engine, sb.outcome, sa.elapsed + sb.elapsed, sa.reports + sb.reports)
    case Rescue(b, fallback) =>
      var sb := Run(cfg, e, b);
      if sb.outcome.Raised? then Step(sb.engine, Returned(fallback), sb.elapsed, sb.reports) else sb
    case Measured(category, identifiers, body, costs) =>
      if !cfg.measureEnabled then Run(cfg, e, body)
      else MeasureCall(cfg, e, category, identifiers, body, costs)
  }

  /** `measure` with measuring enabled: open a node, run the block under
      it, and leave. */
  function MeasureCall(cfg: Config, e: Engine, category: string, identifiers: seq<string>, body: Work,
                       costs: Costs): (s: Step)
    requires Valid(e)
    ensures Keeps(e, s.engine) && |s.engine.nodes| > |e.nodes|
    ensures s.outcome == Exec(body).outcome
    ensures e.root.Some? ==> s.reports == []
    decreases body, 1
  {
    var entered := Open(e, category, identifiers);
    var inner := Run(cfg, entered, body);
    LeaveKeeps(cfg, e, entered, inner, costs);
    Leave(cfg, e, inner, costs)
  }

  /** Leaving restores the stack discipline that `Open` broke. */
  lemma LeaveKeeps(cfg: Config, e: Engine, entered: Engine, inner: Step, costs: Costs)
    requires Valid(e) && Valid(entered)
    requires |entered.nodes| == |e.nodes| + 1 && entered.top == Some(|e.nodes|)
    requires entered.root == if e.root.Some? then e.root else Some(|e.nodes|)
    requires forall j :: 0 <= j < |e.nodes| && Some(j) != e.top ==> entered.nodes[j] == e.nodes[j]
    requires e.top.Some? ==>
      entered.nodes[e.top.value] == e.nodes[e.top.value].(children := e.nodes[e.top.value].children + [|e.nodes|])
    requires Keeps(entered, inner.engine)
    requires e.root.Some? ==> inner.reports == []
    ensures Keeps(e, Leave(cfg, e, inner, costs).engine)
    ensures |Leave(cfg, e, inner, costs).engine.nodes| > |e.nodes|
    ensures Leave(cfg, e, inner, costs).outcome == inner.outcome
    ensures e.root.Some? ==> Leave(cfg, e, inner, costs).reports == []
  {
    var n := |e.nodes|;
    var nodes := inner.engine.nodes;
    var done := Finish(nodes, n, inner.elapsed, costs.enter + inner.elapsed + costs.leave);
    assert forall i :: 0 <= i < |nodes| ==> done[i].children == nodes[i].children;
    if e.top.Some? {
      var p := e.top.value;
      assert Grows(entered.nodes[p], nodes[p]);
      assert done[p] == nodes[p];
    }
  }

  /** The part of `measure` after the block ran on the engine `Open` left:
      `top` and `root` are restored, and when the block returned, the node
      `n` is finished and, if it was the root, the report is printed. */
  function Leave(cfg: Config, e: Engine, inner: Step, costs: Costs): Step
    requires Linked(inner.engine.nodes) && |e.nodes| < |inner.engine.nodes|
  {
    var n := |e.nodes|;
    var closed := Close(inner.engine, n, e.top);
    var overheadTime := costs.enter + inner.elapsed + costs.leave;
    if inner.outcome.Raised? then Step(closed, inner.outcome, overheadTime, inner.reports)
    else
      var done := closed.(nodes := Finish(closed.nodes, n, inner.elapsed, overheadTime));
      if done.root.None? then
        var report := Printout(Tree(done.nodes, n), cfg.reportingThreshold, costs.report);
        Step(done, inner.outcome, overheadTime + costs.report + costs.output, inner.reports + [report])
      else Step(done, inner.outcome, overheadTime, inner.reports)
  }

  /** What `Leave` does, case by case. */
  lemma LeaveFacts(cfg: Config, e: Engine, inner: Step, costs: Costs, s: Step)
    requires Linked(inner.engine.nodes) && |e.nodes| < |inner.engine.nodes|
    requires s == Leave(cfg, e, inner, costs)
    ensures s.outcome == inner.outcome
    ensures s.engine == Close(inner.engine, |e.nodes|, e.top).(nodes := s.engine.nodes)
    ensures inner.outcome.Raised? ==>
      s.engine.nodes == inner.engine.nodes && s.elapsed == costs.enter + inner.elapsed + costs.leave
      && s.reports == inner.reports
    ensures inner.outcome.Returned? ==>
      s.engine.nodes == Finish(inner.engine.nodes, |e.nodes|, inner.elapsed, costs.enter + inner.elapsed + costs.leave)
    ensures inner.outcome.Returned? && s.engine.root.Some? ==>
      s.elapsed == costs.enter + inner.elapsed + costs.leave && s.reports == inner.reports
    ensures inner.outcome.Returned? && s.engine.root.None? ==>
      && s.elapsed == costs.enter + inner.elapsed + costs.leave + costs.report + costs.output
      && s.reports == inner.reports + [Printout(Tree(s.engine.nodes, |e.nodes|), cfg.reportingThreshold, costs.report)]
  {
  }

  /** With measuring disabled every `measure` just yields: the engine is left
      untouched, nothing is printed, and the block takes exactly its
      uninstrumented time. */
  lemma {:induction false} RunDisabled(cfg: Config, e: Engine, w: Work)
    requires Valid(e) && !cfg.measureEnabled
    ensures Run(cfg, e, w).engine == e
    ensures Run(cfg, e, w).elapsed == Exec(w).elapsed
    ensures Run(cfg, e, w).reports == []
    decreases w
  {
    match w
    case Compute(_, _) =>
    case Fail(_, _) =>
    case Then(a, b) =>
      RunDisabled(cfg, e, a);
      if Exec(a).outcome.Returned? {
        RunDisabled(cfg, e, b);
      }
    case Rescue(b, _) =>
      RunDisabled(cfg, e, b);
    case Measured(_, _, b, _) =>
      RunDisabled(cfg, e, b);
  }

  /** Below the top level a block takes its uninstrumented time plus the
      bookkeeping of the `measure` calls it makes, whether or not it raises. */
  lemma {:induction false} NestedElapsed(cfg: Config, e: Engine, w: Work)
    requires Valid(e) && e.root.Some?
    ensures Run(cfg, e, w).elapsed == Exec(w).elapsed + Bookkeeping(cfg.measureEnabled, w)
    decreases w
  {
    match w
    case Compute(_, _) =>
    case Fail(_, _) =>
    case Then(a, b) =>
      NestedElapsed(cfg, e, a);
      if Exec(a).outcome.Returned? {
        NestedElapsed(cfg, Run(cfg, e, a).engine, b);
      }
    case Rescue(b, _) =>
      NestedElapsed(cfg, e, b);
    case Measured(category, identifiers, b, _) =>
      if cfg.measureEnabled {
        NestedElapsed(cfg, Open(e, category, identifiers), b);
      } else {
        NestedElapsed(cfg, e, b);
      }
  }

  /** One `measure` call with measuring enabled. The new node `n` is the
      first free heap position and carries the call's category and
      identifiers. Under an existing root it is appended as the last child of
      the previous top; otherwise it is linked nowhere. When the block
      raises, the node stays incomplete with zero times; when it returns, the
      node holds the block's wall time and the wall time of the whole call. */
  lemma MeasureNode(cfg: Config, e: Engine, category: string, identifiers: seq<string>, body: Work,
                    costs: Costs, s: Step)
    requires Valid(e) && cfg.measureEnabled
    requires s == MeasureCall(cfg, e, category, identifiers, body, costs)
    ensures |s.engine.nodes| > |e.nodes|
    ensures s.engine.nodes[|e.nodes|].category == category
    ensures s.engine.nodes[|e.nodes|].identifiers == identifiers
    ensures e.top.Some? ==>
      s.engine.nodes[e.top.value].children == e.nodes[e.top.value].children + [|e.nodes|]
    ensures Exec(body).outcome.Raised? ==>
      && !s.engine.nodes[|e.nodes|].complete
      && s.engine.nodes[|e.nodes|].totalTime == 0.0
      && s.engine.nodes[|e.nodes|].overheadTime == 0.0
    ensures Exec(body).outcome.Returned? ==>
      && s.engine.nodes[|e.nodes|].complete
      && s.engine.nodes[|e.nodes|].totalTime == Run(cfg, Open(e, category, identifiers), body).elapsed
      && s.engine.nodes[|e.nodes|].overheadTime == costs.enter + s.engine.nodes[|e.nodes|].totalTime + costs.leave
  {
    var n := |e.nodes|;
    var entered := Open(e, category, identifiers);
    var inner := Run(cfg, entered, body);
    LeaveFacts(cfg, e, inner, costs, s);
    assert Grows(entered.nodes[n], inner.engine.nodes[n]);
    if e.top.Some? {
      assert inner.engine.nodes[e.top.value] == entered.nodes[e.top.value];
    }
  }

  /** A top-level `measure` call whose block raises prints nothing. */
  lemma TopLevelRaised(cfg: Config, e: Engine, category: string, identifiers: seq<string>, body: Work,
                       costs: Costs, s: Step)
    requires Valid(e) && e.root.None? && cfg.measureEnabled && Exec(body).outcome.Raised?
    requires s == MeasureCall(cfg, e, category, identifiers, body, costs)
    ensures s.reports == []
  {
    var entered := Open(e, category, identifiers);
    var inner := Run(cfg, entered, body);
    LeaveFacts(cfg, e, inner, costs, s);
  }

  /** A top-level `measure` call whose block returns prints exactly one
      report, about the tree rooted at its node. The call's wall time, as
      the caller sees it, is the root's outer time plus the time building the
      report and the time writing it out. */
  lemma TopLevelReport(cfg: Config, e: Engine, category: string, identifiers: seq<string>, body: Work,
                       costs: Costs, s: Step)
    requires Valid(e) && e.root.None? && cfg.measureEnabled && Exec(body).outcome.Returned?
    requires s == MeasureCall(cfg, e, category, identifiers, body, costs)
    ensures s.reports == [Printout(Tree(s.engine.nodes, |e.nodes|), cfg.reportingThreshold, costs.report)]
    ensures s.elapsed == OuterTime(s.reports[0].root) + costs.report + costs.output
  {
    var entered := Open(e, category, identifiers);
    var inner := Run(cfg, entered, body);
    LeaveFacts(cfg, e, inner, costs, s);
    assert A: inner.outcome.Returned?;
    assert B: entered.root == Some(|e.nodes|);
    assert C: inner.engine.root == Some(|e.nodes|);
    assert D: s.engine.root.None?;
    assert E: inner.reports == [];
    assert G: Valid(s.engine) && |s.engine.nodes| > |e.nodes|;
    assert F: s.reports == [Printout(Tree(s.engine.nodes, |e.nodes|), cfg.reportingThreshold, costs.report)];
    MeasureNode(cfg, e, category, identifiers, body, costs, s);
  }

  /** A top-level call whose block returns takes the block's uninstrumented
      time plus the engine's entry, exit, report-building and output time,
      and the entry and exit time of every nested `measure` call. */
  lemma TopLevelElapsed(cfg: Config, e: Engine, category: string, identifiers: seq<string>, body: Work,
                        costs: Costs, s: Step)
    requires Valid(e) && e.root.None? && cfg.measureEnabled && Exec(body).outcome.Returned?
    requires s == MeasureCall(cfg, e, category, identifiers, body, costs)
    ensures s.elapsed == costs.enter + costs.leave + costs.report + costs.output + Exec(body).elapsed + Bookkeeping(true, body)
  {
    var entered := Open(e, category, identifiers);
    var inner := Run(cfg, entered, body);
    LeaveFacts(cfg, e, inner, costs, s);
    NestedElapsed(cfg, entered, body);
  }

  /** The grand total of the report a top-level call prints is the wall time
      of the whole call except the time spent writing the report out, which
      runs after `print_time` was taken. */
  lemma GrandTotalIsCallTime(cfg: Config, e: Engine, category: string, identifiers: seq<string>, body: Work,
                             costs: Costs, s: Step)
    requires Valid(e) && e.root.None? && cfg.measureEnabled && Exec(body).outcome.Returned?
    requires s == MeasureCall(cfg, e, category, identifiers, body, costs)
    ensures |s.reports| == 1 && ReportFor(s.reports[0]).grandTotals.total + costs.output == s.elapsed
  {
    TopLevelReport(cfg, e, category, identifiers, body, costs, s);
    var p := s.reports[0];
    ReportGrandTotals(p.root, p.threshold, p.printTime);
  }

  /** The children a run appended under heap position `p`. */
  function Added(nodes: seq<Rec>, p: nat, before: Rec): (r: seq<nat>)
    requires Linked(nodes) && p < |nodes| && before.children <= nodes[p].children
    ensures forall k :: 0 <= k < |r| ==> p < r[k] < |nodes|
    ensures nodes[p].children == before.children + r
  {
    var r := nodes[p].children[|before.children|..];
    assert forall k :: 0 <= k < |r| ==> r[k] == nodes[p].children[|before.children| + k];
    r
  }

  /** Children appended in two runs, one after the other, contribute the
      outer times of the first run's children, which the second run leaves
      alone, and then those of the second's. */
  lemma AddedSplit(mid: seq<Rec>, last: seq<Rec>, p: nat, before: Rec)
    requires Linked(mid) && Linked(last) && p < |mid| <= |last|
    requires before.children <= mid[p].children <= last[p].children
    requires forall j :: p < j < |mid| ==> last[j] == mid[j]
    ensures ChildSum(TreeAll(last, Added(last, p, before), p))
         == ChildSum(TreeAll(mid, Added(mid, p, before), p)) + ChildSum(TreeAll(last, Added(last, p, mid[p]), p))
  {
    var a := Added(mid, p, before);
    var b := Added(last, p, mid[p]);
    assert Added(last, p, before) == a + b;
    TreeAllConcat(last, a, b, p);
    TreeAllFrame(mid, last, a, p);
    ChildSumConcat(TreeAll(last, a, p), TreeAll(last, b, p));
  }

  /** Below the top level, a block that cannot raise takes its own time plus
      the outer wall times of the nodes it appends under the current top. */
  lemma {:induction false} NestedOwn(cfg: Config, e: Engine, w: Work, s: Step)
    requires Valid(e) && e.top.Some? && cfg.measureEnabled && Raiseless(w)
    requires s == Run(cfg, e, w)
    ensures s.elapsed
         == Exec(w).own
          + ChildSum(TreeAll(s.engine.nodes, Added(s.engine.nodes, e.top.value, e.nodes[e.top.value]), e.top.value))
    decreases w
  {
    var p := e.top.value;
    match w
    case Compute(_, _) =>
      assert Added(s.engine.nodes, p, e.nodes[p]) == [];
    case Then(a, b) =>
      RaiselessReturns(a);
      var sa := Run(cfg, e, a);
      var sb := Run(cfg, sa.engine, b);
      NestedOwn(cfg, e, a, sa);
      NestedOwn(cfg, sa.engine, b, sb);
      AddedSplit(sa.engine.nodes, sb.engine.nodes, p, e.nodes[p]);
    case Rescue(b, _) =>
      RaiselessReturns(b);
      NestedOwn(cfg, e, b, s);
    case Measured(category, identifiers, body, costs) =>
      RaiselessReturns(body);
        var inner := Run(cfg, Open(e, category, identifiers), body);
      LeaveFacts(cfg, e, inner, costs, s);
      var n := |e.nodes|;
      MeasureNode(cfg, e, category, identifiers, body, costs, s);
      assert Added(s.engine.nodes, p, e.nodes[p]) == [n];
      assert TreeAll(s.engine.nodes, [n], p) == [Tree(s.engine.nodes, n)];
  }

  /** Finishing a node sets its self time to the given block time less the
      outer times of its children. */
  lemma FinishedSelf(nodes: seq<Rec>, n: nat, totalTime: real, overheadTime: real)
    requires Linked(nodes) && n < |nodes|
    ensures Linked(Finish(nodes, n, totalTime, overheadTime))
    ensures SelfTime(Tree(Finish(nodes, n, totalTime, overheadTime), n))
         == totalTime - ChildSum(TreeAll(nodes, nodes[n].children, n))
  {
    var done := Finish(nodes, n, totalTime, overheadTime);
    assert forall i :: 0 <= i < |nodes| ==> done[i].children == nodes[i].children;
    TreeAllFrame(nodes, done, nodes[n].children, n);
  }

  /** For a top-level call whose block cannot raise, the root's self time is
      exactly the block's own time: the time spent in nested measured calls,
      bookkeeping included, is all accounted to the children. */
  lemma RootSelfTime(cfg: Config, e: Engine, category: string, identifiers: seq<string>, body: Work,
                     costs: Costs, s: Step)
    requires Valid(e) && e.root.None? && cfg.measureEnabled && Raiseless(body)
    requires s == MeasureCall(cfg, e, category, identifiers, body, costs)
    ensures Linked(s.engine.nodes) && |e.nodes| < |s.engine.nodes|
    ensures SelfTime(Tree(s.engine.nodes, |e.nodes|)) == Exec(body).own
  {
    var inner := Run(cfg, Open(e, category, identifiers), body);
    RootBlock(cfg, e, category, identifiers, body, inner);
    RootSelfTimeLeave(cfg, e, inner, costs, Exec(body).own);
  }

  lemma RootSelfTimeLeave(cfg: Config, e: Engine, inner: Step, costs: Costs, own: real)
    requires Linked(inner.engine.nodes) && |e.nodes| < |inner.engine.nodes| && inner.outcome.Returned?
    requires inner.elapsed
          == own + ChildSum(TreeAll(inner.engine.nodes, inner.engine.nodes[|e.nodes|].children, |e.nodes|))
    ensures Linked(Leave(cfg, e, inner, costs).engine.nodes)
    ensures |e.nodes| < |Leave(cfg, e, inner, costs).engine.nodes|
    ensures SelfTime(Tree(Leave(cfg, e, inner, costs).engine.nodes, |e.nodes|)) == own
  {
    FinishedSelf(inner.engine.nodes, |e.nodes|, inner.elapsed, costs.enter + inner.elapsed + costs.leave);
  }

  /** The block of a top-level call, run under the new root. */
  lemma RootBlock(cfg: Config, e: Engine, category: string, identifiers: seq<string>, body: Work, inner: Step)
    requires Valid(e) && e.root.None? && cfg.measureEnabled && Raiseless(body)
    requires inner == Run(cfg, Open(e, category, identifiers), body)
    ensures Linked(inner.engine.nodes) && |e.nodes| < |inner.engine.nodes| && inner.outcome.Returned?
    ensures inner.elapsed
         == Exec(body).own + ChildSum(TreeAll(inner.engine.nodes, inner.engine.nodes[|e.nodes|].children, |e.nodes|))
  {
    var n := |e.nodes|;
    var entered := Open(e, category, identifiers);
    RaiselessReturns(body);
    NestedOwn(cfg, entered, body, inner);
    assert entered.top == Some(n) && entered.nodes[n].children == [];
    assert Added(inner.engine.nodes, n, entered.nodes[n]) == inner.engine.nodes[n].children;
  }
}
