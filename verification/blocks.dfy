/** The caller-supplied blocks that both engines wrap. A block is modelled
    as a small program whose clock readings are inputs: it spends a given
    amount of its own time, raises, runs two blocks in sequence, rescues a
    StandardError, or calls `measure` on a nested block. `Exec` is the
    reference semantics of a block when no instrumentation is present. */
module Blocks {

  /** A StandardError raised by caller code, identified by its message. */
  datatype Exn = Exn(message: string)

  /** Wall-clock time the engine spends on its own bookkeeping during one
      `measure` call: before the block starts (trace line, node allocation,
      linking), after it ends (restoring `top` and `root`), and, when the call
      was the root, building the report's figures (`report`) and writing its
      lines out (`output`). */
  datatype Costs = Costs(enter: real, leave: real, report: real, output: real)

  /** The category `measure` gives a node when its caller passes none. */
  const UnspecifiedCategory: string := "*unspecified*"

  datatype Work =
    | Compute(duration: real, value: int)
    | Fail(duration: real, error: Exn)
    | Then(first: Work, second: Work)
    | Rescue(body: Work, fallback: int)
    | Measured(category: string, identifiers: seq<string>, body: Work, costs: Costs)

  /** How a block ends: it returns a value or raises. */
  datatype Outcome = Returned(value: int) | Raised(error: Exn)

  /** The result of running a block without instrumentation: how it ended,
      its wall time, and its own time (the part spent in its own code rather
      than inside a nested measured call). */
  datatype Plain = Plain(outcome: Outcome, elapsed: real, own: real)

  /** No duration or bookkeeping cost is negative, as for real clock readings. */
  predicate NonNegative(w: Work)
  {
    match w
    case Compute(d, _) => d >= 0.0
    case Fail(d, _) => d >= 0.0
    case Then(a, b) => NonNegative(a) && NonNegative(b)
    case Rescue(b, _) => NonNegative(b)
    case Measured(_, _, b, c) =>
      c.enter >= 0.0 && c.leave >= 0.0 && c.report >= 0.0 && c.output >= 0.0 && NonNegative(b)
  }

  /** Uninstrumented execution: `measure` just yields to the block. With
      non-negative clock readings a block's own time is between zero and its
      wall time. */
  function Exec(w: Work): (p: Plain)
    ensures NonNegative(w) ==> 0.0 <= p.own <= p.elapsed
  {
    match w
    case Compute(d, v) => Plain(Returned(v), d, d)
    case Fail(d, e) => Plain(Raised(e), d, d)
    case Then(a, b) =>
      var pa := Exec(a);
      if pa.outcome.Raised? then pa
      else
        var pb := Exec(b);
        Plain(pb.outcome, pa.elapsed + pb.elapsed, pa.own + pb.own)
    case Rescue(b, fallback) =>
      var pb := Exec(b);
      if pb.outcome.Raised? then Plain(Returned(fallback), pb.elapsed, pb.own) else pb
    case Measured(_, _, b, _) =>
      var pb := Exec(b);
      Plain(pb.outcome, pb.elapsed, 0.0)
  }

  /** True when no step of the block can raise, so every nested measured call
      ends normally. */
  predicate Raiseless(w: Work)
  {
    match w
    case Compute(_, _) => true
    case Fail(_, _) => false
    case Then(a, b) => Raiseless(a) && Raiseless(b)
    case Rescue(b, _) => Raiseless(b)
    case Measured(_, _, b, _) => Raiseless(b)
  }

  lemma RaiselessReturns(w: Work)
    requires Raiseless(w)
    ensures Exec(w).outcome.Returned?
  {
  }

  /** The engine's own time inside a block, below the top level: the entry
      and exit bookkeeping of every `measure` call the block makes, when
      measuring is enabled. A step after one that raised does not run. */
  function Bookkeeping(enabled: bool, w: Work): real
  {
    match w
    case Compute(_, _) => 0.0
    case Fail(_, _) => 0.0
    case Then(a, b) => Bookkeeping(enabled, a) + (if Exec(a).outcome.Raised? then 0.0 else Bookkeeping(enabled, b))
    case Rescue(b, _) => Bookkeeping(enabled, b)
    case Measured(_, _, b, c) => (if enabled then c.enter + c.leave else 0.0) + Bookkeeping(enabled, b)
  }
}
