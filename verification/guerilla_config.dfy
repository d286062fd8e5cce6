/** The configuration of the WatchfulGuerilla engine. `mattr_accessor`
    declares four module attributes and the setters `tracing`, `profiling`,
    `measuring` and `reporting_threshold` write them through their accessor
    writers; the module body calls all four with their default arguments
    when it is loaded. The code that consults the settings, however, reads
    the module's instance variables of the same names (`@measure_enabled`,
    `@reporting_threshold`, ...), which are a different store and which
    nothing ever assigns. */
module GuerillaConfig {
  import opened Tables
  import WgConfig

  /** The module's instance variables; `None` is nil. */
  datatype Ivars = Ivars(
    traceEnabled: Option<bool>,
    profileEnabled: Option<bool>,
    measureEnabled: Option<bool>,
    reportingThreshold: Option<real>)

  const Unassigned := Ivars(None, None, None, None)

  /** Both stores: the attributes the setters write and the instance
      variables the engine reads. */
  datatype Settings = Settings(attributes: WgConfig.Config, ivars: Ivars)

  /** A call to one of the four setters. */
  datatype Call =
    | Tracing(state: bool)
    | Profiling(state: bool)
    | Measuring(state: bool)
    | ReportingThreshold(milliseconds: real)

  /** One setter call: it overwrites its own attribute, converting the
      threshold from milliseconds to seconds, and touches nothing else, in
      particular no instance variable. */
  function Set(s: Settings, c: Call): (r: Settings)
    ensures r.ivars == s.ivars
    ensures c.Tracing? ==> r.attributes == s.attributes.(traceEnabled := c.state)
    ensures c.Profiling? ==> r.attributes == s.attributes.(profileEnabled := c.state)
    ensures c.Measuring? ==> r.attributes == s.attributes.(measureEnabled := c.state)
    ensures c.ReportingThreshold? ==> r.attributes.reportingThreshold * 1000.0 == c.milliseconds
    ensures c.ReportingThreshold? ==> r.attributes.(reportingThreshold := s.attributes.reportingThreshold) == s.attributes
  {
    match c
    case Tracing(b) => s.(attributes := WgConfig.Tracing(s.attributes, b))
    case Profiling(b) => s.(attributes := WgConfig.Profiling(s.attributes, b))
    case Measuring(b) => s.(attributes := WgConfig.Measuring(s.attributes, b))
    case ReportingThreshold(ms) => s.(attributes := WgConfig.ReportingThreshold(s.attributes, ms))
  }

  /** Setter calls made one after another. */
  function Apply(s: Settings, calls: seq<Call>): Settings
  {
    if |calls| == 0 then s else Set(Apply(s, calls[..|calls| - 1]), calls[|calls| - 1])
  }

  lemma {:induction false} ApplyConcat(s: Settings, a: seq<Call>, b: seq<Call>)
    ensures Apply(s, a + b) == Apply(Apply(s, a), b)
    decreases |b|
  {
    if |b| > 0 {
      assert (a + b)[..|a + b| - 1] == a + b[..|b| - 1];
      assert (a + b)[|a + b| - 1] == b[|b| - 1];
      ApplyConcat(s, a, b[..|b| - 1]);
    } else {
      assert a + b == a;
    }
  }

  /** The module body's four calls with default arguments. */
  const LoadCalls := [Tracing(false), Profiling(false), Measuring(false), ReportingThreshold(WgConfig.DefaultMilliseconds)]

  function Loaded(): Settings
  {
    Apply(Settings(WgConfig.Unset, Unassigned), LoadCalls)
  }

  /** After loading, the attributes say tracing, profiling and measuring are
      off and the threshold is 20 milliseconds, and every instance variable
      is still nil. */
  lemma LoadedSettings()
    ensures !Loaded().attributes.traceEnabled && !Loaded().attributes.profileEnabled
    ensures !Loaded().attributes.measureEnabled
    ensures Loaded().attributes.reportingThreshold == 0.02
    ensures Loaded().ivars == Unassigned
  {
    var s0 := Settings(WgConfig.Unset, Unassigned);
    var l := LoadCalls;
    assert l[..1][..0] == [] && l[..2][..1] == l[..1] && l[..3][..2] == l[..2] && l[..4] == l;
    assert |l| == 4 && l[0] == Tracing(false);
    assert Apply(s0, l[..1][..0]) == s0;
    var s1 := Apply(s0, l[..1]);
    var s2 := Apply(s0, l[..2]);
    var s3 := Apply(s0, l[..3]);
    assert s1 == Set(s0, Tracing(false));
    assert s2 == Set(s1, Profiling(false));
    assert s3 == Set(s2, Measuring(false));
    assert Loaded() == Set(s3, ReportingThreshold(WgConfig.DefaultMilliseconds));
  }

  /** No sequence of setter calls assigns an instance variable. */
  lemma {:induction false} ApplyKeepsIvars(s: Settings, calls: seq<Call>)
    ensures Apply(s, calls).ivars == s.ivars
    decreases |calls|
  {
    if |calls| > 0 {
      ApplyKeepsIvars(s, calls[..|calls| - 1]);
    }
  }

  /** The gate of `measure` as written: the truthiness of `@measure_enabled`. */
  function MeasureGateAsWritten(s: Settings): bool
  {
    s.ivars.measureEnabled == Some(true)
  }

  /** As written, `measure` never measures: whatever setter calls follow
      loading, including `measuring(true)`, the gate stays shut and every
      call just yields to its block. */
  lemma GateNeverOpens(calls: seq<Call>)
    ensures !MeasureGateAsWritten(Apply(Loaded(), calls))
  {
    LoadedSettings();
    ApplyKeepsIvars(Loaded(), calls);
  }

  /** The gate as evidently intended: the attribute `measuring` sets. */
  function MeasureGate(s: Settings): bool
  {
    s.attributes.measureEnabled
  }

  /** With the intended gate, `measuring(state)` decides whether `measure`
      measures, until the next `measuring` call. */
  lemma GateFollowsMeasuring(calls: seq<Call>, state: bool, later: seq<Call>)
    requires forall i :: 0 <= i < |later| ==> !later[i].Measuring?
    ensures MeasureGate(Apply(Loaded(), calls + [Measuring(state)] + later)) == state
  {
    ApplyConcat(Loaded(), calls + [Measuring(state)], later);
    ApplyConcat(Loaded(), calls, [Measuring(state)]);
    assert [Measuring(state)][..0] == [];
    LaterKeepsGate(Apply(Loaded(), calls + [Measuring(state)]), later);
  }

  lemma {:induction false} LaterKeepsGate(s: Settings, later: seq<Call>)
    requires forall i :: 0 <= i < |later| ==> !later[i].Measuring?
    ensures MeasureGate(Apply(s, later)) == MeasureGate(s)
    decreases |later|
  {
    if |later| > 0 {
      LaterKeepsGate(s, later[..|later| - 1]);
    }
  }

  /** The threshold `increment_category_time` compares against, as written:
      `@reporting_threshold`. */
  function ThresholdAsWritten(s: Settings): Option<real>
  {
    s.ivars.reportingThreshold
  }

  /** As written the threshold read is always nil, so the first comparison
      with it would raise. */
  lemma ThresholdNeverSet(calls: seq<Call>)
    ensures ThresholdAsWritten(Apply(Loaded(), calls)).None?
  {
    LoadedSettings();
    ApplyKeepsIvars(Loaded(), calls);
  }

  /** The threshold as evidently intended: the attribute
      `reporting_threshold` sets, in seconds. */
  function Threshold(s: Settings): real
  {
    s.attributes.reportingThreshold
  }

  /** With the intended read, `reporting_threshold(ms)` sets the threshold
      to `ms` milliseconds until the next such call. */
  lemma ThresholdFollowsSetter(calls: seq<Call>, milliseconds: real, later: seq<Call>)
    requires forall i :: 0 <= i < |later| ==> !later[i].ReportingThreshold?
    ensures Threshold(Apply(Loaded(), calls + [ReportingThreshold(milliseconds)] + later)) * 1000.0 == milliseconds
  {
    ApplyConcat(Loaded(), calls + [ReportingThreshold(milliseconds)], later);
    ApplyConcat(Loaded(), calls, [ReportingThreshold(milliseconds)]);
    assert [ReportingThreshold(milliseconds)][..0] == [];
    LaterKeepsThreshold(Apply(Loaded(), calls + [ReportingThreshold(milliseconds)]), later);
  }

  lemma {:induction false} LaterKeepsThreshold(s: Settings, later: seq<Call>)
    requires forall i :: 0 <= i < |later| ==> !later[i].ReportingThreshold?
    ensures Threshold(Apply(s, later)) == Threshold(s)
    decreases |later|
  {
    if |later| > 0 {
      LaterKeepsThreshold(s, later[..|later| - 1]);
    }
  }
}
