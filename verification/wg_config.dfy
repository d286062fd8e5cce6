/** The class-level configuration of the WG engine and its setters. Each
    setter overwrites one setting; the class body calls all four with their
    default arguments when it is loaded. */
module WgConfig {

  datatype Config = Config(
    traceEnabled: bool,
    profileEnabled: bool,
    measureEnabled: bool,
    reportingThreshold: real)

  /** The settings before the class body has run: every instance variable
      is still nil, read here as false and zero. */
  const Unset := Config(false, false, false, 0.0)

  /** Default argument of `reporting_threshold`, in milliseconds. */
  const DefaultMilliseconds: real := 20.0

  function Tracing(c: Config, state: bool): (r: Config)
    ensures r.traceEnabled == state
    ensures r.(traceEnabled := c.traceEnabled) == c
  {
    c.(traceEnabled := state)
  }

  function Profiling(c: Config, state: bool): (r: Config)
    ensures r.profileEnabled == state
    ensures r.(profileEnabled := c.profileEnabled) == c
  {
    c.(profileEnabled := state)
  }

  function Measuring(c: Config, state: bool): (r: Config)
    ensures r.measureEnabled == state
    ensures r.(measureEnabled := c.measureEnabled) == c
  {
    c.(measureEnabled := state)
  }

  /** `reporting_threshold`: the argument is in milliseconds and the stored
      threshold in seconds, so converting back gives the argument. */
  function ReportingThreshold(c: Config, milliseconds: real): (r: Config)
    ensures r.reportingThreshold * 1000.0 == milliseconds
    ensures r.(reportingThreshold := c.reportingThreshold) == c
  {
    c.(reportingThreshold := milliseconds / 1000.0)
  }

  /** The settings once the class body has called every setter with its
      default argument. */
  function Defaults(): Config
  {
    ReportingThreshold(Measuring(Profiling(Tracing(Unset, false), false), false), DefaultMilliseconds)
  }

  /** Tracing, profiling and measuring start off, and the threshold starts
      at 20 milliseconds. */
  lemma DefaultSettings()
    ensures !Defaults().traceEnabled && !Defaults().profileEnabled && !Defaults().measureEnabled
    ensures Defaults().reportingThreshold == 0.02
  {
  }
}
