/** app/repositories/controllers: what the PID, Smith and step adapters make of a configuration and
    of partial parameter updates, on values. */
module Controllers {
  import opened Numbers
  import opened Errors
  import opened FilterSignal
  import opened Control
  import opened Entities
  import opened Configuration
  import Pid
  import Smith
  import Predictor

  // pid.go

  /** equivalentSamples: a time constant in seconds as a number of polls, at least one. */
  function EquivalentSamples(tauSeconds: real, intervalMs: int): int {
    if intervalMs <= 0 then 1 else MaxInt(Round(tauSeconds * 1000.0 / intervalMs as real), 1)
  }

  /** A time constant as the nearest whole number of polls, but at least one. */
  lemma EquivalentSamplesNearest(tauSeconds: real, intervalMs: int)
    requires tauSeconds >= 0.0
    ensures var n, ms := EquivalentSamples(tauSeconds, intervalMs) as real, intervalMs as real;
      && n >= 1.0
      && (intervalMs <= 0 ==> n == 1.0)
      && (intervalMs > 0 ==> tauSeconds * 1000.0 < (n + 0.5) * ms)
      && (intervalMs > 0 && n > 1.0 ==> (n - 0.5) * ms <= tauSeconds * 1000.0)
  {
    if intervalMs > 0 {
      var ms, tau := intervalMs as real, tauSeconds * 1000.0;
      var x := tau / ms;
      assert x * ms == tau && x >= 0.0;
      var polls := Round(x) as real;
      Predictor.NearestArithmetic(polls, x, ms, tau);
      if EquivalentSamples(tauSeconds, intervalMs) as real != polls {
        assert polls == 0.0;
        AtLeastOne(ms, tau);
      }
    }
  }

  lemma AtLeastOne(ms: real, tau: real)
    requires ms > 0.0 && tau < (0.0 + 0.5) * ms
    ensures tau < (1.0 + 0.5) * ms
  {
  }

  /** The older tau setting counts only where no filter type is given. */
  function SetpointFilter(s: PidSection, intervalMs: int): Spec {
    if s.filterType == "" && s.filterTau > 0.0 then
      Spec(EXPONENTIAL, EquivalentSamples(s.filterTau, intervalMs))
    else
      Spec(s.filterType, s.filterSize)
  }

  /** Where no filter type is given, a positive tau asks for an exponential filter of the nearest
      number of polls; otherwise, type and size count and tau does not. */
  lemma TauOnlyWithoutType(s: PidSection, intervalMs: int, tau: real)
    ensures var legacy, spec := s.filterType == "" && s.filterTau > 0.0, SetpointFilter(s, intervalMs);
      && (legacy ==> Normalize(spec) == Ok(spec) && spec.kind == EXPONENTIAL
                     && spec.size == EquivalentSamples(s.filterTau, intervalMs))
      && (!legacy ==> spec == Spec(s.filterType, s.filterSize))
    ensures s.filterType != "" ==> SetpointFilter(s.(filterTau := tau), intervalMs) == SetpointFilter(s, intervalMs)
  {
    hide Round;
  }

  function PidFromConfig(cfg: Config, feedforward: bool): Pid.PidParams {
    var s := cfg.pid;
    Pid.PidParams(s.kp, s.ki, s.kd, if feedforward then s.ffGain else 0.0, s.setpoint,
                  SetpointFilter(s, cfg.intervalMs), Limits(s.min, s.max, s.iClamp))
  }

  function PidAnswer(p: Pid.PidParams, feedforward: bool): ControllerParams {
    NO_PARAMS.(kp := Some(p.kp), ki := Some(p.ki), kd := Some(p.kd),
               min := Some(p.limits.min), max := Some(p.limits.max), iClamp := Some(p.limits.iClamp),
               setpoint := Some(p.setpoint),
               filterType := Some(p.setpointFilter.kind), filterSize := Some(p.setpointFilter.size),
               ffGain := if feedforward then Some(p.ffGain) else None)
  }

  function PidMerged(p: Pid.PidParams, u: ControllerParams, feedforward: bool): Pid.PidParams {
    Pid.PidParams(
      Assign(p.kp, u.kp), Assign(p.ki, u.ki), Assign(p.kd, u.kd),
      if feedforward then Assign(p.ffGain, u.ffGain) else p.ffGain,
      Assign(p.setpoint, u.setpoint),
      Spec(Assign(p.setpointFilter.kind, u.filterType), Assign(p.setpointFilter.size, u.filterSize)),
      Limits(Assign(p.limits.min, u.min), Assign(p.limits.max, u.max), Assign(p.limits.iClamp, u.iClamp)))
  }

  // smith.go

  function SmithFromConfig(cfg: Config): Smith.SmithParams {
    var s := cfg.smith;
    Smith.SmithParams(s.kp, s.ki, s.setpoint, Spec(s.filterType, s.filterSize),
                      Predictor.Model(s.modelK, s.modelTau, s.modelTheta), s.sampleSeconds,
                      Limits(s.min, s.max, s.iClamp))
  }

  function SmithAnswer(p: Smith.SmithParams): ControllerParams {
    NO_PARAMS.(kp := Some(p.kp), ki := Some(p.ki),
               min := Some(p.limits.min), max := Some(p.limits.max), iClamp := Some(p.limits.iClamp),
               setpoint := Some(p.setpoint),
               filterType := Some(p.setpointFilter.kind), filterSize := Some(p.setpointFilter.size),
               modelK := Some(p.model.k), modelTau := Some(p.model.tau), modelTheta := Some(p.model.theta),
               sampleSeconds := Some(p.sampleSeconds))
  }

  function SmithMerged(p: Smith.SmithParams, u: ControllerParams): Smith.SmithParams {
    Smith.SmithParams(
      Assign(p.kp, u.kp), Assign(p.ki, u.ki), Assign(p.setpoint, u.setpoint),
      Spec(Assign(p.setpointFilter.kind, u.filterType), Assign(p.setpointFilter.size, u.filterSize)),
      Predictor.Model(Assign(p.model.k, u.modelK), Assign(p.model.tau, u.modelTau), Assign(p.model.theta, u.modelTheta)),
      Assign(p.sampleSeconds, u.sampleSeconds),
      Limits(Assign(p.limits.min, u.min), Assign(p.limits.max, u.max), Assign(p.limits.iClamp, u.iClamp)))
  }

  // A controller of any type, as a value

  datatype ControllerState =
    | PidController(pid: Pid.PidState, feedforward: bool)
    | SmithController(smith: Smith.SmithState)
    | StepController(output: real)
  {
    predicate Valid() {
      match this
      case PidController(pid, _) => pid.Valid()
      case SmithController(smith) => smith.Valid()
      case StepController(_) => true
    }

    /** What a configuration has to agree with. */
    function Settings(): Settings {
      match this
      case PidController(pid, feedforward) => PidSettings(pid.params, feedforward)
      case SmithController(smith) => SmithSettings(smith.params)
      case StepController(output) => StepSettings(output)
    }
  }

  /** The parameters of a controller, without its history. */
  datatype Settings =
    | PidSettings(pid: Pid.PidParams, feedforward: bool)
    | SmithSettings(smith: Smith.SmithParams)
    | StepSettings(output: real)
  {
    function Type(): (name: string)
      ensures name in {"pid", "pidff", "step", "smith"}
    {
      match this
      case PidSettings(_, feedforward) => if feedforward then "pidff" else "pid"
      case SmithSettings(_) => "smith"
      case StepSettings(_) => "step"
    }

    /** GetParams. */
    function Answer(): ControllerParams {
      match this
      case PidSettings(p, feedforward) => PidAnswer(p, feedforward)
      case SmithSettings(p) => SmithAnswer(p)
      case StepSettings(output) => NO_PARAMS.(max := Some(output))
    }
  }

  /** The types of controller there are: the keys of `factories` in switchable.go. */
  const TYPES := {"pid", "pidff", "step", "smith"}

  /** A new controller of the given type. */
  function Built(cfg: Config, controllerType: string): (r: Result<ControllerState, Error>)
    requires controllerType in TYPES
    ensures r.Ok? ==> r.value.Valid() && r.value.Settings().Type() == controllerType
  {
    if controllerType == "smith" then
      match Smith.NewSmith(SmithFromConfig(cfg))
      case Err(e) => Err(e)
      case Ok(c) => Ok(SmithController(c))
    else if controllerType == "step" then
      Ok(StepController(cfg.pid.max))
    else
      var feedforward := controllerType == "pidff";
      match Pid.NewPid(PidFromConfig(cfg, feedforward))
      case Err(e) => Err(e)
      case Ok(c) => Ok(PidController(c, feedforward))
  }

  /** SetParams. */
  function Tuned(c: ControllerState, u: ControllerParams): (r: (ControllerState, Option<Error>))
    requires c.Valid()
    ensures r.0.Valid() && r.0.Settings().Type() == c.Settings().Type()
  {
    match c
    case PidController(pid, feedforward) =>
      var (pid', reply) := Pid.Exec(pid, SetParams(PidMerged(pid.params, u, feedforward)));
      (PidController(pid', feedforward), if reply.Rejected? then Some(reply.error) else None)
    case SmithController(smith) =>
      var (smith', reply) := Smith.Exec(smith, SetParams(SmithMerged(smith.params, u)));
      (SmithController(smith'), if reply.Rejected? then Some(reply.error) else None)
    case StepController(output) => (StepController(Assign(output, u.max)), None)
  }

  function Measured(c: ControllerState, measured: Number, at: int): (r: (ControllerState, Result<real, Error>))
    requires c.Valid()
    ensures r.0.Valid() && r.0.Settings().Type() == c.Settings().Type()
  {
    match c
    case PidController(pid, feedforward) =>
      var (pid', reply) := Pid.Exec(pid, Compute(measured, at));
      (PidController(pid', feedforward),
       match reply
       case Computed(t) => Ok(t.output)
       case Rejected(e) => Err(e))
    case SmithController(smith) =>
      var (smith', reply) := Smith.Exec(smith, Compute(measured, at));
      (SmithController(smith'),
       match reply
       case Computed(t) => Ok(t.output)
       case Rejected(e) => Err(e))
    case StepController(output) => (c, Ok(output))
  }

  function Restarted(c: ControllerState): (r: ControllerState)
    requires c.Valid()
    ensures r.Valid() && r.Settings().Type() == c.Settings().Type()
  {
    match c
    case PidController(pid, feedforward) => PidController(Pid.Exec(pid, Reset).0, feedforward)
    case SmithController(smith) => SmithController(Smith.Exec(smith, Reset).0)
    case StepController(_) => c
  }

  // Reading and setting

  /** A controller that has forgotten its integral. */
  function Unwound(c: ControllerState): ControllerState {
    match c
    case PidController(pid, feedforward) => PidController(pid.(integral := 0.0), feedforward)
    case SmithController(smith) => SmithController(smith.(integral := 0.0))
    case StepController(_) => c
  }

  /** Setting what GetParams returned is always accepted and clears the integral, no more. */
  lemma SettingWhatWasRead(c: ControllerState)
    requires c.Valid()
    ensures Tuned(c, c.Settings().Answer()) == (Unwound(c), None)
  {
    hide Normalize, Smith.RetunedPredictor;
    match c
    case PidController(pid, feedforward) =>
      NormalizeIsProjection(pid.params.setpointFilter);
      assert PidMerged(pid.params, PidAnswer(pid.params, feedforward), feedforward) == pid.params;
    case SmithController(smith) =>
      NormalizeIsProjection(smith.params.setpointFilter);
      assert SmithMerged(smith.params, SmithAnswer(smith.params)) == smith.params;
      SamePredictor(smith);
    case StepController(_) =>
  }

  lemma SamePredictor(s: Smith.SmithState)
    requires s.Valid()
    ensures Smith.RetunedPredictor(s.predictor, s.params, s.params) == s.predictor
  {
  }

  predicate OfFilter(k: Key) {
    k.FilterType? || k.FilterSize?
  }

  /** What an accepted update makes of a controller's parameters. */
  lemma TunedSettings(c: ControllerState, u: ControllerParams)
    requires c.Valid() && Tuned(c, u).1.None?
    ensures Tuned(c, u).0.Settings() ==
      match c
      case PidController(pid, feedforward) =>
        PidSettings(PidMerged(pid.params, u, feedforward).Normalized().value, feedforward)
      case SmithController(smith) => SmithSettings(SmithMerged(smith.params, u).Normalized().value)
      case StepController(output) => StepSettings(Assign(output, u.max))
    ensures c.PidController? ==> PidMerged(c.pid.params, u, c.feedforward).Normalized().Ok?
    ensures c.SmithController? ==> SmithMerged(c.smith.params, u).Normalized().Ok?
  {
  }

  /** What GetParams reports before and after an update, about one setting: the same settings are
      reported; one that was given reads as given, one that was not as before. */
  predicate ReadsAsSet(was: ControllerParams, u: ControllerParams, now: ControllerParams, k: Key) {
    && (Field(now, k).Some? <==> Field(was, k).Some?)
    && (Field(was, k).Some? && !OfFilter(k) ==> Field(now, k) == if Field(u, k).Some? then Field(u, k) else Field(was, k))
  }

  /** The filter reads as given, normalised. */
  predicate FilterReadsAsSet(was: ControllerParams, u: ControllerParams, now: ControllerParams) {
    && was.filterType.Some? && was.filterSize.Some? && now.filterType.Some? && now.filterSize.Some?
    && Normalize(Spec(Assign(was.filterType.value, u.filterType), Assign(was.filterSize.value, u.filterSize)))
       == Ok(Spec(now.filterType.value, now.filterSize.value))
  }

  lemma PidReadsAsSet(p: Pid.PidParams, feedforward: bool, u: ControllerParams, n: Pid.PidParams, k: Key)
    requires PidMerged(p, u, feedforward).Normalized() == Ok(n)
    ensures ReadsAsSet(PidAnswer(p, feedforward), u, PidAnswer(n, feedforward), k)
    ensures FilterReadsAsSet(PidAnswer(p, feedforward), u, PidAnswer(n, feedforward))
  {
    hide Normalize;
  }

  lemma SmithReadsAsSet(p: Smith.SmithParams, u: ControllerParams, n: Smith.SmithParams, k: Key)
    requires SmithMerged(p, u).Normalized() == Ok(n)
    ensures ReadsAsSet(SmithAnswer(p), u, SmithAnswer(n), k)
    ensures FilterReadsAsSet(SmithAnswer(p), u, SmithAnswer(n))
  {
    hide Normalize;
  }

  /** GetParams after an accepted SetParams reports what was set; the filter is normalised. */
  lemma ReadingWhatWasSet(c: ControllerState, u: ControllerParams, k: Key)
    requires c.Valid() && Tuned(c, u).1.None?
    ensures ReadsAsSet(c.Settings().Answer(), u, Tuned(c, u).0.Settings().Answer(), k)
    ensures !c.StepController? ==> FilterReadsAsSet(c.Settings().Answer(), u, Tuned(c, u).0.Settings().Answer())
  {
    hide Tuned, PidMerged, SmithMerged, PidAnswer, SmithAnswer, Pid.PidParams.Normalized, Smith.SmithParams.Normalized;
    hide ReadsAsSet, FilterReadsAsSet;
    TunedSettings(c, u);
    match c
    case PidController(pid, feedforward) =>
      PidReadsAsSet(pid.params, feedforward, u, PidMerged(pid.params, u, feedforward).Normalized().value, k);
    case SmithController(smith) =>
      SmithReadsAsSet(smith.params, u, SmithMerged(smith.params, u).Normalized().value, k);
    case StepController(output) =>
      StepReadsAsSet(output, u, k);
  }

  lemma StepReadsAsSet(output: real, u: ControllerParams, k: Key)
    ensures ReadsAsSet(StepSettings(output).Answer(), u, StepSettings(Assign(output, u.max)).Answer(), k)
  {
  }
}
