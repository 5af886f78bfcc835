/** pkg/control/smith.go: the Smith predictor, a PI controller around an internal model. */
module Smith {
  import opened Numbers
  import opened Errors
  import opened FilterSignal
  import opened Control
  import opened Predictor

  datatype SmithParams = SmithParams(
    kp: real, ki: real, setpoint: Number, setpointFilter: Spec,
    model: Model, sampleSeconds: Number, limits: Limits)
  {
    function Normalized(): Result<SmithParams, Error> {
      match limits.Validate()
      case Some(e) => Err(e)
      case None =>
        match CheckSetpoint(setpoint)
        case Some(e) => Err(e)
        case None =>
          match model.Validate(sampleSeconds)
          case Some(e) => Err(e)
          case None =>
            match Normalize(setpointFilter)
            case Err(e) => Err(e)
            case Ok(spec) => Ok(this.(setpointFilter := spec))
    }

    predicate IsNormal() {
      && limits.Valid() && setpoint.Finite? && model.ValidFor(sampleSeconds)
      && FilterSignal.IsNormal(setpointFilter)
    }

    function Delay(): nat
      requires model.ValidFor(sampleSeconds)
    {
      model.DelaySamples(sampleSeconds)
    }
  }

  /** The normal parameters are exactly the results of Normalized, and its fixed points. */
  lemma NormalizedIsProjection(p: SmithParams)
    ensures p.Normalized().Ok? ==> p.Normalized().value.IsNormal()
    ensures p.IsNormal() <==> p.Normalized() == Ok(p)
  {
    NormalizeIsProjection(p.setpointFilter);
  }

  // The controller as a value.

  datatype SmithState =
    SmithState(params: SmithParams, ref: RefState, clock: ClockState, integral: real, predictor: PredictorState)
  {
    /** What every reachable state satisfies. In particular the delay line always has the
        length the current parameters ask for. */
    predicate Valid()
      ensures Valid() ==> params.IsNormal() && ref.Valid() && predictor.model == params.model
    {
      && params.IsNormal()
      && ref.Valid()
      && ref.filter.spec == params.setpointFilter
      && -params.limits.iClamp <= integral <= params.limits.iClamp
      && predictor.model == params.model
      && |predictor.line| == params.Delay()
    }
  }

  function NewSmith(p: SmithParams): (r: Result<SmithState, Error>)
    ensures r.Ok? ==> r.value.Valid()
  {
    NormalizedIsProjection(p);
    match p.Normalized()
    case Err(e) => Err(e)
    case Ok(normal) =>
      NormalizeIsProjection(normal.setpointFilter);
      Ok(SmithState(normal, NewRef(normal.setpointFilter).value, NEW_CLOCK, 0.0,
                    NewPredictor(normal.model, normal.sampleSeconds)))
  }

  /** The terms of one step at reference sp, control error e and predicted output now. */
  function StepTerms(p: SmithParams, sp: real, measured: real, feedback: real, now: real, e: real,
                     integral: real, dt: real): Terms
  {
    var pTerm := Proportional(p.kp, e);
    var i := p.limits.Integrate(integral, Increment(p.ki, e, dt), pTerm);
    var output := p.limits.Clamped(pTerm + i);
    Terms(sp, measured, e, pTerm, i, 0.0, 0.0, output, feedback, now)
  }

  function Stepped(s: SmithState, measured: real, dt: real): (r: (SmithState, Terms))
    requires s.Valid()
    ensures r.0.Valid() && r.0.params == s.params
  {
    var ref := NextRef(s.ref, s.params.setpoint.v);
    var (predictor, delayed) := AdvancedBy(s.predictor, dt);
    var feedback := measured + predictor.output - delayed;
    var e := ref.effective - feedback;
    var t := StepTerms(s.params, ref.effective, measured, feedback, predictor.output, e, s.integral, dt);
    (SmithState(s.params, ref, s.clock, t.i, predictor.(held := t.output)), t)
  }

  /** The delay line survives unless the dead time or the sampling period changes. */
  function RetunedPredictor(predictor: PredictorState, was: SmithParams, p: SmithParams): PredictorState
    requires p.IsNormal()
  {
    if p.model.theta != was.model.theta || p.sampleSeconds != was.sampleSeconds then
      NewPredictor(p.model, p.sampleSeconds)
    else
      predictor.(model := p.model)
  }

  type Op = Call<SmithParams>

  /** SetParams once the parameters are normalised. */
  function Adopted(s: SmithState, normal: SmithParams): (r: (SmithState, Reply))
    requires s.Valid() && normal.IsNormal()
    ensures r.0.Valid()
  {
    NormalizeIsProjection(normal.setpointFilter);
    match Retuned(s.ref, normal.setpointFilter)
    case Err(e) => (s, Rejected(e))
    case Ok(ref) =>
      (s.(params := normal, ref := ref, integral := 0.0, predictor := RetunedPredictor(s.predictor, s.params, normal)),
       Accepted)
  }

  /** One call: the state it leaves and what it returns. */
  function Exec(s: SmithState, op: Op): (r: (SmithState, Reply))
    requires s.Valid()
    ensures r.0.Valid()
  {
    match op
    case Compute(measured, at) =>
      (match CheckMeasurement(measured)
       case Some(e) => (s, Rejected(e))
       case None =>
         match Advanced(s.clock, at)
         case Err(e) => (s, Rejected(e))
         case Ok((clock, dt)) =>
           var (s', t) := Stepped(s.(clock := clock), measured.v, dt);
           (s', Computed(t)))
    case SetParams(p) =>
      (NormalizedIsProjection(p);
       match p.Normalized()
       case Err(e) => (s, Rejected(e))
       case Ok(normal) => Adopted(s, normal))
    case SetSetpoint(setpoint) =>
      (match CheckSetpoint(setpoint)
       case Some(e) => (s, Rejected(e))
       case None => (s.(params := s.params.(setpoint := setpoint)), Accepted))
    case Reset =>
      (SmithState(s.params, ClearedRef(s.ref), NEW_CLOCK, 0.0, NewPredictor(s.params.model, s.params.sampleSeconds)),
       Accepted)
  }

  /** A sequence of calls. */
  function Run(s: SmithState, ops: seq<Op>): (r: (SmithState, seq<Reply>))
    requires s.Valid()
    ensures r.0.Valid() && |r.1| == |ops|
    decreases |ops|
  {
    if ops == [] then (s, [])
    else
      var (s1, reply) := Exec(s, ops[0]);
      var (s2, replies) := Run(s1, ops[1..]);
      (s2, [reply] + replies)
  }

  class SmithController {
    var params: SmithParams
    const ref: Reference
    var clock: SampleClock
    var integral: real
    var predictor: DelayPredictor

    ghost function Objects(): set<object>
      reads this, ref
    {
      {this, clock} + ref.Objects() + predictor.Objects()
    }

    ghost predicate Valid()
      reads this, ref, Objects()
    {
      ref.Valid() && predictor.Valid() && predictor.delay != ref.filter.window.buf && State().Valid()
    }

    ghost function State(): SmithState
      requires ref.Valid() && predictor.Valid()
      reads this, Objects(), ref, ref.Objects(), predictor.Objects()
    {
      SmithState(params, ref.State(), clock.State(), integral, predictor.State())
    }

    /** The controller NewSmith builds from normalised parameters. */
    constructor (normal: SmithParams)
      requires normal.IsNormal()
      ensures Valid() && fresh(Objects())
      ensures NewSmith(normal) == Ok(State())
    {
      hide Reference.State, Reference.Valid, DelayPredictor.State, DelayPredictor.Valid;
      hide SmithState.Valid, SmithParams.Normalized, Model.ValidFor, Model.DelaySamples, Normalize;
      hide NewRef, NewPredictor;
      NormalizedIsProjection(normal);
      params := normal;
      ref := new Reference(normal.setpointFilter);
      clock := new SampleClock();
      integral := 0.0;
      predictor := new DelayPredictor(normal.model, normal.sampleSeconds);
      new;
      assert State() == NewSmith(normal).value;
    }

    static method New(p: SmithParams) returns (r: Result<SmithController, Error>)
      ensures r.Err? ==> NewSmith(p) == Err(r.error)
      ensures r.Ok? ==> r.value.Valid() && fresh(r.value.Objects())
      ensures r.Ok? ==> NewSmith(p) == Ok(r.value.State())
    {
      NormalizedIsProjection(p);
      match p.Normalized() {
        case Err(e) =>
          return Err(e);
        case Ok(normal) =>
          NormalizedIsProjection(normal);
          var c := new SmithController(normal);
          return Ok(c);
      }
    }

    method Compute(measured: Number, at: int) returns (reply: Reply)
      requires Valid()
      modifies Objects()
      ensures Valid() && Objects() == old(Objects())
      ensures (State(), reply) == Exec(old(State()), Call.Compute(measured, at))
    {
      if measured.NonFinite? {
        return Rejected(InvalidMeasurement);
      }
      var dt := clock.Advance(at);
      if dt.Err? {
        return Rejected(dt.error);
      }
      var t := Step(measured.v, dt.value);
      return Computed(t);
    }

    method Step(measured: real, dt: real) returns (t: Terms)
      requires Valid()
      modifies Objects()
      ensures Valid() && Objects() == old(Objects())
      ensures (State(), t) == Stepped(old(State()), measured, dt)
    {
      hide Reference.State, Reference.Valid, DelayPredictor.State, DelayPredictor.Valid;
      hide SmithState.Valid, NextRef, AdvancedBy, StepTerms;
      var sp := ref.Next(params.setpoint.v);
      ghost var reference := ref.State();
      var now, delayed := predictor.Advance(dt);
      var feedback := measured + now - delayed;
      assert ref.Valid() && ref.State() == reference;
      t := Act(sp, measured, feedback, now, dt);
      assert State() == Stepped(old(State()), measured, dt).0;
    }

    /** The second half of step: integrate, clamp, and hold the output for the model. */
    method Act(sp: real, measured: real, feedback: real, now: real, dt: real) returns (t: Terms)
      requires ref.Valid() && predictor.Valid()
      modifies `integral, predictor`held
      ensures ref.Valid() && predictor.Valid()
      ensures t == StepTerms(params, sp, measured, feedback, now, sp - feedback, old(integral), dt)
      ensures State() == old(State()).(integral := t.i, predictor := old(predictor.State()).(held := t.output))
    {
      hide Proportional, Increment, Limits.Integrate, Limits.Clamped;
      var e := sp - feedback;
      var p := Proportional(params.kp, e);
      integral := params.limits.Integrate(integral, Increment(params.ki, e, dt), p);
      t := Terms(sp, measured, e, p, integral, 0.0, 0.0, params.limits.Clamped(p + integral), feedback, now);
      predictor.Hold(t.output);
    }

    method SetParams(p: SmithParams) returns (reply: Reply)
      requires Valid()
      modifies Objects()
      ensures Valid() && fresh(Objects() - old(Objects()))
      ensures (State(), reply) == Exec(old(State()), Call.SetParams(p))
    {
      hide SmithState.Valid, SmithParams.Normalized, Adopted;
      NormalizedIsProjection(p);
      match p.Normalized() {
        case Err(e) =>
          return Rejected(e);
        case Ok(normal) =>
          reply := Adopt(normal);
      }
    }

    method Adopt(normal: SmithParams) returns (reply: Reply)
      requires Valid() && normal.IsNormal()
      modifies Objects()
      ensures Valid() && fresh(Objects() - old(Objects()))
      ensures (State(), reply) == Adopted(old(State()), normal)
    {
      hide Reference.State, Reference.Valid, DelayPredictor.State, DelayPredictor.Valid;
      hide SmithState.Valid, SmithParams.IsNormal, RetunedPredictor, Retuned;
      hide Normalize, RefState.Valid, Model.ValidFor, Model.DelaySamples;
      NormalizeIsProjection(normal.setpointFilter);
      var err := ref.Retune(normal.setpointFilter);
      match err {
        case Some(e) =>
          return Rejected(e);
        case None =>
          RetunePredictor(normal);
          params := normal;
          integral := 0.0;
          assert State() == Adopted(old(State()), normal).0;
          return Accepted;
      }
    }

    method RetunePredictor(p: SmithParams)
      requires ref.Valid() && predictor.Valid() && p.IsNormal()
      modifies `predictor, predictor`model
      ensures ref.Valid() && predictor.Valid()
      ensures fresh(predictor.Objects() - old(predictor.Objects()))
      ensures predictor.State() == RetunedPredictor(old(predictor.State()), params, p)
      ensures ref.State() == old(ref.State())
      ensures old(predictor.delay != ref.filter.window.buf) ==> predictor.delay != ref.filter.window.buf
    {
      if p.model.theta != params.model.theta || p.sampleSeconds != params.sampleSeconds {
        predictor := new DelayPredictor(p.model, p.sampleSeconds);
        return;
      }
      predictor.model := p.model;
    }

    method SetSetpoint(setpoint: Number) returns (reply: Reply)
      requires Valid()
      modifies this
      ensures Valid() && Objects() == old(Objects())
      ensures (State(), reply) == Exec(old(State()), Call.SetSetpoint(setpoint))
    {
      if setpoint.NonFinite? {
        return Rejected(InvalidSetpoint);
      }
      params := params.(setpoint := setpoint);
      return Accepted;
    }

    method Reset()
      requires Valid()
      modifies Objects()
      ensures Valid() && fresh(Objects() - old(Objects()))
      ensures (State(), Accepted) == Exec(old(State()), Call.Reset)
    {
      hide Reference.State, Reference.Valid, DelayPredictor.State, DelayPredictor.Valid;
      hide SmithState.Valid, Model.ValidFor, Model.DelaySamples, ClearedRef, NewPredictor;
      hide Adopted, Stepped, Advanced, FilterSignal.IsNormal, Normalize, RefState.Valid;
      integral := 0.0;
      clock := new SampleClock();
      ref.Reset();
      assert ref.Valid() && ref.State() == ClearedRef(old(State()).ref);
      predictor := new DelayPredictor(params.model, params.sampleSeconds);
      assert ref.Valid() && predictor.delay != ref.filter.window.buf;
      assert State() == Exec(old(State()), Call.Reset).0;
    }
  }
}
