/** pkg/control/pid.go: the position-form PID controller. */
module Pid {
  import opened Numbers
  import opened Errors
  import opened FilterSignal
  import opened Control

  datatype PidParams = PidParams(
    kp: real, ki: real, kd: real, ffGain: real,
    setpoint: Number, setpointFilter: Spec, limits: Limits)
  {
    function Normalized(): Result<PidParams, Error> {
      match limits.Validate()
      case Some(e) => Err(e)
      case None =>
        match CheckSetpoint(setpoint)
        case Some(e) => Err(e)
        case None =>
          match Normalize(setpointFilter)
          case Err(e) => Err(e)
          case Ok(spec) => Ok(this.(setpointFilter := spec))
    }

    predicate IsNormal() {
      limits.Valid() && setpoint.Finite? && FilterSignal.IsNormal(setpointFilter)
    }
  }

  /** The normal parameters are exactly the results of Normalized, and its fixed points. */
  lemma NormalizedIsProjection(p: PidParams)
    ensures p.Normalized().Ok? ==> p.Normalized().value.IsNormal()
    ensures p.IsNormal() <==> p.Normalized() == Ok(p)
  {
    NormalizeIsProjection(p.setpointFilter);
  }

  // The controller as a value.

  datatype PidState =
    PidState(params: PidParams, ref: RefState, clock: ClockState, integral: real, prevError: real)
  {
    /** What every reachable state satisfies. */
    predicate Valid() {
      && params.IsNormal()
      && ref.Valid()
      && ref.filter.spec == params.setpointFilter
      && -params.limits.iClamp <= integral <= params.limits.iClamp
    }
  }

  function NewPid(p: PidParams): (r: Result<PidState, Error>)
    ensures r.Ok? ==> r.value.Valid()
  {
    NormalizedIsProjection(p);
    match p.Normalized()
    case Err(e) => Err(e)
    case Ok(normal) =>
      NormalizeIsProjection(normal.setpointFilter);
      Ok(PidState(normal, NewRef(normal.setpointFilter).value, NEW_CLOCK, 0.0, 0.0))
  }

  /** The terms of one step at reference sp and control error e. */
  function StepTerms(p: PidParams, sp: real, measured: real, e: real, integral: real, prevError: real, dt: real)
    : Terms
  {
    var pTerm := Proportional(p.kp, e);
    var dTerm := Derivative(p.kd, e, prevError, dt);
    var ff := Feedforward(p.ffGain, sp);
    var i := p.limits.Integrate(integral, Increment(p.ki, e, dt), ff + pTerm + dTerm);
    var output := p.limits.Clamped(ff + pTerm + i + dTerm);
    Terms(sp, measured, e, pTerm, i, dTerm, ff, output, 0.0, 0.0)
  }

  function Stepped(s: PidState, measured: real, dt: real): (r: (PidState, Terms))
    requires s.Valid()
    ensures r.0.Valid() && r.0.params == s.params
  {
    var ref := NextRef(s.ref, s.params.setpoint.v);
    var e := ref.effective - measured;
    var t := StepTerms(s.params, ref.effective, measured, e, s.integral, s.prevError, dt);
    (PidState(s.params, ref, s.clock, t.i, t.error), t)
  }

  type Op = Call<PidParams>

  /** One call: the state it leaves and what it returns. */
  function Exec(s: PidState, op: Op): (r: (PidState, Reply))
    requires s.Valid()
    ensures r.0.Valid()
  {
    match op
    case Compute(measured, at) =>
      (match CheckMeasurement(measured)
       case Some(e) => (s, Rejected(e))
       case None =>
         match Advanced(s.clock, at)
         case Err(e) => (s, Rejected(e))
         case Ok((clock, dt)) =>
           var (s', t) := Stepped(s.(clock := clock), measured.v, dt);
           (s', Computed(t)))
    case SetParams(p) =>
      (NormalizedIsProjection(p);
       match p.Normalized()
       case Err(e) => (s, Rejected(e))
       case Ok(normal) =>
         NormalizeIsProjection(normal.setpointFilter);
         match Retuned(s.ref, normal.setpointFilter)
         case Err(e) => (s, Rejected(e))
         case Ok(ref) => (s.(params := normal, ref := ref, integral := 0.0), Accepted))
    case SetSetpoint(setpoint) =>
      (match CheckSetpoint(setpoint)
       case Some(e) => (s, Rejected(e))
       case None => (s.(params := s.params.(setpoint := setpoint)), Accepted))
    case Reset =>
      (PidState(s.params, ClearedRef(s.ref), NEW_CLOCK, 0.0, 0.0), Accepted)
  }

  /** A sequence of calls. */
  function Run(s: PidState, ops: seq<Op>): (r: (PidState, seq<Reply>))
    requires s.Valid()
    ensures r.0.Valid() && |r.1| == |ops|
    decreases |ops|
  {
    if ops == [] then (s, [])
    else
      var (s1, reply) := Exec(s, ops[0]);
      var (s2, replies) := Run(s1, ops[1..]);
      (s2, [reply] + replies)
  }

  class PID {
    var params: PidParams
    const ref: Reference
    var clock: SampleClock
    var integral: real
    var prevError: real

    ghost function Objects(): set<object>
      reads this, ref
    {
      {this, clock} + ref.Objects()
    }

    ghost predicate Valid()
      reads this, ref, Objects()
    {
      ref.Valid() && State().Valid()
    }

    ghost function State(): PidState
      requires ref.Valid()
      reads this, Objects(), ref, ref.Objects()
    {
      PidState(params, ref.State(), clock.State(), integral, prevError)
    }

    /** The controller NewPID builds from normalised parameters. */
    constructor (normal: PidParams)
      requires normal.IsNormal()
      ensures Valid() && fresh(Objects())
      ensures NewPid(normal) == Ok(State())
    {
      NormalizedIsProjection(normal);
      params := normal;
      ref := new Reference(normal.setpointFilter);
      clock := new SampleClock();
      integral, prevError := 0.0, 0.0;
    }

    static method New(p: PidParams) returns (r: Result<PID, Error>)
      ensures r.Err? ==> NewPid(p) == Err(r.error)
      ensures r.Ok? ==> r.value.Valid() && fresh(r.value.Objects())
      ensures r.Ok? ==> NewPid(p) == Ok(r.value.State())
    {
      NormalizedIsProjection(p);
      match p.Normalized() {
        case Err(e) =>
          return Err(e);
        case Ok(normal) =>
          NormalizedIsProjection(normal);
          var c := new PID(normal);
          return Ok(c);
      }
    }

    method Compute(measured: Number, at: int) returns (reply: Reply)
      requires Valid()
      modifies Objects()
      ensures Valid() && Objects() == old(Objects())
      ensures (State(), reply) == Exec(old(State()), Call.Compute(measured, at))
    {
      if measured.NonFinite? {
        return Rejected(InvalidMeasurement);
      }
      var dt := clock.Advance(at);
      if dt.Err? {
        return Rejected(dt.error);
      }
      var t := Step(measured.v, dt.value);
      return Computed(t);
    }

    method Step(measured: real, dt: real) returns (t: Terms)
      requires Valid()
      modifies Objects()
      ensures Valid() && Objects() == old(Objects())
      ensures (State(), t) == Stepped(old(State()), measured, dt)
    {
      hide Proportional, Increment, Derivative, Feedforward, Clamp;
      var sp := ref.Next(params.setpoint.v);
      var e := sp - measured;
      var p := Proportional(params.kp, e);
      var d := Derivative(params.kd, e, prevError, dt);
      var ff := Feedforward(params.ffGain, sp);
      integral := params.limits.Integrate(integral, Increment(params.ki, e, dt), ff + p + d);
      t := Terms(sp, measured, e, p, integral, d, ff,
                 params.limits.Clamped(ff + p + integral + d), 0.0, 0.0);
      prevError := e;
      assert State() == Stepped(old(State()), measured, dt).0;
    }

    method SetParams(p: PidParams) returns (reply: Reply)
      requires Valid()
      modifies Objects()
      ensures Valid() && fresh(Objects() - old(Objects()))
      ensures (State(), reply) == Exec(old(State()), Call.SetParams(p))
    {
      NormalizedIsProjection(p);
      var normal := p.Normalized();
      if normal.Err? {
        return Rejected(normal.error);
      }
      NormalizeIsProjection(normal.value.setpointFilter);
      var err := ref.Retune(normal.value.setpointFilter);
      match err {
        case Some(e) =>
          return Rejected(e);
        case None =>
          params := normal.value;
          integral := 0.0;
          return Accepted;
      }
    }

    method SetSetpoint(setpoint: Number) returns (reply: Reply)
      requires Valid()
      modifies this
      ensures Valid() && Objects() == old(Objects())
      ensures (State(), reply) == Exec(old(State()), Call.SetSetpoint(setpoint))
    {
      if setpoint.NonFinite? {
        return Rejected(InvalidSetpoint);
      }
      params := params.(setpoint := setpoint);
      return Accepted;
    }

    method Reset()
      requires Valid()
      modifies Objects()
      ensures Valid() && fresh(Objects() - old(Objects()))
      ensures (State(), Accepted) == Exec(old(State()), Call.Reset)
    {
      integral := 0.0;
      prevError := 0.0;
      clock := new SampleClock();
      ref.Reset();
    }
  }
}
