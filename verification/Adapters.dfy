/** app/repositories/controllers: the controller objects behind the Controller interface. */
module Adapters {
  import opened Numbers
  import opened Errors
  import opened Control
  import opened Entities
  import opened Configuration
  import opened Controllers
  import Pid
  import Smith
  import Predictor

  /** pid.go. */
  class PidAdapter {
    const pid: Pid.PID
    const feedforward: bool

    constructor (pid: Pid.PID, feedforward: bool)
      ensures this.pid == pid && this.feedforward == feedforward
    {
      this.pid, this.feedforward := pid, feedforward;
    }

    static method New(cfg: Config, feedforward: bool) returns (r: Result<PidAdapter, Error>)
      ensures r.Err? ==> Pid.NewPid(PidFromConfig(cfg, feedforward)) == Err(r.error)
      ensures r.Ok? ==> r.value.feedforward == feedforward && fresh(r.value)
      ensures r.Ok? ==> r.value.pid.Valid() && fresh(r.value.pid.Objects())
      ensures r.Ok? ==> Pid.NewPid(PidFromConfig(cfg, feedforward)) == Ok(r.value.pid.State())
    {
      hide Pid.NewPid;
      var s := cfg.pid;
      var filter := SetpointFilter(s, cfg.intervalMs);
      var p := Pid.PidParams(s.kp, s.ki, s.kd, s.ffGain, s.setpoint, filter, Limits(s.min, s.max, s.iClamp));
      if !feedforward {
        p := p.(ffGain := 0.0);
      }
      assert p == PidFromConfig(cfg, feedforward);
      var c := Pid.PID.New(p);
      match c {
        case Err(e) =>
          return Err(e);
        case Ok(pid) =>
          var a := new PidAdapter(pid, feedforward);
          return Ok(a);
      }
    }

    method Compute(measured: Number, at: int) returns (r: Result<real, Error>)
      requires pid.Valid()
      modifies pid.Objects()
      ensures pid.Valid() && pid.Objects() == old(pid.Objects())
      ensures (PidController(pid.State(), feedforward), r)
           == Measured(PidController(old(pid.State()), feedforward), measured, at)
    {
      hide Pid.PidState.Valid, Reference.Valid, Reference.State;
      var reply := pid.Compute(measured, at);
      return if reply.Rejected? then Err(reply.error) else Ok(reply.terms.output);
    }

    method GetParams() returns (p: ControllerParams)
      ensures p == PidAnswer(pid.params, feedforward)
    {
      var q := pid.params;
      p := NO_PARAMS.(kp := Some(q.kp), ki := Some(q.ki), kd := Some(q.kd),
                      min := Some(q.limits.min), max := Some(q.limits.max), iClamp := Some(q.limits.iClamp),
                      setpoint := Some(q.setpoint),
                      filterType := Some(q.setpointFilter.kind), filterSize := Some(q.setpointFilter.size));
      if feedforward {
        p := p.(ffGain := Some(q.ffGain));
      }
    }

    /** Field by field, then all at once. */
    method SetParams(u: ControllerParams) returns (err: Option<Error>)
      requires pid.Valid()
      modifies pid.Objects()
      ensures pid.Valid() && fresh(pid.Objects() - old(pid.Objects()))
      ensures (PidController(pid.State(), feedforward), err) == Tuned(PidController(old(pid.State()), feedforward), u)
    {
      hide Pid.PidState.Valid, Pid.PidParams.Normalized, Reference.Valid, Reference.State;
      var p := pid.params;
      p := p.(kp := Assign(p.kp, u.kp));
      p := p.(ki := Assign(p.ki, u.ki));
      p := p.(kd := Assign(p.kd, u.kd));
      p := p.(limits := p.limits.(min := Assign(p.limits.min, u.min)));
      p := p.(limits := p.limits.(max := Assign(p.limits.max, u.max)));
      p := p.(limits := p.limits.(iClamp := Assign(p.limits.iClamp, u.iClamp)));
      p := p.(setpoint := Assign(p.setpoint, u.setpoint));
      p := p.(setpointFilter := p.setpointFilter.(kind := Assign(p.setpointFilter.kind, u.filterType)));
      p := p.(setpointFilter := p.setpointFilter.(size := Assign(p.setpointFilter.size, u.filterSize)));
      if feedforward {
        p := p.(ffGain := Assign(p.ffGain, u.ffGain));
      }
      assert p == PidMerged(pid.params, u, feedforward);
      var reply := pid.SetParams(p);
      return if reply.Rejected? then Some(reply.error) else None;
    }
  }

  /** smith.go. */
  class SmithAdapter {
    const smith: Smith.SmithController

    constructor (smith: Smith.SmithController)
      ensures this.smith == smith
    {
      this.smith := smith;
    }

    static method New(cfg: Config) returns (r: Result<SmithAdapter, Error>)
      ensures r.Err? ==> Smith.NewSmith(SmithFromConfig(cfg)) == Err(r.error)
      ensures r.Ok? ==> r.value.smith.Valid() && fresh(r.value) && fresh(r.value.smith.Objects())
      ensures r.Ok? ==> Smith.NewSmith(SmithFromConfig(cfg)) == Ok(r.value.smith.State())
    {
      hide Smith.NewSmith;
      var c := Smith.SmithController.New(SmithFromConfig(cfg));
      match c {
        case Err(e) =>
          return Err(e);
        case Ok(smith) =>
          var a := new SmithAdapter(smith);
          return Ok(a);
      }
    }

    method Compute(measured: Number, at: int) returns (r: Result<real, Error>)
      requires smith.Valid()
      modifies smith.Objects()
      ensures smith.Valid() && smith.Objects() == old(smith.Objects())
      ensures (SmithController(smith.State()), r) == Measured(SmithController(old(smith.State())), measured, at)
    {
      hide Smith.SmithState.Valid, Smith.Stepped;
      hide Reference.Valid, Reference.State, Predictor.DelayPredictor.Valid, Predictor.DelayPredictor.State;
      var reply := smith.Compute(measured, at);
      return if reply.Rejected? then Err(reply.error) else Ok(reply.terms.output);
    }

    method GetParams() returns (p: ControllerParams)
      ensures p == SmithAnswer(smith.params)
    {
      p := SmithAnswer(smith.params);
    }

    method SetParams(u: ControllerParams) returns (err: Option<Error>)
      requires smith.Valid()
      modifies smith.Objects()
      ensures smith.Valid() && fresh(smith.Objects() - old(smith.Objects()))
      ensures (SmithController(smith.State()), err) == Tuned(SmithController(old(smith.State())), u)
    {
      hide Smith.SmithState.Valid, Smith.SmithParams.Normalized, Smith.Exec;
      hide Reference.Valid, Reference.State, Predictor.DelayPredictor.Valid, Predictor.DelayPredictor.State;
      var p := smith.params;
      p := p.(kp := Assign(p.kp, u.kp));
      p := p.(ki := Assign(p.ki, u.ki));
      p := p.(limits := p.limits.(min := Assign(p.limits.min, u.min)));
      p := p.(limits := p.limits.(max := Assign(p.limits.max, u.max)));
      p := p.(limits := p.limits.(iClamp := Assign(p.limits.iClamp, u.iClamp)));
      p := p.(setpoint := Assign(p.setpoint, u.setpoint));
      p := p.(setpointFilter := p.setpointFilter.(kind := Assign(p.setpointFilter.kind, u.filterType)));
      p := p.(setpointFilter := p.setpointFilter.(size := Assign(p.setpointFilter.size, u.filterSize)));
      p := p.(model := p.model.(k := Assign(p.model.k, u.modelK)));
      p := p.(model := p.model.(tau := Assign(p.model.tau, u.modelTau)));
      p := p.(model := p.model.(theta := Assign(p.model.theta, u.modelTheta)));
      p := p.(sampleSeconds := Assign(p.sampleSeconds, u.sampleSeconds));
      assert p == SmithMerged(smith.params, u);
      var reply := smith.SetParams(p);
      return if reply.Rejected? then Some(reply.error) else None;
    }
  }

  /** step.go: a constant output, changed through `max`. */
  class StepAdapter {
    var output: real

    constructor (output: real)
      ensures this.output == output
    {
      this.output := output;
    }

    method Compute(measured: Number, at: int) returns (r: Result<real, Error>)
      ensures (StepController(output), r) == Measured(StepController(output), measured, at)
    {
      return Ok(output);
    }

    method GetParams() returns (p: ControllerParams)
      ensures p == StepSettings(output).Answer()
    {
      return NO_PARAMS.(max := Some(output));
    }

    method SetParams(u: ControllerParams) returns (err: Option<Error>)
      modifies this
      ensures (StepController(output), err) == Tuned(StepController(old(output)), u)
    {
      if u.max.Some? {
        output := u.max.value;
      }
      return None;
    }
  }

  /** A value of the Controller interface. */
  datatype AnyController = APid(p: PidAdapter) | ASmith(s: SmithAdapter) | AStep(t: StepAdapter) {

    /** The objects that say which objects there are ... */
    ghost function Anchor(): set<object> {
      match this
      case APid(p) => {p, p.pid, p.pid.ref}
      case ASmith(s) => {s, s.smith, s.smith.ref}
      case AStep(t) => {t}
    }

    /** ... and all of them. */
    ghost function Objects(): set<object>
      reads Anchor()
      ensures Anchor() <= Objects()
    {
      match this
      case APid(p) => Anchor() + p.pid.Objects()
      case ASmith(s) => Anchor() + s.smith.Objects()
      case AStep(t) => {t}
    }

    ghost predicate Valid()
      reads Anchor(), Objects()
    {
      match this
      case APid(p) => p.pid.Valid() && p !in p.pid.Objects()
      case ASmith(s) => s.smith.Valid() && s !in s.smith.Objects()
      case AStep(_) => true
    }

    ghost function State(): (c: ControllerState)
      requires Valid()
      reads Anchor(), Objects()
      ensures c.Valid()
    {
      match this
      case APid(p) => PidController(p.pid.State(), p.feedforward)
      case ASmith(s) => SmithController(s.smith.State())
      case AStep(t) => StepController(t.output)
    }

    method Compute(measured: Number, at: int) returns (r: Result<real, Error>)
      requires Valid()
      modifies Objects()
      ensures Valid() && Objects() == old(Objects())
      ensures (State(), r) == Measured(old(State()), measured, at)
    {
      hide Measured;
      match this {
        case APid(p) => r := p.Compute(measured, at);
        case ASmith(s) => r := s.Compute(measured, at);
        case AStep(t) => r := t.Compute(measured, at);
      }
    }

    method GetParams() returns (p: ControllerParams)
      requires Valid()
      ensures p == State().Settings().Answer()
    {
      match this {
        case APid(c) => p := c.GetParams();
        case ASmith(c) => p := c.GetParams();
        case AStep(c) => p := c.GetParams();
      }
    }

    method SetParams(u: ControllerParams) returns (err: Option<Error>)
      requires Valid()
      modifies Objects()
      ensures Valid() && fresh(Objects() - old(Objects()))
      ensures (State(), err) == Tuned(old(State()), u)
    {
      hide Tuned;
      match this {
        case APid(p) => err := p.SetParams(u);
        case ASmith(s) => err := s.SetParams(u);
        case AStep(t) => err := t.SetParams(u);
      }
    }

    method Reset()
      requires Valid()
      modifies Objects()
      ensures Valid() && fresh(Objects() - old(Objects()))
      ensures State() == Restarted(old(State()))
    {
      match this {
        case APid(p) => p.pid.Reset();
        case ASmith(s) => s.smith.Reset();
        case AStep(_) =>
      }
    }
  }
}
