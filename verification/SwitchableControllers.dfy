/** app/repositories/controllers/switchable: the controllers of every type, one of them active. */
module SwitchableControllers {
  import opened Numbers
  import opened Errors
  import opened Control
  import opened Entities
  import opened Configuration
  import opened Controllers
  import opened Adapters
  import Pid
  import Smith
  import PidProperties
  import SmithProperties

  datatype SwitchError =
    | UnknownType(name: string)
    | Building(name: string, error: Error)

  // On values

  datatype SwitchState = SwitchState(activeType: string, available: map<string, ControllerState>) {
    predicate Valid() {
      && activeType in available
      && forall name :: name in available ==> available[name].Valid() && available[name].Settings().Type() == name
    }

    function Active(): (c: ControllerState)
      requires Valid()
      ensures c.Valid() && c.Settings().Type() == activeType
    {
      available[activeType]
    }
  }

  datatype Op =
    | Compute(measured: Number, at: int)
    | SetParams(u: ControllerParams)
    | Reset
    | SetType(name: string)

  /** SetType: the controller of another type starts afresh. */
  function Switched(s: SwitchState, name: string): (r: (SwitchState, Option<SwitchError>))
    requires s.Valid()
    ensures r.0.Valid()
  {
    if name == s.activeType then (s, None)
    else if name !in s.available then (s, Some(UnknownType(name)))
    else (SwitchState(name, s.available[name := Restarted(s.available[name])]), None)
  }

  /** The state one call leaves; all but SetType are for the active controller. */
  function Exec(s: SwitchState, op: Op): (r: SwitchState)
    requires s.Valid()
    ensures r.Valid()
  {
    match op
    case Compute(measured, at) => s.(available := s.available[s.activeType := Measured(s.Active(), measured, at).0])
    case SetParams(u) => s.(available := s.available[s.activeType := Tuned(s.Active(), u).0])
    case Reset => s.(available := s.available[s.activeType := Restarted(s.Active())])
    case SetType(name) => Switched(s, name).0
  }

  function Run(s: SwitchState, ops: seq<Op>): (r: SwitchState)
    requires s.Valid()
    ensures r.Valid()
    decreases |ops|
  {
    if ops == [] then s else Run(Exec(s, ops[0]), ops[1..])
  }

  // What the active controller answers

  function ClockOf(c: ControllerState): ClockState
    requires !c.StepController?
  {
    if c.PidController? then c.pid.clock else c.smith.clock
  }

  function LimitsOf(c: ControllerState): Limits
    requires !c.StepController?
  {
    if c.PidController? then c.pid.params.limits else c.smith.params.limits
  }

  /** The drain rate a controller is expected to answer: its constant for step; otherwise the output
      of its control law, unless the sample is not finite or older than the last accepted one. */
  function ExpectedAnswer(c: ControllerState, measured: Number, at: int): Result<real, Error>
    requires c.Valid()
  {
    if c.StepController? then Ok(c.output)
    else if measured.NonFinite? then Err(InvalidMeasurement)
    else
      var clock := ClockOf(c);
      var dt := if clock.started then Seconds(at - clock.last) else 0.0;
      if clock.started && at < clock.last then Err(OutdatedMeasurement)
      else if c.PidController? then Ok(PidProperties.ExpectedTerms(c.pid, measured.v, dt).output)
      else Ok(SmithProperties.ExpectedTerms(c.smith, measured.v, dt).output)
  }

  /** Every controller, in every state, answers so; the rate is within its limits, and a sample that
      is answered with an error leaves it as it was. */
  lemma AnswersAsExpected(c: ControllerState, measured: Number, at: int)
    requires c.Valid()
    ensures var (c', r) := Measured(c, measured, at);
      && r == ExpectedAnswer(c, measured, at)
      && (r.Err? ==> c' == c)
      && (r.Ok? && !c.StepController? ==> LimitsOf(c).min <= r.value <= LimitsOf(c).max)
  {
    hide PidProperties.ExpectedTerms, SmithProperties.ExpectedTerms, Pid.Stepped, Smith.Stepped, Settled;
    if !c.StepController? && measured.Finite? && Advanced(ClockOf(c), at).Ok? {
      match c
      case PidController(pid, _) =>
        PidProperties.SampleObeysLaw(pid, measured.v, at);
        PidProperties.ComputeLaw(pid, measured.v, at);
      case SmithController(smith) =>
        SmithProperties.SampleObeysLaw(smith, measured.v, at);
        SmithProperties.ComputeLaw(smith, measured.v, at);
    }
  }

  /** Whatever calls and switches came before: a sample reaches the active controller, which answers
      as expected and within its limits; an error changes nothing at all. */
  lemma RunsAnswerAsExpected(s: SwitchState, ops: seq<Op>, measured: Number, at: int)
    requires s.Valid()
    ensures var now := Run(s, ops);
      var (c, r) := Measured(now.Active(), measured, at);
      && r == ExpectedAnswer(now.Active(), measured, at)
      && Exec(now, Op.Compute(measured, at)) == now.(available := now.available[now.activeType := c])
      && (r.Err? ==> Exec(now, Op.Compute(measured, at)) == now)
      && (r.Ok? && !now.Active().StepController? ==> LimitsOf(now.Active()).min <= r.value <= LimitsOf(now.Active()).max)
  {
    hide Measured, ExpectedAnswer;
    var now := Run(s, ops);
    AnswersAsExpected(now.Active(), measured, at);
    assert now.available[now.activeType := now.Active()] == now.available;
  }

  /** An update is refused with the first defect of the parameters it would give, and only then. */
  lemma RefusesExactly(c: ControllerState, u: ControllerParams)
    requires c.Valid()
    ensures Tuned(c, u).1 ==
      match c
      case PidController(pid, feedforward) => PidProperties.Defect(PidMerged(pid.params, u, feedforward))
      case SmithController(smith) => SmithProperties.Defect(SmithMerged(smith.params, u))
      case StepController(_) => None
    ensures Tuned(c, u).1.Some? ==> Tuned(c, u).0 == c
  {
    hide Pid.Exec, Smith.Exec, PidProperties.Defect, SmithProperties.Defect, PidMerged, SmithMerged;
    match c
    case PidController(pid, feedforward) => PidProperties.RejectsExactly(pid, PidMerged(pid.params, u, feedforward));
    case SmithController(smith) => SmithProperties.RejectsExactly(smith, SmithMerged(smith.params, u));
    case StepController(_) =>
  }

  /** A controller by itself, after one call. */
  function AloneAfter(c: ControllerState, op: Op): (c': ControllerState)
    requires c.Valid()
    ensures c'.Valid()
  {
    match op
    case Compute(measured, at) => Measured(c, measured, at).0
    case SetParams(u) => Tuned(c, u).0
    case Reset => Restarted(c)
    case SetType(_) => c
  }

  /** The run of one controller by itself. */
  function Alone(c: ControllerState, ops: seq<Op>): (c': ControllerState)
    requires c.Valid()
    ensures c'.Valid()
    decreases |ops|
  {
    if ops == [] then c else Alone(AloneAfter(c, ops[0]), ops[1..])
  }

  /** A pid without feedforward never feeds forward, whatever the file and the updates say about it;
      a pidff starts with the gain of the file. */
  lemma {:induction false} PlainPidNeverFeedsForward(c: ControllerState, ops: seq<Op>, measured: real, dt: real)
    requires c.Valid() && c.PidController? && !c.feedforward && c.pid.params.ffGain == 0.0
    ensures var c' := Alone(c, ops);
      && c'.PidController? && !c'.feedforward && c'.pid.params.ffGain == 0.0
      && PidProperties.ExpectedTerms(c'.pid, measured, dt).ff == 0.0
    decreases |ops|
  {
    hide AloneAfter, PidProperties.ExpectedTerms;
    if ops == [] {
      NoGainNoFeedforward(c, measured, dt);
    } else {
      GainStays(c, ops[0]);
      PlainPidNeverFeedsForward(AloneAfter(c, ops[0]), ops[1..], measured, dt);
    }
  }

  lemma NoGainNoFeedforward(c: ControllerState, measured: real, dt: real)
    requires c.Valid() && c.PidController? && c.pid.params.ffGain == 0.0
    ensures PidProperties.ExpectedTerms(c.pid, measured, dt).ff == 0.0
  {
    hide Proportional, Increment, Derivative, Settled;
  }

  lemma GainStays(c: ControllerState, op: Op)
    requires c.Valid() && c.PidController? && !c.feedforward
    ensures var next := AloneAfter(c, op);
      next.PidController? && !next.feedforward && next.pid.params.ffGain == c.pid.params.ffGain
  {
    hide Pid.Stepped, Retuned, ClearedRef;
  }

  lemma FeedforwardGainAsBuilt(cfg: Config)
    ensures Built(cfg, "pid").Ok? ==> Built(cfg, "pid").value.PidController? && !Built(cfg, "pid").value.feedforward
                                      && Built(cfg, "pid").value.pid.params.ffGain == 0.0
    ensures Built(cfg, "pidff").Ok? ==> Built(cfg, "pidff").value.PidController? && Built(cfg, "pidff").value.feedforward
                                        && Built(cfg, "pidff").value.pid.params.ffGain == cfg.pid.ffGain
  {
  }

  /** While no other type is activated, the active controller is as it would be by itself. */
  lemma {:induction false} ActiveIsAlone(s: SwitchState, ops: seq<Op>)
    requires s.Valid() && forall name :: SetType(name) in ops ==> name == s.activeType || name !in s.available
    ensures var s' := Run(s, ops);
      s'.activeType == s.activeType && s'.Active() == Alone(s.Active(), ops)
    decreases |ops|
  {
    hide Exec, AloneAfter, ControllerState.Valid;
    if ops != [] {
      ActiveStep(s, ops[0]);
      ActiveIsAlone(Exec(s, ops[0]), ops[1..]);
    }
  }

  lemma ActiveStep(s: SwitchState, op: Op)
    requires s.Valid() && (op.SetType? ==> op.name == s.activeType || op.name !in s.available)
    ensures var s' := Exec(s, op);
      s'.activeType == s.activeType && s'.Active() == AloneAfter(s.Active(), op) && s'.available.Keys == s.available.Keys
  {
    hide Measured, Tuned, Restarted, ControllerState.Valid;
  }

  /** SetType of the active type, or of an unknown one, leaves everything as it is; only the latter
      is an error. */
  lemma OnlyKnownTypesSwitch(s: SwitchState, name: string)
    requires s.Valid()
    ensures var (s', err) := Switched(s, name);
      && (err == if name in s.available then None else Some(UnknownType(name)))
      && (s' == s || (name in s.available && name != s.activeType && s'.activeType == name))
      && (name in s.available ==> s'.activeType == name)
  {
  }

  /** A new controller with the given settings. */
  function NewWith(settings: Settings): Result<ControllerState, Error> {
    match settings
    case PidSettings(p, feedforward) =>
      (match Pid.NewPid(p) case Err(e) => Err(e) case Ok(c) => Ok(PidController(c, feedforward)))
    case SmithSettings(p) =>
      (match Smith.NewSmith(p) case Err(e) => Err(e) case Ok(c) => Ok(SmithController(c)))
    case StepSettings(output) => Ok(StepController(output))
  }

  lemma RestartedIsNew(c: ControllerState)
    requires c.Valid()
    ensures NewWith(c.Settings()) == Ok(Restarted(c))
  {
    match c
    case PidController(pid, _) => PidProperties.ResetIsNew(pid);
    case SmithController(smith) => SmithProperties.ResetIsNew(smith);
    case StepController(_) =>
  }

  lemma {:induction false} RunAppend(s: SwitchState, a: seq<Op>, b: seq<Op>)
    requires s.Valid()
    ensures Run(s, a + b) == Run(Run(s, a), b)
    decreases |a|
  {
    if a == [] {
      assert a + b == b;
    } else {
      assert (a + b)[1..] == a[1..] + b;
      RunAppend(Exec(s, a[0]), a[1..], b);
    }
  }

  /** Whatever the active controllers go through, one that is not activated keeps its state. */
  lemma {:induction false} InactiveIsUntouched(s: SwitchState, ops: seq<Op>, name: string)
    requires s.Valid() && name in s.available && name != s.activeType && SetType(name) !in ops
    ensures var s' := Run(s, ops);
      name != s'.activeType && name in s'.available && s'.available[name] == s.available[name]
    decreases |ops|
  {
    hide Measured, Tuned, Restarted, ControllerState.Valid;
    if ops != [] {
      InactiveIsUntouched(Exec(s, ops[0]), ops[1..], name);
    }
  }

  /** A controller that becomes active again after any history is one newly built from the
      parameters it had; every other controller is left as it was. */
  lemma ActivationStartsAfresh(s: SwitchState, ops: seq<Op>, name: string)
    requires s.Valid() && name in s.available && name != s.activeType && SetType(name) !in ops
    ensures var before, after := Run(s, ops), Run(s, ops + [SetType(name)]);
      && after.activeType == name
      && NewWith(s.available[name].Settings()) == Ok(after.Active())
      && after.available.Keys == before.available.Keys
      && forall other :: other in before.available && other != name ==> after.available[other] == before.available[other]
  {
    InactiveIsUntouched(s, ops, name);
    RunAppend(s, ops, [SetType(name)]);
    RestartedIsNew(s.available[name]);
    var before := Run(s, ops);
    assert Run(before, [SetType(name)]) == Run(Exec(before, SetType(name)), []);
  }

  // The object

  /** What is known of a controller: the objects it is made of, and its value. */
  datatype Slot = Slot(objects: set<object>, state: ControllerState)

  /** The slot is that of a sound controller of the named type. */
  ghost predicate Fits(c: AnyController, name: string, slot: Slot)
    reads slot.objects
    ensures Fits(c, name, slot) ==> slot.state.Valid() && slot.state.Settings().Type() == name
  {
    && c.Anchor() <= slot.objects && c.Objects() == slot.objects && c.Valid()
    && c.State() == slot.state && slot.state.Settings().Type() == name
  }

  method ResetIn(c: AnyController, ghost name: string, ghost slot: Slot) returns (ghost slot': Slot)
    requires Fits(c, name, slot)
    modifies slot.objects
    ensures Fits(c, name, slot') && fresh(slot'.objects - slot.objects)
    ensures slot'.state == Restarted(slot.state)
  {
    hide Restarted;
    c.Reset();
    slot' := Slot(c.Objects(), c.State());
  }

  method TuneIn(c: AnyController, ghost name: string, ghost slot: Slot, u: ControllerParams)
    returns (err: Option<Error>, ghost slot': Slot)
    requires Fits(c, name, slot)
    modifies slot.objects
    ensures Fits(c, name, slot') && fresh(slot'.objects - slot.objects)
    ensures (slot'.state, err) == Tuned(slot.state, u)
  {
    hide Tuned;
    err := c.SetParams(u);
    slot' := Slot(c.Objects(), c.State());
  }

  method MeasureIn(c: AnyController, ghost name: string, ghost slot: Slot, measured: Number, at: int)
    returns (r: Result<real, Error>, ghost slot': Slot)
    requires Fits(c, name, slot)
    modifies slot.objects
    ensures Fits(c, name, slot') && fresh(slot'.objects - slot.objects)
    ensures (slot'.state, r) == Measured(slot.state, measured, at)
  {
    hide Measured;
    r := c.Compute(measured, at);
    slot' := Slot(c.Objects(), c.State());
  }

  /** No two controllers share an object. */
  ghost predicate Apart(slots: map<string, Slot>) {
    forall a, b :: a in slots && b in slots && a != b ==> slots[a].objects !! slots[b].objects
  }

  ghost function Union(slots: map<string, Slot>): set<object> {
    set name, o | name in slots && o in slots[name].objects :: o
  }

  ghost function States(slots: map<string, Slot>): map<string, ControllerState> {
    map name | name in slots :: slots[name].state
  }

  ghost predicate AllFit(available: map<string, AnyController>, slots: map<string, Slot>)
    reads Union(slots)
  {
    && slots.Keys == available.Keys && Apart(slots)
    && forall name :: name in available ==> Fits(available[name], name, slots[name])
  }

  /** Every controller so far is as its factory makes it. */
  ghost predicate AllBuilt(cfg: Config, slots: map<string, Slot>) {
    slots.Keys <= TYPES && forall name :: name in slots ==> Built(cfg, name) == Ok(slots[name].state)
  }

  lemma NoneApart()
    ensures Apart(map[])
  {
  }

  lemma OneMoreApart(slots: map<string, Slot>, name: string, slot: Slot)
    requires Apart(slots) && slot.objects !! Union(slots)
    ensures Apart(slots[name := slot])
    ensures Union(slots[name := slot]) <= Union(slots) + slot.objects
  {
  }

  lemma OthersApart(slots: map<string, Slot>, name: string)
    requires Apart(slots) && name in slots
    ensures forall other :: other in slots && other != name ==> slots[other].objects !! slots[name].objects
    ensures forall other :: other in slots ==> slots[other].objects <= Union(slots)
  {
  }

  lemma StillApart(slots: map<string, Slot>, name: string, slot: Slot)
    requires Apart(slots) && name in slots
    requires (slot.objects - slots[name].objects) !! Union(slots)
    ensures Apart(slots[name := slot])
    ensures Union(slots[name := slot]) <= Union(slots) + slot.objects
    ensures States(slots[name := slot]) == States(slots)[name := slot.state]
  {
    forall other | other in slots && other != name ensures slot.objects !! slots[other].objects {
      assert slots[name].objects !! slots[other].objects;
      assert slots[other].objects <= Union(slots);
    }
  }

  lemma StepIsSound(a: StepAdapter)
    ensures AStep(a).Valid() && AStep(a).State() == StepController(a.output)
  {
  }

  class SwitchableController {
    var active: AnyController
    var activeType: string
    const available: map<string, AnyController>
    ghost var slots: map<string, Slot>
    ghost var repr: set<object>

    constructor (available: map<string, AnyController>, activeType: string, ghost slots: map<string, Slot>)
      requires activeType in available && AllFit(available, slots)
      ensures Valid() && fresh(this) && repr == Union(slots)
      ensures this.available == available && this.activeType == activeType && this.slots == slots
    {
      hide Fits, Apart;
      this.available, this.active, this.activeType := available, available[activeType], activeType;
      this.slots, this.repr := slots, Union(slots);
    }

    /** The controllers share nothing. */
    ghost predicate Valid()
      reads this, repr
    {
      && activeType in available && active == available[activeType]
      && this !in repr && Union(slots) <= repr
      && AllFit(available, slots)
    }

    ghost function State(): (s: SwitchState)
      requires Valid()
      reads this, repr
      ensures s.Valid()
    {
      SwitchState(activeType, States(slots))
    }

    /** Every type of controller is built, whichever is to be active first. */
    static method New(cfg: Config, controllerType: string) returns (r: Result<SwitchableController, SwitchError>)
      ensures r.Ok? ==> r.value.Valid() && fresh(r.value) && fresh(r.value.repr)
      ensures r.Ok? ==> r.value.State().activeType == controllerType && r.value.State().available.Keys == TYPES
      ensures r.Ok? ==> forall name :: name in TYPES ==> Built(cfg, name) == Ok(r.value.State().available[name])
      ensures r.Err? ==>
        match r.error
        case Building(name, e) => name in TYPES && Built(cfg, name) == Err(e)
        case UnknownType(name) => name == controllerType && name !in TYPES && forall t :: t in TYPES ==> Built(cfg, t).Ok?
    {
      hide ControllerState.Settings, ControllerState.Valid, Settings.Type, Fits, Apart, Built;
      var available, slots := BuildAll(cfg);
      match available {
        case Err(e) =>
          return Err(e);
        case Ok(all) =>
          if controllerType !in all {
            return Err(UnknownType(controllerType));
          }
          var c := new SwitchableController(all, controllerType, slots);
          return Ok(c);
      }
    }

    /** In the order Go visits the factories, up to the first that fails. */
    static method BuildAll(cfg: Config)
      returns (r: Result<map<string, AnyController>, SwitchError>, ghost slots: map<string, Slot>)
      ensures r.Ok? ==> r.value.Keys == TYPES && AllFit(r.value, slots) && AllBuilt(cfg, slots) && fresh(Union(slots))
      ensures r.Err? ==> r.error.Building? && r.error.name in TYPES && Built(cfg, r.error.name) == Err(r.error.error)
    {
      hide ControllerState.Settings, ControllerState.Valid, Settings.Type, Fits, Apart, Built;
      var available: map<string, AnyController> := map[];
      var rest := TYPES;
      slots := map[];
      NoneApart();
      while rest != {}
        invariant rest <= TYPES && available.Keys == TYPES - rest
        invariant AllFit(available, slots) && AllBuilt(cfg, slots) && fresh(Union(slots))
      {
        var name :| name in rest;
        var c, slot := Build(cfg, name);
        match c {
          case Err(e) =>
            return Err(Building(name, e)), slots;
          case Ok(built) =>
            OneMoreApart(slots, name, slot);
            available, slots := available[name := built], slots[name := slot];
            rest := rest - {name};
        }
      }
      return Ok(available), slots;
    }

    /** The factory of one type. */
    static method Build(cfg: Config, controllerType: string)
      returns (r: Result<AnyController, Error>, ghost slot: Slot)
      requires controllerType in TYPES
      ensures r.Err? ==> Built(cfg, controllerType) == Err(r.error)
      ensures r.Ok? ==> Fits(r.value, controllerType, slot) && fresh(slot.objects)
      ensures r.Ok? ==> Built(cfg, controllerType) == Ok(slot.state)
    {
      hide AnyController.Valid, AnyController.State;
      hide ControllerState.Valid, Pid.NewPid, Smith.NewSmith, PidFromConfig, SmithFromConfig;
      hide Pid.PID.Valid, Pid.PID.State, Smith.SmithController.Valid, Smith.SmithController.State;
      slot := Slot({}, StepController(0.0));
      if controllerType == "smith" {
        r := BuildSmith(cfg);
      } else if controllerType == "step" {
        var a := new StepAdapter(cfg.pid.max);
        r := Ok(AStep(a));
        StepIsSound(a);
      } else {
        r := BuildPid(cfg, controllerType == "pidff");
      }
      if r.Ok? {
        slot := Slot(r.value.Objects(), r.value.State());
      }
    }

    static method BuildPid(cfg: Config, feedforward: bool) returns (r: Result<AnyController, Error>)
      ensures r.Err? ==> Pid.NewPid(PidFromConfig(cfg, feedforward)) == Err(r.error)
      ensures r.Ok? ==> r.value.Valid() && fresh(r.value.Objects()) && r.value.State().PidController?
      ensures r.Ok? ==> r.value.State().feedforward == feedforward
      ensures r.Ok? ==> Pid.NewPid(PidFromConfig(cfg, feedforward)) == Ok(r.value.State().pid)
    {
      hide ControllerState.Valid, Pid.NewPid, Smith.NewSmith, PidFromConfig, SmithFromConfig;
      hide Pid.PID.Valid, Pid.PID.State, Smith.SmithController.Valid, Smith.SmithController.State;
      var c := PidAdapter.New(cfg, feedforward);
      match c {
        case Err(e) => r := Err(e);
        case Ok(a) => r := Ok(APid(a));
      }
    }

    static method BuildSmith(cfg: Config) returns (r: Result<AnyController, Error>)
      ensures r.Err? ==> Smith.NewSmith(SmithFromConfig(cfg)) == Err(r.error)
      ensures r.Ok? ==> r.value.Valid() && fresh(r.value.Objects()) && r.value.State().SmithController?
      ensures r.Ok? ==> Smith.NewSmith(SmithFromConfig(cfg)) == Ok(r.value.State().smith)
    {
      hide ControllerState.Valid, Pid.NewPid, Smith.NewSmith, PidFromConfig, SmithFromConfig;
      hide Pid.PID.Valid, Pid.PID.State, Smith.SmithController.Valid, Smith.SmithController.State;
      var c := SmithAdapter.New(cfg);
      match c {
        case Err(e) => r := Err(e);
        case Ok(a) => r := Ok(ASmith(a));
      }
    }

    method SetParams(u: ControllerParams) returns (err: Option<Error>)
      requires Valid()
      modifies this, repr
      ensures Valid() && fresh(repr - old(repr))
      ensures State() == Exec(old(State()), Op.SetParams(u)) && err == Tuned(old(State()).Active(), u).1
    {
      hide ControllerState.Settings, ControllerState.Valid, Settings.Type, Fits, Tuned, Apart, Union;
      OthersApart(slots, activeType);
      ghost var slot;
      err, slot := TuneIn(active, activeType, slots[activeType], u);
      StillApart(slots, activeType, slot);
      slots, repr := slots[activeType := slot], repr + slot.objects;
    }

    method Compute(measured: Number, at: int) returns (r: Result<real, Error>)
      requires Valid()
      modifies this, repr
      ensures Valid() && fresh(repr - old(repr))
      ensures State() == Exec(old(State()), Op.Compute(measured, at)) && r == Measured(old(State()).Active(), measured, at).1
    {
      hide ControllerState.Settings, ControllerState.Valid, Settings.Type, Fits, Measured, Apart, Union;
      OthersApart(slots, activeType);
      ghost var slot;
      r, slot := MeasureIn(active, activeType, slots[activeType], measured, at);
      StillApart(slots, activeType, slot);
      slots, repr := slots[activeType := slot], repr + slot.objects;
    }

    method Reset()
      requires Valid()
      modifies this, repr
      ensures Valid() && fresh(repr - old(repr))
      ensures State() == Exec(old(State()), Op.Reset)
    {
      hide ControllerState.Settings, ControllerState.Valid, Settings.Type, Fits, Restarted, Apart, Union;
      OthersApart(slots, activeType);
      ghost var slot := ResetIn(active, activeType, slots[activeType]);
      StillApart(slots, activeType, slot);
      slots, repr := slots[activeType := slot], repr + slot.objects;
    }

    method GetParams() returns (p: ControllerParams)
      requires Valid()
      ensures p == State().Active().Settings().Answer()
    {
      p := active.GetParams();
    }

    method SetType(name: string) returns (err: Option<SwitchError>)
      requires Valid()
      modifies this, repr
      ensures Valid() && fresh(repr - old(repr))
      ensures (State(), err) == Switched(old(State()), name)
    {
      hide ControllerState.Settings, ControllerState.Valid, Settings.Type, Fits, Restarted, Apart, Union;
      if name == activeType {
        return None;
      }
      if name !in available {
        return Some(UnknownType(name));
      }
      var next := available[name];
      OthersApart(slots, name);
      ghost var slot := ResetIn(next, name, slots[name]);
      StillApart(slots, name, slot);
      slots, repr := slots[name := slot], repr + slot.objects;
      active := next;
      activeType := name;
      return None;
    }
  }
}
