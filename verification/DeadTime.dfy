/**
  What a Smith predictor is for: on a plant that its model describes, it cancels the dead
  time. Two closed loops are compared, call by call.
 */
module DeadTime {
  import opened Numbers
  import opened Control
  import opened Predictor
  import opened Smith
  import opened SmithProperties
  import Pid

  /** A first-order plant under a held input: its output now, its input, its outputs at all
      accepted samples so far, and the time of the last one. */
  datatype Plant = Plant(y: real, u: real, past: seq<real>, clock: ClockState)

  const AT_REST := Plant(0.0, 0.0, [], NEW_CLOCK)

  /** The step response of a first-order plant, in closed form: what its output y has become t
      seconds later under a held input u. */
  function Response(k: real, tau: real, y: real, u: real, t: real): real
    requires tau > 0.0
  {
    k * u + ExpNeg(t / tau) * (y - k * u)
  }

  /** The plant at time `at`; an outdated time leaves it alone. */
  function PlantAt(plant: Plant, k: real, tau: real, at: int): Plant
    requires tau > 0.0
  {
    match Advanced(plant.clock, at)
    case Err(_) => plant
    case Ok((clock, dt)) =>
      var y := Response(k, tau, plant.y, plant.u, dt);
      Plant(y, plant.u, plant.past + [y], clock)
  }

  /** A sensor that is d samples late: 0 until the first output reaches it. */
  function Sensed(plant: Plant, d: nat): real {
    if |plant.past| <= d then 0.0 else plant.past[|plant.past| - 1 - d]
  }

  /** What happens to a loop: a sample, a new setpoint, or new parameters. */
  datatype Event = Sample(at: int) | Move(setpoint: Number) | Retune(params: SmithParams)

  /** The Smith predictor of the plant's own model, behind a sensor that is late by the delay. */
  function SmithLoop(s: SmithState, plant: Plant, event: Event): (r: (SmithState, Plant, Reply))
    requires s.Valid()
    ensures r.0.Valid()
  {
    match event
    case Sample(at) =>
      var now := PlantAt(plant, s.params.model.k.v, s.params.model.tau.v, at);
      var (s', reply) := Exec(s, Compute(Finite(Sensed(now, s.params.Delay())), at));
      (s', if reply.Computed? then now.(u := reply.terms.output) else now, reply)
    case Move(setpoint) =>
      var (s', reply) := Exec(s, SetSetpoint(setpoint));
      (s', plant, reply)
    case Retune(p) =>
      var (s', reply) := Exec(s, SetParams(p));
      (s', plant, reply)
  }

  /** The same loop with a PI controller and a sensor that is not late. */
  function PiLoop(c: Pid.PidState, plant: Plant, k: real, tau: real, event: Event): (r: (Pid.PidState, Plant, Reply))
    requires c.Valid() && tau > 0.0
    ensures r.0.Valid()
  {
    match event
    case Sample(at) =>
      var now := PlantAt(plant, k, tau, at);
      var (c', reply) := Pid.Exec(c, Compute(Finite(Sensed(now, 0)), at));
      (c', if reply.Computed? then now.(u := reply.terms.output) else now, reply)
    case Move(setpoint) =>
      var (c', reply) := Pid.Exec(c, SetSetpoint(setpoint));
      (c', plant, reply)
    case Retune(p) =>
      var (c', reply) := Pid.Exec(c, SetParams(PiParams(p)));
      (c', plant, reply)
  }

  function SmithReplies(s: SmithState, plant: Plant, events: seq<Event>): (r: seq<Reply>)
    requires s.Valid()
    ensures |r| == |events|
    decreases |events|
  {
    if events == [] then []
    else
      var (s', plant', reply) := SmithLoop(s, plant, events[0]);
      [reply] + SmithReplies(s', plant', events[1..])
  }

  function PiReplies(c: Pid.PidState, plant: Plant, k: real, tau: real, events: seq<Event>): (r: seq<Reply>)
    requires c.Valid() && tau > 0.0
    ensures |r| == |events|
    decreases |events|
  {
    if events == [] then []
    else
      var (c', plant', reply) := PiLoop(c, plant, k, tau, events[0]);
      [reply] + PiReplies(c', plant', k, tau, events[1..])
  }

  /** The gains, limits, setpoint and filter may change; the plant does not, nor does its model. */
  predicate KeepsModel(event: Event, p: SmithParams) {
    event.Retune? ==> event.params.model == p.model && event.params.sampleSeconds == p.sampleSeconds
  }

  /** The bisimulation: both plants are the same, the controllers agree, the model's output
      and input are the plant's, and the delay line is the plant's output on its way to the
      sensor. */
  predicate Matched(s: SmithState, c: Pid.PidState, plant: Plant)
    requires s.Valid()
  {
    && SamePi(s, c)
    && s.clock == plant.clock
    && s.predictor.output == plant.y && s.predictor.held == plant.u
    && s.predictor.line == Last(Copies(0.0, s.params.Delay()) + plant.past, s.params.Delay())
  }

  /** One step of the model is the response of the plant. */
  lemma ModelIsPlant(k: real, tau: real, plant: Plant, at: int)
    requires tau > 0.0 && Advanced(plant.clock, at).Ok?
    ensures var dt := Advanced(plant.clock, at).value.1;
      PlantAt(plant, k, tau, at).y == FirstOrder(k, tau, plant.y, plant.u, dt)
  {
    hide FirstOrder;
    FirstOrderGap(k, tau, plant.y, plant.u, Advanced(plant.clock, at).value.1);
  }

  /** The model's late output cancels the late measurement, leaving the plant's output now. */
  lemma FeedbackIsPlantOutput(s: SmithState, c: Pid.PidState, plant: Plant, at: int)
    requires s.Valid() && Matched(s, c, plant) && Advanced(plant.clock, at).Ok?
    ensures var now := PlantAt(plant, s.params.model.k.v, s.params.model.tau.v, at);
      && Feedback(s, Sensed(now, s.params.Delay()), at) == Sensed(now, 0) == now.y
      && AdvancedBy(s.predictor, Advanced(s.clock, at).value.1).0
         == s.predictor.(output := now.y, line := Last(Copies(0.0, s.params.Delay()) + now.past, s.params.Delay()))
  {
    hide FirstOrder, Response, Model.DelaySamples, SmithState.Valid;
    ModelIsPlant(s.params.model.k.v, s.params.model.tau.v, plant, at);
    var now := PlantAt(plant, s.params.model.k.v, s.params.model.tau.v, at);
    DelayStep(s.params.Delay(), plant.past, now.y);
  }

  /** What a sample does to the predictor and the clock. */
  lemma SampleMovesModel(s: SmithState, m: real, at: int)
    requires s.Valid()
    ensures var (s', reply) := Exec(s, Compute(Finite(m), at));
      && s'.params == s.params
      && match Advanced(s.clock, at)
         case Err(_) => s' == s && reply.Rejected?
         case Ok((clock, dt)) =>
           && reply.Computed? && s'.clock == clock
           && s'.predictor == AdvancedBy(s.predictor, dt).0.(held := reply.terms.output)
  {
    hide NextRef, AdvancedBy, StepTerms, SmithState.Valid;
  }

  lemma SampleKeepsMatch(s: SmithState, c: Pid.PidState, plant: Plant, at: int)
    requires s.Valid() && c.Valid() && Matched(s, c, plant)
    ensures var (s', plant', reply) := SmithLoop(s, plant, Sample(at));
            var (c', plant'', reply') := PiLoop(c, plant, s.params.model.k.v, s.params.model.tau.v, Sample(at));
            && Matched(s', c', plant') && plant' == plant'' && s'.params == s.params
            && SameReply(reply, reply')
  {
    hide Exec, Pid.Exec, Feedback, AdvancedBy, Response, Model.DelaySamples, SmithState.Valid, Pid.PidState.Valid;
    var now := PlantAt(plant, s.params.model.k.v, s.params.model.tau.v, at);
    var m, pv := Sensed(now, s.params.Delay()), Sensed(now, 0);
    if Advanced(plant.clock, at).Ok? {
      FeedbackIsPlantOutput(s, c, plant, at);
    }
    SampleMovesModel(s, m, at);
    SampleAgrees(s, c, m, pv, at);
  }

  lemma RetuneKeepsModel(s: SmithState, p: SmithParams)
    requires s.Valid() && p.model == s.params.model && p.sampleSeconds == s.params.sampleSeconds
    ensures var s' := Exec(s, SetParams(p)).0;
      && s'.clock == s.clock && s'.predictor == s.predictor
      && s'.params.model == s.params.model && s'.params.sampleSeconds == s.params.sampleSeconds
  {
    hide Retuned;
  }

  lemma EventKeepsMatch(s: SmithState, c: Pid.PidState, plant: Plant, event: Event)
    requires s.Valid() && c.Valid() && Matched(s, c, plant) && KeepsModel(event, s.params)
    ensures var (s', plant', reply) := SmithLoop(s, plant, event);
            var (c', plant'', reply') := PiLoop(c, plant, s.params.model.k.v, s.params.model.tau.v, event);
            && Matched(s', c', plant') && plant' == plant''
            && s'.params.model == s.params.model && s'.params.sampleSeconds == s.params.sampleSeconds
            && SameReply(reply, reply')
  {
    hide SameReply, SamePi, Stepped, Pid.Stepped, Retuned, RetunedPredictor, Model.DelaySamples;
    match event
    case Sample(at) =>
      SampleKeepsMatch(s, c, plant, at);
    case Move(setpoint) =>
      OthersAgree(s, c, setpoint);
    case Retune(p) =>
      RetuneKeepsModel(s, p);
      SetParamsAgrees(s, c, p);
  }

  lemma {:induction false} MatchedLoopsAgree(
    s: SmithState, c: Pid.PidState, plant: Plant, k: real, tau: real, events: seq<Event>)
    requires s.Valid() && c.Valid() && Matched(s, c, plant)
    requires k == s.params.model.k.v && tau == s.params.model.tau.v
    requires forall event :: event in events ==> KeepsModel(event, s.params)
    ensures forall i :: 0 <= i < |events| ==>
      SameReply(SmithReplies(s, plant, events)[i], PiReplies(c, plant, k, tau, events)[i])
    decreases |events|
  {
    hide SmithLoop, PiLoop, Matched, SameReply;
    if events != [] {
      var (s', plant', reply) := SmithLoop(s, plant, events[0]);
      var (c', _, reply') := PiLoop(c, plant, k, tau, events[0]);
      EventKeepsMatch(s, c, plant, events[0]);
      assert forall event :: event in events[1..] ==> KeepsModel(event, s.params);
      MatchedLoopsAgree(s', c', plant', k, tau, events[1..]);
      assert SmithReplies(s, plant, events) == [reply] + SmithReplies(s', plant', events[1..]);
      assert PiReplies(c, plant, k, tau, events) == [reply'] + PiReplies(c', plant', k, tau, events[1..]);
    }
  }

  /** Dead-time cancellation. From rest, for every sequence of timestamps, setpoint changes and
      retunings, the Smith predictor that sees the plant d samples late returns exactly the
      outputs of a PI controller that sees it at once. */
  lemma DeadTimeIsCancelled(p: SmithParams, events: seq<Event>)
    requires NewSmith(p).Ok?
    requires forall event :: event in events ==> KeepsModel(event, p)
    ensures Pid.NewPid(PiParams(p)).Ok?
    ensures var smith := SmithReplies(NewSmith(p).value, AT_REST, events);
            var pi := PiReplies(Pid.NewPid(PiParams(p)).value, AT_REST, p.model.k.v, p.model.tau.v, events);
            forall i :: 0 <= i < |events| ==> SameReply(smith[i], pi[i])
  {
    hide SmithLoop, PiLoop, SmithReplies, PiReplies, SameReply;
    NewAgrees(p);
    var s := NewSmith(p).value;
    assert Copies(0.0, s.params.Delay()) + AT_REST.past == Copies(0.0, s.params.Delay());
    MatchedLoopsAgree(s, Pid.NewPid(PiParams(p)).value, AT_REST, p.model.k.v, p.model.tau.v, events);
  }
}
