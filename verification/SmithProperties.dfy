/** What the Smith predictor guarantees, over single calls and over whole runs. */
module SmithProperties {
  import opened Numbers
  import opened Errors
  import opened FilterSignal
  import opened Control
  import opened Predictor
  import opened Smith
  import Pid

  // What is accepted, and what it changes

  const KINDS := {"", NONE, MOVING_AVERAGE, EXPONENTIAL}

  /** What is wrong with a set of parameters: the first of these that applies. */
  function Defect(p: SmithParams): Option<Error> {
    if p.limits.min > p.limits.max then Some(InvalidLimits)
    else if p.limits.iClamp < 0.0 then Some(NegativeIClamp)
    else if p.setpoint.NonFinite? then Some(InvalidSetpoint)
    else if !p.model.k.Finite? || !p.model.tau.Finite? || !p.model.theta.Finite? || !p.sampleSeconds.Finite? then
      Some(InvalidModel)
    else if p.model.tau.v <= 0.0 || p.sampleSeconds.v <= 0.0 || p.model.theta.v < 0.0 then Some(InvalidModel)
    else if p.setpointFilter.kind !in KINDS then Some(UnknownFilter(p.setpointFilter.kind))
    else None
  }

  /** Exactly the parameters without a defect are accepted, by the constructor and by SetParams; any
      others are answered with their first defect. */
  lemma RejectsExactly(s: SmithState, p: SmithParams)
    requires s.Valid()
    ensures match Defect(p)
      case None => NewSmith(p).Ok? && Exec(s, SetParams(p)).1 == Accepted
      case Some(e) => NewSmith(p) == Err(e) && Exec(s, SetParams(p)) == (s, Rejected(e))
  {
    hide Copies, Model.DelaySamples, RetunedPredictor;
  }

  /** Accepted parameters are installed as they are, but for the normalised filter. The integral is
      cleared; clock, and the reference in effect are not, and an unchanged filter goes on as
      it was. */
  lemma InstallsExactly(s: SmithState, p: SmithParams)
    requires s.Valid() && Defect(p).None?
    ensures var s', was := Exec(s, SetParams(p)).0, s.ref.filter.spec;
      var kind := if p.setpointFilter.kind == "" then NONE else p.setpointFilter.kind;
      var spec := Spec(kind, MaxInt(p.setpointFilter.size, 1));
      && s'.params == p.(setpointFilter := spec)
      && s'.integral == 0.0 && s'.clock == s.clock
      && s'.ref.effective == s.ref.effective && s'.ref.filter.spec == spec
      && (spec == was ==> s'.ref == s.ref)
  {
    hide Copies, Model.DelaySamples, RetunedPredictor;
  }

  /** A finite setpoint is installed and nothing else changes; any other is rejected. */
  lemma SetpointChangesNothingElse(s: SmithState, setpoint: Number)
    requires s.Valid()
    ensures Exec(s, SetSetpoint(setpoint))
         == if setpoint.Finite? then (s.(params := s.params.(setpoint := setpoint)), Accepted)
            else (s, Rejected(InvalidSetpoint))
  {
  }

  // Limits, Reset, rejected calls

  /** The control law: the terms of one accepted sample, dt seconds after the last. The model's
      output now replaces its output of a dead time ago in the measurement. */
  function ExpectedTerms(s: SmithState, measured: real, dt: real): Terms
    requires s.Valid()
  {
    var p, sp := s.params, NextRef(s.ref, s.params.setpoint.v).effective;
    var now := ModelOutput(s, dt);
    var feedback := measured + now - (if s.predictor.line == [] then now else s.predictor.line[0]);
    Assembled(p.limits, sp, measured, feedback, now, sp - feedback, Proportional(p.kp, sp - feedback),
              s.integral + Increment(p.ki, sp - feedback, dt))
  }

  /** The model dt seconds further under the output held since the last sample. */
  function ModelOutput(s: SmithState, dt: real): real
    requires s.Valid()
  {
    FirstOrder(s.params.model.k.v, s.params.model.tau.v, s.predictor.output, s.predictor.held, dt)
  }

  /** Terms from their parts: the integral settles, and the output is what an integral bounded by
      IClamp alone would give. */
  function Assembled(l: Limits, sp: real, measured: real, feedback: real, now: real, e: real, p: real, target: real): Terms {
    Terms(sp, measured, e, p, Settled(l, target, p), 0.0, 0.0,
          Clamp(p + Clamp(target, -l.iClamp, l.iClamp), l.min, l.max), feedback, now)
  }

  /** Every accepted sample, in every reachable state, obeys the law; what it leaves are the
      integral it reports, its output held for the model, the next reference and the time. */
  lemma SampleObeysLaw(s: SmithState, measured: real, at: int)
    requires s.Valid() && Advanced(s.clock, at).Ok?
    ensures var dt := Advanced(s.clock, at).value.1;
      var t, now, line := ExpectedTerms(s, measured, dt), ModelOutput(s, dt), s.predictor.line;
      Exec(s, Compute(Finite(measured), at))
      == (SmithState(s.params, NextRef(s.ref, s.params.setpoint.v), ClockState(at, true), t.i,
                     PredictorState(s.params.model, now, t.output, if line == [] then [] else line[1..] + [now])),
          Computed(t))
  {
    hide NextRef, Proportional, Increment, Settled, Clamp, FirstOrder, Model.DelaySamples;
    var p, dt := s.params, Advanced(s.clock, at).value.1;
    var sp, now, line := NextRef(s.ref, p.setpoint.v).effective, ModelOutput(s, dt), s.predictor.line;
    var feedback := measured + now - (if line == [] then now else line[0]);
    TermsObeyLaw(p, sp, measured, feedback, now, sp - feedback, s.integral, dt);
  }

  lemma TermsObeyLaw(p: SmithParams, sp: real, measured: real, feedback: real, now: real, e: real, integral: real, dt: real)
    requires p.limits.Valid()
    ensures StepTerms(p, sp, measured, feedback, now, e, integral, dt)
         == Assembled(p.limits, sp, measured, feedback, now, e, Proportional(p.kp, e), integral + Increment(p.ki, e, dt))
  {
    hide Proportional, Increment, Settled, Clamp;
    IntegrateSettles(p.limits, integral, Increment(p.ki, e, dt), Proportional(p.kp, e));
    AntiWindup(p.limits, integral, Increment(p.ki, e, dt), Proportional(p.kp, e));
  }

  /** Every call is an accepted sample at which the proportional term alone saturates the output. */
  predicate KeepsSaturating(s: SmithState, ops: seq<Op>)
    requires s.Valid()
    decreases |ops|
  {
    ops == [] ||
    (&& ops[0].Compute? && ops[0].measured.Finite? && Advanced(s.clock, ops[0].at).Ok?
     && Saturated(s.params.limits, ExpectedTerms(s, ops[0].measured.v, Advanced(s.clock, ops[0].at).value.1).p)
     && KeepsSaturating(Exec(s, ops[0]).0, ops[1..]))
  }

  /** What each sample of such a run adds to the integral. */
  function Increments(s: SmithState, ops: seq<Op>): seq<real>
    requires s.Valid() && KeepsSaturating(s, ops)
    decreases |ops|
  {
    if ops == [] then []
    else
      var dt := Advanced(s.clock, ops[0].at).value.1;
      [Increment(s.params.ki, ExpectedTerms(s, ops[0].measured.v, dt).error, dt)]
      + Increments(Exec(s, ops[0]).0, ops[1..])
  }

  /** Through any stretch of saturated samples the integral goes on accumulating, clamped to IClamp
      at each. */
  lemma {:induction false} SaturationKeepsIntegrating(s: SmithState, ops: seq<Op>)
    requires s.Valid() && KeepsSaturating(s, ops)
    ensures Run(s, ops).0.integral == Accumulated(s.integral, Increments(s, ops), s.params.limits.iClamp)
    decreases |ops|
  {
    hide Exec, Increment, Advanced, ExpectedTerms;
    if ops != [] {
      var m, dt := ops[0].measured.v, Advanced(s.clock, ops[0].at).value.1;
      var rest := Increments(Exec(s, ops[0]).0, ops[1..]);
      SampleObeysLaw(s, m, ops[0].at);
      SaturatedIntegral(s, m, dt);
      SaturationKeepsIntegrating(Exec(s, ops[0]).0, ops[1..]);
      var delta := Increment(s.params.ki, ExpectedTerms(s, m, dt).error, dt);
      assert Increments(s, ops) == [delta] + rest && ([delta] + rest)[1..] == rest;
    }
  }

  lemma SaturatedIntegral(s: SmithState, measured: real, dt: real)
    requires s.Valid()
    ensures var t := ExpectedTerms(s, measured, dt);
      Saturated(s.params.limits, t.p) ==>
        t.i == Clamp(s.integral + Increment(s.params.ki, t.error, dt), -s.params.limits.iClamp, s.params.limits.iClamp)
  {
    hide Proportional, Increment, NextRef, Clamp, FirstOrder;
  }

  /** What one accepted sample returns and stores, in any reachable state. */
  lemma ComputeLaw(s: SmithState, measured: real, at: int)
    requires s.Valid() && Advanced(s.clock, at).Ok?
    ensures var (s', reply) := Exec(s, Compute(Finite(measured), at));
      var l, dt := s.params.limits, Advanced(s.clock, at).value.1;
      && reply.Computed?
      && var t := reply.terms;
         && s'.integral == t.i && s'.predictor.held == t.output
         && -l.iClamp <= t.i <= l.iClamp
         && l.min <= t.output <= l.max
         && t.output == Clamp(t.p + Clamp(s.integral + Increment(s.params.ki, t.error, dt), -l.iClamp, l.iClamp), l.min, l.max)
         && (l.min <= t.p + t.i <= l.max <==> l.min - l.iClamp <= t.p <= l.max + l.iClamp)
  {
    hide Proportional, Increment, NextRef, AdvancedBy;
    var t := Exec(s, Compute(Finite(measured), at)).1.terms;
    AntiWindup(s.params.limits, s.integral, Increment(s.params.ki, t.error, Advanced(s.clock, at).value.1), t.p);
  }

  lemma {:induction false} RunAppend(s: SmithState, a: seq<Op>, b: seq<Op>)
    requires s.Valid()
    ensures var (s1, r1) := Run(s, a);
            var (s2, r2) := Run(s1, b);
            Run(s, a + b) == (s2, r1 + r2)
    decreases |a|
  {
    hide Exec;
    if a == [] {
      assert a + b == b;
      var r2 := Run(s, b).1;
      assert [] + r2 == r2;
    } else {
      assert (a + b)[1..] == a[1..] + b;
      var (s', reply) := Exec(s, a[0]);
      RunAppend(s', a[1..], b);
      var r1, r2 := Run(s', a[1..]).1, Run(Run(s', a[1..]).0, b).1;
      assert [reply] + (r1 + r2) == ([reply] + r1) + r2;
    }
  }

  /** In every run from a valid state each output is within the limits in force when it was
      computed, and the integral within its own bound. */
  lemma {:induction false} OutputsWithinLimits(s: SmithState, ops: seq<Op>, k: nat)
    requires s.Valid() && k < |ops|
    ensures var before := Run(s, ops[..k]).0.params.limits;
            var reply := Run(s, ops).1[k];
            reply.Computed? ==>
              before.min <= reply.terms.output <= before.max && -before.iClamp <= reply.terms.i <= before.iClamp
  {
    hide Exec;
    assert ops == ops[..k] + ops[k..];
    RunAppend(s, ops[..k], ops[k..]);
    ReplyWithinLimits(Run(s, ops[..k]).0, ops[k]);
  }

  lemma ReplyWithinLimits(s: SmithState, op: Op)
    requires s.Valid()
    ensures var l, reply := s.params.limits, Exec(s, op).1;
      reply.Computed? ==> l.min <= reply.terms.output <= l.max && -l.iClamp <= reply.terms.i <= l.iClamp
  {
    hide Exec, Advanced, Increment, Clamp;
    if op == Reset {
      ResetReplies(s);
    } else {
      ExecClock(s, op);
      if op.Compute? && op.measured.Finite? && Advanced(s.clock, op.at).Ok? {
        ComputeLaw(s, op.measured.v, op.at);
      }
    }
  }

  lemma ResetReplies(s: SmithState)
    requires s.Valid()
    ensures Exec(s, Reset).1 == Accepted
  {
  }

  lemma ResetIsNew(s: SmithState)
    requires s.Valid()
    ensures NewSmith(s.params) == Ok(Exec(s, Reset).0)
  {
    NormalizedIsProjection(s.params);
    ClearedRefIsNew(s.ref);
  }

  /** After any history, Reset gives a controller that answers every future trace exactly as
      one newly built from its current parameters. */
  lemma ResetForgetsHistory(p: SmithParams, history: seq<Op>, future: seq<Op>)
    requires NewSmith(p).Ok?
    ensures var s := Run(NewSmith(p).value, history).0;
      && NewSmith(s.params).Ok?
      && Run(Run(s, [Reset]).0, future) == Run(NewSmith(s.params).value, future)
  {
    ResetIsNew(Run(NewSmith(p).value, history).0);
  }

  /** The calls of a trace that are not rejected. */
  function Kept(s: SmithState, ops: seq<Op>): seq<Op>
    requires s.Valid()
    decreases |ops|
  {
    if ops == [] then []
    else
      var (s', reply) := Exec(s, ops[0]);
      (if reply.Rejected? then [] else [ops[0]]) + Kept(s', ops[1..])
  }

  lemma RejectedChangesNothing(s: SmithState, op: Op)
    requires s.Valid() && Exec(s, op).1.Rejected?
    ensures Exec(s, op).0 == s
  {
  }

  /** Deleting the rejected calls from a trace changes neither the other replies nor the
      final state. */
  lemma {:induction false} RejectedCallsAreInvisible(s: SmithState, ops: seq<Op>)
    requires s.Valid()
    ensures Run(s, Kept(s, ops)) == (Run(s, ops).0, KeptReplies(Run(s, ops).1))
    decreases |ops|
  {
    hide Exec;
    if ops != [] {
      var (s', reply) := Exec(s, ops[0]);
      RejectedCallsAreInvisible(s', ops[1..]);
      var replies := Run(s, ops).1;
      assert replies[1..] == Run(s', ops[1..]).1;
      if !reply.Rejected? {
        assert Kept(s, ops)[1..] == Kept(s', ops[1..]);
      } else {
        RejectedChangesNothing(s, ops[0]);
        assert Kept(s, ops) == Kept(s', ops[1..]);
        assert KeptReplies(replies) == KeptReplies(replies[1..]);
      }
    }
  }

  /** The dt of each accepted sample. */
  function Elapsed(s: SmithState, ops: seq<Op>): seq<real>
    requires s.Valid()
    decreases |ops|
  {
    if ops == [] then []
    else
      var (s', reply) := Exec(s, ops[0]);
      (if reply.Computed? then [Advanced(s.clock, ops[0].at).value.1] else []) + Elapsed(s', ops[1..])
  }

  /** Without a Reset, the accepted dt's are those of the sample clock. */
  lemma {:induction false} RunTicksClock(s: SmithState, ops: seq<Op>)
    requires s.Valid() && Reset !in ops
    ensures (Run(s, ops).0.clock, Elapsed(s, ops)) == Ticked(s.clock, Times(ops))
    decreases |ops|
  {
    hide Exec, Advanced;
    if ops != [] {
      ExecClock(s, ops[0]);
      RunTicksClock(Exec(s, ops[0]).0, ops[1..]);
      if ops[0].Compute? && ops[0].measured.Finite? {
        assert Times(ops)[1..] == Times(ops[1..]);
        if !Exec(s, ops[0]).1.Computed? {
          assert Elapsed(s, ops) == Elapsed(Exec(s, ops[0]).0, ops[1..]);
        }
      } else {
        assert Times(ops) == Times(ops[1..]);
        assert Elapsed(s, ops) == Elapsed(Exec(s, ops[0]).0, ops[1..]);
      }
    }
  }

  /** Over a run without Reset the accepted dt's add up to the last accepted timestamp minus the
      first, or minus the one the run started from. */
  lemma ElapsedOverRun(s: SmithState, ops: seq<Op>)
    requires s.Valid() && Reset !in ops
    ensures var end := Run(s, ops).0.clock;
      && (end.started <==> s.clock.started || Times(ops) != [])
      && (end.started ==>
            var first := if s.clock.started then s.clock.last else Times(ops)[0];
            first <= end.last && Sum(Elapsed(s, ops)) == Seconds(end.last - first))
  {
    hide Run, Elapsed, Ticked, Sum;
    RunTicksClock(s, ops);
    ElapsedTelescopes(s.clock, Times(ops));
  }

  lemma ExecClock(s: SmithState, op: Op)
    requires s.Valid() && op != Reset
    ensures var (s', reply) := Exec(s, op);
      if op.Compute? && op.measured.Finite? && Advanced(s.clock, op.at).Ok? then
        reply.Computed? && s'.clock == Advanced(s.clock, op.at).value.0
      else
        !reply.Computed? && s'.clock == s.clock
  {
    hide StepTerms, NextRef, AdvancedBy, Retuned, RetunedPredictor;
  }

  // The reference never overshoots

  /** Every setpoint in force during the run is in [lo, hi]. */
  predicate SetpointsIn(s: SmithState, ops: seq<Op>, lo: real, hi: real)
    requires s.Valid()
    decreases |ops|
  {
    && lo <= s.params.setpoint.v <= hi
    && (ops != [] ==> SetpointsIn(Exec(s, ops[0]).0, ops[1..], lo, hi))
  }

  lemma ExecKeepsReference(s: SmithState, op: Op, lo: real, hi: real)
    requires s.Valid() && s.ref.In(lo, hi) && lo <= 0.0 <= hi && lo <= s.params.setpoint.v <= hi
    ensures Exec(s, op).0.ref.In(lo, hi)
    ensures Exec(s, op).1.Computed? ==> lo <= Exec(s, op).1.terms.setpoint <= hi
  {
    hide NextRef, Retuned, ClearedRef, RefState.In, AdvancedBy;
    var spec := if op.SetParams? && op.params.Normalized().Ok?
      then op.params.Normalized().value.setpointFilter else s.params.setpointFilter;
    ReferenceStaysIn(s.ref, s.params.setpoint.v, spec, lo, hi);
    EffectiveIn(NextRef(s.ref, s.params.setpoint.v), lo, hi);
  }

  lemma EffectiveIn(r: RefState, lo: real, hi: real)
    ensures r.In(lo, hi) ==> lo <= r.effective <= hi
  {
  }

  /** Whatever filters are switched in mid-run, the reference and all that its filter
      remembers stay in any interval that holds 0 and the setpoints in force so far. */
  lemma {:induction false} ReferenceNeverOvershoots(s: SmithState, ops: seq<Op>, lo: real, hi: real)
    requires s.Valid() && s.ref.In(lo, hi) && lo <= 0.0 <= hi && SetpointsIn(s, ops, lo, hi)
    ensures Run(s, ops).0.ref.In(lo, hi)
    ensures forall k :: 0 <= k < |ops| && Run(s, ops).1[k].Computed? ==> lo <= Run(s, ops).1[k].terms.setpoint <= hi
    decreases |ops|
  {
    hide Exec, RefState.In;
    if ops != [] {
      ExecKeepsReference(s, ops[0], lo, hi);
      ReferenceNeverOvershoots(Exec(s, ops[0]).0, ops[1..], lo, hi);
    }
  }

  // The internal model stays bounded

  /** The output held for the model is in [uLo, uHi], and its gain keeps that interval in [lo, hi]. */
  predicate ModelBounded(s: SmithState, uLo: real, uHi: real, lo: real, hi: real) {
    && s.predictor.In(lo, hi) && lo <= 0.0 <= hi
    && uLo <= s.predictor.held <= uHi && uLo <= 0.0 <= uHi
  }

  predicate ParamsBounded(p: SmithParams, uLo: real, uHi: real, lo: real, hi: real) {
    && uLo <= p.limits.min && p.limits.max <= uHi
    && p.model.k.Finite? && lo <= p.model.k.v * uLo <= hi && lo <= p.model.k.v * uHi <= hi
  }

  /** Every parameter set in force during the run is bounded. */
  predicate AllParamsBounded(s: SmithState, ops: seq<Op>, uLo: real, uHi: real, lo: real, hi: real)
    requires s.Valid()
    decreases |ops|
  {
    && ParamsBounded(s.params, uLo, uHi, lo, hi)
    && (ops != [] ==> AllParamsBounded(Exec(s, ops[0]).0, ops[1..], uLo, uHi, lo, hi))
  }

  lemma GainIn(k: real, u: real, uLo: real, uHi: real, lo: real, hi: real)
    requires uLo <= u <= uHi && lo <= k * uLo <= hi && lo <= k * uHi <= hi
    ensures lo <= k * u <= hi
  {
    var a, x, b := k * uLo, k * u, k * uHi;
    assert if k >= 0.0 then a <= x <= b else b <= x <= a by {
      if k >= 0.0 {
        MulOrder(k, uLo, u);
        MulOrder(k, u, uHi);
      } else {
        MulReverse(k, uLo, u);
        MulReverse(k, u, uHi);
      }
    }
  }

  lemma AdvanceStaysIn(p: PredictorState, dt: real, lo: real, hi: real)
    requires p.model.k.Finite? && p.model.tau.Finite? && p.model.tau.v > 0.0 && dt >= 0.0
    requires p.In(lo, hi) && lo <= p.model.k.v * p.held <= hi
    ensures AdvancedBy(p, dt).0.In(lo, hi) && AdvancedBy(p, dt).0.held == p.held
    ensures lo <= AdvancedBy(p, dt).1 <= hi
  {
    FirstOrderStaysIn(p.model.k.v, p.model.tau.v, p.output, p.held, dt, lo, hi);
  }

  lemma ExecKeepsModelBounded(s: SmithState, op: Op, uLo: real, uHi: real, lo: real, hi: real)
    requires s.Valid() && ModelBounded(s, uLo, uHi, lo, hi) && ParamsBounded(s.params, uLo, uHi, lo, hi)
    ensures ModelBounded(Exec(s, op).0, uLo, uHi, lo, hi)
    ensures Exec(s, op).1.Computed? ==> lo <= Exec(s, op).1.terms.prediction <= hi
  {
    hide NextRef, Retuned, ClearedRef, AdvancedBy, Proportional, Increment, Limits.Integrate;
    if op.Compute? && op.measured.Finite? && Advanced(s.clock, op.at).Ok? {
      GainIn(s.params.model.k.v, s.predictor.held, uLo, uHi, lo, hi);
      AdvanceStaysIn(s.predictor, Advanced(s.clock, op.at).value.1, lo, hi);
    }
  }

  /** In any run the model output and every cell of the delay line stay in any interval that
      holds 0 and the gain times every output the limits in force allow. With one parameter
      set (and uLo = min(0, Min), uHi = max(0, Max)) that is the hull of 0, K Min and K Max. */
  lemma {:induction false} ModelStaysBounded(s: SmithState, ops: seq<Op>, uLo: real, uHi: real, lo: real, hi: real)
    requires s.Valid() && ModelBounded(s, uLo, uHi, lo, hi) && AllParamsBounded(s, ops, uLo, uHi, lo, hi)
    ensures ModelBounded(Run(s, ops).0, uLo, uHi, lo, hi)
    ensures forall k :: 0 <= k < |ops| && Run(s, ops).1[k].Computed? ==> lo <= Run(s, ops).1[k].terms.prediction <= hi
    decreases |ops|
  {
    hide Exec, ModelBounded, ParamsBounded;
    if ops != [] {
      ExecKeepsModelBounded(s, ops[0], uLo, uHi, lo, hi);
      ModelStaysBounded(Exec(s, ops[0]).0, ops[1..], uLo, uHi, lo, hi);
    }
  }

  /** A new or reset controller starts bounded. */
  lemma NewModelIsBounded(p: SmithParams, uLo: real, uHi: real, lo: real, hi: real)
    requires NewSmith(p).Ok? && uLo <= 0.0 <= uHi && lo <= 0.0 <= hi
    ensures ModelBounded(NewSmith(p).value, uLo, uHi, lo, hi)
  {
  }

  /** New parameters that keep the dead time and the sampling period keep what the model
      remembers, whatever else they change. Any others bring it to rest, even where the delay
      comes to the same number of samples. */
  lemma DelayLineSurvives(s: SmithState, p: SmithParams)
    requires s.Valid() && Exec(s, SetParams(p)).1.Accepted?
    ensures var was, now := s.predictor, Exec(s, SetParams(p)).0.predictor;
      && now.model == p.model
      && if p.model.theta == s.params.model.theta && p.sampleSeconds == s.params.sampleSeconds then
           now.output == was.output && now.held == was.held && now.line == was.line
         else
           now.output == 0.0 && now.held == 0.0 && AllIn(now.line, 0.0, 0.0)
           && p.model.ValidFor(p.sampleSeconds) && |now.line| == p.Delay()
  {
    hide Retuned, Normalize, Model.DelaySamples;
  }

  // The delay line over whole runs

  /** The terms of the accepted samples of a run. */
  function Samples(replies: seq<Reply>): seq<Terms> {
    if replies == [] then []
    else (if replies[0].Computed? then [replies[0].terms] else []) + Samples(replies[1..])
  }

  /** The model's output d samples before the k-th, given its outputs before the run. */
  function Earlier(past: seq<real>, samples: seq<Terms>, d: nat, k: nat): real
    requires k < |samples|
  {
    if |past| + k < d then 0.0
    else if k < d then past[|past| + k - d]
    else samples[k - d].prediction
  }

  /** A call that leaves the delay line alone. */
  predicate KeepsDelay(op: Op, p: SmithParams) {
    && op != Reset
    && (op.SetParams? ==> op.params.model.theta == p.model.theta && op.params.sampleSeconds == p.sampleSeconds)
  }

  /** The line holds the last outputs of the model, zeros before the first. */
  predicate Remembers(s: SmithState, past: seq<real>)
    requires s.Valid()
  {
    s.predictor.line == Last(Copies(0.0, s.params.Delay()) + past, s.params.Delay())
  }

  lemma SampleRemembers(s: SmithState, past: seq<real>, measured: real, at: int)
    requires s.Valid() && Remembers(s, past) && Advanced(s.clock, at).Ok?
    ensures var (s', reply) := Exec(s, Compute(Finite(measured), at));
      var d := s.params.Delay();
      && reply.Computed? && s'.params == s.params && Remembers(s', past + [reply.terms.prediction])
      && reply.terms.measured == measured
      && reply.terms.feedback == measured + reply.terms.prediction
           - (if |past| < d then 0.0 else (past + [reply.terms.prediction])[|past| - d])
  {
    hide NextRef, FirstOrder, Model.DelaySamples;
    var y := AdvancedBy(s.predictor, Advanced(s.clock, at).value.1).0.output;
    DelayStep(s.params.Delay(), past, y);
  }

  lemma OtherCallRemembers(s: SmithState, past: seq<real>, op: Op)
    requires s.Valid() && Remembers(s, past) && KeepsDelay(op, s.params)
    requires !(op.Compute? && op.measured.Finite? && Advanced(s.clock, op.at).Ok?)
    ensures var (s', reply) := Exec(s, op);
      && !reply.Computed? && Remembers(s', past)
      && s'.params.model.theta == s.params.model.theta && s'.params.sampleSeconds == s.params.sampleSeconds
      && s'.params.Delay() == s.params.Delay()
  {
    hide Retuned, Normalize;
  }

  /** Every feedback is the measurement plus the model's output now minus that of d samples ago. */
  predicate FeedbacksExact(past: seq<real>, samples: seq<Terms>, d: nat) {
    forall k :: 0 <= k < |samples| ==>
      samples[k].feedback == samples[k].measured + samples[k].prediction - Earlier(past, samples, d, k)
  }

  lemma {:induction false} FeedbackFrom(s: SmithState, past: seq<real>, ops: seq<Op>)
    requires s.Valid() && Remembers(s, past) && forall op :: op in ops ==> KeepsDelay(op, s.params)
    ensures FeedbacksExact(past, Samples(Run(s, ops).1), s.params.Delay())
    decreases |ops|
  {
    hide Exec, Advanced, Remembers, Model.DelaySamples, KeepsDelay, FeedbacksExact;
    if ops == [] {
      NoSamples(past, s.params.Delay());
    } else {
      var op, rest := ops[0], ops[1..];
      var (s', reply) := Exec(s, op);
      if op.Compute? && op.measured.Finite? && Advanced(s.clock, op.at).Ok? {
        SampleRemembers(s, past, op.measured.v, op.at);
        FeedbackFrom(s', past + [reply.terms.prediction], rest);
        OneMoreSample(past, reply.terms, Samples(Run(s', rest).1), s.params.Delay());
      } else {
        OtherCallRemembers(s, past, op);
        KeepOn(rest, s.params, s'.params);
        FeedbackFrom(s', past, rest);
        assert Samples(Run(s, ops).1) == Samples(Run(s', rest).1);
      }
    }
  }

  lemma NoSamples(past: seq<real>, d: nat)
    ensures FeedbacksExact(past, [], d)
  {
  }

  lemma OneMoreSample(past: seq<real>, t: Terms, later: seq<Terms>, d: nat)
    requires FeedbacksExact(past + [t.prediction], later, d)
    requires t.feedback == t.measured + t.prediction - (if |past| < d then 0.0 else (past + [t.prediction])[|past| - d])
    ensures FeedbacksExact(past, [t] + later, d)
  {
    var samples := [t] + later;
    forall k | 0 <= k < |samples|
      ensures samples[k].feedback == samples[k].measured + samples[k].prediction - Earlier(past, samples, d, k)
    {
      if k > 0 {
        assert samples[k] == later[k - 1];
        assert Earlier(past, samples, d, k) == Earlier(past + [t.prediction], later, d, k - 1);
      }
    }
  }

  lemma KeepOn(ops: seq<Op>, p: SmithParams, q: SmithParams)
    requires forall op :: op in ops ==> KeepsDelay(op, p)
    requires q.model.theta == p.model.theta && q.sampleSeconds == p.sampleSeconds
    ensures forall op :: op in ops ==> KeepsDelay(op, q)
  {
  }

  /** The feedback signal over whole runs of a new controller, as long as nothing replaces the
      delay line: the measurement, plus the model's output now, minus its output of exactly d
      accepted samples earlier, 0 before there was one. */
  lemma FeedbackIsDelayExact(p: SmithParams, ops: seq<Op>)
    requires NewSmith(p).Ok? && forall op :: op in ops ==> KeepsDelay(op, p)
    ensures var samples, d := Samples(Run(NewSmith(p).value, ops).1), p.Delay();
      forall k :: 0 <= k < |samples| ==>
        samples[k].feedback
        == samples[k].measured + samples[k].prediction - (if k < d then 0.0 else samples[k - d].prediction)
  {
    hide Run, Samples;
    var s := NewSmith(p).value;
    assert Copies(0.0, p.Delay()) + [] == Copies(0.0, p.Delay());
    FeedbackFrom(s, [], ops);
  }

  // The Smith predictor as a PI controller

  function PiParams(p: SmithParams): Pid.PidParams {
    Pid.PidParams(p.kp, p.ki, 0.0, 0.0, p.setpoint, p.setpointFilter, p.limits)
  }

  /** A PI controller in the same state, whatever its last error. */
  predicate SamePi(s: SmithState, c: Pid.PidState) {
    && c.params == PiParams(s.params)
    && c.ref == s.ref && c.clock == s.clock && c.integral == s.integral
  }

  /** The same reply, but for what only the Smith predictor reports. A PI that reads the
      feedback of the Smith predictor reports it as its measurement. */
  predicate SameReply(r: Reply, q: Reply) {
    match r
    case Computed(t) => q == Computed(t.(measured := t.feedback, feedback := 0.0, prediction := 0.0))
    case Accepted => q == Accepted
    case Rejected(e) => q == Rejected(e)
  }

  lemma NoKdNoFf(e: real, prevError: real, dt: real, sp: real)
    ensures Derivative(0.0, e, prevError, dt) == 0.0 && Feedforward(0.0, sp) == 0.0
  {
    if dt > 0.0 {
      assert 0.0 * (e - prevError) == 0.0;
    }
  }

  lemma SameTerms(p: SmithParams, sp: real, measured: real, feedback: real, now: real, e: real,
                  integral: real, prevError: real, dt: real)
    ensures var t := StepTerms(p, sp, measured, feedback, now, e, integral, dt);
            Pid.StepTerms(PiParams(p), sp, feedback, e, integral, prevError, dt)
            == t.(measured := feedback, feedback := 0.0, prediction := 0.0)
  {
    hide Derivative, Feedforward, Proportional, Increment, Limits.Integrate, Limits.Clamped;
    NoKdNoFf(e, prevError, dt, sp);
  }

  /** The feedback signal of an accepted sample. */
  function Feedback(s: SmithState, measured: real, at: int): real
    requires s.Valid() && Advanced(s.clock, at).Ok?
  {
    var (predictor, delayed) := AdvancedBy(s.predictor, Advanced(s.clock, at).value.1);
    measured + predictor.output - delayed
  }

  /** A sample moves both controllers alike if the PI measures the feedback. */
  lemma SampleAgrees(s: SmithState, c: Pid.PidState, m: real, pv: real, at: int)
    requires s.Valid() && c.Valid() && SamePi(s, c)
    requires Advanced(s.clock, at).Ok? ==> pv == Feedback(s, m, at)
    ensures SamePi(Exec(s, Compute(Finite(m), at)).0, Pid.Exec(c, Compute(Finite(pv), at)).0)
    ensures SameReply(Exec(s, Compute(Finite(m), at)).1, Pid.Exec(c, Compute(Finite(pv), at)).1)
  {
    hide NextRef, AdvancedBy, Stepped, Pid.Stepped;
    if Advanced(s.clock, at).Ok? {
      var (clock, dt) := Advanced(s.clock, at).value;
      StepAgrees(s.(clock := clock), c.(clock := clock), m, pv, dt);
    }
  }

  lemma StepAgrees(s: SmithState, c: Pid.PidState, m: real, pv: real, dt: real)
    requires s.Valid() && c.Valid() && SamePi(s, c)
    requires var (predictor, delayed) := AdvancedBy(s.predictor, dt); pv == m + predictor.output - delayed
    ensures var (s', t) := Stepped(s, m, dt);
            var (c', u) := Pid.Stepped(c, pv, dt);
            SamePi(s', c') && u == t.(measured := t.feedback, feedback := 0.0, prediction := 0.0)
  {
    hide NextRef, AdvancedBy, StepTerms, Pid.StepTerms, SmithState.Valid, Pid.PidState.Valid;
    var sp, now := NextRef(s.ref, s.params.setpoint.v).effective, AdvancedBy(s.predictor, dt).0.output;
    SameTerms(s.params, sp, m, pv, now, sp - pv, s.integral, c.prevError, dt);
    FeedbackIsReported(s.params, sp, m, pv, now, sp - pv, s.integral, dt);
  }

  lemma FeedbackIsReported(p: SmithParams, sp: real, m: real, feedback: real, now: real, e: real, integral: real, dt: real)
    ensures StepTerms(p, sp, m, feedback, now, e, integral, dt).feedback == feedback
  {
  }

  lemma SetParamsAgrees(s: SmithState, c: Pid.PidState, p: SmithParams)
    requires s.Valid() && c.Valid() && SamePi(s, c) && p.model.ValidFor(p.sampleSeconds)
    ensures SamePi(Exec(s, SetParams(p)).0, Pid.Exec(c, SetParams(PiParams(p))).0)
    ensures SameReply(Exec(s, SetParams(p)).1, Pid.Exec(c, SetParams(PiParams(p))).1)
  {
    hide Retuned, RetunedPredictor, Normalize;
  }

  lemma OthersAgree(s: SmithState, c: Pid.PidState, setpoint: Number)
    requires s.Valid() && c.Valid() && SamePi(s, c)
    ensures SamePi(Exec(s, SetSetpoint(setpoint)).0, Pid.Exec(c, SetSetpoint(setpoint)).0)
    ensures SameReply(Exec(s, SetSetpoint(setpoint)).1, Pid.Exec(c, SetSetpoint(setpoint)).1)
    ensures SamePi(Exec(s, Reset).0, Pid.Exec(c, Reset).0)
    ensures SameReply(Exec(s, Reset).1, Pid.Exec(c, Reset).1)
  {
    hide ClearedRef;
  }

  lemma NewAgrees(p: SmithParams)
    requires NewSmith(p).Ok?
    ensures Pid.NewPid(PiParams(p)).Ok?
    ensures SamePi(NewSmith(p).value, Pid.NewPid(PiParams(p)).value)
  {
  }

  // No dead time: the Smith predictor is the PI controller

  function PiOp(op: Op): Pid.Op {
    match op
    case Compute(measured, at) => Compute(measured, at)
    case SetParams(p) => SetParams(PiParams(p))
    case SetSetpoint(setpoint) => SetSetpoint(setpoint)
    case Reset => Reset
  }

  function PiOps(ops: seq<Op>): (r: seq<Pid.Op>)
    ensures |r| == |ops|
  {
    seq(|ops|, k requires 0 <= k < |ops| => PiOp(ops[k]))
  }

  /** New parameters describe a model without delay; everything else about them is free. */
  predicate KeepsNoDelay(op: Op) {
    op.SetParams? ==> op.params.model.ValidFor(op.params.sampleSeconds) && op.params.Delay() == 0
  }

  lemma NoDelayFeedback(s: SmithState, measured: real, at: int)
    requires s.Valid() && s.params.Delay() == 0 && Advanced(s.clock, at).Ok?
    ensures Feedback(s, measured, at) == measured
  {
    hide FirstOrder, Model.DelaySamples;
  }

  lemma ExecIsPi(s: SmithState, c: Pid.PidState, op: Op)
    requires s.Valid() && c.Valid() && SamePi(s, c) && s.params.Delay() == 0 && KeepsNoDelay(op)
    ensures Exec(s, op).0.params.Delay() == 0
    ensures SamePi(Exec(s, op).0, Pid.Exec(c, PiOp(op)).0)
    ensures SameReply(Exec(s, op).1, Pid.Exec(c, PiOp(op)).1)
  {
    hide Model.DelaySamples, Feedback, Retuned, ClearedRef, Stepped, Pid.Stepped;
    match op
    case Compute(measured, at) =>
      if measured.Finite? {
        if Advanced(s.clock, at).Ok? {
          NoDelayFeedback(s, measured.v, at);
        }
        SampleAgrees(s, c, measured.v, measured.v, at);
      }
    case SetParams(p) => SetParamsAgrees(s, c, p);
    case SetSetpoint(setpoint) => OthersAgree(s, c, setpoint);
    case Reset => OthersAgree(s, c, NonFinite);
  }

  lemma {:induction false} RunIsPi(s: SmithState, c: Pid.PidState, ops: seq<Op>)
    requires s.Valid() && c.Valid() && SamePi(s, c) && s.params.Delay() == 0
    requires forall op :: op in ops ==> KeepsNoDelay(op)
    ensures forall k :: 0 <= k < |ops| ==> SameReply(Run(s, ops).1[k], Pid.Run(c, PiOps(ops)).1[k])
    decreases |ops|
  {
    hide Exec, Pid.Exec, SamePi, SameReply, PiOp, Model.DelaySamples;
    if ops != [] {
      assert PiOps(ops)[0] == PiOp(ops[0]) && PiOps(ops)[1..] == PiOps(ops[1..]);
      ExecIsPi(s, c, ops[0]);
      RunIsPi(Exec(s, ops[0]).0, Pid.Exec(c, PiOp(ops[0])).0, ops[1..]);
    }
  }

  /** Without dead time a Smith predictor answers every trace, over any measurements and any
      mix of calls, exactly like a PI controller with the same gains, limits and filter:
      its model, whatever its gain and time constant, has no effect. */
  lemma NoDelayIsPi(p: SmithParams, ops: seq<Op>)
    requires NewSmith(p).Ok? && p.Delay() == 0
    requires forall op :: op in ops ==> KeepsNoDelay(op)
    ensures Pid.NewPid(PiParams(p)).Ok?
    ensures var (_, smith) := Run(NewSmith(p).value, ops);
            var (_, pi) := Pid.Run(Pid.NewPid(PiParams(p)).value, PiOps(ops));
            forall k :: 0 <= k < |ops| ==> SameReply(smith[k], pi[k])
  {
    NewAgrees(p);
    RunIsPi(NewSmith(p).value, Pid.NewPid(PiParams(p)).value, ops);
  }
}
