/** What the PID controller guarantees, over single calls and over whole runs. */
module PidProperties {
  import opened Numbers
  import opened Errors
  import opened FilterSignal
  import opened Control
  import opened Pid

  // Runs

  lemma {:induction false} RunAppend(s: PidState, a: seq<Op>, b: seq<Op>)
    requires s.Valid()
    ensures var (s1, r1) := Run(s, a);
            var (s2, r2) := Run(s1, b);
            Run(s, a + b) == (s2, r1 + r2)
    decreases |a|
  {
    if a == [] {
      assert a + b == b;
      var r2 := Run(s, b).1;
      assert [] + r2 == r2;
    } else {
      assert (a + b)[1..] == a[1..] + b;
      var (s', reply) := Exec(s, a[0]);
      RunAppend(s', a[1..], b);
      var r1, r2 := Run(s', a[1..]).1, Run(Run(s', a[1..]).0, b).1;
      assert [reply] + (r1 + r2) == ([reply] + r1) + r2;
    }
  }

  // What is accepted, and what it changes

  const KINDS := {"", NONE, MOVING_AVERAGE, EXPONENTIAL}

  /** What is wrong with a set of parameters: the first of these that applies. */
  function Defect(p: PidParams): Option<Error> {
    if p.limits.min > p.limits.max then Some(InvalidLimits)
    else if p.limits.iClamp < 0.0 then Some(NegativeIClamp)
    else if p.setpoint.NonFinite? then Some(InvalidSetpoint)
    else if p.setpointFilter.kind !in KINDS then Some(UnknownFilter(p.setpointFilter.kind))
    else None
  }

  /** Exactly the parameters without a defect are accepted, by the constructor and by SetParams; any
      others are answered with their first defect. */
  lemma RejectsExactly(s: PidState, p: PidParams)
    requires s.Valid()
    ensures match Defect(p)
      case None => NewPid(p).Ok? && Exec(s, SetParams(p)).1 == Accepted
      case Some(e) => NewPid(p) == Err(e) && Exec(s, SetParams(p)) == (s, Rejected(e))
  {
    hide Copies;
  }

  /** Accepted parameters are installed as they are, but for the normalised filter. The integral is
      cleared; clock, last error and the reference in effect are not, and an unchanged filter goes on as
      it was. */
  lemma InstallsExactly(s: PidState, p: PidParams)
    requires s.Valid() && Defect(p).None?
    ensures var s', was := Exec(s, SetParams(p)).0, s.ref.filter.spec;
      var kind := if p.setpointFilter.kind == "" then NONE else p.setpointFilter.kind;
      var spec := Spec(kind, MaxInt(p.setpointFilter.size, 1));
      && s'.params == p.(setpointFilter := spec)
      && s'.integral == 0.0 && s'.clock == s.clock && s'.prevError == s.prevError
      && s'.ref.effective == s.ref.effective && s'.ref.filter.spec == spec
      && (spec == was ==> s'.ref == s.ref)
  {
    hide Copies;
  }

  /** A finite setpoint is installed and nothing else changes; any other is rejected. */
  lemma SetpointChangesNothingElse(s: PidState, setpoint: Number)
    requires s.Valid()
    ensures Exec(s, SetSetpoint(setpoint))
         == if setpoint.Finite? then (s.(params := s.params.(setpoint := setpoint)), Accepted)
            else (s, Rejected(InvalidSetpoint))
  {
  }

  // Anti-windup and limits

  /** The control law: the terms of one accepted sample, dt seconds after the last. */
  function ExpectedTerms(s: PidState, measured: real, dt: real): Terms
    requires s.Valid()
  {
    var p, sp := s.params, NextRef(s.ref, s.params.setpoint.v).effective;
    var e := sp - measured;
    Assembled(p.limits, sp, measured, e, Proportional(p.kp, e), Derivative(p.kd, e, s.prevError, dt),
              Feedforward(p.ffGain, sp), s.integral + Increment(p.ki, e, dt))
  }

  /** Terms from their parts: the integral settles, and the output is what an integral bounded by
      IClamp alone would give. */
  function Assembled(l: Limits, sp: real, measured: real, e: real, p: real, d: real, ff: real, target: real): Terms {
    var other := ff + p + d;
    Terms(sp, measured, e, p, Settled(l, target, other), d, ff,
          Clamp(other + Clamp(target, -l.iClamp, l.iClamp), l.min, l.max), 0.0, 0.0)
  }

  /** What the law is made of. */
  lemma PartsOfLaw(k: real, e: real, prevError: real, dt: real, ffGain: real, sp: real)
    ensures Proportional(k, e) == k * e
    ensures Increment(k, e, dt) == k * e * dt
    ensures Derivative(k, e, prevError, dt) == if dt > 0.0 then k * (e - prevError) / dt else 0.0
    ensures Feedforward(ffGain, sp) == if ffGain > 0.0 then sp / ffGain else 0.0
  {
  }

  /** Every accepted sample, in every reachable state, obeys the law; what it leaves are the
      integral and the error it reports, the next reference and the time. */
  lemma SampleObeysLaw(s: PidState, measured: real, at: int)
    requires s.Valid() && Advanced(s.clock, at).Ok?
    ensures var t := ExpectedTerms(s, measured, Advanced(s.clock, at).value.1);
      Exec(s, Compute(Finite(measured), at))
      == (PidState(s.params, NextRef(s.ref, s.params.setpoint.v), ClockState(at, true), t.i, t.error), Computed(t))
  {
    hide NextRef, Proportional, Increment, Derivative, Feedforward, Settled, Clamp;
    var p, sp := s.params, NextRef(s.ref, s.params.setpoint.v).effective;
    TermsObeyLaw(p, sp, measured, sp - measured, s.integral, s.prevError, Advanced(s.clock, at).value.1);
  }

  lemma TermsObeyLaw(p: PidParams, sp: real, measured: real, e: real, integral: real, prevError: real, dt: real)
    requires p.limits.Valid()
    ensures StepTerms(p, sp, measured, e, integral, prevError, dt)
         == Assembled(p.limits, sp, measured, e, Proportional(p.kp, e), Derivative(p.kd, e, prevError, dt),
                      Feedforward(p.ffGain, sp), integral + Increment(p.ki, e, dt))
  {
    hide Proportional, Increment, Derivative, Feedforward, Settled, Clamp;
    var t := StepTerms(p, sp, measured, e, integral, prevError, dt);
    var delta, other := Increment(p.ki, e, dt), t.ff + t.p + t.d;
    IntegrateSettles(p.limits, integral, delta, other);
    AntiWindup(p.limits, integral, delta, other);
    assert t.ff + t.p + t.i + t.d == other + t.i;
  }

  /** Feedforward, proportional and derivative term of a sample. */
  function OtherTerms(s: PidState, measured: real, dt: real): real
    requires s.Valid()
  {
    var p, sp := s.params, NextRef(s.ref, s.params.setpoint.v).effective;
    Feedforward(p.ffGain, sp) + Proportional(p.kp, sp - measured) + Derivative(p.kd, sp - measured, s.prevError, dt)
  }

  /** Every call is an accepted sample at which feedforward, proportional and derivative terms alone
      saturate the output. */
  predicate KeepsSaturating(s: PidState, ops: seq<Op>)
    requires s.Valid()
    decreases |ops|
  {
    ops == [] ||
    (&& ops[0].Compute? && ops[0].measured.Finite? && Advanced(s.clock, ops[0].at).Ok?
     && Saturated(s.params.limits, OtherTerms(s, ops[0].measured.v, Advanced(s.clock, ops[0].at).value.1))
     && KeepsSaturating(Exec(s, ops[0]).0, ops[1..]))
  }

  /** What each sample of such a run adds to the integral. */
  function Increments(s: PidState, ops: seq<Op>): seq<real>
    requires s.Valid() && KeepsSaturating(s, ops)
    decreases |ops|
  {
    if ops == [] then []
    else
      var dt := Advanced(s.clock, ops[0].at).value.1;
      [Increment(s.params.ki, ExpectedTerms(s, ops[0].measured.v, dt).error, dt)]
      + Increments(Exec(s, ops[0]).0, ops[1..])
  }

  /** Saturation does not stop the integral, nor reset it: through any stretch of saturated samples
      it goes on accumulating, clamped to IClamp at each. */
  lemma {:induction false} SaturationKeepsIntegrating(s: PidState, ops: seq<Op>)
    requires s.Valid() && KeepsSaturating(s, ops)
    ensures Run(s, ops).0.integral == Accumulated(s.integral, Increments(s, ops), s.params.limits.iClamp)
    decreases |ops|
  {
    hide Exec, Increment, Advanced, ExpectedTerms, OtherTerms;
    if ops != [] {
      var m, dt := ops[0].measured.v, Advanced(s.clock, ops[0].at).value.1;
      var rest := Increments(Exec(s, ops[0]).0, ops[1..]);
      SampleObeysLaw(s, m, ops[0].at);
      SaturatedIntegral(s, m, dt);
      SaturationKeepsIntegrating(Exec(s, ops[0]).0, ops[1..]);
      var delta := Increment(s.params.ki, ExpectedTerms(s, m, dt).error, dt);
      assert Increments(s, ops) == [delta] + rest && ([delta] + rest)[1..] == rest;
    }
  }

  lemma SaturatedIntegral(s: PidState, measured: real, dt: real)
    requires s.Valid()
    ensures var t := ExpectedTerms(s, measured, dt);
      Saturated(s.params.limits, OtherTerms(s, measured, dt)) ==>
        t.i == Clamp(s.integral + Increment(s.params.ki, t.error, dt), -s.params.limits.iClamp, s.params.limits.iClamp)
  {
    hide Proportional, Increment, Derivative, Feedforward, NextRef, Clamp;
  }

  /** What one accepted sample returns and stores, in any reachable state. */
  lemma ComputeLaw(s: PidState, measured: real, at: int)
    requires s.Valid() && Advanced(s.clock, at).Ok?
    ensures var (s', reply) := Exec(s, Compute(Finite(measured), at));
      var l, dt := s.params.limits, Advanced(s.clock, at).value.1;
      && reply.Computed?
      && var t := reply.terms;
         var other := t.ff + t.p + t.d;
         && s'.integral == t.i
         && -l.iClamp <= t.i <= l.iClamp
         && l.min <= t.output <= l.max
         && t.output == Clamp(other + Clamp(s.integral + Increment(s.params.ki, t.error, dt), -l.iClamp, l.iClamp), l.min, l.max)
         && (l.min <= other + t.i <= l.max <==> l.min - l.iClamp <= other <= l.max + l.iClamp)
         && (other < l.min - l.iClamp ==> t.output == l.min)
         && (other > l.max + l.iClamp ==> t.output == l.max)
  {
    hide Proportional, Increment, Derivative, Feedforward, NextRef;
    var (s', reply) := Exec(s, Compute(Finite(measured), at));
    var t, dt := reply.terms, Advanced(s.clock, at).value.1;
    AntiWindup(s.params.limits, s.integral, Increment(s.params.ki, t.error, dt), t.ff + t.p + t.d);
  }

  /** What a sample adds up to besides the integral if no time has passed, as for a first one: there
      is no derivative. */
  function InstantTerms(s: PidState, measured: real): real
    requires s.Valid()
  {
    var sp := NextRef(s.ref, s.params.setpoint.v).effective;
    Feedforward(s.params.ffGain, sp) + Proportional(s.params.kp, sp - measured)
  }

  lemma InstantSample(s: PidState, measured: real, at: int)
    requires s.Valid() && (s.clock.started ==> s.clock.last == at)
    ensures var (s', reply) := Exec(s, Compute(Finite(measured), at));
      var l, other := s.params.limits, InstantTerms(s, measured);
      && s'.integral == l.Integrate(s.integral, 0.0, other)
      && s'.params == s.params && s'.ref == NextRef(s.ref, s.params.setpoint.v) && s'.clock == ClockState(at, true)
      && s'.prevError == s'.ref.effective - measured
      && reply.Computed? && reply.terms.output == l.Clamped(other + s'.integral)
  {
    hide Proportional, Increment, Derivative, Feedforward, NextRef, Clamp;
    var sp := NextRef(s.ref, s.params.setpoint.v).effective;
    NoIncrement(s.params.ki, sp - measured);
    NoSlope(s.params.kd, sp - measured, s.prevError);
  }

  lemma NoSlope(kd: real, e: real, prevError: real)
    ensures Derivative(kd, e, prevError, 0.0) == 0.0
  {
  }

  /** The first sample adds nothing to the integral, but the window can still move it: it stays
      zero if and only if the other terms alone are within the limits, or so far outside that
      no integral could bring the sum back. */
  lemma FirstSampleKeepsZero(s: PidState, measured: real, at: int)
    requires s.Valid() && !s.clock.started && s.integral == 0.0
    ensures var (s', reply) := Exec(s, Compute(Finite(measured), at));
      var l, other := s.params.limits, InstantTerms(s, measured);
      && reply.Computed? && s'.integral == l.Integrate(0.0, 0.0, other)
      && (s'.integral == 0.0 <==> l.min <= other <= l.max || l.iClamp == 0.0
                                  || other < l.min - l.iClamp || other > l.max + l.iClamp)
  {
    hide Exec, InstantTerms;
    InstantSample(s, measured, at);
    ZeroInWindow(s.params.limits, InstantTerms(s, measured));
  }

  /** The measurement at which the other terms of an instant sample add up to `other`. */
  function MeasurementFor(s: PidState, other: real): real
    requires s.Valid() && s.params.kp != 0.0
  {
    var sp := NextRef(s.ref, s.params.setpoint.v).effective;
    sp - (other - Feedforward(s.params.ffGain, sp)) / s.params.kp
  }

  lemma AnyInstantTerms(s: PidState, other: real)
    requires s.Valid() && s.params.kp != 0.0
    ensures InstantTerms(s, MeasurementFor(s, other)) == other
  {
    hide NextRef, Feedforward;
    var sp := NextRef(s.ref, s.params.setpoint.v).effective;
    var gap, kp := other - Feedforward(s.params.ffGain, sp), s.params.kp;
    assert sp - MeasurementFor(s, other) == gap / kp;
    assert kp * (gap / kp) == gap;
  }

  /** It does happen, whatever Ki, 0 included: with any proportional action and any IClamp some
      first measurement fills the integral of a new controller. */
  lemma FirstSampleCanFillIntegral(p: PidParams, at: int)
    requires NewPid(p).Ok? && p.kp != 0.0
    ensures var s := NewPid(p).value;
      var measured := MeasurementFor(s, p.limits.min - p.limits.iClamp);
      Exec(s, Compute(Finite(measured), at)).0.integral == p.limits.iClamp
  {
    hide Exec, MeasurementFor, InstantTerms;
    var s, other := NewPid(p).value, p.limits.min - p.limits.iClamp;
    AnyInstantTerms(s, other);
    FirstSampleKeepsZero(s, MeasurementFor(s, other), at);
  }

  lemma ZeroInWindow(l: Limits, other: real)
    requires l.Valid()
    ensures l.Integrate(0.0, 0.0, other) == 0.0 <==>
      l.min <= other <= l.max || l.iClamp == 0.0 || other < l.min - l.iClamp || other > l.max + l.iClamp
  {
  }

  /** In every run from a valid state each output is within the limits in force when it was
      computed, and the integral within its own bound. (Run's contract says the second.) */
  lemma {:induction false} OutputsWithinLimits(s: PidState, ops: seq<Op>, k: nat)
    requires s.Valid() && k < |ops|
    ensures var before := Run(s, ops[..k]).0.params.limits;
            var reply := Run(s, ops).1[k];
            reply.Computed? ==>
              before.min <= reply.terms.output <= before.max && -before.iClamp <= reply.terms.i <= before.iClamp
  {
    assert ops == ops[..k] + ops[k..];
    RunAppend(s, ops[..k], ops[k..]);
    var s' := Run(s, ops[..k]).0;
    if ops[k].Compute? && ops[k].measured.Finite? && Advanced(s'.clock, ops[k].at).Ok? {
      ComputeLaw(s', ops[k].measured.v, ops[k].at);
    }
  }

  // Reset

  lemma ResetIsNew(s: PidState)
    requires s.Valid()
    ensures NewPid(s.params) == Ok(Exec(s, Reset).0)
  {
    NormalizedIsProjection(s.params);
    ClearedRefIsNew(s.ref);
  }

  /** After any history, Reset gives a controller that answers every future trace exactly as
      one newly built from its current parameters. */
  lemma ResetForgetsHistory(p: PidParams, history: seq<Op>, future: seq<Op>)
    requires NewPid(p).Ok?
    ensures var s := Run(NewPid(p).value, history).0;
      && NewPid(s.params).Ok?
      && Run(Run(s, [Reset]).0, future) == Run(NewPid(s.params).value, future)
  {
    ResetIsNew(Run(NewPid(p).value, history).0);
  }

  // Rejected calls

  /** The calls of a trace that are not rejected. */
  function Kept(s: PidState, ops: seq<Op>): seq<Op>
    requires s.Valid()
    decreases |ops|
  {
    if ops == [] then []
    else
      var (s', reply) := Exec(s, ops[0]);
      (if reply.Rejected? then [] else [ops[0]]) + Kept(s', ops[1..])
  }

  /** Deleting the rejected calls from a trace changes neither the other replies nor the
      final state. */
  lemma {:induction false} RejectedCallsAreInvisible(s: PidState, ops: seq<Op>)
    requires s.Valid()
    ensures Run(s, Kept(s, ops)) == (Run(s, ops).0, KeptReplies(Run(s, ops).1))
    decreases |ops|
  {
    if ops != [] {
      var (s', reply) := Exec(s, ops[0]);
      RejectedCallsAreInvisible(s', ops[1..]);
      var replies := Run(s, ops).1;
      assert replies[1..] == Run(s', ops[1..]).1;
      if !reply.Rejected? {
        assert Kept(s, ops)[1..] == Kept(s', ops[1..]);
      } else {
        assert Kept(s, ops) == Kept(s', ops[1..]);
        assert KeptReplies(replies) == KeptReplies(replies[1..]);
      }
    }
  }

  /** The dt of each accepted sample. */
  function Elapsed(s: PidState, ops: seq<Op>): seq<real>
    requires s.Valid()
    decreases |ops|
  {
    if ops == [] then []
    else
      var (s', reply) := Exec(s, ops[0]);
      (if reply.Computed? then [Advanced(s.clock, ops[0].at).value.1] else []) + Elapsed(s', ops[1..])
  }

  /** Without a Reset, the accepted dt's are those of the sample clock. */
  lemma {:induction false} RunTicksClock(s: PidState, ops: seq<Op>)
    requires s.Valid() && Reset !in ops
    ensures (Run(s, ops).0.clock, Elapsed(s, ops)) == Ticked(s.clock, Times(ops))
    decreases |ops|
  {
    hide Exec, Advanced;
    if ops != [] {
      ExecClock(s, ops[0]);
      RunTicksClock(Exec(s, ops[0]).0, ops[1..]);
      if ops[0].Compute? && ops[0].measured.Finite? {
        assert Times(ops)[1..] == Times(ops[1..]);
        if !Exec(s, ops[0]).1.Computed? {
          assert Elapsed(s, ops) == Elapsed(Exec(s, ops[0]).0, ops[1..]);
        }
      } else {
        assert Times(ops) == Times(ops[1..]);
        assert Elapsed(s, ops) == Elapsed(Exec(s, ops[0]).0, ops[1..]);
      }
    }
  }

  /** Over a run without Reset the accepted dt's add up to the last accepted timestamp minus the
      first, or minus the one the run started from. */
  lemma ElapsedOverRun(s: PidState, ops: seq<Op>)
    requires s.Valid() && Reset !in ops
    ensures var end := Run(s, ops).0.clock;
      && (end.started <==> s.clock.started || Times(ops) != [])
      && (end.started ==>
            var first := if s.clock.started then s.clock.last else Times(ops)[0];
            first <= end.last && Sum(Elapsed(s, ops)) == Seconds(end.last - first))
  {
    hide Run, Elapsed, Ticked, Sum;
    RunTicksClock(s, ops);
    ElapsedTelescopes(s.clock, Times(ops));
  }

  lemma ExecClock(s: PidState, op: Op)
    requires s.Valid() && op != Reset
    ensures var (s', reply) := Exec(s, op);
      if op.Compute? && op.measured.Finite? && Advanced(s.clock, op.at).Ok? then
        reply.Computed? && s'.clock == Advanced(s.clock, op.at).value.0
      else
        !reply.Computed? && s'.clock == s.clock
  {
    hide StepTerms, NextRef, Retuned;
  }

  // Derivative and feedforward

  /** Every call is a sample, accepted, and strictly later than the one before. */
  predicate StrictlyLater(s: PidState, ops: seq<Op>)
    requires s.Valid()
    decreases |ops|
  {
    ops == [] ||
    (&& ops[0].Compute? && ops[0].measured.Finite? && Advanced(s.clock, ops[0].at).Ok?
     && Advanced(s.clock, ops[0].at).value.1 > 0.0
     && StrictlyLater(Exec(s, ops[0]).0, ops[1..]))
  }

  /** The derivative terms of a run, each times its dt. */
  function DerivativeArea(s: PidState, ops: seq<Op>): real
    requires s.Valid() && StrictlyLater(s, ops)
    decreases |ops|
  {
    if ops == [] then 0.0
    else
      var (s', reply) := Exec(s, ops[0]);
      (if reply.Computed? then reply.terms.d * Advanced(s.clock, ops[0].at).value.1 else 0.0) + DerivativeArea(s', ops[1..])
  }

  /** The derivative action over a run adds up to Kd times the change of the error, however the
      samples are spaced. */
  lemma {:induction false} DerivativeTelescopes(s: PidState, ops: seq<Op>)
    requires s.Valid() && StrictlyLater(s, ops)
    ensures DerivativeArea(s, ops) == Proportional(s.params.kd, Run(s, ops).0.prevError - s.prevError)
    ensures ops != [] && Run(s, ops).1[|ops| - 1].Computed? ==>
      Run(s, ops).0.prevError == Run(s, ops).1[|ops| - 1].terms.error
    decreases |ops|
  {
    hide Exec, Proportional;
    ProportionalDifference(s.params.kd, s.prevError, s.prevError, s.prevError);
    if ops != [] {
      var s', reply := Exec(s, ops[0]).0, Exec(s, ops[0]).1;
      DerivativeStep(s, ops[0]);
      DerivativeTelescopes(s', ops[1..]);
      ProportionalDifference(s.params.kd, s.prevError, s'.prevError, Run(s, ops).0.prevError);
    }
  }

  lemma DerivativeStep(s: PidState, op: Op)
    requires s.Valid() && op.Compute? && op.measured.Finite? && Advanced(s.clock, op.at).Ok?
    ensures var (s', reply) := Exec(s, op);
      var dt := Advanced(s.clock, op.at).value.1;
      && s'.params == s.params && reply.Computed? && s'.prevError == reply.terms.error
      && (dt > 0.0 ==> reply.terms.d * dt == Proportional(s.params.kd, s'.prevError - s.prevError))
  {
    hide Proportional, Increment, Feedforward, Derivative, NextRef, Limits.Integrate, Limits.Clamped;
    var t, dt := Exec(s, op).1.terms, Advanced(s.clock, op.at).value.1;
    if dt > 0.0 {
      SlopeTimesTime(s.params.kd, t.error, s.prevError, dt);
    }
  }

  lemma SlopeTimesTime(kd: real, e: real, prevError: real, dt: real)
    requires dt > 0.0
    ensures Derivative(kd, e, prevError, dt) * dt == Proportional(kd, e - prevError)
  {
  }

  lemma ProportionalDifference(k: real, a: real, b: real, c: real)
    ensures Proportional(k, b - a) + Proportional(k, c - b) == Proportional(k, c - a)
    ensures Proportional(k, 0.0) == 0.0
  {
  }

  /** A static plant with gain FFGain, driven by the feedforward alone, sits at the setpoint. */
  lemma FeedforwardInvertsGain(ffGain: real, setpoint: real)
    ensures ffGain > 0.0 ==> ffGain * Feedforward(ffGain, setpoint) == setpoint
    ensures ffGain <= 0.0 ==> Feedforward(ffGain, setpoint) == 0.0
  {
  }

  // Two integrals, one trace

  ghost predicate CloseReplies(a: Reply, b: Reply, gap: real) {
    if a.Computed? && b.Computed? then
      0.0 <= b.terms.output - a.terms.output <= gap
    else
      a == b && !a.Computed?
  }

  lemma ClosestSums(l: Limits, i: real, j: real, delta: real, other: real)
    requires l.Valid() && i <= j
    ensures l.Integrate(i, delta, other) <= l.Integrate(j, delta, other) <= l.Integrate(i, delta, other) + (j - i)
    ensures 0.0 <= l.Clamped(other + l.Integrate(j, delta, other)) - l.Clamped(other + l.Integrate(i, delta, other)) <= j - i
  {
    var (lo, hi) := l.Window(other);
    ClampIsNonExpansive(i + delta, j + delta, lo, hi);
    ClampIsNonExpansive(other + l.Integrate(i, delta, other), other + l.Integrate(j, delta, other), l.min, l.max);
  }

  lemma ExecContracts(s: PidState, j: real, op: Op)
    requires s.Valid() && s.integral <= j <= s.params.limits.iClamp
    ensures var (a, ra) := Exec(s, op);
            var (b, rb) := Exec(s.(integral := j), op);
            && b == a.(integral := b.integral)
            && a.integral <= b.integral <= a.integral + (j - s.integral)
            && CloseReplies(ra, rb, j - s.integral)
  {
    hide NextRef, Retuned, ClearedRef, StepTerms;
    if op.Compute? && op.measured.Finite? && Advanced(s.clock, op.at).Ok? {
      var ref := NextRef(s.ref, s.params.setpoint.v);
      TermsContract(s.params, ref.effective, op.measured.v, ref.effective - op.measured.v,
                    s.integral, j, s.prevError, Advanced(s.clock, op.at).value.1);
    }
  }

  lemma TermsContract(p: PidParams, sp: real, m: real, e: real, i: real, j: real, prevError: real, dt: real)
    requires p.limits.Valid() && i <= j
    ensures var a := StepTerms(p, sp, m, e, i, prevError, dt);
            var b := StepTerms(p, sp, m, e, j, prevError, dt);
            && b == a.(i := b.i, output := b.output)
            && a.i <= b.i <= a.i + (j - i)
            && 0.0 <= b.output - a.output <= j - i
  {
    hide Proportional, Increment, Derivative, Feedforward, Limits.Integrate, Clamp;
    var t := StepTerms(p, sp, m, e, i, prevError, dt);
    ClosestSums(p.limits, i, j, Increment(p.ki, e, dt), t.ff + t.p + t.d);
  }

  lemma CloserIsClose(gap: real)
    ensures forall a, b, gap' :: gap' <= gap && CloseReplies(a, b, gap') ==> CloseReplies(a, b, gap)
  {
  }

  /** Incremental stability: two controllers that differ only in their integral, given the
      same calls, keep the order of their integrals and never widen the gap; no two outputs
      differ by more than the initial gap. In particular, once equal they stay equal. */
  lemma {:induction false} RunsContract(s: PidState, j: real, ops: seq<Op>)
    requires s.Valid() && s.integral <= j <= s.params.limits.iClamp
    ensures var (a, ra) := Run(s, ops);
            var (b, rb) := Run(s.(integral := j), ops);
            && b == a.(integral := b.integral)
            && a.integral <= b.integral <= a.integral + (j - s.integral)
            && forall k :: 0 <= k < |ops| ==> CloseReplies(ra[k], rb[k], j - s.integral)
    decreases |ops|
  {
    hide Exec, CloseReplies;
    if ops != [] {
      ExecContracts(s, j, ops[0]);
      CloserIsClose(j - s.integral);
      RunsContract(Exec(s, ops[0]).0, Exec(s.(integral := j), ops[0]).0.integral, ops[1..]);
    }
  }

  // Back-pressure

  lemma DerivativeOrder(kd: real, e1: real, e2: real, prevError: real, dt: real)
    requires kd >= 0.0 && e2 <= e1
    ensures Derivative(kd, e2, prevError, dt) <= Derivative(kd, e1, prevError, dt)
  {
    if dt > 0.0 {
      var x1, x2 := e1 - prevError, e2 - prevError;
      MulOrder(kd, x2, x1);
      DivideOrder(kd * x2, kd * x1, dt);
    }
  }

  lemma ProportionalOrder(kp: real, e1: real, e2: real)
    requires kp >= 0.0 && e2 <= e1
    ensures Proportional(kp, e2) <= Proportional(kp, e1)
  {
    MulOrder(kp, e2, e1);
  }

  lemma DeltaOrder(ki: real, e1: real, e2: real, dt: real)
    requires ki >= 0.0 && dt >= 0.0 && e2 <= e1
    ensures Increment(ki, e2, dt) <= Increment(ki, e1, dt)
  {
    MulOrder(ki, e2, e1);
    var x1, x2 := ki * e1, ki * e2;
    MulOrder(dt, x2, x1);
  }

  lemma TermsOrder(p: PidParams, sp: real, m1: real, m2: real, e1: real, e2: real,
                   i: real, prevError: real, dt: real)
    requires p.limits.Valid() && p.kp >= 0.0 && p.ki >= 0.0 && p.kd >= 0.0 && dt >= 0.0 && e2 <= e1
    ensures StepTerms(p, sp, m2, e2, i, prevError, dt).output <= StepTerms(p, sp, m1, e1, i, prevError, dt).output
  {
    hide Proportional, Increment, Derivative, Feedforward, Limits.Integrate, Clamp;
    ProportionalOrder(p.kp, e1, e2);
    DerivativeOrder(p.kd, e1, e2, prevError, dt);
    DeltaOrder(p.ki, e1, e2, dt);
    var t1 := StepTerms(p, sp, m1, e1, i, prevError, dt);
    var t2 := StepTerms(p, sp, m2, e2, i, prevError, dt);
    OutputIsMonotone(p.limits, i, Increment(p.ki, e1, dt), t1.ff + t1.p + t1.d,
                               i, Increment(p.ki, e2, dt), t2.ff + t2.p + t2.d);
  }

  /** With non-negative gains a higher measurement never yields a higher drain rate, through
      every clamp and fallback branch. */
  lemma HigherMeasurementNeverRaisesOutput(s: PidState, m1: real, m2: real, at: int)
    requires s.Valid() && m1 <= m2
    requires s.params.kp >= 0.0 && s.params.ki >= 0.0 && s.params.kd >= 0.0
    ensures var r1 := Exec(s, Compute(Finite(m1), at)).1;
            var r2 := Exec(s, Compute(Finite(m2), at)).1;
            if r1.Computed? then r2.Computed? && r2.terms.output <= r1.terms.output else r1 == r2
  {
    if Advanced(s.clock, at).Ok? {
      var sp := NextRef(s.ref, s.params.setpoint.v).effective;
      TermsOrder(s.params, sp, m1, m2, sp - m1, sp - m2, s.integral, s.prevError, Advanced(s.clock, at).value.1);
    }
  }

  predicate IntegralOnly(p: PidParams) {
    p.kp == 0.0 && p.kd == 0.0 && p.ki >= 0.0
  }

  /** The same call, except that a sample may read higher. */
  predicate SameOrHigher(a: Op, b: Op) {
    if a.Compute? && b.Compute? && a.measured.Finite? && b.measured.Finite? then
      a.at == b.at && a.measured.v <= b.measured.v
    else
      a == b
  }

  predicate HigherSample(a: Op, b: Op) {
    SameOrHigher(a, b) && (a.SetParams? ==> IntegralOnly(a.params))
  }

  predicate LowerReply(a: Reply, b: Reply) {
    if a.Computed? then b.Computed? && b.terms.output <= a.terms.output && b.terms.i <= a.terms.i
    else a == b
  }

  /** b is a with an integral that is not higher; the last error does not matter when Kd = 0. */
  predicate LowerState(a: PidState, b: PidState) {
    b == a.(integral := b.integral, prevError := b.prevError) && b.integral <= a.integral
  }

  lemma ZeroGain(e: real, prevError: real, dt: real)
    ensures Proportional(0.0, e) == 0.0 && Derivative(0.0, e, prevError, dt) == 0.0
  {
    if dt > 0.0 {
      assert 0.0 * (e - prevError) == 0.0;
    }
  }

  lemma ExecKeepsOrder(a: PidState, b: PidState, opA: Op, opB: Op)
    requires a.Valid() && b.Valid() && LowerState(a, b) && IntegralOnly(a.params) && HigherSample(opA, opB)
    ensures LowerState(Exec(a, opA).0, Exec(b, opB).0)
    ensures LowerReply(Exec(a, opA).1, Exec(b, opB).1)
    ensures IntegralOnly(Exec(a, opA).0.params)
  {
    hide NextRef, Retuned, ClearedRef, StepTerms;
    if opA.Compute? && opA.measured.Finite? && Advanced(a.clock, opA.at).Ok? {
      var sp := NextRef(a.ref, a.params.setpoint.v).effective;
      TermsKeepOrder(a.params, sp, opA.measured.v, opB.measured.v, sp - opA.measured.v, sp - opB.measured.v,
                     a.integral, b.integral, a.prevError, b.prevError, Advanced(a.clock, opA.at).value.1);
    }
  }

  lemma TermsKeepOrder(p: PidParams, sp: real, m1: real, m2: real, e1: real, e2: real,
                       i1: real, i2: real, prev1: real, prev2: real, dt: real)
    requires p.limits.Valid() && IntegralOnly(p) && dt >= 0.0 && e2 <= e1 && i2 <= i1
    ensures var a := StepTerms(p, sp, m1, e1, i1, prev1, dt);
            var b := StepTerms(p, sp, m2, e2, i2, prev2, dt);
            b.i <= a.i && b.output <= a.output
  {
    hide Proportional, Increment, Derivative, Feedforward, Limits.Integrate, Clamp;
    ZeroGain(e1, prev1, dt);
    ZeroGain(e2, prev2, dt);
    DeltaOrder(p.ki, e1, e2, dt);
    IntegralOrder(p.limits, i1, Increment(p.ki, e1, dt), i2, Increment(p.ki, e2, dt), Feedforward(p.ffGain, sp));
  }

  lemma IntegralOrder(l: Limits, i1: real, delta1: real, i2: real, delta2: real, other: real)
    requires l.Valid() && i2 <= i1 && delta2 <= delta1
    ensures l.Integrate(i2, delta2, other) <= l.Integrate(i1, delta1, other)
    ensures l.Clamped(other + l.Integrate(i2, delta2, other)) <= l.Clamped(other + l.Integrate(i1, delta1, other))
  {
  }

  /** With integral action only, this holds over whole runs: measurements that are pointwise
      higher give integrals and outputs that are pointwise lower or equal. */
  lemma {:induction false} HigherMeasurementsNeverRaiseOutputs(a: PidState, b: PidState, opsA: seq<Op>, opsB: seq<Op>)
    requires a.Valid() && b.Valid() && LowerState(a, b) && IntegralOnly(a.params)
    requires |opsA| == |opsB| && forall k :: 0 <= k < |opsA| ==> HigherSample(opsA[k], opsB[k])
    ensures LowerState(Run(a, opsA).0, Run(b, opsB).0)
    ensures forall k :: 0 <= k < |opsA| ==> LowerReply(Run(a, opsA).1[k], Run(b, opsB).1[k])
    decreases |opsA|
  {
    hide Exec, HigherSample, LowerReply;
    if opsA != [] {
      ExecKeepsOrder(a, b, opsA[0], opsB[0]);
      HigherMeasurementsNeverRaiseOutputs(Exec(a, opsA[0]).0, Exec(b, opsB[0]).0, opsA[1..], opsB[1..]);
    }
  }

  // When back-pressure holds over whole runs

  predicate NonNegative(p: PidParams) {
    p.kp >= 0.0 && p.ki >= 0.0 && p.kd >= 0.0
  }

  /** The output cannot move, or it follows neither the change of the error nor, unless there is
      no integral to disturb, the error itself. */
  predicate Orderly(p: PidParams) {
    p.limits.min == p.limits.max || (p.kd == 0.0 && (p.kp == 0.0 || p.limits.iClamp == 0.0))
  }

  predicate HigherCall(a: Op, b: Op) {
    SameOrHigher(a, b) && (a.SetParams? ==> NonNegative(a.params) && Orderly(a.params))
  }

  predicate LowerOutput(a: Reply, b: Reply) {
    if a.Computed? then b.Computed? && b.terms.output <= a.terms.output else a == b
  }

  /** b is a, but for the last error and the integral, which is not higher where it matters. */
  predicate Behind(a: PidState, b: PidState) {
    && b == a.(integral := b.integral, prevError := b.prevError)
    && NonNegative(a.params) && Orderly(a.params)
    && (IntegralOnly(a.params) ==> b.integral <= a.integral)
  }

  lemma OrderlyTerms(p: PidParams, sp: real, m1: real, m2: real, e1: real, e2: real,
                     i1: real, i2: real, prev1: real, prev2: real, dt: real)
    requires p.limits.Valid() && NonNegative(p) && Orderly(p) && dt >= 0.0 && e2 <= e1
    requires IntegralOnly(p) ==> i2 <= i1
    ensures var a := StepTerms(p, sp, m1, e1, i1, prev1, dt);
            var b := StepTerms(p, sp, m2, e2, i2, prev2, dt);
            b.output <= a.output && (IntegralOnly(p) ==> b.i <= a.i)
  {
    hide Proportional, Increment, Derivative, Feedforward;
    if IntegralOnly(p) {
      TermsKeepOrder(p, sp, m1, m2, e1, e2, i1, i2, prev1, prev2, dt);
    } else if p.limits.min != p.limits.max {
      ZeroGain(e1, prev1, dt);
      ZeroGain(e2, prev2, dt);
      ProportionalOrder(p.kp, e1, e2);
    }
  }

  lemma ExecKeepsBehind(a: PidState, b: PidState, opA: Op, opB: Op)
    requires a.Valid() && b.Valid() && Behind(a, b) && HigherCall(opA, opB)
    ensures Behind(Exec(a, opA).0, Exec(b, opB).0)
    ensures LowerOutput(Exec(a, opA).1, Exec(b, opB).1)
  {
    hide NextRef, Retuned, ClearedRef, StepTerms;
    if opA.Compute? && opA.measured.Finite? && Advanced(a.clock, opA.at).Ok? {
      var sp := NextRef(a.ref, a.params.setpoint.v).effective;
      OrderlyTerms(a.params, sp, opA.measured.v, opB.measured.v, sp - opA.measured.v, sp - opB.measured.v,
                   a.integral, b.integral, a.prevError, b.prevError, Advanced(a.clock, opA.at).value.1);
    }
  }

  /** With orderly parameters, pointwise higher measurements give pointwise lower or equal outputs
      over any mix of calls, through changes from one kind of orderly parameters to another. */
  lemma {:induction false} OrderlyRunsKeepOrder(a: PidState, b: PidState, opsA: seq<Op>, opsB: seq<Op>)
    requires a.Valid() && b.Valid() && Behind(a, b)
    requires |opsA| == |opsB| && forall k :: 0 <= k < |opsA| ==> HigherCall(opsA[k], opsB[k])
    ensures forall k :: 0 <= k < |opsA| ==> LowerOutput(Run(a, opsA).1[k], Run(b, opsB).1[k])
    decreases |opsA|
  {
    hide Exec, HigherCall, LowerOutput, Behind;
    if opsA != [] {
      ExecKeepsBehind(a, b, opsA[0], opsB[0]);
      OrderlyRunsKeepOrder(Exec(a, opsA[0]).0, Exec(b, opsB[0]).0, opsA[1..], opsB[1..]);
    }
  }

  const SECOND := 1_000_000_000

  /** The output of a new controller after two samples. */
  function SecondOutput(p: PidParams, first: real, second: real, at: int): real
    requires NewPid(p).Ok? && at >= 0
  {
    var s := NewPid(p).value;
    var ops := [Compute(Finite(first), 0), Compute(Finite(second), at)];
    var reply := Run(s, ops).1[1];
    if reply.Computed? then reply.terms.output else 0.0
  }

  lemma TwoCalls(s: PidState, a: Op, b: Op)
    requires s.Valid()
    ensures Run(s, [a, b]).1 == [Exec(s, a).1, Exec(Exec(s, a).0, b).1]
  {
    hide Exec;
    assert [a, b][1..] == [b] && [b][1..] == [];
  }

  /** A sample that reads the reference a second later: there is only feedforward and derivative. */
  lemma SampleOnReference(s: PidState)
    requires s.Valid() && s.clock == ClockState(0, true)
    ensures var sp := NextRef(s.ref, s.params.setpoint.v).effective;
      var l, other := s.params.limits, Feedforward(s.params.ffGain, sp) - Proportional(s.params.kd, s.prevError);
      var reply := Exec(s, Compute(Finite(sp), SECOND)).1;
      && reply.Computed?
      && (other < l.min - l.iClamp ==> reply.terms.output == l.min)
      && (other > l.max + l.iClamp ==> reply.terms.output == l.max)
  {
    hide Proportional, Derivative, Increment, Feedforward, NextRef, Clamp;
    var sp := NextRef(s.ref, s.params.setpoint.v).effective;
    assert Seconds(SECOND) == 1.0;
    UnitSlope(s.params.kd, s.prevError);
    ProportionalDifference(s.params.kp, 0.0, 0.0, 0.0);
    ComputeLaw(s, sp, SECOND);
  }

  lemma UnitSlope(kd: real, prevError: real)
    ensures Derivative(kd, 0.0, prevError, 1.0) == -Proportional(kd, prevError)
  {
  }

  /** The references of the first two samples of a new controller. */
  function References(p: PidParams): (real, real)
    requires NewPid(p).Ok?
  {
    var first := NextRef(NewPid(p).value.ref, p.setpoint.v);
    (first.effective, NextRef(first, p.setpoint.v).effective)
  }

  /** The first reading after which feedforward and derivative of a sample on the reference, a
      second later, add up to `other`. */
  function ReadingFor(p: PidParams, other: real): real
    requires NewPid(p).Ok? && p.kd > 0.0
  {
    References(p).0 - (Feedforward(p.ffGain, References(p).1) - other) / p.kd
  }

  lemma ReadingSetsDerivative(p: PidParams, other: real)
    requires NewPid(p).Ok? && p.kd > 0.0
    ensures Feedforward(p.ffGain, References(p).1) - Proportional(p.kd, References(p).0 - ReadingFor(p, other)) == other
  {
    hide References, Feedforward;
    var gap, kd := Feedforward(p.ffGain, References(p).1) - other, p.kd;
    assert References(p).0 - ReadingFor(p, other) == gap / kd;
    assert kd * (gap / kd) == gap;
  }

  lemma ReadingOrder(p: PidParams, x: real, y: real)
    requires NewPid(p).Ok? && p.kd > 0.0 && x <= y
    ensures ReadingFor(p, x) <= ReadingFor(p, y)
  {
    hide References, Feedforward;
    var ff := Feedforward(p.ffGain, References(p).1);
    DivideOrder(ff - y, ff - x, p.kd);
  }

  /** With derivative action the first reading can drive the second output to either limit. */
  lemma DrivenByFirstReading(p: PidParams, other: real)
    requires NewPid(p).Ok? && p.kd > 0.0
    ensures var l, output := p.limits, SecondOutput(p, ReadingFor(p, other), References(p).1, SECOND);
      && (other < l.min - l.iClamp ==> output == l.min)
      && (other > l.max + l.iClamp ==> output == l.max)
  {
    hide NextRef, Feedforward, Proportional, Exec, InstantTerms, Run, ReadingFor, Limits.Integrate, Limits.Clamped;
    var s, first, second := NewPid(p).value, ReadingFor(p, other), References(p).1;
    InstantSample(s, first, 0);
    ReadingSetsDerivative(p, other);
    SampleOnReference(Exec(s, Compute(Finite(first), 0)).0);
    TwoCalls(s, Compute(Finite(first), 0), Compute(Finite(second), SECOND));
  }

  /** With derivative action and room to move, order is lost: a low first reading sends the second
      output to Min, a high one to Max. */
  lemma DerivativeBreaksOrder(p: PidParams) returns (low: real, high: real, second: real)
    requires NewPid(p).Ok? && p.kd > 0.0 && p.limits.min < p.limits.max
    ensures low <= high
    ensures SecondOutput(p, low, second, SECOND) == p.limits.min
    ensures SecondOutput(p, high, second, SECOND) == p.limits.max
  {
    hide SecondOutput, ReadingFor, References;
    var l := p.limits;
    var under, over := l.min - l.iClamp - 1.0, l.max + l.iClamp + 1.0;
    low, high, second := ReadingFor(p, under), ReadingFor(p, over), References(p).1;
    ReadingOrder(p, under, over);
    DrivenByFirstReading(p, under);
    DrivenByFirstReading(p, over);
  }

  lemma MeasurementOrder(s: PidState, x: real, y: real)
    requires s.Valid() && s.params.kp > 0.0 && x <= y
    ensures MeasurementFor(s, y) <= MeasurementFor(s, x)
  {
    hide NextRef, Feedforward;
    var ff := Feedforward(s.params.ffGain, NextRef(s.ref, s.params.setpoint.v).effective);
    DivideOrder(x - ff, y - ff, s.params.kp);
  }

  /** The second of two instant samples, when the first left this integral. */
  lemma SecondInstant(p: PidParams, other1: real, other2: real)
    requires NewPid(p).Ok? && p.kp > 0.0
    ensures var s, l := NewPid(p).value, p.limits;
      var s1 := Exec(s, Compute(Finite(MeasurementFor(s, other1)), 0)).0;
      && s1.Valid() && s1.params == s.params && s1.ref == NextRef(s.ref, p.setpoint.v)
      && SecondOutput(p, MeasurementFor(s, other1), MeasurementFor(s1, other2), 0)
         == l.Clamped(other2 + l.Integrate(l.Integrate(0.0, 0.0, other1), 0.0, other2))
  {
    hide NextRef, Exec, InstantTerms, MeasurementFor, Run, Limits.Integrate, Limits.Clamped;
    var s := NewPid(p).value;
    var m1 := MeasurementFor(s, other1);
    var s1 := Exec(s, Compute(Finite(m1), 0)).0;
    AnyInstantTerms(s, other1);
    InstantSample(s, m1, 0);
    var m2 := MeasurementFor(s1, other2);
    AnyInstantTerms(s1, other2);
    InstantSample(s1, m2, 0);
    TwoCalls(s, Compute(Finite(m1), 0), Compute(Finite(m2), 0));
  }

  /** The arithmetic of losing order: other terms beyond Max push the integral down, and it is
      still down when they have returned close to Min. */
  lemma PushedDown(l: Limits, eps: real)
    requires l.Valid() && 0.0 < eps <= l.iClamp && eps <= l.max - l.min
    ensures l.Clamped(l.min + eps + l.Integrate(l.Integrate(0.0, 0.0, l.max + eps), 0.0, l.min + eps)) == l.min
    ensures l.Clamped(l.min + eps + l.Integrate(l.Integrate(0.0, 0.0, l.max), 0.0, l.min + eps)) == l.min + eps
  {
  }

  /** With proportional action, room to move and room to integrate, order is lost whatever Ki, Kd
      and the filter: of two first readings the higher leaves the higher second output. */
  lemma ProportionalBreaksOrder(p: PidParams) returns (low: real, high: real, second: real)
    requires NewPid(p).Ok? && p.kp > 0.0 && p.limits.iClamp > 0.0 && p.limits.min < p.limits.max
    ensures low <= high && SecondOutput(p, low, second, 0) < SecondOutput(p, high, second, 0)
  {
    hide SecondOutput, MeasurementFor, Exec, Limits.Integrate, Limits.Clamped, NextRef;
    var s, l := NewPid(p).value, p.limits;
    var eps := Min(l.iClamp, l.max - l.min);
    low, high := MeasurementFor(s, l.max + eps), MeasurementFor(s, l.max);
    MeasurementOrder(s, l.max, l.max + eps);
    SecondInstant(p, l.max + eps, l.min + eps);
    SecondInstant(p, l.max, l.min + eps);
    var s1, s1' := Exec(s, Compute(Finite(low), 0)).0, Exec(s, Compute(Finite(high), 0)).0;
    second := MeasurementFor(s1, l.min + eps);
    SameMeasurement(s1, s1', l.min + eps);
    PushedDown(l, eps);
  }

  lemma SameMeasurement(a: PidState, b: PidState, other: real)
    requires a.Valid() && b.Valid() && a.params == b.params && a.ref == b.ref && a.params.kp != 0.0
    ensures MeasurementFor(a, other) == MeasurementFor(b, other)
  {
  }

  /** Higher measurements never raise an output, over any samples, setpoint changes and resets of a
      new controller. */
  ghost predicate KeepsOrder(p: PidParams)
    requires NewPid(p).Ok?
  {
    forall opsA: seq<Op>, opsB: seq<Op> | SameButHigher(opsA, opsB) ::
      LowerOutputs(Run(NewPid(p).value, opsA).1, Run(NewPid(p).value, opsB).1)
  }

  predicate SameButHigher(opsA: seq<Op>, opsB: seq<Op>) {
    && |opsA| == |opsB|
    && forall k :: 0 <= k < |opsA| ==> HigherCall(opsA[k], opsB[k]) && !opsA[k].SetParams?
  }

  predicate LowerOutputs(a: seq<Reply>, b: seq<Reply>) {
    |a| == |b| && forall k :: 0 <= k < |a| ==> LowerOutput(a[k], b[k])
  }

  lemma BrokenBy(p: PidParams, low: real, high: real, second: real, at: int)
    requires NewPid(p).Ok? && at >= 0 && low <= high
    requires SecondOutput(p, low, second, at) < SecondOutput(p, high, second, at)
    ensures !KeepsOrder(p)
  {
    hide Exec;
    var s := NewPid(p).value;
    var opsA := [Compute(Finite(low), 0), Compute(Finite(second), at)];
    var opsB := [Compute(Finite(high), 0), Compute(Finite(second), at)];
    TwoCalls(s, opsA[0], opsA[1]);
    TwoCalls(s, opsB[0], opsB[1]);
    assert SameButHigher(opsA, opsB);
    TwoSamplesComputed(s, low, second, at);
    TwoSamplesComputed(s, high, second, at);
    assert !LowerOutput(Run(s, opsA).1[1], Run(s, opsB).1[1]);
  }

  lemma TwoSamplesComputed(s: PidState, first: real, second: real, at: int)
    requires s.Valid() && s.clock == NEW_CLOCK && at >= 0
    ensures Exec(Exec(s, Compute(Finite(first), 0)).0, Compute(Finite(second), at)).1.Computed?
  {
    hide Stepped;
    ExecClock(s, Compute(Finite(first), 0));
    ExecClock(Exec(s, Compute(Finite(first), 0)).0, Compute(Finite(second), at));
  }

  /** Back-pressure over whole runs, exactly: with non-negative gains, pointwise higher measurements
      never raise an output if and only if Min = Max, or Kd = 0 and one of Kp and IClamp is 0. */
  lemma BackPressureIffOrderly(p: PidParams)
    requires NewPid(p).Ok? && NonNegative(p)
    ensures KeepsOrder(p) <==> Orderly(p)
  {
    hide Run, SecondOutput, LowerOutput, HigherCall;
    if Orderly(p) {
      var s := NewPid(p).value;
      forall opsA: seq<Op>, opsB: seq<Op> | SameButHigher(opsA, opsB)
        ensures LowerOutputs(Run(s, opsA).1, Run(s, opsB).1)
      {
        OrderlyRunsKeepOrder(s, s, opsA, opsB);
      }
    } else if p.kd > 0.0 {
      var low, high, second := DerivativeBreaksOrder(p);
      BrokenBy(p, low, high, second, SECOND);
    } else {
      var low, high, second := ProportionalBreaksOrder(p);
      BrokenBy(p, low, high, second, 0);
    }
  }

  // The reference never overshoots

  /** Every setpoint in force during the run is in [lo, hi]. */
  predicate SetpointsIn(s: PidState, ops: seq<Op>, lo: real, hi: real)
    requires s.Valid()
    decreases |ops|
  {
    && lo <= s.params.setpoint.v <= hi
    && (ops != [] ==> SetpointsIn(Exec(s, ops[0]).0, ops[1..], lo, hi))
  }

  /** Whatever filters are switched in mid-run, the reference and all that its filter
      remembers stay in any interval that holds 0 and the setpoints in force so far. */
  lemma {:induction false} ReferenceNeverOvershoots(s: PidState, ops: seq<Op>, lo: real, hi: real)
    requires s.Valid() && s.ref.In(lo, hi) && lo <= 0.0 <= hi && SetpointsIn(s, ops, lo, hi)
    ensures Run(s, ops).0.ref.In(lo, hi)
    ensures forall k :: 0 <= k < |ops| && Run(s, ops).1[k].Computed? ==> lo <= Run(s, ops).1[k].terms.setpoint <= hi
    decreases |ops|
  {
    if ops != [] {
      var spec := if ops[0].SetParams? && ops[0].params.Normalized().Ok?
        then ops[0].params.Normalized().value.setpointFilter else s.params.setpointFilter;
      ReferenceStaysIn(s.ref, s.params.setpoint.v, spec, lo, hi);
      ReferenceNeverOvershoots(Exec(s, ops[0]).0, ops[1..], lo, hi);
    }
  }

  /** A new controller starts inside every such interval. */
  lemma NewReferenceIsAtZero(p: PidParams, lo: real, hi: real)
    requires NewPid(p).Ok? && lo <= 0.0 <= hi
    ensures NewPid(p).value.ref.In(lo, hi)
  {
  }

  /** From the start: in any interval that holds 0 and the setpoints in force. */
  lemma NewNeverOvershoots(p: PidParams, ops: seq<Op>, lo: real, hi: real)
    requires NewPid(p).Ok? && lo <= 0.0 <= hi && SetpointsIn(NewPid(p).value, ops, lo, hi)
    ensures var (s, replies) := Run(NewPid(p).value, ops);
      && s.ref.In(lo, hi)
      && forall k :: 0 <= k < |ops| && replies[k].Computed? ==> lo <= replies[k].terms.setpoint <= hi
  {
    NewReferenceIsAtZero(p, lo, hi);
    ReferenceNeverOvershoots(NewPid(p).value, ops, lo, hi);
  }

  // Sampling does not matter

  function Samples(measured: real, times: seq<int>): (ops: seq<Op>)
    ensures |ops| == |times|
  {
    seq(|times|, k requires 0 <= k < |times| => Compute(Finite(measured), times[k]))
  }

  predicate NonDecreasing(times: seq<int>) {
    forall i, j :: 0 <= i <= j < |times| ==> times[i] <= times[j]
  }

  lemma ClampTwice(x: real, a: real, b: real, lo: real, hi: real)
    requires lo <= hi && lo <= x <= hi
    requires (a >= 0.0 && b >= 0.0) || (a <= 0.0 && b <= 0.0)
    ensures Clamp(Clamp(x + a, lo, hi) + b, lo, hi) == Clamp(x + a + b, lo, hi)
  {
  }

  /** The terms that do not integrate, once the error is steady. */
  function SteadyTerms(p: PidParams, measured: real): real
    requires p.setpoint.Finite?
  {
    Feedforward(p.ffGain, p.setpoint.v) + Proportional(p.kp, p.setpoint.v - measured)
  }

  /** A run of samples at a constant error, with no setpoint filter, is in this state. */
  predicate SteadyAt(s: PidState, measured: real, last: int) {
    && s.Valid()
    && s.params.setpointFilter.kind == NONE
    && s.clock == ClockState(last, true)
    && s.prevError == s.params.setpoint.v - measured
    && var (lo, hi) := s.params.limits.Window(SteadyTerms(s.params, measured)); lo <= s.integral <= hi
  }

  lemma SteadyDelta(ki: real, e: real, x: real, y: real, sum: real)
    requires x >= 0.0 && y >= 0.0 && sum == x + y
    ensures Increment(ki, e, sum) == Increment(ki, e, x) + Increment(ki, e, y)
    ensures || (Increment(ki, e, x) >= 0.0 && Increment(ki, e, y) >= 0.0)
            || (Increment(ki, e, x) <= 0.0 && Increment(ki, e, y) <= 0.0)
  {
    var c := ki * e;
    if c >= 0.0 {
      MulSign(c, x);
      MulSign(c, y);
    } else {
      MulSign(-c, x);
      MulSign(-c, y);
    }
    assert c * sum == c * x + c * y;
  }

  /** A steady state and its output once samples have been taken up to time `end`. */
  function SteadyAfter(s: PidState, measured: real, end: int): PidState
    requires s.params.setpoint.Finite?
  {
    s.(clock := ClockState(end, true),
       ref := s.ref.(effective := s.params.setpoint.v),
       integral := s.params.limits.Integrate(
         s.integral, Increment(s.params.ki, s.prevError, Seconds(end - s.clock.last)), SteadyTerms(s.params, measured)))
  }

  function SteadyOutput(s: PidState, measured: real): real
    requires s.params.setpoint.Finite?
  {
    s.params.limits.Clamped(SteadyTerms(s.params, measured) + s.integral)
  }

  lemma SteadyStep(s: PidState, measured: real, last: int, at: int)
    requires SteadyAt(s, measured, last) && last <= at
    ensures var (s', reply) := Exec(s, Compute(Finite(measured), at));
      && SteadyAt(s', measured, at)
      && s' == SteadyAfter(s, measured, at)
      && reply.Computed? && reply.terms.output == SteadyOutput(s', measured)
  {
    hide Proportional, Increment, Derivative, Feedforward, Clamp;
    var p, e, dt := s.params, s.prevError, Seconds(at - last);
    NoDerivative(p.kd, e, dt);
    var t := StepTerms(p, p.setpoint.v, measured, e, s.integral, e, dt);
    assert t.ff + t.p + t.d == SteadyTerms(p, measured);
    assert Exec(s, Compute(Finite(measured), at)).1 == Computed(t);
    WindowHolds(p.limits, s.integral, Increment(p.ki, e, dt), SteadyTerms(p, measured));
  }

  lemma SteadyCompose(s: PidState, measured: real, last: int, at: int, end: int)
    requires SteadyAt(s, measured, last) && last <= at <= end
    ensures SteadyAfter(SteadyAfter(s, measured, at), measured, end) == SteadyAfter(s, measured, end)
  {
    hide Increment, Clamp, SteadyTerms, Limits.Window;
    var (lo, hi) := s.params.limits.Window(SteadyTerms(s.params, measured));
    var x, y := Seconds(at - last), Seconds(end - at);
    SteadyDelta(s.params.ki, s.prevError, x, y, Seconds(end - last));
    ClampTwice(s.integral, Increment(s.params.ki, s.prevError, x), Increment(s.params.ki, s.prevError, y), lo, hi);
  }

  lemma NoDerivative(kd: real, e: real, dt: real)
    ensures Derivative(kd, e, e, dt) == 0.0
  {
    if dt > 0.0 {
      assert kd * (e - e) == 0.0;
    }
  }

  lemma WindowHolds(l: Limits, i: real, delta: real, other: real)
    requires l.Valid()
    ensures var (lo, hi) := l.Window(other);
            lo <= hi && lo <= l.Integrate(i, delta, other) <= hi
  {
  }

  /** From a steady state the integral after any samples is one clamped sum over the whole
      elapsed time: it does not depend on how many samples there were, or when. */
  lemma {:induction false} SteadyRun(s: PidState, measured: real, last: int, times: seq<int>)
    requires SteadyAt(s, measured, last) && NonDecreasing([last] + times) && times != []
    ensures var (s', replies) := Run(s, Samples(measured, times));
      && s' == SteadyAfter(s, measured, times[|times| - 1])
      && replies[|times| - 1].Computed?
      && replies[|times| - 1].terms.output == SteadyOutput(s', measured)
    decreases |times|
  {
    hide Exec, SteadyAfter, SteadyOutput;
    var ops, at, end := Samples(measured, times), times[0], times[|times| - 1];
    assert ([last] + times)[0] == last && ([last] + times)[1] == at && ([last] + times)[|times|] == end;
    assert NonDecreasing([at] + times[1..]) by {
      assert [at] + times[1..] == ([last] + times)[1..];
    }
    SteadyStep(s, measured, last, at);
    var s1 := Exec(s, ops[0]).0;
    if |times| == 1 {
      assert ops[1..] == [];
    } else {
      assert ops[1..] == Samples(measured, times[1..]);
      SteadyRun(s1, measured, at, times[1..]);
      SteadyCompose(s, measured, last, at, end);
    }
  }

  /** Zero settled at the first sample, then Ki*e*(tn - t0) more of it settled at the last. */
  function SampledIntegral(p: PidParams, measured: real, t0: int, tn: int): real
    requires p.setpoint.Finite?
  {
    var other := SteadyTerms(p, measured);
    Settled(p.limits, Settled(p.limits, 0.0, other) + Increment(p.ki, p.setpoint.v - measured, Seconds(tn - t0)), other)
  }

  /** The same, through the window. */
  lemma SampledThroughWindow(p: PidParams, measured: real, t0: int, tn: int)
    requires p.limits.Valid() && p.setpoint.Finite?
    ensures var (lo, hi) := p.limits.Window(SteadyTerms(p, measured));
      SampledIntegral(p, measured, t0, tn)
      == Clamp(Clamp(0.0, lo, hi) + Increment(p.ki, p.setpoint.v - measured, Seconds(tn - t0)), lo, hi)
  {
    hide Increment, SteadyTerms, Settled, Clamp, Limits.Window;
    var other, delta := SteadyTerms(p, measured), Increment(p.ki, p.setpoint.v - measured, Seconds(tn - t0));
    IntegrateSettles(p.limits, 0.0, 0.0, other);
    IntegrateSettles(p.limits, p.limits.Integrate(0.0, 0.0, other), delta, other);
  }

  /** A state that has not seen a sample and does not filter the setpoint. */
  predicate Unsampled(s: PidState) {
    s.Valid() && s.params.setpointFilter.kind == NONE && s.clock == NEW_CLOCK && s.integral == 0.0
  }

  lemma SamplesFromUnsampled(s: PidState, measured: real, times: seq<int>)
    requires Unsampled(s) && NonDecreasing(times) && times != []
    ensures var (s', replies) := Run(s, Samples(measured, times));
      && s'.params == s.params
      && s'.integral == SampledIntegral(s.params, measured, times[0], times[|times| - 1])
      && replies[|times| - 1].Computed?
      && replies[|times| - 1].terms.output == SteadyOutput(s', measured)
  {
    hide Exec, SampledIntegral, SteadyAfter, SteadyAt, SteadyOutput, Clamp, SteadyTerms, Limits.Window;
    var ops, t0, tn := Samples(measured, times), times[0], times[|times| - 1];
    var s1 := Exec(s, ops[0]).0;
    FirstSample(s, measured, t0);
    if |times| == 1 {
      NothingMore(s.params, measured, t0);
      assert ops[1..] == [];
    } else {
      assert ops[1..] == Samples(measured, times[1..]);
      assert [t0] + times[1..] == times;
      SteadyRun(s1, measured, t0, times[1..]);
      RestOfSamples(s1, measured, t0, tn);
    }
  }

  lemma RestOfSamples(s: PidState, measured: real, t0: int, tn: int)
    requires SteadyAt(s, measured, t0)
    requires var (lo, hi) := s.params.limits.Window(SteadyTerms(s.params, measured));
             s.integral == Clamp(0.0, lo, hi)
    ensures SteadyAfter(s, measured, tn).params == s.params
    ensures SteadyAfter(s, measured, tn).integral == SampledIntegral(s.params, measured, t0, tn)
  {
    hide Clamp, SteadyTerms, Limits.Window, Increment, Settled;
    SampledThroughWindow(s.params, measured, t0, tn);
  }

  /** A fresh controller without a setpoint filter, at a constant setpoint and measurement:
      the final integral and output depend on the first and last sample times only, so
      samples in between, however many and whenever taken, never change them. */
  lemma SamplingDoesNotMatter(p: PidParams, measured: real, times: seq<int>)
    requires NewPid(p).Ok? && p.setpointFilter.kind in {"", NONE} && NonDecreasing(times) && times != []
    ensures var (s', replies) := Run(NewPid(p).value, Samples(measured, times));
      && s'.integral == SampledIntegral(p, measured, times[0], times[|times| - 1])
      && replies[|times| - 1].Computed?
      && replies[|times| - 1].terms.output == p.limits.Clamped(SteadyTerms(p, measured) + s'.integral)
  {
    hide Run, Exec, SampledIntegral, SteadyTerms;
    var s := NewPid(p).value;
    FilterDoesNotIntegrate(p, s.params.setpointFilter, measured, times[0], times[|times| - 1]);
    SamplesFromUnsampled(s, measured, times);
  }

  lemma FilterDoesNotIntegrate(p: PidParams, spec: Spec, measured: real, t0: int, tn: int)
    requires p.setpoint.Finite?
    ensures SteadyTerms(p.(setpointFilter := spec), measured) == SteadyTerms(p, measured)
    ensures SampledIntegral(p.(setpointFilter := spec), measured, t0, tn) == SampledIntegral(p, measured, t0, tn)
  {
    hide Increment, Clamp, Proportional, Feedforward;
  }

  lemma FirstSample(s: PidState, measured: real, at: int)
    requires Unsampled(s)
    ensures var (s', reply) := Exec(s, Compute(Finite(measured), at));
      var (lo, hi) := s.params.limits.Window(SteadyTerms(s.params, measured));
      && SteadyAt(s', measured, at) && s'.params == s.params
      && s'.integral == Clamp(0.0, lo, hi)
      && reply.Computed? && reply.terms.output == SteadyOutput(s', measured)
  {
    hide Proportional, Increment, Feedforward, Clamp;
    var p, e := s.params, s.params.setpoint.v - measured;
    NoIncrement(p.ki, e);
    var t := StepTerms(p, p.setpoint.v, measured, e, 0.0, s.prevError, 0.0);
    assert t.ff + t.p + t.d == SteadyTerms(p, measured);
    assert Exec(s, Compute(Finite(measured), at)).1 == Computed(t);
    WindowHolds(p.limits, 0.0, 0.0, SteadyTerms(p, measured));
  }

  lemma NothingMore(p: PidParams, measured: real, at: int)
    requires p.limits.Valid() && p.setpoint.Finite?
    ensures var (lo, hi) := p.limits.Window(SteadyTerms(p, measured));
            SampledIntegral(p, measured, at, at) == Clamp(0.0, lo, hi)
  {
    hide Increment, SteadyTerms, Settled;
    SampledThroughWindow(p, measured, at, at);
    NoIncrement(p.ki, p.setpoint.v - measured);
    WindowHolds(p.limits, 0.0, 0.0, SteadyTerms(p, measured));
  }

  lemma NoIncrement(ki: real, e: real)
    ensures Increment(ki, e, 0.0) == 0.0
  {
  }
}
