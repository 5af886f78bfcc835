/** pkg/control/control.go: limits with anti-windup, the sample clock, the filtered reference. */
module Control {
  import opened Numbers
  import opened Errors
  import opened FilterSignal

  datatype Terms = Terms(
    setpoint: real, measured: real, error: real,
    p: real, i: real, d: real, ff: real,
    output: real, feedback: real, prediction: real)

  // What the controllers are called with, and what they answer

  datatype Call<+P> =
    | Compute(measured: Number, at: int)
    | SetParams(params: P)
    | SetSetpoint(setpoint: Number)
    | Reset

  datatype Reply = Computed(terms: Terms) | Accepted | Rejected(error: Error)

  /** The replies to the calls that were not rejected. */
  function KeptReplies(replies: seq<Reply>): seq<Reply> {
    if replies == [] then []
    else (if replies[0].Rejected? then [] else [replies[0]]) + KeptReplies(replies[1..])
  }

  /** The timestamps of the finite samples of a trace. */
  function Times<P>(calls: seq<Call<P>>): seq<int> {
    if calls == [] then []
    else (if calls[0].Compute? && calls[0].measured.Finite? then [calls[0].at] else []) + Times(calls[1..])
  }

  // Limits

  datatype Limits = Limits(min: real, max: real, iClamp: real) {

    function Validate(): Option<Error> {
      if min > max then Some(InvalidLimits)
      else if iClamp < 0.0 then Some(NegativeIClamp)
      else None
    }

    predicate Valid() {
      min <= max && 0.0 <= iClamp
    }

    function Clamped(v: real): real {
      Clamp(v, min, max)
    }

    /** Where the integral may lie: within its own bound and, if possible, where the whole
        output stays within the limits. */
    function Window(otherTerms: real): (real, real) {
      var lo := Max(-iClamp, min - otherTerms);
      var hi := Min(iClamp, max - otherTerms);
      if lo > hi then (-iClamp, iClamp) else (lo, hi)
    }

    function Integrate(integral: real, delta: real, otherTerms: real): real {
      var (lo, hi) := Window(otherTerms);
      Clamp(integral + delta, lo, hi)
    }
  }

  /** Anti-windup, exactly. The integral stays within its own bound. The output is what an
      integral bounded by IClamp alone would give, so the tighter window costs this tick
      nothing. The sum before clamping is already within the limits if and only if the other
      terms leave room for the integral; otherwise the output is pinned. */
  lemma AntiWindup(l: Limits, integral: real, delta: real, other: real)
    requires l.Valid()
    ensures -l.iClamp <= l.Integrate(integral, delta, other) <= l.iClamp
    ensures l.Clamped(other + l.Integrate(integral, delta, other))
         == Clamp(other + Clamp(integral + delta, -l.iClamp, l.iClamp), l.min, l.max)
    ensures l.min <= other + l.Integrate(integral, delta, other) <= l.max
       <==> l.min - l.iClamp <= other <= l.max + l.iClamp
    ensures other < l.min - l.iClamp ==> l.Clamped(other + l.Integrate(integral, delta, other)) == l.min
    ensures other > l.max + l.iClamp ==> l.Clamped(other + l.Integrate(integral, delta, other)) == l.max
  {
  }

  /** The other terms are so far outside the limits that no integral could bring the sum back. */
  predicate Saturated(l: Limits, other: real) {
    other < l.min - l.iClamp || other > l.max + l.iClamp
  }

  /** Where the integral goes, said without a window. While the other terms alone saturate the
      output it goes on accumulating, within IClamp; otherwise it is brought to where the sum is
      within the limits. */
  function Settled(l: Limits, target: real, other: real): real {
    var bounded := Clamp(target, -l.iClamp, l.iClamp);
    if Saturated(l, other) then bounded else Clamp(bounded, l.min - other, l.max - other)
  }

  lemma IntegrateSettles(l: Limits, integral: real, delta: real, other: real)
    requires l.Valid()
    ensures l.Integrate(integral, delta, other) == Settled(l, integral + delta, other)
  {
  }

  /** Of all integrals within IClamp, and, unless the other terms saturate the output, with the sum
      within the limits, the new one is nearest to the sum of the old one and its increment. */
  lemma IntegralIsNearest(l: Limits, integral: real, delta: real, other: real, x: real)
    requires l.Valid() && -l.iClamp <= x <= l.iClamp
    requires !Saturated(l, other) ==> l.min <= other + x <= l.max
    ensures var i := l.Integrate(integral, delta, other);
      && -l.iClamp <= i <= l.iClamp
      && (!Saturated(l, other) ==> l.min <= other + i <= l.max)
      && Abs(i - (integral + delta)) <= Abs(x - (integral + delta))
  {
  }

  /** An integral after increments that are only bounded by IClamp. */
  function Accumulated(integral: real, deltas: seq<real>, iClamp: real): real
    decreases |deltas|
  {
    if deltas == [] then integral
    else Accumulated(Clamp(integral + deltas[0], -iClamp, iClamp), deltas[1..], iClamp)
  }

  /** Clamping keeps order and never widens a gap, even with crossed bounds. */
  lemma ClampIsNonExpansive(x: real, y: real, lo: real, hi: real)
    requires x <= y
    ensures Clamp(x, lo, hi) <= Clamp(y, lo, hi) <= Clamp(x, lo, hi) + (y - x)
  {
  }

  /** A lower sum of the other terms and a lower integral sum never raise the output. */
  lemma OutputIsMonotone(l: Limits, i1: real, delta1: real, other1: real, i2: real, delta2: real, other2: real)
    requires l.Valid() && other2 <= other1 && i2 + delta2 <= i1 + delta1
    ensures l.Clamped(other2 + l.Integrate(i2, delta2, other2)) <= l.Clamped(other1 + l.Integrate(i1, delta1, other1))
  {
    AntiWindup(l, i1, delta1, other1);
    AntiWindup(l, i2, delta2, other2);
  }

  // The terms of the control law

  function Proportional(kp: real, e: real): real {
    kp * e
  }

  /** What one sample adds to the integral, before it is kept in its window. */
  function Increment(ki: real, e: real, dt: real): real {
    ki * e * dt
  }

  function Derivative(kd: real, e: real, prevError: real, dt: real): real {
    if dt <= 0.0 then 0.0 else kd * (e - prevError) / dt
  }

  function Feedforward(ffGain: real, setpoint: real): real {
    if ffGain <= 0.0 then 0.0 else setpoint / ffGain
  }

  // Argument checks

  function CheckMeasurement(measured: Number): Option<Error> {
    if measured.Finite? then None else Some(InvalidMeasurement)
  }

  function CheckSetpoint(setpoint: Number): Option<Error> {
    if setpoint.Finite? then None else Some(InvalidSetpoint)
  }

  // The sample clock

  datatype ClockState = ClockState(last: int, started: bool)

  const NEW_CLOCK := ClockState(0, false)

  /** The clock after a sample taken at `at`, and the seconds elapsed since the last one. */
  function Advanced(c: ClockState, at: int): (r: Result<(ClockState, real), Error>)
    ensures r.Ok? ==> r.value.1 >= 0.0
  {
    if !c.started then Ok((ClockState(at, true), 0.0))
    else if at < c.last then Err(OutdatedMeasurement)
    else Ok((ClockState(at, true), Seconds(at - c.last)))
  }

  /** The clock after a sequence of samples, the outdated ones being rejected, and the dt of
      each accepted one. */
  function Ticked(c: ClockState, times: seq<int>): (ClockState, seq<real>)
    decreases |times|
  {
    if times == [] then (c, [])
    else match Advanced(c, times[0])
      case Err(_) => Ticked(c, times[1..])
      case Ok((c1, dt)) =>
        var (c2, dts) := Ticked(c1, times[1..]);
        (c2, [dt] + dts)
  }

  /** The accepted dt's add up to the last accepted timestamp minus the first one, or minus the
      last one accepted before the run; the clock never goes back. */
  lemma {:induction false} ElapsedTelescopes(c: ClockState, times: seq<int>)
    ensures var (c', dts) := Ticked(c, times);
      && (c'.started <==> c.started || times != [])
      && (!c'.started ==> c' == c)
      && (c'.started ==>
            var first := if c.started then c.last else times[0];
            first <= c'.last && Sum(dts) == Seconds(c'.last - first))
    decreases |times|
  {
    if times != [] {
      match Advanced(c, times[0])
      case Err(_) =>
        ElapsedTelescopes(c, times[1..]);
      case Ok((c1, dt)) =>
        ElapsedTelescopes(c1, times[1..]);
        var (c2, dts) := Ticked(c1, times[1..]);
        SumAppend([dt], dts);
        assert Sum([dt]) == dt;
    }
  }

  class SampleClock {
    var last: int
    var started: bool

    ghost function State(): ClockState
      reads this
    {
      ClockState(last, started)
    }

    constructor ()
      ensures State() == NEW_CLOCK
    {
      last, started := 0, false;
    }

    method Advance(at: int) returns (r: Result<real, Error>)
      modifies this
      ensures r.Err? ==> Advanced(old(State()), at) == Err(r.error) && State() == old(State())
      ensures r.Ok? ==> Advanced(old(State()), at) == Ok((State(), r.value))
    {
      if !started {
        last, started := at, true;
        return Ok(0.0);
      }
      if at < last {
        return Err(OutdatedMeasurement);
      }
      var dt := Seconds(at - last);
      last := at;
      return Ok(dt);
    }
  }

  // The reference: the setpoint seen through its filter

  datatype RefState = RefState(filter: SignalState, effective: real) {
    predicate Valid() {
      filter.Valid() && !filter.seedFromFirst
    }

    predicate In(lo: real, hi: real) {
      filter.In(lo, hi) && lo <= effective <= hi
    }
  }

  function NewRef(spec: Spec): (r: Result<RefState, Error>)
    ensures r.Ok? ==> r.value.Valid()
  {
    match NewState(spec, false)
    case Err(e) => Err(e)
    case Ok(f) => Ok(RefState(f, 0.0))
  }

  function NextRef(r: RefState, setpoint: real): (r': RefState)
    requires r.Valid()
    ensures r'.Valid() && r'.filter.spec == r.filter.spec
  {
    var (f, y) := Filtered(r.filter, setpoint);
    RefState(f, y)
  }

  /** A changed spec gets a new filter, seeded at the reference in effect. */
  function Retuned(r: RefState, spec: Spec): (r': Result<RefState, Error>)
    requires r.Valid()
    ensures r'.Ok? ==> r'.value.Valid()
  {
    if spec == r.filter.spec then Ok(r)
    else match NewState(spec, false)
      case Err(e) => Err(e)
      case Ok(f) => Ok(RefState(Seeded(f, r.effective), r.effective))
  }

  function ClearedRef(r: RefState): RefState {
    RefState(Cleared(r.filter), 0.0)
  }

  class Reference {
    var filter: Signal
    var effective: real

    ghost function Objects(): set<object>
      reads this
    {
      {this} + filter.Objects()
    }

    ghost predicate Valid()
      reads this, Objects()
    {
      filter.Valid() && !filter.seedFromFirst
    }

    ghost function State(): (s: RefState)
      requires Valid()
      reads this, Objects()
      ensures s.Valid()
    {
      RefState(filter.State(), effective)
    }

    /** newReference for a normalised spec, which cannot fail. */
    constructor (spec: Spec)
      requires IsNormal(spec)
      ensures Valid() && fresh(Objects())
      ensures NewRef(spec) == Ok(State())
    {
      NormalizeIsProjection(spec);
      filter := new Signal(spec, false);
      effective := 0.0;
    }

    method Next(setpoint: real) returns (y: real)
      requires Valid()
      modifies Objects()
      ensures Valid() && Objects() == old(Objects())
      ensures State() == NextRef(old(State()), setpoint)
      ensures y == State().effective
    {
      effective := filter.Filter(setpoint);
      y := effective;
    }

    method Retune(spec: Spec) returns (r: Option<Error>)
      requires Valid()
      modifies this
      ensures Valid() && fresh(Objects() - old(Objects()))
      ensures r.Some? ==> Retuned(old(State()), spec) == Err(r.value) && State() == old(State())
      ensures r.None? ==> Retuned(old(State()), spec) == Ok(State())
    {
      if spec == filter.spec {
        return None;
      }
      var f := Signal.New(spec, false);
      if f.Err? {
        return Some(f.error);
      }
      f.value.SeedState(effective);
      filter := f.value;
      return None;
    }

    method Reset()
      requires Valid()
      modifies Objects()
      ensures Valid() && Objects() == old(Objects())
      ensures State() == ClearedRef(old(State()))
    {
      filter.Reset();
      effective := 0.0;
    }
  }

  /** After Reset a reference is the one newReference would return. */
  lemma ClearedRefIsNew(r: RefState)
    requires r.Valid()
    ensures NewRef(r.filter.spec) == Ok(ClearedRef(r))
  {
    ClearedIsNew(r.filter);
  }

  /** Sample, retune and reset keep everything the reference remembers among the setpoints and 0. */
  lemma ReferenceStaysIn(r: RefState, setpoint: real, spec: Spec, lo: real, hi: real)
    requires r.Valid() && r.In(lo, hi) && lo <= setpoint <= hi && lo <= 0.0 <= hi
    ensures NextRef(r, setpoint).In(lo, hi)
    ensures Retuned(r, spec).Ok? ==> Retuned(r, spec).value.In(lo, hi)
    ensures ClearedRef(r).In(lo, hi)
  {
    FilteredStaysIn(r.filter, setpoint, lo, hi);
  }

  /** The reference after k samples at one setpoint. */
  function HeldRef(r: RefState, setpoint: real, k: nat): (r': RefState)
    requires r.Valid()
    ensures r'.Valid()
  {
    if k == 0 then r else NextRef(HeldRef(r, setpoint, k - 1), setpoint)
  }

  lemma {:induction false} HeldRefIsHeld(r: RefState, setpoint: real, k: nat)
    requires r.Valid()
    ensures HeldRef(r, setpoint, k).filter == Held(r.filter, setpoint, k)
  {
    if k > 0 {
      HeldRefIsHeld(r, setpoint, k - 1);
    }
  }

  /** Switching filters mid-run is bumpless: whatever the old filter was doing, the new one
      starts its trajectory at the reference in effect. */
  lemma RetuneStartsFromEffective(r: RefState, spec: Spec, v: real, k: nat)
    requires r.Valid() && Retuned(r, spec).Ok? && spec != r.filter.spec && k >= 1
    ensures HeldRef(Retuned(r, spec).value, v, k).effective
         == Trajectory(Normalize(spec).value, r.effective, v, k)
  {
    var r' := Retuned(r, spec).value;
    HeldRefIsHeld(r', v, k - 1);
    FollowsTrajectory(r'.filter, r.effective, v, k);
  }

  /** A new or reset reference starts its trajectory at 0. */
  lemma NewReferenceStartsFromZero(spec: Spec, v: real, k: nat)
    requires NewRef(spec).Ok? && k >= 1
    ensures HeldRef(NewRef(spec).value, v, k).effective == Trajectory(Normalize(spec).value, 0.0, v, k)
  {
    var r := NewRef(spec).value;
    HeldRefIsHeld(r, v, k - 1);
    FollowsTrajectory(r.filter, 0.0, v, k);
  }
}
