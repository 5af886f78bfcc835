/** pkg/control/filter/filter.go: the setpoint and measurement filters. */
module FilterSignal {
  import opened Numbers
  import opened Errors
  import FilterWindow

  const NONE := "none"
  const MOVING_AVERAGE := "moving_average"
  const EXPONENTIAL := "exponential"

  datatype Spec = Spec(kind: string, size: int)

  /** An empty kind means "none"; the size is at least 1. */
  function Normalize(s: Spec): Result<Spec, Error> {
    var kind := if s.kind == "" then NONE else s.kind;
    if kind != NONE && kind != MOVING_AVERAGE && kind != EXPONENTIAL then
      Err(UnknownFilter(kind))
    else
      Ok(Spec(kind, MaxInt(s.size, 1)))
  }

  predicate IsNormal(s: Spec) {
    s.kind in {NONE, MOVING_AVERAGE, EXPONENTIAL} && s.size >= 1
  }

  /** The normal specs are exactly the results of Normalize, and its fixed points. Only an empty
      kind and a size below 1 are changed, to "none" and to 1. */
  lemma NormalizeIsProjection(s: Spec)
    ensures Normalize(s).Ok? <==> s.kind in {"", NONE, MOVING_AVERAGE, EXPONENTIAL}
    ensures Normalize(s).Ok? ==> IsNormal(Normalize(s).value) && Normalize(Normalize(s).value) == Normalize(s)
    ensures IsNormal(s) <==> Normalize(s) == Ok(s)
    ensures Normalize(s).Ok? ==> Normalize(s).value.kind == if s.kind == "" then NONE else s.kind
    ensures Normalize(s).Ok? ==> Normalize(s).value.size == if s.size < 1 then 1 else s.size
  {
  }

  // A signal as a value.

  datatype SignalState =
    SignalState(spec: Spec, seedFromFirst: bool, seeded: bool, cells: seq<real>, state: real)
  {
    predicate Valid() {
      IsNormal(spec) && |cells| == spec.size
    }

    /** Every value the filter remembers is in [lo, hi]. */
    predicate In(lo: real, hi: real) {
      lo <= state <= hi && AllIn(cells, lo, hi)
    }
  }

  function NewState(spec: Spec, seedFromFirst: bool): (r: Result<SignalState, Error>)
    ensures r.Ok? ==> r.value.Valid()
  {
    match Normalize(spec)
    case Err(e) => Err(e)
    case Ok(s) => Ok(SignalState(s, seedFromFirst, false, Copies(0.0, s.size), 0.0))
  }

  /** e^(-1/size): the pole of the exponential filter. */
  function Pole(size: int): real
    requires size >= 1
  {
    ExpNeg(1.0 / size as real)
  }

  lemma PoleIsProper(size: int)
    requires size >= 1
    ensures 0.0 < Pole(size) < 1.0
  {
    assert 1.0 / size as real > 0.0;
  }

  function Smoothed(s: SignalState, x: real): real
    requires s.Valid()
  {
    Pole(s.spec.size) * s.state + (1.0 - Pole(s.spec.size)) * x
  }

  function Seeded(s: SignalState, v: real): SignalState {
    s.(state := v, seeded := true, cells := Copies(v, |s.cells|))
  }

  function Cleared(s: SignalState): SignalState {
    s.(state := 0.0, seeded := false, cells := Copies(0.0, |s.cells|))
  }

  /** The state after one sample, and the filtered sample. */
  function Filtered(s: SignalState, x: real): (r: (SignalState, real))
    requires s.Valid()
    ensures r.0.Valid() && r.0.spec == s.spec && r.0.seedFromFirst == s.seedFromFirst
  {
    if s.spec.kind == NONE then
      (s, x)
    else if s.seedFromFirst && !s.seeded then
      (Seeded(s, x), x)
    else if s.spec.kind == MOVING_AVERAGE then
      (s.(cells := FilterWindow.Pushed(s.cells, x)), FilterWindow.PushOutput(s.cells, x))
    else
      (s.(state := Smoothed(s, x), seeded := true), Smoothed(s, x))
  }

  class Signal {
    const spec: Spec
    const seedFromFirst: bool
    const window: FilterWindow.Window
    var seeded: bool
    var state: real

    ghost function Objects(): set<object> {
      {this, window, window.buf}
    }

    ghost predicate Valid()
      reads Objects()
    {
      window.Valid() && IsNormal(spec) && window.buf.Length == spec.size
    }

    ghost function State(): (s: SignalState)
      requires Valid()
      reads Objects()
      ensures s.Valid()
    {
      SignalState(spec, seedFromFirst, seeded, window.Cells(), state)
    }

    /** The signal newSignal returns for a normalised spec. */
    constructor (spec: Spec, seedFromFirst: bool)
      requires IsNormal(spec)
      ensures Valid() && fresh(Objects())
      ensures State() == NewState(spec, seedFromFirst).value
    {
      this.spec := spec;
      this.seedFromFirst := seedFromFirst;
      window := new FilterWindow.Window(spec.size);
      seeded, state := false, 0.0;
    }

    static method New(spec: Spec, seedFromFirst: bool) returns (r: Result<Signal, Error>)
      ensures r.Err? ==> NewState(spec, seedFromFirst) == Err(r.error)
      ensures r.Ok? ==> r.value.Valid() && fresh(r.value.Objects())
      ensures r.Ok? ==> NewState(spec, seedFromFirst) == Ok(r.value.State())
    {
      match Normalize(spec) {
        case Err(e) =>
          return Err(e);
        case Ok(normal) =>
          NormalizeIsProjection(spec);
          var s := new Signal(normal, seedFromFirst);
          return Ok(s);
      }
    }

    method Filter(x: real) returns (y: real)
      requires Valid()
      modifies Objects()
      ensures Valid()
      ensures (State(), y) == Filtered(old(State()), x)
    {
      if spec.kind == NONE {
        return x;
      }
      if seedFromFirst && !seeded {
        SeedState(x);
        return x;
      }
      if spec.kind == MOVING_AVERAGE {
        y := window.Push(x);
        return;
      }
      y := Smooth(x);
    }

    method Smooth(x: real) returns (y: real)
      requires Valid()
      modifies this
      ensures Valid()
      ensures y == Smoothed(old(State()), x)
      ensures State() == old(State()).(state := y, seeded := true)
    {
      var a := ExpNeg(1.0 / spec.size as real);
      state := a * state + (1.0 - a) * x;
      seeded := true;
      y := state;
    }

    /** seed(v), and the exported Seed(v). */
    method SeedState(v: real)
      requires Valid()
      modifies Objects()
      ensures Valid()
      ensures State() == Seeded(old(State()), v)
    {
      state := v;
      seeded := true;
      window.Fill(v);
    }

    method Reset()
      requires Valid()
      modifies Objects()
      ensures Valid()
      ensures State() == Cleared(old(State()))
    {
      state := 0.0;
      seeded := false;
      window.Reset();
    }
  }

  // Properties of the filters.

  /** After Reset a filter is the one its constructor would return. */
  lemma ClearedIsNew(s: SignalState)
    requires s.Valid()
    ensures NewState(s.spec, s.seedFromFirst) == Ok(Cleared(s))
  {
    NormalizeIsProjection(s.spec);
  }

  /** A measurement filter passes its first sample through and continues from it. */
  lemma FirstMeasurementSeeds(spec: Spec, x: real)
    requires IsNormal(spec) && spec.kind != NONE
    ensures var s := NewState(spec, true).value;
            Filtered(s, x) == (Seeded(s, x), x) && LevelAt(Filtered(s, x).0, x)
  {
    NormalizeIsProjection(spec);
  }

  /** Whatever the kind, the output and all that is remembered stay among the inputs. */
  lemma FilteredStaysIn(s: SignalState, x: real, lo: real, hi: real)
    requires s.Valid() && s.In(lo, hi) && lo <= x <= hi
    ensures Filtered(s, x).0.In(lo, hi)
    ensures lo <= Filtered(s, x).1 <= hi
  {
    if s.spec.kind == MOVING_AVERAGE {
      FilterWindow.PushStaysIn(s.cells, x, lo, hi);
    } else {
      PoleIsProper(s.spec.size);
      MixIn(Pole(s.spec.size), s.state, x, lo, hi);
    }
  }

  /** The state after k equal samples. */
  function Held(s: SignalState, x: real, k: nat): (r: SignalState)
    requires s.Valid()
    ensures r.Valid() && r.spec == s.spec && r.seedFromFirst == s.seedFromFirst
  {
    if k == 0 then s else Filtered(Held(s, x, k - 1), x).0
  }

  /** A signal sitting at level v: where its constructor (v == 0) and Seed(v) leave it. */
  predicate LevelAt(s: SignalState, v: real) {
    && s.Valid()
    && s.state == v
    && s.cells == Copies(v, |s.cells|)
    && (s.seedFromFirst ==> s.seeded)
  }

  lemma {:induction false} HeldCells(s: SignalState, v0: real, v: real, k: nat)
    requires LevelAt(s, v0) && s.spec.kind == MOVING_AVERAGE && s.spec.size >= 2
    ensures Held(s, v, k)
         == s.(cells := FilterWindow.Run(Copies(v0, s.spec.size), FilterWindow.Pushes(v, k)))
  {
    if k > 0 {
      HeldCells(s, v0, v, k - 1);
      assert FilterWindow.Pushes(v, k)[..k - 1] == FilterWindow.Pushes(v, k - 1);
    }
  }

  /** A moving-average filter turns a step from v0 to v into a linear ramp over N samples. */
  lemma MovingAverageRamps(s: SignalState, v0: real, v: real, k: nat)
    requires LevelAt(s, v0) && s.spec.kind == MOVING_AVERAGE && s.spec.size >= 2 && k >= 1
    ensures Filtered(Held(s, v, k - 1), v).1
         == if k < s.spec.size then FilterWindow.Ramp(v0, v, s.spec.size, k) else v
  {
    HeldCells(s, v0, v, k - 1);
    FilterWindow.StepIsLinearRamp(v0, v, s.spec.size, k);
  }

  function Power(a: real, k: nat): real {
    if k == 0 then 1.0 else a * Power(a, k - 1)
  }

  /** The first-order lag started at v0 and held at v, as a recurrence ... */
  function Lag(a: real, v0: real, v: real, k: nat): real {
    if k == 0 then v0 else a * Lag(a, v0, v, k - 1) + (1.0 - a) * v
  }

  /** ... and in closed form. */
  lemma {:induction false} LagClosedForm(a: real, v0: real, v: real, k: nat)
    ensures Lag(a, v0, v, k) == v + Power(a, k) * (v0 - v)
  {
    if k > 0 {
      LagClosedForm(a, v0, v, k - 1);
      ApproachStep(a, Power(a, k - 1), Power(a, k), Lag(a, v0, v, k - 1), v, v0 - v);
    }
  }

  lemma {:induction false} HeldIsLag(s: SignalState, v0: real, v: real, k: nat)
    requires LevelAt(s, v0) && s.spec.kind == EXPONENTIAL
    ensures Held(s, v, k).state == Lag(Pole(s.spec.size), v0, v, k)
    ensures s.seedFromFirst ==> Held(s, v, k).seeded
    ensures Filtered(Held(s, v, k), v).1 == Lag(Pole(s.spec.size), v0, v, k + 1)
  {
    if k > 0 {
      HeldIsLag(s, v0, v, k - 1);
    }
  }

  /** The k-th output of an exponential filter held at v is v + a^k (v0 - v). */
  lemma ExponentialApproach(s: SignalState, v0: real, v: real, k: nat)
    requires LevelAt(s, v0) && s.spec.kind == EXPONENTIAL && k >= 1
    ensures Filtered(Held(s, v, k - 1), v).1 == v + Power(Pole(s.spec.size), k) * (v0 - v)
  {
    hide Lag, Held, Filtered, Power, Pole;
    HeldIsLag(s, v0, v, k - 1);
    LagClosedForm(Pole(s.spec.size), v0, v, k);
  }

  lemma ApproachStep(a: real, p: real, q: real, before: real, v: real, gap: real)
    requires before == v + p * gap && q == a * p
    ensures a * before + (1.0 - a) * v == v + q * gap
  {
    assert a * before == a * v + a * (p * gap);
    assert a * (p * gap) == q * gap;
  }

  /** The k-th output of a filter that starts at level v0 and is held at v: a linear ramp over
      exactly `size` samples, a first-order lag with a time constant of `size` samples, or v. */
  function Trajectory(spec: Spec, v0: real, v: real, k: nat): real
    requires spec.size >= 1
  {
    if spec.kind == MOVING_AVERAGE && k < spec.size then
      FilterWindow.Ramp(v0, v, spec.size, k)
    else if spec.kind == EXPONENTIAL then
      v + Power(Pole(spec.size), k) * (v0 - v)
    else
      v
  }

  lemma FollowsTrajectory(s: SignalState, v0: real, v: real, k: nat)
    requires LevelAt(s, v0) && k >= 1
    ensures Filtered(Held(s, v, k - 1), v).1 == Trajectory(s.spec, v0, v, k)
  {
    hide Held, Filtered, FilterWindow.Ramp, Power, Pole;
    if s.spec.kind == EXPONENTIAL {
      ExponentialApproach(s, v0, v, k);
    } else if s.spec.kind == MOVING_AVERAGE && s.spec.size >= 2 {
      MovingAverageRamps(s, v0, v, k);
    } else {
      PassesThrough(Held(s, v, k - 1), v);
    }
  }

  /** A measurement filter of any kind passes its first sample x through, and then follows a level
      v as a filter that had been at x for ever. */
  lemma MeasurementFollowsTrajectory(spec: Spec, x: real, v: real, k: nat)
    requires IsNormal(spec) && k >= 1
    ensures var (s, y) := Filtered(NewState(spec, true).value, x);
      y == x && Filtered(Held(s, v, k - 1), v).1 == Trajectory(spec, x, v, k)
  {
    hide Held, Trajectory;
    NormalizeIsProjection(spec);
    var s := Filtered(NewState(spec, true).value, x).0;
    if spec.kind == NONE {
      PassesThrough(Held(s, v, k - 1), v);
      NoneTrajectory(spec, x, v, k);
    } else {
      FirstMeasurementSeeds(spec, x);
      FollowsTrajectory(s, x, v, k);
    }
  }

  lemma NoneTrajectory(spec: Spec, x: real, v: real, k: nat)
    requires spec.kind == NONE && spec.size >= 1
    ensures Trajectory(spec, x, v, k) == v
  {
  }

  /** Under the law of exponents k samples of an exponential filter of a given size are worth
      e^(-k/size) ... */
  lemma {:induction false} PoleCompounds(size: int, k: nat)
    requires IsExponential(ExpNeg) && size >= 1
    ensures Power(Pole(size), k) == ExpNeg(k as real / size as real)
  {
    hide IsExponential;
    if k == 0 {
      assert 0 as real / size as real == 0.0;
    } else {
      PoleCompounds(size, k - 1);
      var n, m := size as real, (k - 1) as real;
      DivideOrder(0.0, 1.0, n);
      DivideOrder(0.0, m, n);
      DivideSum(1.0, m, n);
      LawOfExponents(1.0 / n, m / n);
    }
  }

  /** ... so `size` is its time constant in samples: after exactly that many the gap is 1/e. */
  lemma SizeIsTimeConstant(s: SignalState, v0: real, v: real)
    requires IsExponential(ExpNeg) && LevelAt(s, v0) && s.spec.kind == EXPONENTIAL
    ensures Filtered(Held(s, v, s.spec.size - 1), v).1 == v + ExpNeg(1.0) * (v0 - v)
  {
    hide Filtered, Held, Power, Pole, IsExponential;
    ExponentialApproach(s, v0, v, s.spec.size);
    PoleCompounds(s.spec.size, s.spec.size);
    DivideBack(1.0, s.spec.size as real);
    assert 1.0 * s.spec.size as real == s.spec.size as real;
  }

  lemma PassesThrough(s: SignalState, x: real)
    requires s.Valid() && s.spec.kind != EXPONENTIAL
    requires s.spec.kind == MOVING_AVERAGE ==> s.spec.size == 1
    ensures Filtered(s, x).1 == x
  {
  }

  /** Each step of an exponential filter moves strictly towards v without reaching it. */
  lemma ExponentialIsMonotone(s: SignalState, v: real)
    requires s.Valid() && s.spec.kind == EXPONENTIAL && (s.seedFromFirst ==> s.seeded)
    ensures s.state < v ==> s.state < Filtered(s, v).1 < v
    ensures s.state > v ==> s.state > Filtered(s, v).1 > v
    ensures s.state == v ==> Filtered(s, v).1 == v
  {
    PoleIsProper(s.spec.size);
    if s.state < v {
      StepTowards(Pole(s.spec.size), s.state, v);
    } else if s.state > v {
      StepTowards(Pole(s.spec.size), -s.state, -v);
      assert Smoothed(s, v) == -(Pole(s.spec.size) * -s.state + (1.0 - Pole(s.spec.size)) * -v);
    }
  }

  lemma StepTowards(a: real, x: real, y: real)
    requires 0.0 < a < 1.0 && x < y
    ensures x < a * x + (1.0 - a) * y < y
  {
    WeightedBetween(a, 1.0 - a, x, y);
  }

  lemma WeightedBetween(a: real, b: real, x: real, y: real)
    requires 0.0 < a && 0.0 < b && a + b == 1.0 && x < y
    ensures x < a * x + b * y < y
  {
    var gap := y - x;
    assert a * gap > 0.0 && b * gap > 0.0;
    assert a * x + b * y == x + b * gap;
    assert a * x + b * y == y - a * gap;
  }
}
