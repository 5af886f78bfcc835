/** pkg/control/model.go: the first-order model with dead time inside the Smith predictor. */
module Predictor {
  import opened Numbers
  import opened Errors

  datatype Model = Model(k: Number, tau: Number, theta: Number) {

    function Validate(sampleSeconds: Number): Option<Error> {
      if ValidFor(sampleSeconds) then None else Some(InvalidModel)
    }

    predicate ValidFor(sampleSeconds: Number) {
      && k.Finite? && tau.Finite? && theta.Finite? && sampleSeconds.Finite?
      && tau.v > 0.0 && sampleSeconds.v > 0.0 && theta.v >= 0.0
    }

    /** The dead time as a whole number of samples. */
    function DelaySamples(sampleSeconds: Number): nat
      requires ValidFor(sampleSeconds)
    {
      MaxInt(Round(theta.v / sampleSeconds.v), 0)
    }
  }

  /** The delay is the whole number of samples nearest to the dead time. */
  lemma DelayIsNearest(m: Model, sampleSeconds: Number)
    requires m.ValidFor(sampleSeconds)
    ensures var d := m.DelaySamples(sampleSeconds) as real;
      (d - 0.5) * sampleSeconds.v <= m.theta.v < (d + 0.5) * sampleSeconds.v
  {
    var ratio, s, d := m.theta.v / sampleSeconds.v, sampleSeconds.v, m.DelaySamples(sampleSeconds) as real;
    assert ratio >= 0.0 && ratio * s == m.theta.v;
    assert d - 0.5 <= ratio < d + 0.5;
    NearestArithmetic(d, ratio, s, m.theta.v);
  }

  lemma NearestArithmetic(d: real, x: real, s: real, theta: real)
    requires d - 0.5 <= x < d + 0.5 && s > 0.0 && x * s == theta
    ensures (d - 0.5) * s <= theta < (d + 0.5) * s
  {
    var below, above := x - (d - 0.5), d + 0.5 - x;
    assert below * s >= 0.0 && above * s > 0.0;
    assert below * s == x * s - (d - 0.5) * s && above * s == (d + 0.5) * s - x * s;
  }

  /** A first-order process of gain k, dt seconds further under a held input u. */
  function FirstOrder(k: real, tau: real, y: real, u: real, dt: real): real
    requires tau > 0.0
  {
    var a := ExpNeg(dt / tau);
    a * y + k * (1.0 - a) * u
  }

  /** Over no time nothing changes. Over dt seconds the gap to the gain times the input shrinks by
      exactly e^(-dt/tau). */
  lemma FirstOrderGap(k: real, tau: real, y: real, u: real, dt: real)
    requires tau > 0.0
    ensures FirstOrder(k, tau, y, u, 0.0) == y
    ensures FirstOrder(k, tau, y, u, dt) - k * u == ExpNeg(dt / tau) * (y - k * u)
  {
    var a, target := ExpNeg(dt / tau), k * u;
    assert 0.0 / tau == 0.0;
    GainTimesInput(ExpNeg(0.0 / tau), k, u, target);
    GainTimesInput(a, k, u, target);
    MixGap(a, y, target);
  }

  lemma MixGap(a: real, y: real, target: real)
    ensures a * y + (1.0 - a) * target - target == a * (y - target)
  {
  }

  /** The process after a sequence of time steps under one held input. */
  function HeldOutput(k: real, tau: real, y: real, u: real, dts: seq<real>): real
    requires tau > 0.0
    decreases |dts|
  {
    if dts == [] then y else HeldOutput(k, tau, FirstOrder(k, tau, y, u, dts[0]), u, dts[1..])
  }

  /** Under a held input the process follows the exponential response to it: only the total time
      counts, however it is split into steps. */
  lemma {:induction false} HeldInputResponse(k: real, tau: real, y: real, u: real, dts: seq<real>)
    requires IsExponential(ExpNeg) && tau > 0.0 && forall i :: 0 <= i < |dts| ==> dts[i] >= 0.0
    ensures Sum(dts) >= 0.0
    ensures HeldOutput(k, tau, y, u, dts) == k * u + ExpNeg(Sum(dts) / tau) * (y - k * u)
    decreases |dts|
  {
    hide FirstOrder, IsExponential;
    if dts == [] {
      assert 0.0 / tau == 0.0;
    } else {
      var y1, dt, rest := FirstOrder(k, tau, y, u, dts[0]), dts[0], Sum(dts[1..]);
      HeldInputResponse(k, tau, y1, u, dts[1..]);
      FirstOrderGap(k, tau, y, u, dt);
      ResponsesCompose(tau, dt, rest, y - k * u, y1 - k * u);
    }
  }

  lemma ResponsesCompose(tau: real, dt: real, rest: real, gap: real, gap1: real)
    requires IsExponential(ExpNeg) && tau > 0.0 && dt >= 0.0 && rest >= 0.0
    requires gap1 == ExpNeg(dt / tau) * gap
    ensures ExpNeg(rest / tau) * gap1 == ExpNeg((dt + rest) / tau) * gap
  {
    hide IsExponential;
    DivideOrder(0.0, dt, tau);
    DivideOrder(0.0, rest, tau);
    DivideSum(rest, dt, tau);
    assert dt + rest == rest + dt;
    LawOfExponents(rest / tau, dt / tau);
    var a, b, c := ExpNeg(rest / tau), ExpNeg(dt / tau), ExpNeg((dt + rest) / tau);
    TimesGap(a, b, c, gap, gap1);
  }

  lemma TimesGap(a: real, b: real, c: real, gap: real, gap1: real)
    requires c == a * b && gap1 == b * gap
    ensures a * gap1 == c * gap
  {
  }

  /** The process stays wherever its output and its gain times its input are. */
  lemma FirstOrderStaysIn(k: real, tau: real, y: real, u: real, dt: real, lo: real, hi: real)
    requires tau > 0.0 && dt >= 0.0 && lo <= y <= hi && lo <= k * u <= hi
    ensures lo <= FirstOrder(k, tau, y, u, dt) <= hi
  {
    assert dt / tau >= 0.0;
    var a, target := ExpNeg(dt / tau), k * u;
    MixIn(a, y, target, lo, hi);
    GainTimesInput(a, k, u, target);
  }

  lemma GainTimesInput(a: real, k: real, u: real, target: real)
    requires target == k * u
    ensures k * (1.0 - a) * u == (1.0 - a) * target
  {
  }

  // The predictor as a value; the delay line is a sequence, oldest output first.

  datatype PredictorState = PredictorState(model: Model, output: real, held: real, line: seq<real>) {
    predicate In(lo: real, hi: real) {
      lo <= output <= hi && AllIn(line, lo, hi)
    }
  }

  function NewPredictor(m: Model, sampleSeconds: Number): PredictorState
    requires m.ValidFor(sampleSeconds)
  {
    PredictorState(m, 0.0, 0.0, Copies(0.0, m.DelaySamples(sampleSeconds)))
  }

  /** The delay line after the output y, and the output that leaves it. */
  function Delayed(line: seq<real>, y: real): (r: (seq<real>, real))
    ensures |r.0| == |line|
  {
    if line == [] then ([], y) else (line[1..] + [y], line[0])
  }

  /** The predictor dt seconds later; `output` is its output now, the second value its delayed output. */
  function AdvancedBy(p: PredictorState, dt: real): (PredictorState, real)
    requires p.model.k.Finite? && p.model.tau.Finite? && p.model.tau.v > 0.0
  {
    var y := FirstOrder(p.model.k.v, p.model.tau.v, p.output, p.held, dt);
    var (line, delayed) := Delayed(p.line, y);
    (p.(output := y, line := line), delayed)
  }

  class DelayPredictor {
    var model: Model
    var output: real
    var held: real
    const delay: array<real>
    var head: nat

    ghost function Objects(): set<object> {
      {this, delay}
    }

    ghost predicate Valid()
      reads Objects()
    {
      && (if delay.Length == 0 then head == 0 else head < delay.Length)
      && model.k.Finite? && model.tau.Finite? && model.tau.v > 0.0
    }

    ghost function State(): PredictorState
      requires Valid()
      reads Objects()
    {
      PredictorState(model, output, held, delay[head..] + delay[..head])
    }

    constructor (m: Model, sampleSeconds: Number)
      requires m.ValidFor(sampleSeconds)
      ensures Valid() && fresh(Objects())
      ensures State() == NewPredictor(m, sampleSeconds)
    {
      model := m;
      output, held, head := 0.0, 0.0, 0;
      delay := new real[m.DelaySamples(sampleSeconds)](_ => 0.0);
    }

    method Advance(dt: real) returns (now: real, delayed: real)
      requires Valid()
      modifies Objects()
      ensures Valid()
      ensures (State(), delayed) == AdvancedBy(old(State()), dt)
      ensures now == State().output
    {
      output := FirstOrder(model.k.v, model.tau.v, output, held, dt);
      now := output;
      delayed := Push(output);
    }

    method Push(y: real) returns (delayed: real)
      requires Valid()
      modifies `head, delay
      ensures Valid()
      ensures (State().line, delayed) == Delayed(old(State().line), y)
    {
      if delay.Length == 0 {
        return y;
      }
      ghost var was := delay[..];
      RingStep(was, head, y);
      delayed := delay[head];
      delay[head] := y;
      assert delay[..] == was[head := y];
      head := (head + 1) % delay.Length;
    }

    method Hold(u: real)
      requires Valid()
      modifies `held
      ensures Valid() && State() == old(State()).(held := u)
    {
      held := u;
    }
  }

  // The delay line over whole histories.

  /** The line after a history of outputs, and what left it. */
  function Pushed(line: seq<real>, ys: seq<real>): (r: (seq<real>, seq<real>))
    ensures |r.0| == |line| && |r.1| == |ys|
  {
    if ys == [] then (line, [])
    else
      var (before, out) := Pushed(line, ys[..|ys| - 1]);
      var (after, y) := Delayed(before, ys[|ys| - 1]);
      (after, out + [y])
  }

  /** A line of length d, initially all zeros, holds the last d outputs, and what leaves it is
      the output of exactly d pushes earlier, or 0 before that. */
  lemma {:induction false} DelayIsExact(d: nat, ys: seq<real>)
    ensures Pushed(Copies(0.0, d), ys).0 == Last(Copies(0.0, d) + ys, d)
    ensures forall i :: 0 <= i < |ys| ==> Pushed(Copies(0.0, d), ys).1[i] == if i < d then 0.0 else ys[i - d]
  {
    if ys != [] {
      var before, y := ys[..|ys| - 1], ys[|ys| - 1];
      DelayIsExact(d, before);
      assert before + [y] == ys;
      assert Copies(0.0, d) + ys == (Copies(0.0, d) + before) + [y];
    } else {
      assert Copies(0.0, d) + ys == Copies(0.0, d);
    }
  }

  /** One step of the same fact: what a line that holds the last d outputs releases. */
  lemma DelayStep(d: nat, past: seq<real>, y: real)
    ensures Delayed(Last(Copies(0.0, d) + past, d), y)
         == (Last(Copies(0.0, d) + (past + [y]), d), if |past| < d then 0.0 else (past + [y])[|past| - d])
  {
    var all := Copies(0.0, d) + past;
    assert Copies(0.0, d) + (past + [y]) == all + [y];
    if d > 0 {
      assert Last(all, d)[0] == all[|past|];
      assert Last(all + [y], d) == Last(all, d)[1..] + [y];
    }
  }
}
