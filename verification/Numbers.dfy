/**
  The arithmetic the controllers are written in. A `float64` the source checks for
  finiteness is a `Number`; every other `float64` is a `real`, so rounding and the
  propagation of NaN through sums and products are not modelled.
 */
module Numbers {

  datatype Option<+T> = None | Some(value: T)

  datatype Result<+T, +E> = Ok(value: T) | Err(error: E)

  /** A `float64` as the argument checks see it: a value, or one of NaN, +Inf, -Inf. */
  datatype Number = Finite(v: real) | NonFinite

  function Min(a: real, b: real): real {
    if a <= b then a else b
  }

  function Max(a: real, b: real): real {
    if a >= b then a else b
  }

  function MaxInt(a: int, b: int): int {
    if a >= b then a else b
  }

  /** clamp(v, lo, hi) of control.go: note that `lo` wins when the bounds cross. */
  function Clamp(v: real, lo: real, hi: real): real {
    Max(lo, Min(hi, v))
  }

  function Abs(x: real): real {
    if x >= 0.0 then x else -x
  }

  /** With bounds in order, clamping gives the point between them nearest to v; otherwise `lo`. */
  lemma ClampIsNearest(v: real, lo: real, hi: real, x: real)
    ensures lo <= hi ==> lo <= Clamp(v, lo, hi) <= hi
    ensures lo <= x <= hi ==> Abs(Clamp(v, lo, hi) - v) <= Abs(x - v)
    ensures lo > hi ==> Clamp(v, lo, hi) == lo
  {
  }

  /** math.Round: to the nearest integer, halves away from zero. */
  function Round(x: real): int {
    if x >= 0.0 then (x + 0.5).Floor else -((0.5 - x).Floor)
  }

  /** Within a half of x; a half goes away from zero; the same on both sides of zero. */
  lemma RoundIsNearest(x: real)
    ensures Abs(Round(x) as real - x) <= 0.5
    ensures Abs(Round(x) as real - x) == 0.5 ==> Abs(Round(x) as real) > Abs(x)
    ensures Round(-x) == -Round(x)
  {
  }

  /** A difference of two timestamps in nanoseconds, as seconds. */
  function Seconds(nanoseconds: int): real {
    nanoseconds as real / 1000000000.0
  }

  /** What the proofs use of x => e^(-x); any function with these facts will do. */
  ghost predicate IsDecay(f: real -> real) {
    && f(0.0) == 1.0
    && (forall x: real :: x >= 0.0 ==> 0.0 < f(x) <= 1.0)
    && (forall x: real :: x > 0.0 ==> f(x) < 1.0)
  }

  function Hyperbola(x: real): real {
    if x <= 0.0 then 1.0 else 1.0 / (1.0 + x)
  }

  lemma HyperbolaDecays()
    ensures IsDecay(Hyperbola)
  {
  }

  /** The hyperbola only shows that such functions exist. */
  type Decay = f: real -> real | IsDecay(f) witness (HyperbolaDecays(); Hyperbola)

  /** math.Exp(-x). No value is given: the theorems hold for every decay function. */
  const ExpNeg: Decay

  /** The law of exponents, for the theorems that need more of the decay than its shape. */
  ghost predicate IsExponential(f: real -> real) {
    forall a, b :: a >= 0.0 && b >= 0.0 ==> f(a + b) == f(a) * f(b)
  }

  lemma LawOfExponents(a: real, b: real)
    requires IsExponential(ExpNeg) && a >= 0.0 && b >= 0.0
    ensures ExpNeg(a + b) == ExpNeg(a) * ExpNeg(b)
  {
  }

  function Sum(s: seq<real>): real {
    if s == [] then 0.0 else s[0] + Sum(s[1..])
  }

  lemma {:induction false} SumAppend(a: seq<real>, b: seq<real>)
    ensures Sum(a + b) == Sum(a) + Sum(b)
  {
    if a == [] {
      assert a + b == b;
    } else {
      assert (a + b)[1..] == a[1..] + b;
      SumAppend(a[1..], b);
    }
  }

  lemma {:induction false} SumUpdate(s: seq<real>, i: nat, x: real)
    requires i < |s|
    ensures Sum(s[i := x]) == Sum(s) - s[i] + x
  {
    if i == 0 {
      assert s[i := x][1..] == s[1..];
    } else {
      assert s[i := x][1..] == s[1..][i - 1 := x];
      SumUpdate(s[1..], i - 1, x);
    }
  }

  function Copies(v: real, n: nat): (s: seq<real>)
    ensures |s| == n && forall i :: 0 <= i < n ==> s[i] == v
  {
    seq(n, _ => v)
  }

  lemma {:induction false} SumCopies(v: real, n: nat)
    ensures Sum(Copies(v, n)) == v * n as real
  {
    if n > 0 {
      assert Copies(v, n)[1..] == Copies(v, n - 1);
      SumCopies(v, n - 1);
    }
  }

  /** The last `n` elements of `s`. */
  function Last<T>(s: seq<T>, n: nat): seq<T>
    requires n <= |s|
  {
    s[|s| - n..]
  }

  /** Overwriting the oldest cell of a ring and stepping past it drops that cell and appends x. */
  lemma RingStep(s: seq<real>, i: nat, x: real)
    requires i < |s|
    ensures var t, next := s[i := x], (i + 1) % |s|;
            && next == (if i + 1 == |s| then 0 else i + 1)
            && t[next..] + t[..next] == (s[i..] + s[..i])[1..] + [x]
  {
    if i + 1 < |s| {
      assert (i + 1) % |s| == i + 1;
      var t := s[i := x];
      assert t[i + 1..] == s[i + 1..] && t[..i + 1] == s[..i] + [x];
      assert (s[i..] + s[..i])[1..] == s[i + 1..] + s[..i];
    } else {
      assert (i + 1) % |s| == 0;
      assert (s[i..] + s[..i])[1..] == s[..i];
    }
  }

  predicate AllIn(s: seq<real>, lo: real, hi: real) {
    forall i :: 0 <= i < |s| ==> lo <= s[i] <= hi
  }

  lemma {:induction false} SumIn(s: seq<real>, lo: real, hi: real)
    requires AllIn(s, lo, hi)
    ensures lo * |s| as real <= Sum(s) <= hi * |s| as real
  {
    if s != [] {
      SumIn(s[1..], lo, hi);
    }
  }

  lemma MulOrder(a: real, x: real, y: real)
    requires a >= 0.0 && x <= y
    ensures a * x <= a * y
  {
  }

  lemma MulReverse(a: real, x: real, y: real)
    requires a <= 0.0 && x <= y
    ensures a * y <= a * x
  {
    var gap := y - x;
    assert a * gap <= 0.0;
    assert a * y == a * x + a * gap;
  }

  lemma MulSign(a: real, x: real)
    requires a >= 0.0 && x >= 0.0
    ensures a * x >= 0.0
  {
  }

  lemma DivideOrder(x: real, y: real, d: real)
    requires d > 0.0 && x <= y
    ensures x / d <= y / d
  {
  }

  lemma DivideSum(x: real, y: real, d: real)
    requires d != 0.0
    ensures (x + y) / d == x / d + y / d
  {
  }

  lemma DivideBack(v: real, d: real)
    requires d != 0.0
    ensures v * d / d == v
  {
  }

  lemma WeightedIn(a: real, b: real, x: real, y: real, lo: real, hi: real)
    requires 0.0 <= a && 0.0 <= b && a + b == 1.0
    requires lo <= x <= hi && lo <= y <= hi
    ensures lo <= a * x + b * y <= hi
  {
    assert a * x == a * (x - lo) + a * lo == a * hi - a * (hi - x);
    assert b * y == b * (y - lo) + b * lo == b * hi - b * (hi - y);
    assert a * lo + b * lo == (a + b) * lo && a * hi + b * hi == (a + b) * hi;
    MulSign(a, x - lo);
    MulSign(a, hi - x);
    MulSign(b, y - lo);
    MulSign(b, hi - y);
  }

  /** a*x + (1-a)*y lies wherever both x and y lie. */
  lemma MixIn(a: real, x: real, y: real, lo: real, hi: real)
    requires 0.0 <= a <= 1.0 && lo <= x <= hi && lo <= y <= hi
    ensures lo <= a * x + (1.0 - a) * y <= hi
  {
    WeightedIn(a, 1.0 - a, x, y, lo, hi);
  }
}
