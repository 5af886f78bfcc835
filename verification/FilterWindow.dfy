/** pkg/control/filter/window.go: the circular moving-average window with a running sum. */
module FilterWindow {
  import opened Numbers

  // The window as a plain sequence, oldest cell first.

  function Pushed(cells: seq<real>, x: real): (r: seq<real>)
    ensures |r| == |cells|
  {
    if |cells| <= 1 then cells else cells[1..] + [x]
  }

  function PushOutput(cells: seq<real>, x: real): real {
    if |cells| <= 1 then x else Sum(Pushed(cells, x)) / |cells| as real
  }

  class Window {
    const buf: array<real>
    var idx: nat
    var n: nat
    var sum: real

    ghost predicate Valid()
      reads this, buf
    {
      && 1 <= buf.Length
      && idx < buf.Length
      && n <= buf.Length
      && (n < buf.Length ==> idx == n && forall i :: n <= i < buf.Length ==> buf[i] == 0.0)
      && sum == Sum(buf[..])
    }

    ghost function Cells(): (s: seq<real>)
      requires Valid()
      reads this, buf
      ensures |s| == buf.Length
    {
      buf[idx..] + buf[..idx]
    }

    lemma CellsSum()
      requires Valid()
      ensures Sum(Cells()) == sum
    {
      SumAppend(buf[idx..], buf[..idx]);
      SumAppend(buf[..idx], buf[idx..]);
      assert buf[..idx] + buf[idx..] == buf[..];
    }

    constructor (size: int)
      ensures Valid() && fresh(buf)
      ensures Cells() == Copies(0.0, MaxInt(size, 1))
    {
      buf := new real[MaxInt(size, 1)](_ => 0.0);
      idx, n, sum := 0, 0, 0.0;
      new;
      assert buf[..] == Copies(0.0, buf.Length);
      SumCopies(0.0, buf.Length);
    }

    method Push(x: real) returns (mean: real)
      requires Valid()
      modifies this, buf
      ensures Valid()
      ensures Cells() == Pushed(old(Cells()), x)
      ensures mean == PushOutput(old(Cells()), x)
    {
      var size := buf.Length;
      if size <= 1 {
        return x;
      }
      ghost var was := buf[..];
      SumUpdate(was, idx, x);
      RingStep(was, idx, x);
      if n == size {
        sum := sum - buf[idx];
      } else {
        n := n + 1;
      }
      buf[idx] := x;
      sum := sum + x;
      idx := (idx + 1) % size;
      assert buf[..] == was[old(idx) := x];
      CellsSum();
      mean := sum / size as real;
    }

    method Fill(v: real)
      requires Valid()
      modifies this, buf
      ensures Valid()
      ensures Cells() == Copies(v, buf.Length)
    {
      n := buf.Length;
      sum := v * buf.Length as real;
      idx := 0;
      for i := 0 to buf.Length
        invariant forall j :: 0 <= j < i ==> buf[j] == v
        invariant n == buf.Length && idx == 0 && sum == v * buf.Length as real
      {
        buf[i] := v;
      }
      assert buf[..] == Copies(v, buf.Length);
      SumCopies(v, buf.Length);
    }

    method Reset()
      requires Valid()
      modifies this, buf
      ensures Valid()
      ensures Cells() == Copies(0.0, buf.Length)
    {
      idx, n, sum := 0, 0, 0.0;
      forall i | 0 <= i < buf.Length {
        buf[i] := 0.0;
      }
      assert buf[..] == Copies(0.0, buf.Length);
      SumCopies(0.0, buf.Length);
    }
  }

  // What the window means over whole histories.

  datatype Op = Push(x: real) | Fill(v: real) | Reset

  function Apply(cells: seq<real>, op: Op): (r: seq<real>)
    ensures |r| == |cells|
  {
    match op
    case Push(x) => Pushed(cells, x)
    case Fill(v) => Copies(v, |cells|)
    case Reset => Copies(0.0, |cells|)
  }

  function Run(cells: seq<real>, ops: seq<Op>): (r: seq<real>)
    ensures |r| == |cells|
  {
    if ops == [] then cells else Apply(Run(cells, ops[..|ops| - 1]), ops[|ops| - 1])
  }

  /** The signal a fresh window has seen: an endless past at the last fill value (0 when
      fresh or reset), of which `size` samples are kept, then the values pushed since. */
  function Signal(size: nat, ops: seq<Op>): (s: seq<real>)
    ensures |s| >= size
  {
    if ops == [] then Copies(0.0, size)
    else match ops[|ops| - 1]
      case Push(x) => Signal(size, ops[..|ops| - 1]) + [x]
      case Fill(v) => Copies(v, size)
      case Reset => Copies(0.0, size)
  }

  lemma LastOfAppend(s: seq<real>, x: real, size: nat)
    requires 1 <= size <= |s|
    ensures Last(s + [x], size) == Last(s, size)[1..] + [x]
  {
  }

  /** The cells are always the last `size` samples of the signal ... */
  lemma {:induction false} CellsAreLastSamples(size: nat, ops: seq<Op>)
    requires size >= 2
    ensures Run(Copies(0.0, size), ops) == Last(Signal(size, ops), size)
  {
    if ops != [] {
      var before := ops[..|ops| - 1];
      CellsAreLastSamples(size, before);
      if ops[|ops| - 1].Push? {
        LastOfAppend(Signal(size, before), ops[|ops| - 1].x, size);
      }
    }
  }

  /** ... and a push returns the mean of the last `size` samples, the pushed one included. */
  lemma PushReturnsMean(size: nat, ops: seq<Op>, x: real)
    requires size >= 2
    ensures PushOutput(Run(Copies(0.0, size), ops), x)
         == Sum(Last(Signal(size, ops + [Push(x)]), size)) / size as real
  {
    CellsAreLastSamples(size, ops);
    LastOfAppend(Signal(size, ops), x, size);
    assert (ops + [Push(x)])[..|ops|] == ops;
  }

  function Pushes(x: real, k: nat): (ops: seq<Op>)
    ensures |ops| == k
  {
    seq(k, _ => Push(x))
  }

  /** A window that was level at v0, after k samples at v. */
  function StepWindow(v0: real, v: real, size: nat, k: nat): (s: seq<real>)
    ensures |s| == size
  {
    if k <= size then Copies(v0, size - k) + Copies(v, k) else Copies(v, size)
  }

  lemma StepPush(v0: real, v: real, size: nat, k: nat)
    requires size >= 2
    ensures Pushed(StepWindow(v0, v, size, k), v) == StepWindow(v0, v, size, k + 1)
  {
  }

  lemma {:induction false} StepCells(v0: real, v: real, size: nat, k: nat)
    requires size >= 2
    ensures Run(Copies(v0, size), Pushes(v, k)) == StepWindow(v0, v, size, k)
  {
    hide Pushed;
    if k > 0 {
      StepCells(v0, v, size, k - 1);
      assert Pushes(v, k)[..k - 1] == Pushes(v, k - 1);
      StepPush(v0, v, size, k - 1);
    }
  }

  /** The point k/size of the way from v0 to v. */
  function Ramp(v0: real, v: real, size: nat, k: nat): real
    requires size > 0
  {
    v0 + k as real * (v - v0) / size as real
  }

  /** A step from level v0 to v is a linear ramp that completes in exactly `size` samples. */
  lemma StepIsLinearRamp(v0: real, v: real, size: nat, k: nat)
    requires size >= 2 && k >= 1
    ensures PushOutput(Run(Copies(v0, size), Pushes(v, k - 1)), v)
         == if k < size then Ramp(v0, v, size, k) else v
  {
    hide Run, StepWindow, Sum, Ramp;
    StepCells(v0, v, size, k - 1);
    StepPush(v0, v, size, k - 1);
    StepMean(v0, v, size, k);
  }

  lemma StepMean(v0: real, v: real, size: nat, k: nat)
    requires size >= 1
    ensures Sum(StepWindow(v0, v, size, k)) / size as real == if k < size then Ramp(v0, v, size, k) else v
  {
    hide Sum, Ramp;
    assert Copies(v0, 0) + Copies(v, size) == Copies(v, size);
    if k < size {
      RampMean(v0, v, size, k);
    } else {
      LevelMean(v, size);
    }
  }

  lemma LevelMean(v: real, size: nat)
    requires size >= 1
    ensures Sum(Copies(v, size)) / size as real == v
  {
    SumCopies(v, size);
    DivideBack(v, size as real);
  }

  lemma RampTotal(v0: real, v: real, rest: nat, k: nat)
    ensures Sum(Copies(v0, rest) + Copies(v, k)) == v0 * rest as real + v * k as real
  {
    SumAppend(Copies(v0, rest), Copies(v, k));
    SumCopies(v0, rest);
    SumCopies(v, k);
  }

  lemma RampMean(v0: real, v: real, size: nat, k: nat)
    requires size >= 1 && k <= size
    ensures Sum(Copies(v0, size - k) + Copies(v, k)) / size as real == Ramp(v0, v, size, k)
  {
    hide Sum, Copies;
    var total := Sum(Copies(v0, size - k) + Copies(v, k));
    RampTotal(v0, v, size - k, k);
    RampArithmetic(v0, v, size as real, k as real, (size - k) as real, total);
  }

  lemma RampArithmetic(v0: real, v: real, n: real, m: real, rest: real, total: real)
    requires n > 0.0 && rest == n - m && total == v0 * rest + v * m
    ensures total / n == v0 + m * (v - v0) / n
  {
    assert total == v0 * n + m * (v - v0);
    DivideSum(v0 * n, m * (v - v0), n);
    DivideBack(v0, n);
  }

  /** A push keeps the cells and the mean inside any interval that holds the cells and x. */
  lemma PushStaysIn(cells: seq<real>, x: real, lo: real, hi: real)
    requires AllIn(cells, lo, hi) && lo <= x <= hi
    ensures AllIn(Pushed(cells, x), lo, hi)
    ensures lo <= PushOutput(cells, x) <= hi
  {
    if |cells| > 1 {
      SumIn(Pushed(cells, x), lo, hi);
    }
  }
}
