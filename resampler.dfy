/** The series resampler of `update_plot` (script.py and
    archive/script_v4.py): which entries of `plot_data` are drawn, with which
    stride, and where each one sits on the x axis. Both versions emit the same
    index pattern for a given stride; they differ in how the stride is chosen. */
module Resampler {
  import opened Common

  /** Python's `range(start, stop, step)` for a positive step. */
  function Range(start: nat, stop: nat, step: nat): (r: seq<nat>)
    requires step >= 1
    ensures forall k :: 0 <= k < |r| ==> start <= r[k] < stop
    decreases stop - start
  {
    if start >= stop then [] else [start] + Range(start + step, stop, step)
  }

  /** One step of a loop over `range(start, stop, step)`: the visited prefix
      grows by the current element. */
  lemma RangeAdvance(start: nat, stop: nat, step: nat, done: seq<nat>, i: nat)
    requires step >= 1 && i < stop
    requires Range(start, stop, step) == done + Range(i, stop, step)
    ensures Range(start, stop, step) == (done + [i]) + Range(i + step, stop, step)
  {
    assert Range(i, stop, step) == [i] + Range(i + step, stop, step);
    assert done + ([i] + Range(i + step, stop, step)) == (done + [i]) + Range(i + step, stop, step);
  }

  // --- Division facts the proofs below rely on. ---

  lemma ModOfSmall(x: int, s: int)
    requires 0 <= x < s
    ensures x % s == x && x / s == 0
  {
  }

  lemma MulMono(a: int, b: int, s: int)
    requires s >= 0
    ensures a <= b ==> a * s <= b * s
  {
    if a <= b {
      var d := b - a;
      assert b * s == a * s + d * s;
    }
  }

  lemma MulSucc(a: int, s: int)
    ensures (a + 1) * s == a * s + s
  {
  }

  lemma DivUnique(x: int, s: int, q: int, m: int)
    requires s >= 1 && 0 <= m < s && x == q * s + m
    ensures x / s == q && x % s == m
  {
    var q', m' := x / s, x % s;
    assert x == q' * s + m';
    MulMono(q' + 1, q, s);
    MulMono(q + 1, q', s);
    MulSucc(q', s);
    MulSucc(q, s);
  }

  lemma ModStep(x: int, s: int)
    requires s >= 1 && x >= s
    ensures (x - s) % s == x % s && (x - s) / s + 1 == x / s
  {
    var q, m := (x - s) / s, (x - s) % s;
    assert x - s == q * s + m;
    MulSucc(q, s);
    DivUnique(x, s, q + 1, m);
  }

  lemma DivMonotone(x: int, y: int, d: int)
    requires 0 <= x <= y && d >= 1
    ensures x / d <= y / d
  {
    var qx, qy := x / d, y / d;
    assert x == qx * d + x % d && y == qy * d + y % d;
    MulMono(qy + 1, qx, d);
    MulSucc(qy, d);
  }

  lemma DivLowerBound(n: int, d: int, c: int)
    requires d >= 1 && c >= 0 && n >= c * d
    ensures n / d >= c
  {
    DivUnique(c * d, d, c, 0);
    DivMonotone(c * d, n, d);
  }

  /** The elements of `range(start, stop, step)` are exactly the numbers from
      `start` below `stop` that are `start` plus a multiple of `step`. */
  lemma {:induction false} RangeMembers(start: nat, stop: nat, step: nat, i: int)
    requires step >= 1
    ensures i in Range(start, stop, step) <==> start <= i < stop && (i - start) % step == 0
    decreases stop - start
  {
    if start < stop {
      var rest := Range(start + step, stop, step);
      assert Range(start, stop, step) == [start] + rest;
      RangeMembers(start + step, stop, step, i);
      if i >= start + step {
        ModStep(i - start, step);
        assert (i - (start + step)) % step == (i - start) % step;
      } else {
        assert i !in rest;
        if start <= i { ModOfSmall(i - start, step); }
      }
    }
  }

  predicate StrictlyIncreasing(s: seq<int>) {
    forall j, k :: 0 <= j < k < |s| ==> s[j] < s[k]
  }

  /** `range` with a positive step is strictly increasing. */
  lemma {:induction false} RangeIncreasing(start: nat, stop: nat, step: nat)
    requires step >= 1
    ensures StrictlyIncreasing(Range(start, stop, step))
    decreases stop - start
  {
    if start < stop {
      RangeIncreasing(start + step, stop, step);
      var r := Range(start, stop, step);
      var rest := Range(start + step, stop, step);
      assert r == [start] + rest;
      forall j, k | 0 <= j < k < |r| ensures r[j] < r[k] {
        assert r[k] == rest[k - 1];
        assert rest[k - 1] >= start + step;
        if j > 0 {
          assert r[j] == rest[j - 1];
          assert StrictlyIncreasing(rest);
        }
      }
    }
  }

  /** The length of `range(start, stop, step)`. */
  lemma {:induction false} RangeLength(start: nat, stop: nat, step: nat)
    requires step >= 1
    ensures |Range(start, stop, step)| == if start < stop then (stop - start - 1) / step + 1 else 0
    decreases stop - start
  {
    if start < stop {
      RangeLength(start + step, stop, step);
      if start + step < stop {
        ModStep(stop - start - 1, step);
      } else {
        ModOfSmall(stop - start - 1, step);
      }
    }
  }

  /** Whether the last index is appended after the stride loop. */
  predicate LastNeeded(n: nat, stride: nat)
    requires n >= 1 && stride >= 1
  {
    (n - 1) % stride != 0
  }

  /** The last index is needed exactly when it is positive and not a
      multiple of the stride; it always is when the stride reaches past it. */
  lemma LastNeededCases(n: nat, stride: nat)
    requires n >= 1 && stride >= 1
    ensures LastNeeded(n, stride) <==> n - 1 > 0 && (n - 1) % stride != 0
    ensures 1 < n <= stride ==> LastNeeded(n, stride)
  {
    if n - 1 < stride {
      ModOfSmall(n - 1, stride);
    }
  }

  /** The index appended after the stride loop, if any. */
  function Tail(n: nat, stride: nat): seq<nat>
    requires n >= 1 && stride >= 1
  {
    if LastNeeded(n, stride) then [n - 1] else []
  }

  /** The indices of `plot_data` drawn after index 0: the multiples of the
      stride below `n`, then the last index unless it was one of those. */
  function Rest(n: nat, stride: nat): (r: seq<nat>)
    requires n >= 1 && stride >= 1
    ensures forall k :: 0 <= k < |r| ==> r[k] < n
  {
    Range(stride, n, stride) + Tail(n, stride)
  }

  /** Nothing but the origin is drawn exactly when the series has one entry. */
  lemma RestEmpty(n: nat, stride: nat)
    requires n >= 1 && stride >= 1
    ensures Rest(n, stride) == [] <==> n == 1
    ensures Rest(n, stride) == [] <==> Range(stride, n, stride) == [] && !LastNeeded(n, stride)
  {
    LastNeededCases(n, stride);
    if stride < n {
      assert Range(stride, n, stride)[0] == stride;
    }
  }

  /** The indices of `plot_data` (of length `n`) that are drawn with stride
      `stride`: index 0, every multiple of the stride below `n`, and the last
      index unless it was already one of those. */
  function Indices(n: nat, stride: nat): (r: seq<nat>)
    requires n >= 1 && stride >= 1
    ensures |r| >= 1 && r[0] == 0
    ensures forall k :: 0 <= k < |r| ==> r[k] < n
  {
    [0] + Rest(n, stride)
  }

  /** Exactly the multiples of the stride below `n`, and the last index, are
      drawn. */
  lemma IndicesMembers(n: nat, stride: nat, i: int)
    requires n >= 1 && stride >= 1
    ensures i in Indices(n, stride) <==> 0 <= i < n && (i % stride == 0 || i == n - 1)
  {
    var mid := Range(stride, n, stride);
    assert Indices(n, stride) == [0] + mid + Tail(n, stride);
    assert i in Indices(n, stride) <==> i == 0 || i in mid || i in Tail(n, stride);
    RangeMembers(stride, n, stride, i);
    if i >= stride {
      ModStep(i, stride);
      assert i in mid <==> i < n && i % stride == 0;
    } else if 0 < i {
      ModOfSmall(i, stride);
      assert i !in mid && i % stride != 0;
    } else {
      assert i !in mid;
    }
  }

  /** Joining two increasing sequences, the first wholly below the second,
      gives an increasing sequence. */
  lemma ConcatIncreasing(a: seq<int>, b: seq<int>)
    requires StrictlyIncreasing(a) && StrictlyIncreasing(b)
    requires forall i, j :: 0 <= i < |a| && 0 <= j < |b| ==> a[i] < b[j]
    ensures StrictlyIncreasing(a + b)
  {
    var c := a + b;
    forall j, k | 0 <= j < k < |c| ensures c[j] < c[k] {
      if k < |a| {
        assert c[j] == a[j] && c[k] == a[k];
      } else if j >= |a| {
        assert c[j] == b[j - |a|] && c[k] == b[k - |a|];
      } else {
        assert c[j] == a[j] && c[k] == b[k - |a|];
      }
    }
  }

  /** An increasing sequence holds no value twice. */
  lemma IncreasingDistinct(s: seq<int>)
    requires StrictlyIncreasing(s)
    ensures forall j, k :: 0 <= j < |s| && 0 <= k < |s| && j != k ==> s[j] != s[k]
  {
    forall j, k | 0 <= j < |s| && 0 <= k < |s| && j != k ensures s[j] != s[k] {
      if j < k { assert s[j] < s[k]; } else { assert s[k] < s[j]; }
    }
  }

  /** When the last index is appended, it is positive and lies above
      every multiple of the stride drawn before it. */
  lemma LastAboveRange(n: nat, stride: nat)
    requires n >= 1 && stride >= 1 && LastNeeded(n, stride)
    ensures n - 1 > 0
    ensures forall i :: 0 <= i < |Range(stride, n, stride)| ==> Range(stride, n, stride)[i] < n - 1
  {
    var mid := Range(stride, n, stride);
    RangeMembers(stride, n, stride, n - 1);
    if n - 1 >= stride {
      ModStep(n - 1, stride);
    }
    assert n - 1 !in mid;
    LastNeededCases(n, stride);
  }

  /** The drawn indices strictly increase, so none is drawn twice. */
  lemma IndicesIncreasing(n: nat, stride: nat)
    requires n >= 1 && stride >= 1
    ensures var r := Indices(n, stride);
              (forall j, k :: 0 <= j < k < |r| ==> r[j] < r[k]) &&
              (forall j, k :: 0 <= j < |r| && 0 <= k < |r| && j != k ==> r[j] != r[k])
  {
    var mid := Range(stride, n, stride);
    var head := [0] + mid;
    RangeIncreasing(stride, n, stride);
    ConcatIncreasing([0], mid);
    if LastNeeded(n, stride) {
      LastAboveRange(n, stride);
      assert Tail(n, stride) == [n - 1];
      forall i | 0 <= i < |head| ensures head[i] < n - 1 {
        if i > 0 {
          assert head[i] == mid[i - 1];
        }
      }
      assert StrictlyIncreasing([n - 1]);
      ConcatIncreasing(head, [n - 1]);
      assert Indices(n, stride) == head + [n - 1];
    } else {
      assert Indices(n, stride) == head;
    }
    IncreasingDistinct(Indices(n, stride));
  }

  /** The first drawn index is day 0 and the last is the final day, whatever
      the stride. */
  lemma IndicesEnds(n: nat, stride: nat)
    requires n >= 1 && stride >= 1
    ensures var r := Indices(n, stride); r[0] == 0 && r[|r| - 1] == n - 1
  {
    var r := Indices(n, stride);
    if !LastNeeded(n, stride) && n > 1 {
      IndicesMembers(n, stride, n - 1);
      IndicesIncreasing(n, stride);
      var j :| 0 <= j < |r| && r[j] == n - 1;
      assert r[|r| - 1] >= r[j];
    }
  }

  /** Every drawn index except possibly the last is a multiple of the
      stride. */
  lemma IndicesMultiples(n: nat, stride: nat)
    requires n >= 1 && stride >= 1
    ensures var r := Indices(n, stride); forall k :: 0 <= k < |r| - 1 ==> r[k] % stride == 0
  {
    var r := Indices(n, stride);
    IndicesIncreasing(n, stride);
    IndicesEnds(n, stride);
    forall k | 0 <= k < |r| - 1 ensures r[k] % stride == 0 {
      IndicesMembers(n, stride, r[k]);
      assert r[k] < r[|r| - 1];
    }
  }

  /** The exact number of drawn points: 1, plus the multiples of the stride
      in 1..n-1, plus 1 when the last index is not one of them. */
  lemma IndicesCount(n: nat, stride: nat)
    requires n >= 1 && stride >= 1
    ensures |Indices(n, stride)| == 1 + (n - 1) / stride + (if (n - 1) % stride != 0 then 1 else 0)
  {
    RangeLength(stride, n, stride);
    if stride < n {
      ModStep(n - 1, stride);
    } else {
      ModOfSmall(n - 1, stride);
    }
  }

  // --- Choosing the stride. ---

  /** `period_map.get(period, 30)`: the initial stride. */
  function PeriodStep(period: string): (step: nat)
    ensures step >= 1
    ensures DaysIn(period).None? ==> step == 30
  {
    DaysIn(period).GetOr(30)
  }

  /** script.py: start from the display unit and, when `len / step` (true
      division) exceeds 500, use `len // 500`. */
  function Stride(n: nat, unitStep: nat): (s: nat)
    requires unitStep >= 1
    ensures s >= 1
    ensures s == unitStep <== n <= 500 * unitStep
  {
    RealDivAbove(n as real, unitStep as real, 500.0);
    assert (500 * unitStep) as real == 500.0 * (unitStep as real);
    if (n as real) / (unitStep as real) > 500.0 then n / 500 else unitStep
  }

  lemma RealDivAbove(x: real, y: real, c: real)
    requires y > 0.0
    ensures x / y > c <==> x > c * y
  {
    var r := x / y;
    assert r * y == x;
    assert (r - c) * y == x - c * y;
  }

  /** archive/script_v4.py: start from the display unit and, when the whole
      number of points `len // step` exceeds 1000, use `len // 1000`. */
  function StrideV4(n: nat, unitStep: nat): (s: nat)
    requires unitStep >= 1
    ensures s >= 1
    ensures s == unitStep <== n < 1001 * unitStep
  {
    if n / unitStep > 1000 then
      assert n >= 1001 * unitStep by {
        MulMono(1001, n / unitStep, unitStep);
        assert n >= (n / unitStep) * unitStep;
      }
      n / 1000
    else
      unitStep
  }

  /** The floor-division test of archive/script_v4.py in integer terms: the
      display unit is kept exactly while fewer than 1001 of its strides fit,
      and otherwise the stride is `len // 1000`. */
  lemma StrideV4IntegerForm(n: nat, unitStep: nat)
    requires unitStep >= 1
    ensures StrideV4(n, unitStep) == if n >= 1001 * unitStep then n / 1000 else unitStep
  {
    if n >= 1001 * unitStep {
      DivLowerBound(n, unitStep, 1001);
    } else {
      MulMono(1001, n / unitStep, unitStep);
      assert n >= (n / unitStep) * unitStep;
    }
  }

  /** The true-division test of script.py in integer terms. */
  lemma StrideIntegerForm(n: nat, unitStep: nat)
    requires unitStep >= 1
    ensures Stride(n, unitStep) == if n > 500 * unitStep then n / 500 else unitStep
  {
    RealDivAbove(n as real, unitStep as real, 500.0);
    assert (500 * unitStep) as real == 500.0 * (unitStep as real);
  }

  /** The current stride is never finer than the one of archive/script_v4.py,
      and the two agree whenever no adjustment is needed in the current
      version. */
  lemma StrideCoarserThanV4(n: nat, unitStep: nat)
    requires unitStep >= 1
    ensures Stride(n, unitStep) >= StrideV4(n, unitStep)
    ensures n <= 500 * unitStep ==> Stride(n, unitStep) == StrideV4(n, unitStep) == unitStep
  {
    StrideIntegerForm(n, unitStep);
    var q := n / unitStep;
    if q > 1000 {
      assert n >= unitStep * q;
      MulMono(1001, q, unitStep);
      assert n > 500 * unitStep;
      var a := n / 1000;
      assert n >= 1000 * a;
      assert (2 * a) * 500 == 1000 * a;
      DivLowerBound(n, 500, 2 * a);
    } else if n > 500 * unitStep {
      DivLowerBound(n, 500, unitStep);
    }
  }

  /** The points budget is not a bound on the number of points drawn: with
      the day unit, 999 days of data give 999 points and 1000 give 501. */
  lemma PointCountExamples()
    ensures |Indices(999, Stride(999, 1))| == 999
    ensures |Indices(1000, Stride(1000, 1))| == 501
  {
    StrideIntegerForm(999, 1);
    StrideIntegerForm(1000, 1);
    assert Stride(999, 1) == 1 && Stride(1000, 1) == 2;
    IndicesCount(999, 1);
    DivUnique(998, 1, 998, 0);
    IndicesCount(1000, 2);
    DivUnique(999, 2, 499, 1);
  }

  // --- The drawn points. ---

  /** One entry of `current_plot_info`: the day, the amount, and the
      x coordinate in display units. */
  datatype PlotPoint = PlotPoint(day: int, amount: real, plotX: real)

  /** A drawn sample: its x coordinate is its day in display units. */
  function Point(sample: Sample, unitLength: nat): PlotPoint
    requires unitLength >= 1
  {
    PlotPoint(sample.day, sample.amount, sample.day as real / unitLength as real)
  }

  /** The drawn samples at the given indices, in order. */
  function Points(data: seq<Sample>, idx: seq<nat>, unitLength: nat): (points: seq<PlotPoint>)
    requires unitLength >= 1
    requires forall k :: 0 <= k < |idx| ==> idx[k] < |data|
    ensures |points| == |idx|
  {
    seq(|idx|, k requires 0 <= k < |idx| => Point(data[idx[k]], unitLength))
  }

  lemma PointsAppend(data: seq<Sample>, idx: seq<nat>, i: nat, unitLength: nat)
    requires unitLength >= 1 && i < |data|
    requires forall k :: 0 <= k < |idx| ==> idx[k] < |data|
    ensures Points(data, idx + [i], unitLength) == Points(data, idx, unitLength) + [Point(data[i], unitLength)]
  {
  }

  /** The first point of the chart: day 0 at x 0 with the first amount. */
  function Origin(data: seq<Sample>): PlotPoint
    requires |data| >= 1
  {
    PlotPoint(0, data[0].amount, 0.0)
  }

  /** The points drawn for `data` with the given stride and display unit
      length: the origin, then the sample at every other drawn index. */
  function Resampled(data: seq<Sample>, stride: nat, unitLength: nat): (points: seq<PlotPoint>)
    requires |data| >= 1 && stride >= 1 && unitLength >= 1
    ensures |points| == 1 + |Rest(|data|, stride)| && points[0] == Origin(data)
  {
    [Origin(data)] + Points(data, Rest(|data|, stride), unitLength)
  }

  /** The series of a calculation holds day `i` at index `i`. */
  ghost predicate DayIndexed(data: seq<Sample>) {
    forall i :: 0 <= i < |data| ==> data[i].day == i
  }

  /** On a series with day `i` at index `i`, the drawn points are the samples
      at `Indices`, in order: their days strictly increase from 0 to the last
      day, and each x coordinate is the day in display units (not in strides). */
  lemma ResampledPoints(data: seq<Sample>, stride: nat, unitLength: nat)
    requires |data| >= 1 && stride >= 1 && unitLength >= 1
    requires DayIndexed(data)
    ensures var p := Resampled(data, stride, unitLength);
              var idx := Indices(|data|, stride);
              |p| == |idx| &&
              p[0].day == 0 && p[|p| - 1].day == |data| - 1 &&
              (forall k :: 0 <= k < |p| ==> p[k].day == idx[k] && p[k].amount == data[idx[k]].amount) &&
              (forall k :: 0 <= k < |p| ==> p[k].plotX == p[k].day as real / unitLength as real) &&
              (forall j, k :: 0 <= j < k < |p| ==> p[j].day < p[k].day)
  {
    var p := Resampled(data, stride, unitLength);
    var idx := Indices(|data|, stride);
    var rest := Rest(|data|, stride);
    assert p == [Origin(data)] + Points(data, rest, unitLength);
    assert idx == [0] + rest;
    forall k | 0 <= k < |p|
      ensures p[k].day == idx[k] && p[k].amount == data[idx[k]].amount
      ensures p[k].plotX == p[k].day as real / unitLength as real
    {
      if k > 0 {
        assert p[k] == Point(data[rest[k - 1]], unitLength);
        assert data[rest[k - 1]].day == rest[k - 1];
      }
    }
    IndicesEnds(|data|, stride);
    IndicesIncreasing(|data|, stride);
  }

  /** The x coordinates handed to the plot call. */
  function Xs(points: seq<PlotPoint>): (xs: seq<real>)
    ensures |xs| == |points|
  {
    seq(|points|, k requires 0 <= k < |points| => points[k].plotX)
  }

  /** The y coordinates (amounts) handed to the plot call. */
  function Ys(points: seq<PlotPoint>): (ys: seq<real>)
    ensures |ys| == |points|
  {
    seq(|points|, k requires 0 <= k < |points| => points[k].amount)
  }

  lemma CurveAppend(points: seq<PlotPoint>, p: PlotPoint)
    ensures Xs(points + [p]) == Xs(points) + [p.plotX]
    ensures Ys(points + [p]) == Ys(points) + [p.amount]
  {
  }
}
