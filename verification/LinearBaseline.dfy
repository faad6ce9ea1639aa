/**
 The straight-line forecast of scripts/forecast_benchmark.py:258-265: the line fitted to the
 history by least squares, continued to the target index.
 */
module LinearBaseline {
  import opened Sums
  import opened Reals
  import opened Forecast

  datatype Observation = Observation(x: real, y: real)

  /** The history with its indices. */
  function Enumerate(ys: seq<real>): (data: seq<Observation>)
    ensures |data| == |ys| && forall i :: 0 <= i < |ys| ==> data[i] == Observation(i as real, ys[i])
  {
    seq(|ys|, i requires 0 <= i < |ys| => Observation(i as real, ys[i]))
  }

  /** The line through (center, level). */
  datatype Line = Line(level: real, slope: real, center: real) {
    function At(x: real): real { level + slope * (x - center) }

    function Residual(o: Observation): real { o.y - At(o.x) }
  }

  function Y(): Observation -> real { (o: Observation) => o.y }
  function Offset(center: real): Observation -> real { (o: Observation) => o.x - center }
  function SquaredOffset(center: real): Observation -> real { (o: Observation) => Square(o.x - center) }
  function Product(center: real, level: real): Observation -> real {
    (o: Observation) => (o.x - center) * (o.y - level)
  }
  function Residuals(line: Line): Observation -> real { (o: Observation) => line.Residual(o) }
  function WeightedResiduals(line: Line): Observation -> real {
    (o: Observation) => line.Residual(o) * (o.x - line.center)
  }
  function SquaredResiduals(line: Line): Observation -> real {
    (o: Observation) => Square(line.Residual(o))
  }

  function CenterOf(n: nat): real { (n as real - 1.0) / 2.0 }

  function Spread(ys: seq<real>): real { Sum(Enumerate(ys), SquaredOffset(CenterOf(|ys|))) }

  function Fit(ys: seq<real>): Line
    requires |ys| >= 2
  {
    SpreadIsPositive(ys);
    var data, center := Enumerate(ys), CenterOf(|ys|);
    var level := Mean(data, Y());
    Line(level, Sum(data, Product(center, level)) / Spread(ys), center)
  }

  /** The sum that least squares minimises. */
  function Misfit(ys: seq<real>, line: Line): real { Sum(Enumerate(ys), SquaredResiduals(line)) }

  // ----- Offsets from the centre -----

  lemma {:induction false} OffsetsOf(ys: seq<real>, center: real)
    ensures Sum(Enumerate(ys), Offset(center)) == |ys| as real * (CenterOf(|ys|) - center)
  {
    if ys != [] {
      var n := |ys| - 1;
      assert Enumerate(ys)[..n] == Enumerate(ys[..n]);
      OffsetsOf(ys[..n], center);
      OffsetStep(n as real, center);
    }
  }

  lemma OffsetStep(n: real, center: real)
    ensures n * ((n - 1.0) / 2.0 - center) + (n - center) == (n + 1.0) * (n / 2.0 - center)
  {
  }

  lemma SpreadIsPositive(ys: seq<real>)
    requires |ys| >= 2
    ensures Spread(ys) > 0.0
  {
    var data, center := Enumerate(ys), CenterOf(|ys|);
    SumIsNonnegative(data, SquaredOffset(center));
    assert data[0] in data && data[0].x == 0.0 && center > 0.0;
    assert SquaredOffset(center)(data[0]) != 0.0;
  }

  // ----- Least squares -----

  lemma {:induction false} ResidualsOf(data: seq<Observation>, line: Line)
    ensures Sum(data, Residuals(line))
         == Sum(data, Y()) - |data| as real * line.level - line.slope * Sum(data, Offset(line.center))
  {
    if data != [] {
      var n := |data| - 1;
      ResidualsOf(data[..n], line);
      Distribute(line.slope, Sum(data[..n], Offset(line.center)), Offset(line.center)(data[n]));
      Distribute(line.level, n as real, 1.0);
    }
  }

  lemma WeightedResidualsOf(data: seq<Observation>, line: Line)
    ensures Sum(data, WeightedResiduals(line))
         == Sum(data, Product(line.center, line.level)) - line.slope * Sum(data, SquaredOffset(line.center))
  {
    EachWeightedResidual(data, line);
    SumOfDifference(data, WeightedResiduals(line), Product(line.center, line.level), line.slope,
      SquaredOffset(line.center));
  }

  lemma EachWeightedResidual(data: seq<Observation>, line: Line)
    ensures forall o :: o in data ==>
      WeightedResiduals(line)(o) == Product(line.center, line.level)(o) - line.slope * SquaredOffset(line.center)(o)
  {
    forall o | o in data
      ensures WeightedResiduals(line)(o)
        == Product(line.center, line.level)(o) - line.slope * SquaredOffset(line.center)(o)
    {
      WeightedResidual(line, o);
    }
  }

  lemma {:induction false} SumOfDifference<T>(xs: seq<T>, whole: T -> real, f: T -> real, c: real, g: T -> real)
    requires forall x :: x in xs ==> whole(x) == f(x) - c * g(x)
    ensures Sum(xs, whole) == Sum(xs, f) - c * Sum(xs, g)
  {
    if xs != [] {
      var n := |xs| - 1;
      assert xs[n] in xs;
      SumOfDifference(xs[..n], whole, f, c, g);
      Distribute(c, Sum(xs[..n], g), g(xs[n]));
    }
  }

  lemma WeightedResidual(line: Line, o: Observation)
    ensures WeightedResiduals(line)(o)
         == Product(line.center, line.level)(o) - line.slope * SquaredOffset(line.center)(o)
  {
    var d := o.x - line.center;
    WeightedStep(o.y, line.level, line.slope, d);
    SquareIsProduct(d);
    assert line.Residual(o) == o.y - (line.level + line.slope * d);
  }

  lemma WeightedStep(y: real, level: real, slope: real, d: real)
    ensures (y - (level + slope * d)) * d == d * (y - level) - slope * (d * d)
  {
  }

  /** The normal equations: the residuals of the fitted line sum to zero, also weighted by the offset. */
  lemma NormalEquations(ys: seq<real>)
    requires |ys| >= 2
    ensures Sum(Enumerate(ys), Residuals(Fit(ys))) == 0.0
    ensures Sum(Enumerate(ys), WeightedResiduals(Fit(ys))) == 0.0
  {
    SpreadIsPositive(ys);
    ResidualsCancel(ys, Fit(ys));
    WeightedResidualsCancel(ys, Fit(ys));
  }

  lemma ResidualsCancel(ys: seq<real>, fit: Line)
    requires ys != [] && fit.center == CenterOf(|ys|) && fit.level == Mean(Enumerate(ys), Y())
    ensures Sum(Enumerate(ys), Residuals(fit)) == 0.0
  {
    NoOffset(ys);
    ResidualsOf(Enumerate(ys), fit);
    Cancel(Sum(Enumerate(ys), Y()), |ys| as real);
  }

  lemma WeightedResidualsCancel(ys: seq<real>, fit: Line)
    requires fit.center == CenterOf(|ys|) && Spread(ys) != 0.0
    requires fit.slope == Sum(Enumerate(ys), Product(fit.center, fit.level)) / Spread(ys)
    ensures Sum(Enumerate(ys), WeightedResiduals(fit)) == 0.0
  {
    WeightedResidualsOf(Enumerate(ys), fit);
    Cancel(Sum(Enumerate(ys), Product(fit.center, fit.level)), Spread(ys));
  }

  /** What moving a line by ``up`` and tilting it by ``tilt`` adds to the misfit, given five sums. */
  function Shift(up: real, tilt: real, residuals: real, weighted: real, n: real, offsets: real, spread: real): real {
    2.0 * up * residuals + 2.0 * tilt * weighted + Square(up) * n + 2.0 * (up * tilt) * offsets + Square(tilt) * spread
  }

  lemma ShiftAdds(up: real, tilt: real, r: real, r': real, w: real, w': real, n: real, d: real, d': real, s: real,
      s': real)
    ensures Shift(up, tilt, r + r', w + w', n + 1.0, d + d', s + s')
         == Shift(up, tilt, r, w, n, d, s) + Shift(up, tilt, r', w', 1.0, d', s')
  {
    Distribute(2.0 * up, r, r');
    Distribute(2.0 * tilt, w, w');
    Distribute(Square(up), n, 1.0);
    Distribute(2.0 * (up * tilt), d, d');
    Distribute(Square(tilt), s, s');
  }

  function Moved(line: Line, up: real, tilt: real): Line { Line(line.level - up, line.slope - tilt, line.center) }

  function ShiftAt(line: Line, up: real, tilt: real): Observation -> real {
    (o: Observation) =>
      Shift(up, tilt, Residuals(line)(o), WeightedResiduals(line)(o), 1.0, Offset(line.center)(o),
        SquaredOffset(line.center)(o))
  }

  lemma MisfitOfMovedLine(data: seq<Observation>, line: Line, up: real, tilt: real)
    ensures Sum(data, SquaredResiduals(Moved(line, up, tilt)))
         == Sum(data, SquaredResiduals(line)) + Sum(data, ShiftAt(line, up, tilt))
  {
    forall o | o in data
      ensures SquaredResiduals(Moved(line, up, tilt))(o) == SquaredResiduals(line)(o) + ShiftAt(line, up, tilt)(o)
    {
      MovedResidual(line, o, up, tilt);
    }
    SumAdd(data, SquaredResiduals(Moved(line, up, tilt)), SquaredResiduals(line), ShiftAt(line, up, tilt));
  }

  lemma {:induction false} SumOfShifts(data: seq<Observation>, line: Line, up: real, tilt: real)
    ensures Sum(data, ShiftAt(line, up, tilt))
         == Shift(up, tilt, Sum(data, Residuals(line)), Sum(data, WeightedResiduals(line)), |data| as real,
                  Sum(data, Offset(line.center)), Sum(data, SquaredOffset(line.center)))
  {
    if data != [] {
      var n := |data| - 1;
      var front, o := data[..n], data[n];
      SumOfShifts(front, line, up, tilt);
      assert |data| as real == n as real + 1.0;
      ShiftAdds(up, tilt, Sum(front, Residuals(line)), Residuals(line)(o),
                Sum(front, WeightedResiduals(line)), WeightedResiduals(line)(o), n as real,
                Sum(front, Offset(line.center)), Offset(line.center)(o),
                Sum(front, SquaredOffset(line.center)), SquaredOffset(line.center)(o));
    }
  }

  lemma MovedResidual(line: Line, o: Observation, up: real, tilt: real)
    ensures SquaredResiduals(Moved(line, up, tilt))(o)
         == SquaredResiduals(line)(o)
            + Shift(up, tilt, Residuals(line)(o), WeightedResiduals(line)(o), 1.0,
                    Offset(line.center)(o), SquaredOffset(line.center)(o))
  {
    MovedLineAt(line, up, tilt, o.x);
    WeightedIsProduct(line, o);
    SquareOfSum(Moved(line, up, tilt).Residual(o), line.Residual(o), WeightedResiduals(line)(o), up, tilt,
      o.x - line.center);
  }

  lemma WeightedIsProduct(line: Line, o: Observation)
    ensures WeightedResiduals(line)(o) == Residuals(line)(o) * Offset(line.center)(o)
  {
  }

  lemma MovedLineAt(line: Line, up: real, tilt: real, x: real)
    ensures line.At(x) - Moved(line, up, tilt).At(x) == up + tilt * (x - line.center)
  {
    Distribute(x - line.center, line.slope, -tilt);
  }

  lemma SquareOfSum(moved: real, r: real, w: real, up: real, tilt: real, d: real)
    requires moved == r + (up + tilt * d) && w == r * d
    ensures Square(moved) == Square(r) + Shift(up, tilt, r, w, 1.0, d, Square(d))
  {
    SquareIsProduct(moved);
    SquareIsProduct(r);
    SquareIsProduct(up);
    SquareIsProduct(tilt);
    SquareIsProduct(d);
    ExpandSquare(r, up, tilt, d);
  }

  lemma ExpandSquare(r: real, up: real, tilt: real, d: real)
    ensures (r + (up + tilt * d)) * (r + (up + tilt * d))
         == r * r
           + (2.0 * up * r + 2.0 * tilt * (r * d) + up * up * 1.0 + 2.0 * (up * tilt) * d + tilt * tilt * (d * d))
  {
  }

  /** With vanishing sums a shift is a sum of two weighted squares. */
  lemma ShiftIsNonnegative(up: real, tilt: real, r: real, w: real, n: real, d: real, spread: real)
    requires r == 0.0 && w == 0.0 && d == 0.0 && n > 0.0 && spread > 0.0
    ensures Shift(up, tilt, r, w, n, d, spread) >= 0.0
    ensures Shift(up, tilt, r, w, n, d, spread) == 0.0 ==> up == 0.0 && tilt == 0.0
  {
    WeightedSquare(up, n);
    WeightedSquare(tilt, spread);
  }

  /** A line that meets the normal equations can only be moved to a worse one. */
  lemma ShiftsAreWorse(ys: seq<real>, fit: Line, up: real, tilt: real)
    requires |ys| >= 2 && fit.center == CenterOf(|ys|)
    requires Sum(Enumerate(ys), Residuals(fit)) == 0.0 && Sum(Enumerate(ys), WeightedResiduals(fit)) == 0.0
    ensures Sum(Enumerate(ys), ShiftAt(fit, up, tilt)) >= 0.0
    ensures Sum(Enumerate(ys), ShiftAt(fit, up, tilt)) == 0.0 ==> up == 0.0 && tilt == 0.0
  {
    SpreadIsPositive(ys);
    NoOffset(ys);
    SumOfShifts(Enumerate(ys), fit, up, tilt);
    ShiftIsNonnegative(up, tilt, Sum(Enumerate(ys), Residuals(fit)), Sum(Enumerate(ys), WeightedResiduals(fit)),
                       |ys| as real, Sum(Enumerate(ys), Offset(fit.center)),
                       Sum(Enumerate(ys), SquaredOffset(fit.center)));
  }

  lemma NoOffset(ys: seq<real>)
    ensures Sum(Enumerate(ys), Offset(CenterOf(|ys|))) == 0.0
  {
    OffsetsOf(ys, CenterOf(|ys|));
  }

  /** Among the lines given at the centre of the history, the fitted one has the least misfit. */
  lemma FitIsBestAtCenter(ys: seq<real>, other: Line)
    requires |ys| >= 2 && other.center == CenterOf(|ys|)
    ensures Misfit(ys, Fit(ys)) <= Misfit(ys, other)
    ensures Misfit(ys, Fit(ys)) == Misfit(ys, other) ==> other == Fit(ys)
  {
    NormalEquations(ys);
    LeastSquares(ys, Fit(ys), other);
  }

  lemma LeastSquares(ys: seq<real>, fit: Line, other: Line)
    requires |ys| >= 2 && fit.center == other.center == CenterOf(|ys|)
    requires Sum(Enumerate(ys), Residuals(fit)) == 0.0 && Sum(Enumerate(ys), WeightedResiduals(fit)) == 0.0
    ensures Misfit(ys, fit) <= Misfit(ys, other)
    ensures Misfit(ys, fit) == Misfit(ys, other) ==> other == fit
  {
    var up, tilt := fit.level - other.level, fit.slope - other.slope;
    MisfitOfMovedLine(Enumerate(ys), fit, up, tilt);
    assert other == Moved(fit, up, tilt);
    ShiftsAreWorse(ys, fit, up, tilt);
  }

  /** Every line has a form about the centre of the history, so the choice of centre does not matter. */
  lemma Recenter(line: Line, center: real, x: real)
    ensures line.At(x) == Recentered(line, center).At(x)
  {
    Distribute(line.slope, x - center, center - line.center);
  }

  function Recentered(line: Line, center: real): Line { Line(line.At(center), line.slope, center) }

  lemma RecenteredMisfit(ys: seq<real>, line: Line, center: real)
    ensures Misfit(ys, Recentered(line, center)) == Misfit(ys, line)
  {
    var moved := Recentered(line, center);
    forall o | o in Enumerate(ys) ensures SquaredResiduals(moved)(o) == SquaredResiduals(line)(o) {
      Recenter(line, center, o.x);
    }
    SumMonotone(Enumerate(ys), SquaredResiduals(moved), SquaredResiduals(line));
    SumMonotone(Enumerate(ys), SquaredResiduals(line), SquaredResiduals(moved));
  }

  /** The fitted line misses the history least of all lines, and any line that misses it as little is the same line. */
  lemma FitIsLeastSquares(ys: seq<real>, other: Line, x: real)
    requires |ys| >= 2
    ensures Misfit(ys, Fit(ys)) <= Misfit(ys, other)
    ensures Misfit(ys, Fit(ys)) == Misfit(ys, other) ==> other.At(x) == Fit(ys).At(x)
  {
    var center := CenterOf(|ys|);
    RecenteredMisfit(ys, other, center);
    FitIsBestAtCenter(ys, Recentered(other, center));
    Recenter(other, center, x);
  }

  // ----- Linear series -----

  ghost predicate Linear(ys: seq<real>, start: real, step: real) {
    forall i :: 0 <= i < |ys| ==> ys[i] == start + step * i as real
  }

  /** A straight series is continued exactly, however far. */
  lemma LinearSeriesIsExtrapolated(ys: seq<real>, start: real, step: real, x: real)
    requires |ys| >= 2 && Linear(ys, start, step)
    ensures Fit(ys).At(x) == start + step * x
  {
    var line := Line(start, step, 0.0);
    var center := CenterOf(|ys|);
    var same := Recentered(line, center);
    forall o | o in Enumerate(ys) ensures SquaredResiduals(same)(o) == 0.0 {
      Recenter(line, center, o.x);
    }
    SumIsNonnegative(Enumerate(ys), SquaredResiduals(same));
    SumIsNonnegative(Enumerate(ys), SquaredResiduals(Fit(ys)));
    FitIsBestAtCenter(ys, same);
    Recenter(line, center, x);
  }
}
