/**
 * Trade forecasts. The main path fits one linear model to the exports and one
 * to the imports and extrapolates them; when fitting throws, a fallback
 * compounds the average growth of the last three years. JavaScript numbers are
 * `real`s here; `Math.round(x)` is `Floor(x + 1/2)`. The fitted models are an
 * oracle: `Regression` gives the value each model predicts at a time index,
 * and `None` stands for a fit that threw.
 */
module Forecasting {
  import opened Wrappers
  import opened Text
  import opened TradeSchema

  datatype ForecastResult = ForecastResult(year: string, exports: int, imports: int, confidence: int)

  /** What the two fitted models predict at a time index (0 is the oldest point). */
  datatype Regression = Regression(exportsAt: int -> real, importsAt: int -> real)

  datatype Interval = Interval(lower: int, upper: int)

  function Min(a: real, b: real): (r: real)
    ensures r <= a && r <= b && (r == a || r == b)
  {
    if a <= b then a else b
  }

  function Max(a: real, b: real): (r: real)
    ensures r >= a && r >= b && (r == a || r == b)
  {
    if a >= b then a else b
  }

  /** `Math.round`: the nearest integer, halves rounded up. */
  function Round(x: real): int
  {
    (x + 0.5).Floor
  }

  /** The rounded value is within one half of `x`, halves going up. */
  lemma RoundNearest(x: real)
    ensures x - 0.5 < Round(x) as real <= x + 0.5
  {
  }

  lemma RoundMonotone(x: real, y: real)
    requires x <= y
    ensures Round(x) <= Round(y)
  {
  }

  /** Rounding commutes with adding a whole number. */
  lemma RoundShift(x: real, n: int)
    ensures Round(x + n as real) == Round(x) + n
  {
  }

  /** `xs.slice(-n)`: the last `n` elements, or all of them when there are fewer. */
  function Recent<T>(xs: seq<T>, n: nat): (r: seq<T>)
    ensures |r| == if |xs| <= n then |xs| else n
    ensures r == xs[|xs| - |r|..]
  {
    if |xs| <= n then xs else xs[|xs| - n..]
  }

  function Exports(ps: seq<ChartDataPoint>): (r: seq<real>)
    ensures |r| == |ps| && forall i :: 0 <= i < |ps| ==> r[i] == ps[i].exports
  {
    seq(|ps|, i requires 0 <= i < |ps| => ps[i].exports)
  }

  function Imports(ps: seq<ChartDataPoint>): (r: seq<real>)
    ensures |r| == |ps| && forall i :: 0 <= i < |ps| ==> r[i] == ps[i].imports
  {
    seq(|ps|, i requires 0 <= i < |ps| => ps[i].imports)
  }

  function Totals(ps: seq<ChartDataPoint>): (r: seq<real>)
    ensures |r| == |ps| && forall i :: 0 <= i < |ps| ==> r[i] == ps[i].exports + ps[i].imports
  {
    seq(|ps|, i requires 0 <= i < |ps| => ps[i].exports + ps[i].imports)
  }

  /** `xs.reduce((a, b) => a + b, 0)`, folding from the left. */
  function Sum(xs: seq<real>): real
  {
    if xs == [] then 0.0 else Sum(xs[..|xs| - 1]) + xs[|xs| - 1]
  }

  function Mean(xs: seq<real>): real
    requires |xs| > 0
  {
    Sum(xs) / |xs| as real
  }

  /** The squared distance of each value from `m`. */
  function SquaredDeviations(xs: seq<real>, m: real): (r: seq<real>)
    ensures |r| == |xs| && forall i :: 0 <= i < |xs| ==> r[i] == (xs[i] - m) * (xs[i] - m)
  {
    seq(|xs|, i requires 0 <= i < |xs| => (xs[i] - m) * (xs[i] - m))
  }

  /** The population variance. */
  function Variance(xs: seq<real>): real
    requires |xs| > 0
  {
    Sum(SquaredDeviations(xs, Mean(xs))) / |xs| as real
  }

  /** `cv` is the standard deviation of the last five yearly totals divided by
      their mean: `cv * mean` is the non-negative square root of the variance.
      A zero mean, where the division gives `NaN` or an infinity, is excluded. */
  predicate IsCoefficientOfVariation(data: seq<ChartDataPoint>, cv: real) {
    var t := Totals(Recent(data, 5));
    |t| > 0 && IsRootOverMean(cv, Mean(t), Variance(t))
  }

  /** `cv == sqrt(variance) / mean` for a non-zero mean, without `sqrt`. */
  predicate IsRootOverMean(cv: real, mean: real, variance: real) {
    mean != 0.0 && cv * mean >= 0.0 && (cv * mean) * (cv * mean) == variance
  }

  /** The confidence for a forecast `yearsAhead` years out, given the
      coefficient of variation: a base of 85 that falls by 10 a year, less a
      volatility penalty of `100 * cv` capped at 20, never below 50. */
  function Confidence(yearsAhead: int, cv: real): (r: int)
    ensures r >= 50
  {
    var base := (85 - (yearsAhead - 1) * 10) as real;
    var penalty := Min(cv * 100.0, 20.0);
    RoundMonotone(50.0, Max(base - penalty, 50.0));
    Round(Max(base - penalty, 50.0))
  }

  /** `calculateConfidence(data, yearsAhead)`; it sees the data only through
      the coefficient of variation of its last five totals. */
  function CalculateConfidence(data: seq<ChartDataPoint>, yearsAhead: int, cv: real): (r: int)
    requires IsCoefficientOfVariation(data, cv)
    ensures r >= 50
  {
    Confidence(yearsAhead, cv)
  }

  /** Two non-negative reals with the same square are equal. */
  lemma SquareRootUnique(a: real, b: real)
    requires a >= 0.0 && b >= 0.0 && a * a == b * b
    ensures a == b
  {
    if a < b {
      SquareIncreasing(a, b);
    } else if b < a {
      SquareIncreasing(b, a);
    }
  }

  lemma SquareIncreasing(x: real, y: real)
    requires 0.0 <= x < y
    ensures x * x < y * y
  {
    MulPositive(y - x, y + x);
    assert (y - x) * (y + x) == y * y - x * x;
  }

  lemma CancelFactor(x: real, y: real, m: real)
    requires m != 0.0 && x * m == y * m
    ensures x == y
  {
    assert (x - y) * m == 0.0;
  }

  lemma RootOverMeanUnique(cv1: real, cv2: real, mean: real, variance: real)
    requires IsRootOverMean(cv1, mean, variance) && IsRootOverMean(cv2, mean, variance)
    ensures cv1 == cv2
  {
    SquareRootUnique(cv1 * mean, cv2 * mean);
    CancelFactor(cv1, cv2, mean);
  }

  /** Only one `cv` fits the data, so the relation pins the confidence down. */
  lemma CoefficientOfVariationUnique(data: seq<ChartDataPoint>, cv1: real, cv2: real)
    requires IsCoefficientOfVariation(data, cv1) && IsCoefficientOfVariation(data, cv2)
    ensures cv1 == cv2
  {
    var t := Totals(Recent(data, 5));
    RootOverMeanUnique(cv1, cv2, Mean(t), Variance(t));
  }

  /** History older than the last five years does not affect the confidence. */
  lemma ConfidenceUsesLastFive(older: seq<ChartDataPoint>, data: seq<ChartDataPoint>, cv: real)
    requires |data| >= 5
    ensures IsCoefficientOfVariation(older + data, cv) <==> IsCoefficientOfVariation(data, cv)
  {
    var all := older + data;
    assert Recent(all, 5) == Recent(data, 5) by {
      assert all[|all| - 5..] == data[|data| - 5..];
    }
  }

  lemma {:induction false} SumNonNegative(xs: seq<real>)
    requires forall i :: 0 <= i < |xs| ==> xs[i] >= 0.0
    ensures Sum(xs) >= 0.0
  {
    if xs != [] {
      SumNonNegative(xs[..|xs| - 1]);
    }
  }

  /** The totals of the recent points are not negative when no point's total is. */
  lemma RecentTotalsNonNegative(data: seq<ChartDataPoint>)
    requires forall i :: 0 <= i < |data| ==> data[i].exports + data[i].imports >= 0.0
    ensures var t := Totals(Recent(data, 5)); forall i :: 0 <= i < |t| ==> t[i] >= 0.0
  {
    var r := Recent(data, 5);
    forall i | 0 <= i < |r| ensures r[i].exports + r[i].imports >= 0.0 {
      assert r[i] == data[|data| - |r| + i];
    }
  }

  lemma DivNonNegative(a: real, n: real)
    requires a >= 0.0 && n > 0.0
    ensures a / n >= 0.0
  {
  }

  /** A positive factor carries the sign of a non-negative product. */
  lemma SignOfFactor(x: real, m: real)
    requires m > 0.0 && x * m >= 0.0
    ensures x >= 0.0
  {
    if x < 0.0 {
      MulPositive(-x, m);
    }
  }

  /** A root over a non-negative mean is not negative. */
  lemma RootOverMeanNonNegative(cv: real, mean: real, variance: real)
    requires IsRootOverMean(cv, mean, variance) && mean >= 0.0
    ensures cv >= 0.0
  {
    SignOfFactor(cv, mean);
  }

  /** When the recent totals are not negative, neither is `cv`, so the penalty
      can only lower the confidence. */
  lemma CoefficientOfVariationNonNegative(data: seq<ChartDataPoint>, cv: real)
    requires IsCoefficientOfVariation(data, cv)
    requires forall i :: 0 <= i < |data| ==> data[i].exports + data[i].imports >= 0.0
    ensures cv >= 0.0
  {
    var t := Totals(Recent(data, 5));
    RecentTotalsNonNegative(data);
    SumNonNegative(t);
    DivNonNegative(Sum(t), |t| as real);
    RootOverMeanNonNegative(cv, Mean(t), Variance(t));
  }

  /** For a non-negative `cv`, the confidence never exceeds the base for that
      distance (or 50, the floor). */
  lemma ConfidenceCeiling(yearsAhead: int, cv: real)
    requires cv >= 0.0
    ensures Confidence(yearsAhead, cv) <= if 85 - (yearsAhead - 1) * 10 >= 50 then 85 - (yearsAhead - 1) * 10 else 50
  {
    var base := 85 - (yearsAhead - 1) * 10;
    var bound := if base >= 50 then base else 50;
    var x := Max(base as real - Min(cv * 100.0, 20.0), 50.0);
    RoundMonotone(x, bound as real);
    RoundShift(0.0, bound);
  }

  /** A forecast further out is never more confident. */
  lemma ConfidenceNonIncreasing(nearer: int, further: int, cv: real)
    requires nearer <= further
    ensures Confidence(further, cv) <= Confidence(nearer, cv)
  {
    var penalty := Min(cv * 100.0, 20.0);
    RoundMonotone(Max((85 - (further - 1) * 10) as real - penalty, 50.0), Max((85 - (nearer - 1) * 10) as real - penalty, 50.0));
  }

  /** The second year is exactly ten points less confident than the first,
      whatever the volatility: the penalty is at most 20, so neither year
      reaches the floor of 50. */
  lemma ConfidenceFirstTwoYears(cv: real)
    ensures Confidence(1, cv) == Confidence(2, cv) + 10
  {
    var penalty := Min(cv * 100.0, 20.0);
    RoundShift(75.0 - penalty, 10);
    assert 75.0 - penalty + 10 as real == 85.0 - penalty;
  }

  /** The growth rates between consecutive values, `(v[i] - v[i-1]) / v[i-1]`. */
  function GrowthRates(values: seq<real>): (r: seq<real>)
    requires NonZeroPredecessors(values)
    ensures |r| == if |values| < 2 then 0 else |values| - 1
    ensures forall i :: 0 <= i < |r| ==> r[i] == (values[i + 1] - values[i]) / values[i]
  {
    if |values| < 2 then []
    else seq(|values| - 1, i requires 0 <= i < |values| - 1 => (values[i + 1] - values[i]) / values[i])
  }

  /** Every value that is divided by is non-zero. */
  predicate NonZeroPredecessors(values: seq<real>) {
    forall i :: 0 <= i < |values| - 1 ==> values[i] != 0.0
  }

  /** The growth `calculateAverageGrowth` reports: 5% for fewer than two values,
      otherwise the mean growth rate clamped to [-15%, +20%]. */
  function AverageGrowth(values: seq<real>): (r: real)
    requires NonZeroPredecessors(values)
    ensures -0.15 <= r <= 0.20
  {
    if |values| < 2 then 0.05 else Max(Min(Mean(GrowthRates(values)), 0.20), -0.15)
  }

  /** `calculateAverageGrowth`: collects the growth rates one by one, then
      averages and clamps them. */
  method CalculateAverageGrowth(values: seq<real>) returns (r: real)
    requires NonZeroPredecessors(values)
    ensures r == AverageGrowth(values)
  {
    if |values| < 2 {
      return 0.05;
    }
    var growthRates: seq<real> := [];
    var i := 1;
    while i < |values|
      invariant 1 <= i <= |values|
      invariant |growthRates| == i - 1
      invariant forall j :: 0 <= j < i - 1 ==> growthRates[j] == (values[j + 1] - values[j]) / values[j]
    {
      var growth := (values[i] - values[i - 1]) / values[i - 1];
      growthRates := growthRates + [growth];
      i := i + 1;
    }
    assert growthRates == GrowthRates(values);
    var avgGrowth := Sum(growthRates) / |growthRates| as real;
    r := Max(Min(avgGrowth, 0.20), -0.15);
  }

  /** Fewer than two values give the default 5%; otherwise the mean growth
      rate is reported when it lies in [-15%, +20%] and clamped to the nearer
      bound when it does not. */
  lemma AverageGrowthClamp(values: seq<real>)
    requires NonZeroPredecessors(values)
    ensures |values| < 2 ==> AverageGrowth(values) == 0.05
    ensures |values| >= 2 ==> var m := Mean(GrowthRates(values));
      && (-0.15 <= m <= 0.20 ==> AverageGrowth(values) == m)
      && (m > 0.20 ==> AverageGrowth(values) == 0.20)
      && (m < -0.15 ==> AverageGrowth(values) == -0.15)
  {
  }

  lemma {:induction false} SumConstant(xs: seq<real>, c: real)
    requires forall i :: 0 <= i < |xs| ==> xs[i] == c
    ensures Sum(xs) == |xs| as real * c
  {
    if xs != [] {
      SumConstant(xs[..|xs| - 1], c);
    }
  }

  /** Values that all grow by the same in-range rate `g` report exactly `g`. */
  lemma SteadyGrowthReported(values: seq<real>, g: real)
    requires |values| >= 2 && NonZeroPredecessors(values)
    requires forall i :: 0 <= i < |values| - 1 ==> values[i + 1] == values[i] * (1.0 + g)
    requires -0.15 <= g <= 0.20
    ensures AverageGrowth(values) == g
  {
    var rates := GrowthRates(values);
    SteadyRates(values, g);
    MeanConstant(rates, g);
  }

  lemma SteadyRates(values: seq<real>, g: real)
    requires NonZeroPredecessors(values)
    requires forall i :: 0 <= i < |values| - 1 ==> values[i + 1] == values[i] * (1.0 + g)
    ensures var rates := GrowthRates(values); forall i :: 0 <= i < |rates| ==> rates[i] == g
  {
    var rates := GrowthRates(values);
    forall i | 0 <= i < |rates| ensures rates[i] == g {
      SteadyRateAt(values, g, i);
    }
  }

  /** The rate at one step of steady growth is the growth factor. */
  lemma SteadyRateAt(values: seq<real>, g: real, i: int)
    requires NonZeroPredecessors(values) && 0 <= i < |values| - 1
    requires values[i + 1] == values[i] * (1.0 + g)
    ensures GrowthRates(values)[i] == g
  {
    StepRate(values[i], values[i + 1], g);
  }

  lemma MeanConstant(xs: seq<real>, c: real)
    requires |xs| > 0 && forall i :: 0 <= i < |xs| ==> xs[i] == c
    ensures Mean(xs) == c
  {
    SumConstant(xs, c);
    DivideOut(|xs| as real, c);
  }

  lemma DivideOut(n: real, c: real)
    requires n != 0.0
    ensures (n * c) / n == c
  {
  }

  /** A step from `a` to `a * (1 + g)` has growth rate `g`. */
  lemma StepRate(a: real, b: real, g: real)
    requires a != 0.0 && b == a * (1.0 + g)
    ensures (b - a) / a == g
  {
    RelativeChange(a, g);
  }

  lemma RelativeChange(v: real, g: real)
    requires v != 0.0
    ensures (v * (1.0 + g) - v) / v == g
  {
    assert v * (1.0 + g) - v == v * g;
  }

  function Pow(x: real, n: nat): real
  {
    if n == 0 then 1.0 else Pow(x, n - 1) * x
  }

  lemma {:induction false} PowMonotone(a: real, b: real, n: nat)
    requires 0.0 <= a <= b
    ensures 0.0 <= Pow(a, n) <= Pow(b, n)
  {
    if n > 0 {
      PowMonotone(a, b, n - 1);
      var p, q := Pow(a, n - 1), Pow(b, n - 1);
      assert p * a <= q * a by {
        assert (q - p) * a >= 0.0;
      }
      assert q * a <= q * b by {
        assert q * (b - a) >= 0.0;
      }
    }
  }

  /** The text of year `lastYear + i`; `(NaN + i).toString()` is "NaN". */
  function YearLabel(lastYear: Option<int>, i: int): (r: string)
    ensures lastYear.None? ==> r == "NaN"
  {
    if lastYear.None? then "NaN" else IntToString(lastYear.value + i)
  }

  /** Forecast years read back as the consecutive years after the last one. */
  lemma YearLabelParses(lastYear: int, i: int)
    ensures ParseInt(YearLabel(Some(lastYear), i)) == Some(lastYear + i)
  {
    ParseIntOfIntToString(lastYear + i);
  }

  /** `parseInt` of the last point's year. */
  function LastYear(data: seq<ChartDataPoint>): Option<int>
    requires |data| > 0
  {
    ParseInt(data[|data| - 1].year)
  }

  /** What the fallback needs to avoid dividing by zero. */
  predicate FallbackDefined(data: seq<ChartDataPoint>) {
    NonZeroPredecessors(Exports(Recent(data, 3))) && NonZeroPredecessors(Imports(Recent(data, 3)))
  }

  function ExportGrowth(data: seq<ChartDataPoint>): real
    requires FallbackDefined(data)
  {
    AverageGrowth(Exports(Recent(data, 3)))
  }

  function ImportGrowth(data: seq<ChartDataPoint>): real
    requires FallbackDefined(data)
  {
    AverageGrowth(Imports(Recent(data, 3)))
  }

  function Count(n: int): nat {
    if n < 0 then 0 else n
  }

  /** `v` grown `n` times by the rate `g`, one year after another. */
  function Compound(v: real, g: real, n: nat): real
  {
    if n == 0 then v else Compound(v, g, n - 1) * (1.0 + g)
  }

  /** Compounding `n` times is multiplying by `(1 + g)^n`. */
  lemma {:induction false} CompoundClosedForm(v: real, g: real, n: nat)
    ensures Compound(v, g, n) == v * Pow(1.0 + g, n)
  {
    if n > 0 {
      CompoundClosedForm(v, g, n - 1);
      assert v * Pow(1.0 + g, n - 1) * (1.0 + g) == v * (Pow(1.0 + g, n - 1) * (1.0 + g));
    }
  }

  /** The `i + 1`-th year (`i` from 0) extrapolated from the last year's
      values: both compounded `i + 1` times at their growth rates, the year
      `i + 1` after the last one, and a confidence falling from 75 by 10 a
      year. */
  function ExtrapolatedEntry(lastYear: Option<int>, lastExport: real, lastImport: real, exportGrowth: real, importGrowth: real, i: nat): ForecastResult
  {
    ForecastResult(
      YearLabel(lastYear, i + 1),
      Round(Compound(lastExport, exportGrowth, i + 1)),
      Round(Compound(lastImport, importGrowth, i + 1)),
      75 - i * 10)
  }

  /** The fallback forecast in closed form. */
  function CompoundedForecast(data: seq<ChartDataPoint>, yearsToPredict: int): (r: seq<ForecastResult>)
    requires |data| > 0 && FallbackDefined(data)
    ensures |r| == Count(yearsToPredict)
    ensures forall i :: 0 <= i < |r| ==> r[i] == ExtrapolatedEntry(LastYear(data), data[|data| - 1].exports, data[|data| - 1].imports, ExportGrowth(data), ImportGrowth(data), i)
  {
    var last := data[|data| - 1];
    seq(Count(yearsToPredict), i requires 0 <= i => ExtrapolatedEntry(LastYear(data), last.exports, last.imports, ExportGrowth(data), ImportGrowth(data), i))
  }

  /** The loop of `simpleForecast`: grows both values by their rates once a
      year and records each year's rounded values. */
  method Extrapolate(lastYear: Option<int>, lastExport: real, lastImport: real, exportGrowth: real, importGrowth: real, yearsToPredict: int)
    returns (predictions: seq<ForecastResult>)
    ensures |predictions| == Count(yearsToPredict)
    ensures forall i :: 0 <= i < |predictions| ==> predictions[i] == ExtrapolatedEntry(lastYear, lastExport, lastImport, exportGrowth, importGrowth, i)
  {
    predictions := [];
    var currentExport := lastExport;
    var currentImport := lastImport;
    var i := 1;
    while i <= yearsToPredict
      invariant 1 <= i <= Count(yearsToPredict) + 1
      invariant |predictions| == i - 1
      invariant currentExport == Compound(lastExport, exportGrowth, i - 1)
      invariant currentImport == Compound(lastImport, importGrowth, i - 1)
      invariant forall j :: 0 <= j < i - 1 ==> predictions[j] == ExtrapolatedEntry(lastYear, lastExport, lastImport, exportGrowth, importGrowth, j)
    {
      currentExport := currentExport * (1.0 + exportGrowth);
      currentImport := currentImport * (1.0 + importGrowth);
      predictions := predictions + [ForecastResult(YearLabel(lastYear, i), Round(currentExport), Round(currentImport), 75 - (i - 1) * 10)];
      i := i + 1;
    }
  }

  /** `simpleForecast`; `None` is the `TypeError` thrown when there is no
      last point to read. */
  method SimpleForecast(data: seq<ChartDataPoint>, yearsToPredict: int) returns (r: Option<seq<ForecastResult>>)
    requires FallbackDefined(data)
    ensures data == [] ==> r == None
    ensures data != [] ==> r == Some(CompoundedForecast(data, yearsToPredict))
  {
    if data == [] {
      return None;
    }
    var lastYear := LastYear(data);
    var recentData := Recent(data, 3);
    var exportGrowth := CalculateAverageGrowth(Exports(recentData));
    var importGrowth := CalculateAverageGrowth(Imports(recentData));
    var last := data[|data| - 1];
    var predictions := Extrapolate(lastYear, last.exports, last.imports, exportGrowth, importGrowth, yearsToPredict);
    assert predictions == CompoundedForecast(data, yearsToPredict);
    return Some(predictions);
  }

  /** The `i + 1`-th year (`i` from 0) predicted by the models: their values
      `i + 1` steps past the last time index, the year `i + 1` after the last
      one, and the heuristic confidence for `i + 1` years ahead. */
  function ProjectedEntry(lastYear: Option<int>, lastYearIndex: int, model: Regression, cv: real, i: nat): ForecastResult
  {
    ForecastResult(
      YearLabel(lastYear, i + 1),
      Round(model.exportsAt(lastYearIndex + i + 1)),
      Round(model.importsAt(lastYearIndex + i + 1)),
      Confidence(i + 1, cv))
  }

  /** The main forecast in closed form; each confidence is
      `calculateConfidence(data, i + 1)`. */
  function RegressionForecast(data: seq<ChartDataPoint>, yearsToPredict: int, model: Regression, cv: real): (r: seq<ForecastResult>)
    requires |data| > 0 && IsCoefficientOfVariation(data, cv)
    ensures |r| == Count(yearsToPredict)
    ensures forall i :: 0 <= i < |r| ==> r[i] == ProjectedEntry(LastYear(data), |data| - 1, model, cv, i)
    ensures forall i :: 0 <= i < |r| ==> r[i].confidence == CalculateConfidence(data, i + 1, cv)
  {
    seq(Count(yearsToPredict), i requires 0 <= i => ProjectedEntry(LastYear(data), |data| - 1, model, cv, i))
  }

  /** The loop of `forecastTradeData`: asks both models for each future time
      index and records the rounded predictions. */
  method Project(lastYear: Option<int>, lastYearIndex: int, model: Regression, cv: real, yearsToPredict: int)
    returns (predictions: seq<ForecastResult>)
    ensures |predictions| == Count(yearsToPredict)
    ensures forall i :: 0 <= i < |predictions| ==> predictions[i] == ProjectedEntry(lastYear, lastYearIndex, model, cv, i)
  {
    predictions := [];
    var i := 1;
    while i <= yearsToPredict
      invariant 1 <= i <= Count(yearsToPredict) + 1
      invariant |predictions| == i - 1
      invariant forall j :: 0 <= j < i - 1 ==> predictions[j] == ProjectedEntry(lastYear, lastYearIndex, model, cv, j)
    {
      var futureIndex := lastYearIndex + i;
      var exportValue := model.exportsAt(futureIndex);
      var importValue := model.importsAt(futureIndex);
      var confidence := Confidence(i, cv);
      predictions := predictions + [ForecastResult(YearLabel(lastYear, i), Round(exportValue), Round(importValue), confidence)];
      i := i + 1;
    }
  }

  /** `forecastTradeData`. A fit that throws (`regression == None`) and a
      missing last point both land in the fallback; with no data at all the
      fallback throws too, and the result is `None`. */
  method ForecastTradeData(historicalData: seq<ChartDataPoint>, yearsToPredict: int, regression: Option<Regression>, cv: real)
    returns (r: Option<seq<ForecastResult>>)
    requires regression.None? ==> FallbackDefined(historicalData)
    requires regression.Some? && historicalData != [] ==> IsCoefficientOfVariation(historicalData, cv)
    ensures historicalData == [] ==> r == None
    ensures historicalData != [] && regression.None? ==> r == Some(CompoundedForecast(historicalData, yearsToPredict))
    ensures historicalData != [] && regression.Some? ==> r == Some(RegressionForecast(historicalData, yearsToPredict, regression.value, cv))
  {
    if historicalData == [] {
      return None;
    }
    if regression.None? {
      r := SimpleForecast(historicalData, yearsToPredict);
      return;
    }
    var lastYear := LastYear(historicalData);
    var predictions := Project(lastYear, |historicalData| - 1, regression.value, cv, yearsToPredict);
    ProjectionIsRegressionForecast(historicalData, yearsToPredict, regression.value, cv, predictions);
    return Some(predictions);
  }

  lemma ProjectionIsRegressionForecast(data: seq<ChartDataPoint>, yearsToPredict: int, model: Regression, cv: real, predictions: seq<ForecastResult>)
    requires |data| > 0 && IsCoefficientOfVariation(data, cv)
    requires |predictions| == Count(yearsToPredict)
    requires forall i :: 0 <= i < |predictions| ==> predictions[i] == ProjectedEntry(LastYear(data), |data| - 1, model, cv, i)
    ensures predictions == RegressionForecast(data, yearsToPredict, model, cv)
  {
  }

  /** Fallback entries are dated consecutively after the last year and lose
      ten points of confidence per year, with no floor. */
  lemma CompoundedForecastYearsAndConfidence(data: seq<ChartDataPoint>, yearsToPredict: int, lastYear: int)
    requires |data| > 0 && FallbackDefined(data) && LastYear(data) == Some(lastYear)
    ensures forall i :: 0 <= i < Count(yearsToPredict) ==>
      ParseInt(CompoundedForecast(data, yearsToPredict)[i].year) == Some(lastYear + i + 1)
      && CompoundedForecast(data, yearsToPredict)[i].confidence == 75 - 10 * i
  {
    var f := CompoundedForecast(data, yearsToPredict);
    forall i | 0 <= i < Count(yearsToPredict)
      ensures ParseInt(f[i].year) == Some(lastYear + i + 1) && f[i].confidence == 75 - 10 * i
    {
      YearLabelParses(lastYear, i + 1);
    }
  }

  lemma MulNonNegative(a: real, b: real)
    requires a >= 0.0 && b >= 0.0
    ensures a * b >= 0.0
  {
  }

  lemma MulPositive(a: real, b: real)
    requires a > 0.0 && b > 0.0
    ensures a * b > 0.0
  {
  }

  /** The fallback's growth rate lies in [-15%, +20%], so a non-negative value
      compounded at it stays between compounding at the two extremes, and in
      particular never turns negative. */
  lemma CompoundBounded(v: real, g: real, n: nat)
    requires v >= 0.0 && -0.15 <= g <= 0.20
    ensures 0.0 <= v * Pow(0.85, n) <= Compound(v, g, n) <= v * Pow(1.20, n)
  {
    CompoundClosedForm(v, g, n);
    PowMonotone(0.85, 1.0 + g, n);
    PowMonotone(1.0 + g, 1.20, n);
    var lo, mid, hi := Pow(0.85, n), Pow(1.0 + g, n), Pow(1.20, n);
    MulNonNegative(v, lo);
    MulNonNegative(v, mid - lo);
    MulNonNegative(v, hi - mid);
    assert v * (mid - lo) == v * mid - v * lo;
    assert v * (hi - mid) == v * hi - v * mid;
  }

  /** From non-negative last values, every fallback prediction is non-negative. */
  lemma ExtrapolatedNonNegative(lastYear: Option<int>, lastExport: real, lastImport: real, exportGrowth: real, importGrowth: real, i: nat)
    requires lastExport >= 0.0 && lastImport >= 0.0
    requires -0.15 <= exportGrowth <= 0.20 && -0.15 <= importGrowth <= 0.20
    ensures ExtrapolatedEntry(lastYear, lastExport, lastImport, exportGrowth, importGrowth, i).exports >= 0
    ensures ExtrapolatedEntry(lastYear, lastExport, lastImport, exportGrowth, importGrowth, i).imports >= 0
  {
    CompoundBounded(lastExport, exportGrowth, i + 1);
    CompoundBounded(lastImport, importGrowth, i + 1);
    RoundMonotone(0.0, Compound(lastExport, exportGrowth, i + 1));
    RoundMonotone(0.0, Compound(lastImport, importGrowth, i + 1));
  }

  lemma CompoundedForecastNonNegative(data: seq<ChartDataPoint>, yearsToPredict: int)
    requires |data| > 0 && FallbackDefined(data)
    requires data[|data| - 1].exports >= 0.0 && data[|data| - 1].imports >= 0.0
    ensures forall i :: 0 <= i < Count(yearsToPredict) ==>
      CompoundedForecast(data, yearsToPredict)[i].exports >= 0 && CompoundedForecast(data, yearsToPredict)[i].imports >= 0
  {
    var f := CompoundedForecast(data, yearsToPredict);
    var last := data[|data| - 1];
    var lastYear, gE, gI := LastYear(data), ExportGrowth(data), ImportGrowth(data);
    forall i | 0 <= i < Count(yearsToPredict) ensures f[i].exports >= 0 && f[i].imports >= 0 {
      ExtrapolatedNonNegative(lastYear, last.exports, last.imports, gE, gI, i);
    }
  }

  /** Main-path entries are dated consecutively after the last year; their
      confidence is at least 50 and never rises from one year to the next. */
  lemma RegressionForecastYearsAndConfidence(data: seq<ChartDataPoint>, yearsToPredict: int, model: Regression, cv: real, lastYear: int)
    requires |data| > 0 && IsCoefficientOfVariation(data, cv) && LastYear(data) == Some(lastYear)
    ensures forall i :: 0 <= i < Count(yearsToPredict) ==>
      ParseInt(RegressionForecast(data, yearsToPredict, model, cv)[i].year) == Some(lastYear + i + 1)
      && RegressionForecast(data, yearsToPredict, model, cv)[i].confidence >= 50
    ensures forall i :: 0 <= i < Count(yearsToPredict) - 1 ==>
      RegressionForecast(data, yearsToPredict, model, cv)[i + 1].confidence <= RegressionForecast(data, yearsToPredict, model, cv)[i].confidence
  {
    var f := RegressionForecast(data, yearsToPredict, model, cv);
    forall i | 0 <= i < Count(yearsToPredict)
      ensures ParseInt(f[i].year) == Some(lastYear + i + 1) && f[i].confidence >= 50
    {
      YearLabelParses(lastYear, i + 1);
    }
    forall i | 0 <= i < Count(yearsToPredict) - 1 ensures f[i + 1].confidence <= f[i].confidence {
      ConfidenceNonIncreasing(i + 1, i + 2, cv);
    }
  }

  /** `calculateConfidenceInterval`: a margin of `(100 - confidence)%` of the
      prediction on either side, each bound rounded. */
  function CalculateConfidenceInterval(prediction: real, confidence: real): (r: Interval)
    ensures prediction >= 0.0 && confidence <= 100.0 ==> r.lower <= Round(prediction) <= r.upper
    ensures prediction >= 0.0 && confidence >= 0.0 ==> r.lower >= 0
    ensures confidence == 100.0 ==> r.lower == r.upper == Round(prediction)
  {
    var margin := prediction * ((100.0 - confidence) / 100.0);
    assert prediction >= 0.0 && confidence <= 100.0 ==> Round(prediction - margin) <= Round(prediction) <= Round(prediction + margin) by {
      if prediction >= 0.0 && confidence <= 100.0 {
        MulNonNegative(prediction, (100.0 - confidence) / 100.0);
        RoundMonotone(prediction - margin, prediction);
        RoundMonotone(prediction, prediction + margin);
      }
    }
    assert prediction >= 0.0 && confidence >= 0.0 ==> Round(prediction - margin) >= 0 by {
      if prediction >= 0.0 && confidence >= 0.0 {
        assert prediction - margin == prediction * (confidence / 100.0);
        MulNonNegative(prediction, confidence / 100.0);
        RoundMonotone(0.0, prediction - margin);
      }
    }
    Interval(Round(prediction - margin), Round(prediction + margin))
  }
}
