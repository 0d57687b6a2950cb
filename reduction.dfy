/** The reduction of a scan to an experimental value of Planck's constant
    (components/ResultsDisplay.tsx, the calculationResults memo): find the
    cutoff angle, turn it into the cutoff wavelength by Bragg's law, and
    compute h = e V lambda_min / c with its error against the accepted value. */
module Reduction {
  import opened Physics
  import Spectrum

  datatype Option<T> = None | Some(value: T)

  /** A point is significant when its rate exceeds this fraction of the
      largest rate in the series. */
  const SignificanceFraction: real := 0.05

  datatype CalculationResults = CalculationResults(
    cutoffAngle: Tenths,
    lambdaMinPm: real,
    calculatedPlanck: real,
    errorPercentage: real)

  /** The largest count rate of a non-empty series (Math.max over the rates). */
  function MaxCountRate(pts: seq<DataPoint>): (m: real)
    requires |pts| > 0
    ensures exists i :: 0 <= i < |pts| && pts[i].countRate == m
    ensures forall i :: 0 <= i < |pts| ==> pts[i].countRate <= m
  {
    if |pts| == 1 then pts[0].countRate
    else
      var rest := MaxCountRate(pts[1..]);
      if pts[0].countRate >= rest then pts[0].countRate else rest
  }

  /** Index i is the first point whose rate exceeds the threshold. */
  ghost predicate IsFirstAbove(pts: seq<DataPoint>, i: int, threshold: real)
  {
    0 <= i < |pts| && pts[i].countRate > threshold &&
    forall j :: 0 <= j < i ==> pts[j].countRate <= threshold
  }

  /** The index of the point Array.prototype.find returns for the test
      "rate > threshold": the first such point, or none. */
  function FindFirstAbove(pts: seq<DataPoint>, threshold: real): (r: Option<nat>)
    ensures r.Some? ==> IsFirstAbove(pts, r.value, threshold)
    ensures r.None? ==> forall j :: 0 <= j < |pts| ==> pts[j].countRate <= threshold
  {
    if |pts| == 0 then None
    else if pts[0].countRate > threshold then Some(0)
    else
      match FindFirstAbove(pts[1..], threshold)
      case None => None
      case Some(k) =>
        assert forall j :: 1 <= j <= k + 1 ==> pts[j] == pts[1..][j - 1];
        Some(k + 1)
  }

  /** Planck's constant back-calculated from the cutoff wavelength,
      h = e V lambda_min / c, with lambda_min converted from pm to m. It is
      the Duane–Hunt formula solved for h: the ratio of the result to the
      accepted constant is the ratio of the wavelength to the true cutoff. */
  function PlanckFromCutoff(voltage: real, lambdaMinPm: real): (h: real)
    ensures voltage != 0.0 ==> h * Spectrum.CutoffWavelengthPm(voltage) == PlanckConstant * lambdaMinPm
    ensures voltage > 0.0 && lambdaMinPm > 0.0 ==> h > 0.0
  {
    (ElementaryCharge * voltage * (lambdaMinPm * 1e-12)) / SpeedOfLight
  }

  function Abs(x: real): real
  {
    if x < 0.0 then -x else x
  }

  /** The percentage error |h - h_accepted| / h_accepted * 100: never
      negative, and zero exactly when the accepted value is met. */
  function PercentageError(h: real): (e: real)
    ensures e >= 0.0
    ensures e == 0.0 <==> h == PlanckConstant
  {
    Abs((h - PlanckConstant) / PlanckConstant) * 100.0
  }

  /** The significance threshold of a series of at least two points: 5% of
      its largest rate, so at least 5% of every rate, and for non-negative
      rates between 0 and the largest rate. */
  function Threshold(pts: seq<DataPoint>): (t: real)
    requires |pts| >= 2
    ensures forall i :: 0 <= i < |pts| ==> pts[i].countRate * SignificanceFraction <= t
    ensures (forall i :: 0 <= i < |pts| ==> pts[i].countRate >= 0.0) ==> 0.0 <= t <= MaxCountRate(pts)
  {
    MaxCountRate(pts) * SignificanceFraction
  }

  /** calculationResults: none for fewer than two points or when no point
      is significant; otherwise the values derived from the first
      significant point. */
  function CalculateResults(pts: seq<DataPoint>, voltage: real, sinDeg: real -> real): (res: Option<CalculationResults>)
    ensures |pts| < 2 ==> res.None?
    ensures res.Some? <==>
      |pts| >= 2 && exists i :: 0 <= i < |pts| && pts[i].countRate > Threshold(pts)
    ensures res.Some? ==>
      exists i :: IsFirstAbove(pts, i, Threshold(pts)) &&
        res.value.cutoffAngle == pts[i].crystalAngle &&
        res.value.lambdaMinPm == BraggWavelengthPm(sinDeg, pts[i].crystalAngle)
    ensures res.Some? ==>
      res.value.calculatedPlanck == PlanckFromCutoff(voltage, res.value.lambdaMinPm) &&
      res.value.errorPercentage == PercentageError(res.value.calculatedPlanck) &&
      res.value.errorPercentage >= 0.0
  {
    if |pts| < 2 then None
    else
      match FindFirstAbove(pts, Threshold(pts))
      case None => None
      case Some(i) =>
        var angle := pts[i].crystalAngle;
        var lambdaMinPm := BraggWavelengthPm(sinDeg, angle);
        var h := PlanckFromCutoff(voltage, lambdaMinPm);
        Some(CalculationResults(angle, lambdaMinPm, h, PercentageError(h)))
  }

  /** The largest point is itself significant as soon as the largest rate is
      positive, so a series of two or more points with a positive rate always
      yields a result. */
  lemma ResultExistsWhenMaxPositive(pts: seq<DataPoint>, voltage: real, sinDeg: real -> real)
    requires |pts| >= 2
    requires MaxCountRate(pts) > 0.0
    ensures CalculateResults(pts, voltage, sinDeg).Some?
  {
  }

  /** A series whose rates are all zero yields no result. */
  lemma AllZeroGivesNone(pts: seq<DataPoint>, voltage: real, sinDeg: real -> real)
    requires forall i :: 0 <= i < |pts| ==> pts[i].countRate == 0.0
    ensures CalculateResults(pts, voltage, sinDeg).None?
  {
  }

  /** At the Duane–Hunt limit the back-calculation returns the accepted
      constant exactly, and above it a larger value: an estimate taken from
      a wavelength at or above the true cutoff never undershoots h. */
  lemma PlanckAtOrAboveCutoff(voltage: real, lambdaMinPm: real)
    requires voltage > 0.0
    requires lambdaMinPm >= Spectrum.CutoffWavelengthPm(voltage)
    ensures PlanckFromCutoff(voltage, lambdaMinPm) >= PlanckConstant
    ensures PlanckFromCutoff(voltage, lambdaMinPm) == PlanckConstant <==>
      lambdaMinPm == Spectrum.CutoffWavelengthPm(voltage)
    ensures PercentageError(PlanckFromCutoff(voltage, lambdaMinPm)) ==
      (PlanckFromCutoff(voltage, lambdaMinPm) - PlanckConstant) / PlanckConstant * 100.0
  {
  }
}
