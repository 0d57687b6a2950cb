/** The scan controller of App.tsx: the four pieces of React state, the
    interval handle, and the closure counter that the interval callback
    advances, with the start, tick, reset and manual-angle operations.

    The interval callback is the method Tick, one call per timer firing;
    the timer handle is the flag timerActive. Math.random is the argument of
    Tick; the sine and the exponential are fixed when the controller is
    created. */
module Scan {
  import opened Physics
  import Spectrum
  import Reduction

  /** The accelerating voltage, 30 kV. */
  const Voltage: real := 30000.0
  /** The first and last angle of a scan, 1.0° and 20.0°, in tenths. */
  const ScanStart: Tenths := 10
  const ScanEnd: Tenths := 200
  /** The step of a scan, in degrees. */
  const ScanStep: real := 0.1
  /** The number of samples of a complete scan: 1.0, 1.1, ..., 20.0. */
  const ScanLength: nat := 191

  /** parseFloat(x.toFixed(1)) for the non-negative angles of a scan,
      expressed in tenths: round half up to one decimal, that is the nearest
      tenth, ties going up. */
  function RoundToTenths(x: real): (t: Tenths)
    ensures Degrees(t) - 0.05 <= x < Degrees(t) + 0.05
  {
    (x * 10.0 + 0.5).Floor
  }

  /** The next angle of the closure counter: the current angle plus the
      step, rounded to one decimal. From an exact tenth it advances by
      exactly one tenth. */
  function NextAngle(t: Tenths): (n: Tenths)
    ensures n == t + 1
  {
    RoundToTenths(Degrees(t) + ScanStep)
  }

  /** What the rounding is for: a counter that has drifted from its tenth
      by less than 0.04° (as repeated floating-point additions of 0.1 do)
      still lands exactly on the next tenth. */
  lemma RoundingAbsorbsDrift(x: real, t: Tenths)
    requires -0.04 < x - Degrees(t) < 0.04
    ensures RoundToTenths(x + ScanStep) == t + 1
  {
  }

  /** The progress shown for angle t, in percent:
      (angle - start) / (end - start) * 100. */
  function Progress(t: Tenths): (p: real)
    ensures ScanStart <= t <= ScanEnd ==> 0.0 <= p <= 100.0
    ensures p == 0.0 <==> t == ScanStart
    ensures p == 100.0 <==> t == ScanEnd
  {
    (Degrees(t) - Degrees(ScanStart)) / (Degrees(ScanEnd) - Degrees(ScanStart)) * 100.0
  }

  /** A value Math.random can return. */
  predicate IsDraw(r: real)
  {
    0.0 <= r < 1.0
  }

  /** The data point a tick records at angle t, given the random draw: the
      crystal at t, the sensor at 2t, the Bragg wavelength of t, and a rate
      that is never negative and zero below the cutoff at 30 kV. */
  function ScanPoint(sinDeg: real -> real, exp: real -> real, t: Tenths, r: real): (p: DataPoint)
    requires IsDraw(r)
    ensures p.crystalAngle == t && p.sensorAngle == 2 * t
    ensures p.wavelengthPm == BraggWavelengthPm(sinDeg, t)
    ensures p.countRate >= 0.0
    ensures !Spectrum.AtOrAboveCutoff(p.wavelengthPm, Voltage) ==> p.countRate == 0.0
  {
    var s := Spectrum.CalculateCountRate(sinDeg, exp, t, Voltage, r);
    DataPoint(t, t * 2, s.wavelengthPm, s.countRate)
  }

  /** The series a scan has recorded after |draws| ticks, one point per
      draw: the angles run 1.0, 1.1, ... in steps of one tenth, each sensor
      angle is twice its crystal angle, and every rate is non-negative and
      zero below the cutoff. */
  function Series(sinDeg: real -> real, exp: real -> real, draws: seq<real>): (s: seq<DataPoint>)
    requires forall i :: 0 <= i < |draws| ==> IsDraw(draws[i])
    ensures |s| == |draws|
    ensures forall i :: 0 <= i < |s| ==>
      s[i].crystalAngle == ScanStart + i &&
      s[i].sensorAngle == 2 * s[i].crystalAngle &&
      s[i].wavelengthPm == BraggWavelengthPm(sinDeg, s[i].crystalAngle) &&
      s[i].countRate >= 0.0 &&
      (!Spectrum.AtOrAboveCutoff(s[i].wavelengthPm, Voltage) ==> s[i].countRate == 0.0)
  {
    seq(|draws|, i requires 0 <= i < |draws| => ScanPoint(sinDeg, exp, ScanStart + i, draws[i]))
  }

  /** One more tick extends the series by the point of the next angle. */
  lemma SeriesAppend(sinDeg: real -> real, exp: real -> real, draws: seq<real>, r: real)
    requires forall i :: 0 <= i < |draws| ==> IsDraw(draws[i])
    requires IsDraw(r)
    ensures Series(sinDeg, exp, draws + [r]) ==
      Series(sinDeg, exp, draws) + [ScanPoint(sinDeg, exp, ScanStart + |draws|, r)]
  {
    var longer := draws + [r];
    assert forall i :: 0 <= i < |draws| ==> longer[i] == draws[i];
  }

  class ScanController {
    // The React state (App.tsx:18-21).
    var crystalAngle: Tenths
    var dataPoints: seq<DataPoint>
    var isScanning: bool
    var scanProgress: real
    /** Whether an interval is live (scanIntervalRef holds a handle). */
    var timerActive: bool
    /** The closure counter of the running scan. */
    var currentAngle: Tenths
    /** The sine (of degrees) and the exponential the spectrum uses. */
    const sinDeg: real -> real
    const exp: real -> real
    /** The random draws of the ticks that recorded the current series. */
    ghost var draws: seq<real>

    ghost predicate Valid()
      reads this
    {
      && timerActive == isScanning
      && 0.0 <= scanProgress <= 100.0
      && (forall i :: 0 <= i < |draws| ==> IsDraw(draws[i]))
      && dataPoints == Series(sinDeg, exp, draws)
      && (isScanning ==>
            && ScanStart <= currentAngle <= ScanEnd + 1
            && |dataPoints| == currentAngle - ScanStart
            && (currentAngle > ScanStart ==>
                  crystalAngle == currentAngle - 1 && scanProgress == Progress(currentAngle - 1)))
      && (!isScanning ==> |dataPoints| == 0 || |dataPoints| == ScanLength)
    }

    /** The state before any scan, and after every reset. */
    ghost predicate IsInitial()
      reads this
    {
      crystalAngle == ScanStart && dataPoints == [] && !isScanning &&
      scanProgress == 0.0 && !timerActive
    }

    constructor (sinDeg: real -> real, exp: real -> real)
      ensures Valid() && IsInitial()
      ensures this.sinDeg == sinDeg && this.exp == exp
    {
      this.sinDeg := sinDeg;
      this.exp := exp;
      crystalAngle := ScanStart;
      dataPoints := [];
      isScanning := false;
      scanProgress := 0.0;
      timerActive := false;
      currentAngle := ScanStart;
      draws := [];
    }

    /** handleStartScan: a no-op while a scan runs; otherwise the series is
        cleared, the counter restarts at 1.0 and the interval is started.
        The angle and the progress keep their values until the first tick. */
    method Start()
      requires Valid()
      modifies this
      ensures Valid()
      ensures old(isScanning) ==> unchanged(this)
      ensures !old(isScanning) ==>
        && isScanning && timerActive
        && dataPoints == [] && draws == [] && currentAngle == ScanStart
        && crystalAngle == old(crystalAngle) && scanProgress == old(scanProgress)
    {
      if isScanning {
        return;
      }
      isScanning := true;
      dataPoints := [];
      draws := [];
      currentAngle := ScanStart;
      timerActive := true;
    }

    /** One firing of the interval: past the last angle the scan finishes,
        otherwise one sample is recorded. */
    method Tick(r: real)
      requires Valid() && timerActive
      requires IsDraw(r)
      modifies this
      ensures Valid()
      ensures old(currentAngle) > ScanEnd ==>
        && !isScanning && !timerActive && scanProgress == 100.0
        && dataPoints == old(dataPoints) && |dataPoints| == ScanLength
        && draws == old(draws) && crystalAngle == old(crystalAngle)
        && currentAngle == old(currentAngle)
      ensures old(currentAngle) <= ScanEnd ==>
        && isScanning && timerActive
        && dataPoints == old(dataPoints) + [ScanPoint(sinDeg, exp, old(currentAngle), r)]
        && draws == old(draws) + [r]
        && crystalAngle == old(currentAngle) == dataPoints[|dataPoints| - 1].crystalAngle
        && scanProgress == Progress(old(currentAngle))
        && currentAngle == old(currentAngle) + 1
    {
      if currentAngle > ScanEnd {
        FinishScan();
      } else {
        RecordSample(r);
      }
    }

    /** The first branch of the interval callback: the interval is cleared,
        the scan ends and the progress is 100, with no point added. The scan
        has then recorded all 191 points. */
    method FinishScan()
      requires Valid() && timerActive && currentAngle > ScanEnd
      modifies this
      ensures Valid()
      ensures !isScanning && !timerActive && scanProgress == 100.0
      ensures dataPoints == old(dataPoints) && |dataPoints| == ScanLength
      ensures draws == old(draws) && crystalAngle == old(crystalAngle) && currentAngle == old(currentAngle)
    {
      timerActive := false;
      isScanning := false;
      scanProgress := 100.0;
    }

    /** The second branch of the interval callback: the displayed angle
        becomes the counter, the spectrum model is evaluated there and its
        point appended, the progress becomes that of the counter, and the
        counter advances by one tenth. */
    method RecordSample(r: real)
      requires Valid() && timerActive && currentAngle <= ScanEnd
      requires IsDraw(r)
      modifies this
      ensures Valid()
      ensures isScanning && timerActive
      ensures dataPoints == old(dataPoints) + [ScanPoint(sinDeg, exp, old(currentAngle), r)]
      ensures draws == old(draws) + [r]
      ensures crystalAngle == old(currentAngle) == dataPoints[|dataPoints| - 1].crystalAngle
      ensures scanProgress == Progress(old(currentAngle))
      ensures currentAngle == old(currentAngle) + 1
    {
      var angle := currentAngle;
      SeriesAppend(sinDeg, exp, draws, r);
      crystalAngle := angle;
      var point := ScanPoint(sinDeg, exp, angle, r);
      dataPoints := dataPoints + [point];
      draws := draws + [r];
      scanProgress := Progress(angle);
      currentAngle := NextAngle(angle);
    }

    /** handleReset: clears any interval and returns the four state fields
        to their initial values; safe in every state. It leaves the closure
        counter alone, so resetting a state that is already initial changes
        nothing: Reset is idempotent. */
    method Reset()
      requires Valid()
      modifies this
      ensures Valid() && IsInitial()
      ensures currentAngle == old(currentAngle)
      ensures old(IsInitial()) ==> unchanged(this)
    {
      if timerActive {
        timerActive := false;
      }
      isScanning := false;
      dataPoints := [];
      draws := [];
      crystalAngle := ScanStart;
      scanProgress := 0.0;
    }

    /** The setter handed to the control panel: ignored while a scan runs,
        applied otherwise. */
    method SetCrystalAngle(angle: Tenths)
      requires Valid()
      modifies this
      ensures Valid()
      ensures old(isScanning) ==> unchanged(this)
      ensures !old(isScanning) ==>
        && crystalAngle == angle
        && dataPoints == old(dataPoints) && !isScanning && !timerActive
        && scanProgress == old(scanProgress)
        && currentAngle == old(currentAngle) && draws == old(draws)
    {
      if !isScanning {
        crystalAngle := angle;
      }
    }
  }

  lemma PrefixGrows(s: seq<real>, i: nat)
    requires i < |s|
    ensures s[..i + 1] == s[..i] + [s[i]]
  {
  }

  /** A whole scan from a fresh controller: the first 191 ticks record the
      angles 1.0 to 20.0 in order while the scan keeps running, and the
      192nd ends it, with the timer cleared and progress 100. The series is
      exactly the one the spectrum model gives for the draws. */
  method FullScan(sinDeg: real -> real, exp: real -> real, randoms: seq<real>)
    returns (series: seq<DataPoint>, progress: real, runningAfterLastSample: bool,
             scanning: bool, timerLive: bool)
    requires |randoms| == ScanLength
    requires forall i :: 0 <= i < |randoms| ==> IsDraw(randoms[i])
    ensures series == Series(sinDeg, exp, randoms)
    ensures |series| == ScanLength
    ensures series[0].crystalAngle == ScanStart && series[ScanLength - 1].crystalAngle == ScanEnd
    ensures forall i :: 0 < i < |series| ==> series[i - 1].crystalAngle < series[i].crystalAngle
    ensures runningAfterLastSample
    ensures !scanning && !timerLive && progress == 100.0
  {
    var c := new ScanController(sinDeg, exp);
    c.Start();
    for i := 0 to ScanLength
      invariant c.Valid() && c.sinDeg == sinDeg && c.exp == exp
      invariant c.isScanning && c.timerActive && c.currentAngle == ScanStart + i
      invariant c.draws == randoms[..i]
    {
      c.Tick(randoms[i]);
      PrefixGrows(randoms, i);
    }
    assert randoms[..ScanLength] == randoms;
    runningAfterLastSample := c.isScanning;
    c.Tick(0.0);
    series := c.dataPoints;
    progress := c.scanProgress;
    scanning := c.isScanning;
    timerLive := c.timerActive;
  }

  /** What the calculation panel shows for the data of a scan at 30 kV
      (App.tsx hands dataPoints and VOLTAGE to the result display): when
      there is a result, its cutoff wavelength is at or above the
      Duane–Hunt limit, because the first significant point has a positive
      rate and below the limit every rate is zero. So the calculated
      constant is never below the accepted one, and the percentage error is
      exactly its relative excess. */
  lemma ScanEstimateNeverUndershoots(sinDeg: real -> real, exp: real -> real, draws: seq<real>)
    requires forall i :: 0 <= i < |draws| ==> IsDraw(draws[i])
    ensures
      var res := Reduction.CalculateResults(Series(sinDeg, exp, draws), Voltage, sinDeg);
      res.Some? ==>
        && res.value.lambdaMinPm >= Spectrum.CutoffWavelengthPm(Voltage)
        && res.value.calculatedPlanck >= PlanckConstant
        && res.value.errorPercentage ==
             (res.value.calculatedPlanck - PlanckConstant) / PlanckConstant * 100.0
  {
  }
}
