/** The simulated X-ray spectrum: from a crystal angle and an accelerating
    voltage to a wavelength and a noisy count rate (App.tsx, calculateCountRate).

    The floating-point numerics are parameters: `sinDeg` is the sine of an
    angle in degrees, `exp` the exponential, and `random` one draw of
    Math.random, a real in [0, 1). */
module Spectrum {
  import opened Physics

  /** Centre of the copper K-alpha line, pm. */
  const KAlphaPm: real := 154.0
  /** Centre of the copper K-beta line, pm. */
  const KBetaPm: real := 139.0
  const KAlphaHeight: real := 4000.0
  const KBetaHeight: real := 900.0
  /** Width of both characteristic lines, pm. */
  const PeakWidthPm: real := 1.5
  /** The characteristic lines appear only above this voltage (the copper
      K-shell binding energy, 8.9 keV). */
  const KShellThreshold: real := 8900.0
  /** Scale of the continuous (bremsstrahlung) background. */
  const BackgroundScale: real := 2000.0
  /** Noise is at most this fraction of the intensity. */
  const NoiseFraction: real := 0.05

  /** What calculateCountRate returns. */
  datatype Sample = Sample(wavelengthPm: real, countRate: real)

  /** The Duane–Hunt limit lambda_min = hc/(eV), converted to picometres.
      At voltage 0 the source divides by zero and obtains +Infinity; that
      case is handled by AtOrAboveCutoff below. */
  function CutoffWavelengthPm(voltage: real): (lmin: real)
    requires voltage != 0.0
    ensures voltage > 0.0 ==> lmin > 0.0
    ensures voltage < 0.0 ==> lmin < 0.0
  {
    (PlanckConstant * SpeedOfLight) / (ElementaryCharge * voltage) * 1e12
  }

  /** The guard of the emitting branch: the wavelength is at or above the
      cutoff. With voltage 0 the cutoff is +Infinity and no finite
      wavelength reaches it. */
  predicate AtOrAboveCutoff(lambdaPm: real, voltage: real)
  {
    voltage != 0.0 && lambdaPm >= CutoffWavelengthPm(voltage)
  }

  /** The continuous background, a single lobe in x = lambda - lambda_min
      peaking near 0.8 lambda_min, clamped at 0. */
  function Background(lambdaPm: real, voltage: real, exp: real -> real): (b: real)
    requires AtOrAboveCutoff(lambdaPm, voltage)
    ensures b >= 0.0
  {
    var lmin := CutoffWavelengthPm(voltage);
    var x := lambdaPm - lmin;
    var peakPos := lmin * 0.8;
    var base := BackgroundScale * (x / peakPos) * exp(-x / peakPos);
    if base > 0.0 then base else 0.0
  }

  /** A Gaussian emission line of the given centre, height and width: with
      a non-negative exponential a line of non-negative height is never
      negative, and with a positive one a line of positive height is
      positive at every wavelength. */
  function GaussianPeak(lambdaPm: real, center: real, height: real, width: real, exp: real -> real): (g: real)
    requires width > 0.0
    ensures NonNegative(exp) && height >= 0.0 ==> g >= 0.0
    ensures Positive(exp) && height > 0.0 ==> g > 0.0
  {
    var d := lambdaPm - center;
    height * exp(-(d * d) / (2.0 * (width * width)))
  }

  /** Both characteristic lines of the copper target; with a positive
      exponential they add a strictly positive amount at every wavelength. */
  function CharacteristicPeaks(lambdaPm: real, exp: real -> real): (c: real)
    ensures NonNegative(exp) ==> c >= 0.0
    ensures Positive(exp) ==> c > 0.0
  {
    GaussianPeak(lambdaPm, KAlphaPm, KAlphaHeight, PeakWidthPm, exp)
    + GaussianPeak(lambdaPm, KBetaPm, KBetaHeight, PeakWidthPm, exp)
  }

  /** The noiseless intensity: zero below the cutoff, otherwise the
      background plus, above the K-shell threshold, the two lines. */
  function Intensity(lambdaPm: real, voltage: real, exp: real -> real): (i: real)
    ensures !AtOrAboveCutoff(lambdaPm, voltage) ==> i == 0.0
  {
    if !AtOrAboveCutoff(lambdaPm, voltage) then 0.0
    else
      Background(lambdaPm, voltage, exp)
      + (if voltage > KShellThreshold then CharacteristicPeaks(lambdaPm, exp) else 0.0)
  }

  /** The count rate: intensity plus a noise of random * 5% of the
      intensity, clamped at 0 (Math.max(0, ...)). */
  function CountRate(lambdaPm: real, voltage: real, exp: real -> real, random: real): (rate: real)
    requires 0.0 <= random < 1.0
    ensures rate >= 0.0
    ensures !AtOrAboveCutoff(lambdaPm, voltage) ==> rate == 0.0
  {
    var intensity := Intensity(lambdaPm, voltage, exp);
    var noise := random * (intensity * NoiseFraction);
    if intensity + noise > 0.0 then intensity + noise else 0.0
  }

  /** calculateCountRate: the Bragg wavelength of the angle, which does not
      depend on the voltage, and the count rate at that wavelength. */
  function CalculateCountRate(sinDeg: real -> real, exp: real -> real, angle: Tenths, voltage: real, random: real): (s: Sample)
    requires 0.0 <= random < 1.0
    ensures s.wavelengthPm == BraggWavelengthPm(sinDeg, angle)
    ensures s.countRate >= 0.0
    ensures !AtOrAboveCutoff(s.wavelengthPm, voltage) ==> s.countRate == 0.0
  {
    var lambdaPm := BraggWavelengthPm(sinDeg, angle);
    Sample(lambdaPm, CountRate(lambdaPm, voltage, exp, random))
  }

  /** A non-negative exponential, as Math.exp is. */
  ghost predicate NonNegative(exp: real -> real)
  {
    forall t :: exp(t) >= 0.0
  }

  /** A strictly positive exponential, as the mathematical one is. */
  ghost predicate Positive(exp: real -> real)
  {
    forall t :: exp(t) > 0.0
  }

  /** With a non-negative exponential the intensity is never negative. */
  lemma IntensityNonNegative(lambdaPm: real, voltage: real, exp: real -> real)
    requires NonNegative(exp)
    ensures Intensity(lambdaPm, voltage, exp) >= 0.0
  {
  }

  /** With a non-negative exponential the noise only adds to the intensity,
      by less than 5%: the clamp never bites and
      intensity <= rate <= 1.05 * intensity. */
  lemma NoiseBounds(lambdaPm: real, voltage: real, exp: real -> real, random: real)
    requires NonNegative(exp)
    requires 0.0 <= random < 1.0
    ensures Intensity(lambdaPm, voltage, exp) <= CountRate(lambdaPm, voltage, exp, random)
    ensures CountRate(lambdaPm, voltage, exp, random) <= Intensity(lambdaPm, voltage, exp) * (1.0 + NoiseFraction)
    ensures Intensity(lambdaPm, voltage, exp) > 0.0 ==>
      CountRate(lambdaPm, voltage, exp, random) < Intensity(lambdaPm, voltage, exp) * (1.0 + NoiseFraction)
  {
  }

  /** The characteristic lines are added only above the K-shell threshold,
      whatever the exponential (Math.exp included, which underflows to 0):
      at or above the cutoff, an intensity above the background means
      voltage > 8900, and at or below 8900 V the intensity is exactly the
      background. */
  lemma PeaksOnlyAboveThreshold(lambdaPm: real, voltage: real, exp: real -> real)
    requires AtOrAboveCutoff(lambdaPm, voltage)
    ensures Intensity(lambdaPm, voltage, exp) > Background(lambdaPm, voltage, exp) ==> voltage > KShellThreshold
    ensures voltage <= KShellThreshold ==> Intensity(lambdaPm, voltage, exp) == Background(lambdaPm, voltage, exp)
  {
  }

  /** Conversely, with a strictly positive exponential the lines do add to
      the background above the K-shell threshold. */
  lemma PeaksAddAboveThreshold(lambdaPm: real, voltage: real, exp: real -> real)
    requires Positive(exp)
    requires AtOrAboveCutoff(lambdaPm, voltage)
    requires voltage > KShellThreshold
    ensures Intensity(lambdaPm, voltage, exp) > Background(lambdaPm, voltage, exp)
  {
  }

  /** At the 30 kV the application uses, the cutoff lies between 41.3 and
      41.4 pm. */
  lemma CutoffAt30kV()
    ensures 41.3 < CutoffWavelengthPm(30000.0) < 41.4
  {
  }
}
