/** Physical constants, the data-point record and Bragg's law shared by the
    spectrum model, the scan controller and the result reduction
    (constants.ts, types.ts). */
module Physics {

  /** Planck's constant, J·s. */
  const PlanckConstant: real := 6.62607015e-34
  /** Speed of light, m/s. */
  const SpeedOfLight: real := 2.99792458e8
  /** Elementary charge, C. */
  const ElementaryCharge: real := 1.602176634e-19
  /** Lattice spacing of the NaCl crystal, pm. */
  const LatticeSpacingPm: real := 282.0

  /** An angle in whole tenths of a degree. The scan moves in steps of 0.1°
      and rounds to one decimal, and the slider has step 0.1, so every angle
      the application produces is of this form. */
  type Tenths = int

  /** The angle in degrees that a number of tenths stands for. */
  function Degrees(t: Tenths): (d: real)
    ensures d * 10.0 == t as real
  {
    t as real / 10.0
  }

  /** One sample of a scan. Both angles are in tenths of a degree, the
      wavelength in picometres, the count rate in counts per second. */
  datatype DataPoint = DataPoint(
    crystalAngle: Tenths,
    sensorAngle: Tenths,
    wavelengthPm: real,
    countRate: real)

  /** Bragg's law in first order, lambda = 2 d sin(theta). `sinDeg` stands for
      the sine of an angle given in degrees (the conversion to radians and
      the sine itself are floating-point numerics outside this model).
      Solved for the sine it gives sin(theta) = lambda / 2d, and a sine in
      [0, 1] gives a wavelength between 0 and 2d. */
  function BraggWavelengthPm(sinDeg: real -> real, t: Tenths): (lambda: real)
    ensures lambda / (2.0 * LatticeSpacingPm) == sinDeg(Degrees(t))
    ensures 0.0 <= sinDeg(Degrees(t)) <= 1.0 ==> 0.0 <= lambda <= 2.0 * LatticeSpacingPm
  {
    2.0 * LatticeSpacingPm * sinDeg(Degrees(t))
  }
}
