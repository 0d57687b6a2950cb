# Bragg X-ray spectroscopy lab: scan controller, spectrum and cutoff reduction

This project models the logic inside an interactive simulation of the Bragg
X-ray experiment. A crystal is turned from 1.0° to 20.0° in steps of 0.1°. At
each angle a simulated detector count rate is recorded. The series is then
reduced to a cutoff wavelength and an experimental value of Planck's constant.

Four modules:

- `Physics` (`physics.dfy`): the constants, the `DataPoint` record and Bragg's
  law `lambda = 2 d sin(theta)`. It covers constants.ts and types.ts.
- `Spectrum` (`spectrum.dfy`): `calculateCountRate`. It is zero below the
  Duane–Hunt limit `lambda_min = hc/(eV)`. At or above it, the intensity is a
  clamped background plus two Gaussian copper lines, and the lines are added
  only above 8900 V. Noise of `random * 5%` of the intensity is added and the
  result is clamped at 0.
- `Reduction` (`reduction.dfy`): the `calculationResults` memo. It gives no
  result for fewer than two points. Otherwise it looks for the first point
  whose rate exceeds 5% of the maximum, converts that angle to `lambda_min`,
  and computes `h = e V lambda_min / c` and the percentage error.
- `Scan` (`scan.dfy`): the scan controller as a class. Its fields are the four
  pieces of React state, the interval handle (a flag) and the closure counter.
  It has `Start`, `Tick` (one firing of the interval), `Reset` and
  `SetCrystalAngle`. The two branches of the interval callback are the
  methods `FinishScan` and `RecordSample`, and `Tick` chooses between them.
  `FullScan` runs one scan from a fresh controller. A closing lemma connects
  the scan to the reduction.

Angles are whole numbers of tenths of a degree. The source rounds the counter
to one decimal after every step, so only such angles occur. `RoundToTenths` models
that rounding (`floor(10x + 1/2)`). `NextAngle` applies it to the counter plus
the step and proves that each step advances exactly one tenth; `RoundingAbsorbsDrift` shows that a counter off its tenth by less
than 0.04° still lands exactly on the next one. Floating-point numerics are parameters:

- `sinDeg` is the sine of an angle given in degrees.
- `exp` is the exponential.
- Each tick's `Math.random` value is an argument `r` with `0 <= r < 1`.

The controller fixes `sinDeg` and `exp` when it is created. A ghost sequence
records the random draws, so the recorded series always equals
`Series(sinDeg, exp, draws)`.

The model keeps the code's own shape in these points:

- Progress is a percentage in [0, 100], computed as at App.tsx:92.
- The scan state is held in separate fields (`isScanning`, the timer handle,
  the progress), as in the component. The invariant `Valid` ties them
  together.
- `Start` leaves the displayed angle and the progress unchanged until the
  first tick, as the code does.
- With the code's constants the cutoff at 30 kV is 41.33 pm (`CutoffAt30kV`).

## Model

| member | source | states |
|---|---|---|
| `Spectrum.CutoffWavelengthPm` | App.tsx:30-31 | The Duane–Hunt limit hc/(eV) in picometres has the sign of the voltage. |
| `Physics.BraggWavelengthPm` | App.tsx:27-28 | Bragg's law in first order: the wavelength divided by 2d is the sine of the angle, and a sine in [0, 1] gives a wavelength between 0 and 2d = 564 pm. |
| `Spectrum.CutoffAt30kV` | App.tsx:30-31 | At the application's 30 kV the cutoff lies strictly between 41.3 and 41.4 pm. |
| `Spectrum.Background` | App.tsx:36-39 | The continuous background is clamped, so it is never negative. |
| `Spectrum.GaussianPeak` | App.tsx:46-48 | With a non-negative exponential a line of non-negative height is never negative; with a positive exponential a line of positive height is positive at every wavelength. |
| `Spectrum.CharacteristicPeaks` | App.tsx:43-54 | The two copper lines together are non-negative with a non-negative exponential and strictly positive with a positive one. |
| `Spectrum.Intensity` | App.tsx:33-55 | Below the cutoff (and at voltage 0) the noiseless intensity is exactly 0. |
| `Spectrum.CountRate` | App.tsx:33-58 | The count rate is never negative, and it is exactly 0 below the cutoff whatever the random draw, because the noise is a fraction of a zero intensity. |
| `Spectrum.CalculateCountRate` | App.tsx:26-61 | The wavelength is the Bragg wavelength of the angle and does not depend on the voltage. The rate is non-negative and is zero below the cutoff. |
| `Spectrum.IntensityNonNegative` | App.tsx:33-55 | With a non-negative exponential, the noiseless intensity is never negative. |
| `Spectrum.NoiseBounds` | App.tsx:57-58 | With a non-negative exponential, intensity <= rate <= 1.05 * intensity, with strict upper inequality when the intensity is positive. So the clamp never changes a value. |
| `Spectrum.PeaksOnlyAboveThreshold` | App.tsx:51-54 | For any exponential, at or above the cutoff: an intensity above the background implies voltage > 8900, and at or below 8900 V the intensity equals the background. |
| `Spectrum.PeaksAddAboveThreshold` | App.tsx:51-54 | With a strictly positive exponential, at or above the cutoff and above 8900 V, the intensity exceeds the background. |
| `Reduction.MaxCountRate` | components/ResultsDisplay.tsx:22 | The result is the rate of some point of the series and is at least every point's rate. |
| `Reduction.FindFirstAbove` | components/ResultsDisplay.tsx:23 | It returns the first index whose rate exceeds the threshold, and every earlier rate is at most the threshold. When it returns none, no rate exceeds the threshold. |
| `Reduction.Threshold` | components/ResultsDisplay.tsx:22-23 | The threshold is at least 5% of every rate of the series, and for non-negative rates it lies between 0 and the largest rate. |
| `Reduction.PlanckFromCutoff` | components/ResultsDisplay.tsx:29-31 | It is the Duane–Hunt formula solved for h: h times the true cutoff equals the accepted constant times the wavelength, so their ratio is the ratio of the wavelength to the cutoff. For a positive voltage and wavelength, h is positive. |
| `Reduction.PercentageError` | components/ResultsDisplay.tsx:32 | The error is never negative. It is zero exactly when the calculated constant equals the accepted one. |
| `Reduction.CalculateResults` | components/ResultsDisplay.tsx:17-40 | Fewer than two points give no result. A result exists if and only if some rate exceeds 5% of the maximum. The cutoff angle is that of the first such point of the series. lambda_min is its Bragg wavelength, h = e V lambda_min / c, and the error is the non-negative percentage error of h. |
| `Reduction.ResultExistsWhenMaxPositive` | components/ResultsDisplay.tsx:22-25 | Two or more points with a positive maximum rate always give a result. |
| `Reduction.AllZeroGivesNone` | components/ResultsDisplay.tsx:22-25 | A series whose rates are all zero gives no result. |
| `Reduction.PlanckAtOrAboveCutoff` | components/ResultsDisplay.tsx:29-32 | For a positive voltage and a wavelength at or above the Duane–Hunt limit, the back-calculated constant is at least the accepted one. It equals it exactly at the limit, and the percentage error is then the relative excess. |
| `Scan.RoundToTenths` | App.tsx:95 | The rounded value is the nearest tenth, ties going up: x lies within [-0.05, +0.05) of it. |
| `Scan.RoundingAbsorbsDrift` | App.tsx:95 | A counter within 0.04° of its tenth, after adding the step and rounding, lands exactly on the next tenth, so drift does not accumulate. |
| `Scan.NextAngle` | App.tsx:95 | Adding the step and rounding to one decimal advances the counter by exactly one tenth of a degree. |
| `Scan.Progress` | App.tsx:92 | Progress lies in [0, 100] over the scan range. It is 0 exactly at 1.0° and 100 exactly at 20.0°. |
| `Scan.ScanPoint` | App.tsx:80-88 | The point of a tick has the crystal at the counter's angle and the sensor at twice it, the Bragg wavelength of that angle, and a rate that is non-negative and zero below the 30 kV cutoff. |
| `Scan.Series` | App.tsx:80-90 | The series recorded after n ticks has n points. Point i has angle 1.0° + i tenths and a sensor angle twice the crystal angle. Its wavelength is the Bragg wavelength, and its rate is non-negative and zero below the cutoff. |
| `Scan.ScanController.constructor` | App.tsx:18-21 | The initial state has angle 1.0°, an empty series, no scan running, progress 0 and no timer, and the controller invariant holds. |
| `Scan.ScanController.Start` | App.tsx:64-100 | While a scan runs, nothing changes. Otherwise scanning is on with a live timer, the series is empty, the counter restarts at 1.0°, and the angle and progress are kept. |
| `Scan.ScanController.Tick` | App.tsx:71-96 | One firing of the interval. Past 20.0° it behaves as `FinishScan`, otherwise as `RecordSample`. The invariant is kept: the timer is live iff scanning, progress is in [0, 100], and the series equals the model's series for the draws. |
| `Scan.ScanController.FinishScan` | App.tsx:72-77 | The timer stops, scanning ends and progress is 100. No point is added, and the 191 points of the scan are kept. |
| `Scan.ScanController.RecordSample` | App.tsx:80-95 | Exactly one point, the spectrum model's sample at the current angle, is appended. The displayed angle equals that point's angle, progress is that of the angle, and the counter advances one tenth. |
| `Scan.ScanController.Reset` | App.tsx:104-113 | Afterwards the state is the initial one and the invariant holds. Resetting an initial state changes nothing (idempotence). |
| `Scan.ScanController.SetCrystalAngle` | App.tsx:138 | A manual angle is ignored while a scan runs and applied otherwise, with the series, flags, progress, counter and draws unchanged. |
| `Scan.FullScan` | App.tsx:64-96 | On a fresh controller, the scan is still running after its first 191 ticks, which record exactly 191 points, 1.0° to 20.0° in strictly increasing order, equal to the model's series for the draws. The 192nd tick ends it: scanning is off, the timer is cleared and progress is 100. |
| `Scan.ScanEstimateNeverUndershoots` | App.tsx:148 | For the data of a 30 kV scan, any result has lambda_min at or above the Duane–Hunt limit. Hence the calculated h is never below the accepted value, and the error is its relative excess. |

## Left out

- Floating-point arithmetic: the model computes over exact reals. `Math.sin` (with the degree-to-radian conversion through `Math.PI`), `Math.exp` and `Math.random` are parameters. Their values are not modelled; a lemma states the sign it needs of `exp` (non-negative or positive) as a precondition. Rounding error of the double arithmetic, NaN and infinities other than the division by a zero voltage are not modelled.
- `Spectrum.PeaksAddAboveThreshold`: this lemma needs a strictly positive exponential. `Math.exp` underflows to exactly 0 for arguments below about -745. For a line of width 1.5 pm, that means more than about 58 pm from its centre, 154 pm (K-alpha) or 139 pm (K-beta). A scan covers about 9.8 to 193 pm. Below about 81 pm, at angles 1.0° to 8.2° (73 of the 191 angles), both lines are exactly 0 in the program. Underflow is not modelled.
- `Spectrum.GaussianPeak`: the height reached exactly at the centre of a line is not stated.
- The end-to-end claim that the calculated constant lies within about 10% of the accepted one depends on the values of sine, exponential and noise. It is not stated. The model only proves the one-sided bound `ScanEstimateNeverUndershoots`.
- Timing: the 20 ms interval delay, the scheduler, and the interleaving of React renders and state-update batching are not modelled. The timer is a flag and each firing is one call of `Tick`. `Tick` requires a live timer, because the interval only fires while it exists.
- The unmount cleanup (App.tsx:116-118) only calls `handleReset`, which is `ScanController.Reset`. The React hooks themselves are not modelled.
- The filament current (1 mA) is display-only and does not enter any computation.
- All rendering is not modelled: the control panel, the apparatus view, the chart, the table, the tabs and the progress bar. This includes the slider bounds in components/ControlPanel.tsx and the sensor angle drawn in components/ExperimentView.tsx. So `SetCrystalAngle` accepts any angle in tenths.
- `Scan.RoundToTenths` models `toFixed(1)` as round-half-up over exact reals. That is exact for the non-negative angles of a scan; the binary representation of 0.1 is not modelled.
