# Linear antenna array radiation pattern — Dafny model

This project models the calculation core of a small browser calculator for the
radiation pattern of a linear antenna array. The calculator lays out `n`
transmitters along the x-axis, evenly spaced at `lambda * separation`
millimetres and centred on the origin. It places a receiver at a given
distance and angle from broadside. Each transmitter contributes a unit wave
whose phase is 2π per wavelength of path length. The waves are summed with
`add_waves` (law of cosines for the scale, `atan2` for the phase) by a
`reduce` without an initial value. `drawChart` sweeps the receiver over 1000
angles from -90° upward and plots the resulting scale.

Arithmetic is over exact `real`s. `Math.PI`, `Math.sqrt`, `Math.cos`,
`Math.sin` and `Math.atan2` are not defined: every operation takes them as a
`MathOps` value, so every result holds for any such functions. Where a
contract needs a law of trigonometry, it names that law as a predicate of
module `RealMath`:
- cos is even;
- cos is bounded by -1 and 1;
- the square root of a non-negative number is non-negative;
- the square root of the square of a non-negative number is that number;
- cos² + sin² = 1;
- cos 0 = 1 and cos π = -1.

Modules:
- `RealMath` (real_math.dfy): the `MathOps` record and the laws above.
- `Geometry` (geometry.dfy): parameters, `deg2rad`, `distance`,
  `count_wavelengths`, the transmitter layout and the receiver.
- `Waves` (waves.dfy): the wave of one transmitter, `add_waves`, and
  `reduce(add_waves)`.
- `Sweep` (sweep.dfy): the per-angle amplitude and the 1000-sample sweep of
  `drawChart`.

js/index.js has no beam steering, no grouped layout, no input validation and
no maximum statistic; the model has none either.

## Model

| member | source | states |
|---|---|---|
| `Geometry.Deg2Rad` | js/index.js:15-17 | the result times 180 is the angle in degrees times π |
| `Geometry.Deg2RadFixedPoints` | js/index.js:15-17 | 0° is 0 rad, 180° is π, -90° is -π/2 |
| `Geometry.Deg2RadLinear` | js/index.js:15-17 | the conversion commutes with negation, sums and scaling |
| `Geometry.Deg2RadStrictlyIncreasing` | js/index.js:15-17 | with π > 0, a larger angle in degrees is a larger angle in radians |
| `Geometry.Distance` | js/index.js:19-23 | when the square root is non-negative on non-negatives, the distance is ≥ 0 |
| `Geometry.DistanceSymmetric` | js/index.js:19-23 | distance(a, b) = distance(b, a) for any square root function |
| `Geometry.CountWavelengths` | js/index.js:25-27 | the count times the wavelength is the distance |
| `Geometry.CountWavelengthsSymmetric` | js/index.js:25-27 | the wavelength count does not depend on argument order |
| `Geometry.TransmitterAt` | js/index.js:53-58 | transmitter i is at y = 0, and (i - (n-1)/2) spacings from the centre along x |
| `Geometry.ReceiverAt` | js/index.js:59-63 | under cos² + sin² = 1 the receiver is at `distance` from the origin |
| `Geometry.GetModelFromParams` | js/index.js:50-66 | exactly `transmitters` transmitters; all on y = 0; transmitters i ≤ j are (j - i) spacings apart; first at -arrayWidth/2, last at +arrayWidth/2; x[i] + x[n-1-i] = 0; receiver placed by `ReceiverAt` |
| `Geometry.LayoutCentred` | js/index.js:52-56 | transmitter i and transmitter n-1-i are mirror images about x = 0 |
| `Geometry.LayoutUniform` | js/index.js:51-56 | transmitters i ≤ j are (j - i) × lambda × separation apart |
| `Geometry.LayoutIgnoresReceiver` | js/index.js:50-58 | the layout depends only on wavelength, separation and count |
| `Geometry.DefaultLayout` | js/index.js:2-13 | a worked example on the `defaults` record, which the program never reads (`drawChart` takes its parameters from the page): those values would put transmitters at x = -20, -10, 0, 10, 20 |
| `Geometry.ReceiverOnCircle` | js/index.js:59-63 | the receiver built by the whole model lies at `distance` from the origin under cos² + sin² = 1 |
| `Waves.WaveFromTransmitter` | js/index.js:29-34 | scale is exactly 1; phase × lambda = 2π × distance |
| `Waves.WaveFromTransmitterSymmetric` | js/index.js:29-34 | swapping transmitter and receiver gives the same wave |
| `Waves.AddWaves` | js/index.js:38-48 | when cos is in [-1, 1] and the square root is non-negative, the sum has a non-negative scale |
| `Waves.AddWavesCommutative` | js/index.js:38-48 | with an even cosine, add_waves(x, y) = add_waves(y, x), scale and phase |
| `Waves.CosineLawNonNegative` | js/index.js:40-43 | the quantity under the square root is ≥ 0 whenever cos is in [-1, 1] |
| `Waves.AddWavesInPhase` | js/index.js:40-43 | two identical waves add to twice the scale |
| `Waves.AddWavesOppositePhase` | js/index.js:40-43 | equal scales half a turn apart cancel to scale 0 |
| `Waves.Reduce` | js/index.js:86 | one wave is returned untouched; the sum has a non-negative scale when the first wave does, under the bounds of cos and sqrt |
| `Waves.FoldWaves` | js/index.js:86 | adding waves left to right to a non-negative scale keeps it non-negative |
| `Waves.FoldWavesSnoc` | js/index.js:86 | folding over `rest + [w]` adds `w` to the fold over `rest` |
| `Waves.ReduceSnoc` | js/index.js:86 | reduce(ws + [w]) = add_waves(reduce(ws), w) |
| `Waves.ReducePairCommutative` | js/index.js:86 | with an even cosine, two waves reduce to the same sum in either order |
| `Sweep.Interp` | js/index.js:79 | (deg + 90)/180 gives back the fraction; fractions in [0, 1) map into [-90, 90) |
| `Sweep.TransmitterWaves` | js/index.js:86 | one wave per transmitter, in order, each of scale 1 |
| `Sweep.Amplitude` | js/index.js:83-86 | with one transmitter the amplitude is exactly 1; under the bounds of cos and sqrt it is ≥ 0 |
| `Sweep.SampleAt` | js/index.js:81-87 | sample i is at i·180/1000 - 90 degrees, in [-90, 90) for i < 1000, and its y is the amplitude with the receiver at that angle |
| `Sweep.ChartData` | js/index.js:79-88 | 1000 samples; sample i at i·180/1000 - 90 degrees; the first at -90; strictly increasing; all in [-90, 90); each y is the amplitude with the receiver at that angle |
| `Sweep.ChartFlatForSingleTransmitter` | js/index.js:80-88 | with one transmitter every sample has y = 1 |
| `Sweep.ChartNonNegative` | js/index.js:80-88 | under the bounds of cos and sqrt every sample has y ≥ 0 |
| `Sweep.ChartKeepsLayout` | js/index.js:82-83 | changing the receiver angle leaves the transmitter layout unchanged |
| `Sweep.ChartAnglesInRadians` | js/index.js:81-82 | with π > 0 the receiver angles lie in [-π/2, π/2) and increase strictly |

## Left out

- `params_from_dom` (js/index.js:68-75): reads DOM inputs. The sweep takes its result as a `Params` value.
- Chart rendering, `window.chartData`, the top-level `drawChart()` call and the input listeners (js/index.js:89-110): presentation and I/O.
- Floating point: values are exact reals, so rounding, `NaN` and `Infinity` are not modelled. Division by a zero wavelength yields `Infinity` in JavaScript; here `lambda != 0` is required wherever the code divides by it.
- `Array(n)` with a negative or fractional `n` throws; the transmitter count is a `nat`.
- `reduce` on an empty list throws; the amplitude and the sweep require at least one transmitter.
- The values of `Math.cos`, `Math.sin`, `Math.atan2` and `Math.sqrt` are not modelled. Hence no result about the lobe shape, the peak location or the phase `atan2` returns.
- Waves.ReducePairCommutative: order independence is proved for two waves only. For more waves it would need laws tying `atan2` to `cos` and `sin`, and the angle-difference identity for cos; the model assumes neither.
