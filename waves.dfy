/** Waves as (scale, phase shift) pairs, the wave one transmitter produces at
    the receiver, the superposition of two waves, and `reduce(add_waves)`
    over a list of waves (js/index.js, lines 29-48 and 86). Phase shifts are
    in radians and are never normalised. */
module Waves {
  import opened RealMath
  import opened Geometry

  datatype Wave = Wave(scale: real, phaseShift: real)

  /** The wave from transmitter `t` seen at receiver `r`: unit amplitude, and
      a phase of 2*pi per wavelength of path length. */
  function WaveFromTransmitter(math: MathOps, p: Params, t: Point, r: Point): (w: Wave)
    requires p.lambda != 0.0
    ensures w.scale == 1.0
    ensures w.phaseShift * p.lambda == 2.0 * math.pi * Distance(math, t, r)
  {
    Wave(1.0, CountWavelengths(math, p, t, r) * 2.0 * math.pi)
  }

  /** Swapping transmitter and receiver gives the same wave. */
  lemma WaveFromTransmitterSymmetric(math: MathOps, p: Params, t: Point, r: Point)
    requires p.lambda != 0.0
    ensures WaveFromTransmitter(math, p, t, r) == WaveFromTransmitter(math, p, r, t)
  {
  }

  /** Superposition of two waves: the law of cosines for the scale, the
      four-quadrant arctangent for the phase. While the cosine stays within
      [-1, 1] the quantity under the square root is never negative, so the
      scale is never negative. */
  function AddWaves(math: MathOps, x: Wave, y: Wave): (r: Wave)
    ensures CosIsBounded(math) && SqrtIsNonNegative(math) ==> 0.0 <= r.scale
  {
    CosineLawBounded(math, x, y);
    Wave(
      math.sqrt(CosineLaw(x.scale, y.scale, math.cos(x.phaseShift - y.phaseShift))),
      math.atan2(
        Combine(x.scale, math.sin(x.phaseShift), y.scale, math.sin(y.phaseShift)),
        Combine(x.scale, math.cos(x.phaseShift), y.scale, math.cos(y.phaseShift))))
  }

  lemma CosineLawBounded(math: MathOps, x: Wave, y: Wave)
    ensures CosIsBounded(math) ==>
              0.0 <= CosineLaw(x.scale, y.scale, math.cos(x.phaseShift - y.phaseShift))
  {
    if CosIsBounded(math) {
      CosineLawNonNegative(x.scale, y.scale, math.cos(x.phaseShift - y.phaseShift));
    }
  }

  /** a^2 + b^2 + 2ab*c, the squared length of the sum of two vectors of
      lengths a and b whose angle has cosine c. */
  function CosineLaw(a: real, b: real, c: real): real {
    (a * a) + (b * b) + (2.0 * a * b * c)
  }

  /** a*u + b*v, one coordinate of the sum of two scaled unit vectors. */
  function Combine(a: real, u: real, b: real, v: real): real {
    a * u + b * v
  }

  /** With an even cosine, the order of the two waves does not matter. */
  lemma AddWavesCommutative(math: MathOps, x: Wave, y: Wave)
    requires CosIsEven(math)
    ensures AddWaves(math, x, y) == AddWaves(math, y, x)
  {
    var c := math.cos(x.phaseShift - y.phaseShift);
    assert (x.phaseShift - y.phaseShift) + (y.phaseShift - x.phaseShift) == 0.0;
    assert math.cos(y.phaseShift - x.phaseShift) == c;
    assert CosineLaw(x.scale, y.scale, c) == CosineLaw(y.scale, x.scale, c);
    var sx, sy := math.sin(x.phaseShift), math.sin(y.phaseShift);
    var cx, cy := math.cos(x.phaseShift), math.cos(y.phaseShift);
    assert Combine(x.scale, sx, y.scale, sy) == Combine(y.scale, sy, x.scale, sx);
    assert Combine(x.scale, cx, y.scale, cy) == Combine(y.scale, cy, x.scale, cx);
  }

  /** a^2 + b^2 + 2ab*c >= 0 for every c in [-1, 1]: it lies between
      (a - b)^2 and (a + b)^2. */
  lemma CosineLawNonNegative(a: real, b: real, c: real)
    requires -1.0 <= c <= 1.0
    ensures 0.0 <= CosineLaw(a, b, c)
  {
    var p := a * b;
    assert 2.0 * a * b * c == 2.0 * (p * c);
    if 0.0 <= p {
      ProductAtLeastNegation(p, c);
      assert (a - b) * (a - b) == (a * a) + (b * b) - 2.0 * p;
      SquareNonNegative(a - b);
    } else {
      ProductAtLeastNegation(-p, -c);
      assert (-p) * (-c) == p * c;
      assert (a + b) * (a + b) == (a * a) + (b * b) + 2.0 * p;
      SquareNonNegative(a + b);
    }
  }

  lemma SquareNonNegative(x: real)
    ensures 0.0 <= x * x
  {
  }

  lemma ProductAtLeastNegation(k: real, c: real)
    requires 0.0 <= k && -1.0 <= c
    ensures k * c >= -k
  {
    assert k * c + k == k * (c + 1.0);
  }

  /** Two waves in phase add their scales. */
  lemma AddWavesInPhase(math: MathOps, w: Wave)
    requires CosAtZeroAndPi(math) && SqrtOfSquare(math)
    requires 0.0 <= w.scale
    ensures AddWaves(math, w, w).scale == 2.0 * w.scale
  {
    assert math.cos(w.phaseShift - w.phaseShift) == 1.0;
    assert CosineLaw(w.scale, w.scale, 1.0) == Square(2.0 * w.scale);
    assert math.sqrt(Square(2.0 * w.scale)) == 2.0 * w.scale;
  }

  /** Two waves of equal scale half a turn apart cancel. */
  lemma AddWavesOppositePhase(math: MathOps, w: Wave)
    requires CosAtZeroAndPi(math) && CosIsEven(math) && SqrtOfSquare(math)
    ensures AddWaves(math, w, Wave(w.scale, w.phaseShift + math.pi)).scale == 0.0
  {
    var d := w.phaseShift - (w.phaseShift + math.pi);
    assert d + math.pi == 0.0;
    assert math.cos(d) == -1.0;
    assert CosineLaw(w.scale, w.scale, -1.0) == Square(0.0);
    assert math.sqrt(Square(0.0)) == 0.0;
  }

  /** `ws.reduce(add_waves)` without an initial value: start from the first
      wave and add the others one by one, left to right. A single wave is
      returned untouched, without calling `add_waves`; the sum keeps a
      non-negative scale when the first wave has one. */
  function Reduce(math: MathOps, ws: seq<Wave>): (r: Wave)
    requires |ws| >= 1
    ensures |ws| == 1 ==> r == ws[0]
    ensures CosIsBounded(math) && SqrtIsNonNegative(math) && 0.0 <= ws[0].scale ==> 0.0 <= r.scale
  {
    FoldWaves(math, ws[0], ws[1..])
  }

  /** Adds the waves of `rest` to `acc`, left to right. */
  function FoldWaves(math: MathOps, acc: Wave, rest: seq<Wave>): (r: Wave)
    ensures CosIsBounded(math) && SqrtIsNonNegative(math) && 0.0 <= acc.scale ==> 0.0 <= r.scale
    decreases |rest|
  {
    if rest == [] then acc else FoldWaves(math, AddWaves(math, acc, rest[0]), rest[1..])
  }

  lemma {:induction false} FoldWavesSnoc(math: MathOps, acc: Wave, rest: seq<Wave>, w: Wave)
    ensures FoldWaves(math, acc, rest + [w]) == AddWaves(math, FoldWaves(math, acc, rest), w)
    decreases |rest|
  {
    if rest == [] {
      assert rest + [w] == [w];
      assert [w][1..] == [];
    } else {
      assert (rest + [w])[0] == rest[0];
      assert (rest + [w])[1..] == rest[1..] + [w];
      FoldWavesSnoc(math, AddWaves(math, acc, rest[0]), rest[1..], w);
    }
  }

  /** Appending a wave to a non-empty list adds it to the list's sum. */
  lemma ReduceSnoc(math: MathOps, ws: seq<Wave>, w: Wave)
    requires |ws| >= 1
    ensures Reduce(math, ws + [w]) == AddWaves(math, Reduce(math, ws), w)
  {
    assert (ws + [w])[0] == ws[0];
    assert (ws + [w])[1..] == ws[1..] + [w];
    FoldWavesSnoc(math, ws[0], ws[1..], w);
  }

  /** With two waves, the order does not matter. */
  lemma ReducePairCommutative(math: MathOps, x: Wave, y: Wave)
    requires CosIsEven(math)
    ensures Reduce(math, [x, y]) == Reduce(math, [y, x])
  {
    AddWavesCommutative(math, x, y);
  }
}
