/** Geometry of the calculator: the parameter record, the degree/radian
    conversion, the distance between two points, and the layout of the
    transmitter array and the receiver (js/index.js, lines 1-66).
    Lengths are in millimetres, angles in radians unless named `deg`. */
module Geometry {
  import opened RealMath

  /** A point in the plane of the array. */
  datatype Point = Point(x: real, y: real)

  /** The calculator's parameters: wavelength, transmitter separation as a
      proportion of the wavelength, number of transmitters, receiver distance
      and receiver angle (measured from broadside). */
  datatype Params = Params(
    lambda: real,
    separation: real,
    transmitters: nat,
    distance: real,
    theta: real)

  /** The transmitters, left to right, and the receiver. */
  datatype ArrayModel = ArrayModel(transmitters: seq<Point>, receiver: Point)

  /** The values of `defaults` in js/index.js. */
  const Defaults: Params := Params(20.0, 0.5, 5, 100000.0, 0.0)

  /** Degrees to radians: 180 degrees make `math.pi` radians. */
  function Deg2Rad(math: MathOps, deg: real): (r: real)
    ensures r * 180.0 == deg * math.pi
  {
    deg / 180.0 * math.pi
  }

  lemma Deg2RadFixedPoints(math: MathOps)
    ensures Deg2Rad(math, 0.0) == 0.0
    ensures Deg2Rad(math, 180.0) == math.pi
    ensures Deg2Rad(math, -90.0) == -math.pi / 2.0
  {
  }

  /** The conversion is linear: it commutes with negation, sums and scaling. */
  lemma Deg2RadLinear(math: MathOps, a: real, b: real, k: real)
    ensures Deg2Rad(math, -a) == -Deg2Rad(math, a)
    ensures Deg2Rad(math, a + b) == Deg2Rad(math, a) + Deg2Rad(math, b)
    ensures Deg2Rad(math, k * a) == k * Deg2Rad(math, a)
  {
  }

  /** With a positive pi, a larger angle in degrees is a larger angle in radians. */
  lemma Deg2RadStrictlyIncreasing(math: MathOps, a: real, b: real)
    requires 0.0 < math.pi
    requires a < b
    ensures Deg2Rad(math, a) < Deg2Rad(math, b)
  {
  }

  /** Euclidean distance, with the square root left to `math.sqrt`. */
  function Distance(math: MathOps, a: Point, b: Point): (r: real)
    ensures SqrtIsNonNegative(math) ==> 0.0 <= r
  {
    var xdiff := a.x - b.x;
    var ydiff := a.y - b.y;
    SumOfSquaresNonNegative(xdiff, ydiff);
    math.sqrt((xdiff * xdiff) + (ydiff * ydiff))
  }

  lemma SumOfSquaresNonNegative(u: real, v: real)
    ensures 0.0 <= (u * u) + (v * v)
  {
  }

  /** The distance does not depend on the order of its arguments, whatever
      the square root is: the two sums of squared differences coincide. */
  lemma DistanceSymmetric(math: MathOps, a: Point, b: Point)
    ensures Distance(math, a, b) == Distance(math, b, a)
  {
  }

  /** The distance between two points, in wavelengths. */
  function CountWavelengths(math: MathOps, p: Params, a: Point, b: Point): (r: real)
    requires p.lambda != 0.0
    ensures r * p.lambda == Distance(math, a, b)
  {
    Distance(math, a, b) / p.lambda
  }

  lemma CountWavelengthsSymmetric(math: MathOps, p: Params, a: Point, b: Point)
    requires p.lambda != 0.0
    ensures CountWavelengths(math, p, a, b) == CountWavelengths(math, p, b, a)
  {
  }

  /** Distance between adjacent transmitters, in millimetres. */
  function Spacing(p: Params): real {
    p.lambda * p.separation
  }

  /** Distance from the first transmitter to the last. */
  function ArrayWidth(p: Params): real {
    (p.transmitters as real - 1.0) * Spacing(p)
  }

  /** Position of transmitter `i`, counted from the left. */
  function TransmitterAt(p: Params, i: nat): (t: Point)
    ensures t.y == 0.0
    ensures t.x == (i as real - (p.transmitters as real - 1.0) / 2.0) * Spacing(p)
  {
    Point(-ArrayWidth(p) / 2.0 + (i as real * Spacing(p)), 0.0)
  }

  /** Receiver at `p.distance` from the origin, `p.theta` away from broadside. */
  function ReceiverAt(math: MathOps, p: Params): (r: Point)
    ensures Pythagorean(math) ==> r.x * r.x + r.y * r.y == p.distance * p.distance
  {
    var receiverAngle := -p.theta + (math.pi / 2.0);
    Point(p.distance * math.cos(receiverAngle), p.distance * math.sin(receiverAngle))
  }

  /** Lays out `p.transmitters` transmitters on the x-axis, evenly spaced
      and centred on the origin, and places the receiver. */
  function GetModelFromParams(math: MathOps, p: Params): (r: ArrayModel)
    ensures |r.transmitters| == p.transmitters
    ensures forall i :: 0 <= i < |r.transmitters| ==> r.transmitters[i].y == 0.0
    ensures forall i, j :: 0 <= i <= j < |r.transmitters| ==>
              r.transmitters[j].x - r.transmitters[i].x == (j - i) as real * Spacing(p)
    ensures |r.transmitters| > 0 ==>
              r.transmitters[0].x == -ArrayWidth(p) / 2.0 &&
              r.transmitters[|r.transmitters| - 1].x == ArrayWidth(p) / 2.0
    ensures forall i, j :: 0 <= i < |r.transmitters| && 0 <= j < |r.transmitters| ==>
              (i + j == |r.transmitters| - 1 ==> r.transmitters[i].x + r.transmitters[j].x == 0.0)
    ensures r.receiver == ReceiverAt(math, p)
  {
    LayoutCentred(p);
    LayoutUniform(p);
    ArrayModel(Layout(p), ReceiverAt(math, p))
  }

  function Layout(p: Params): seq<Point> {
    seq(p.transmitters, i requires 0 <= i => TransmitterAt(p, i))
  }

  /** Transmitters `i` and `n-1-i` are mirror images about x = 0. */
  lemma LayoutCentred(p: Params)
    ensures forall i: nat :: i < p.transmitters ==>
              TransmitterAt(p, i).x + TransmitterAt(p, p.transmitters - 1 - i).x == 0.0
  {
  }

  /** Transmitters `i` and `j` are `j - i` spacings apart. */
  lemma LayoutUniform(p: Params)
    ensures forall i: nat, j: nat :: i <= j ==>
              TransmitterAt(p, j).x - TransmitterAt(p, i).x == (j - i) as real * Spacing(p)
  {
    forall i: nat, j: nat | i <= j
      ensures TransmitterAt(p, j).x - TransmitterAt(p, i).x == (j - i) as real * Spacing(p)
    {
      assert j as real * Spacing(p) - i as real * Spacing(p) == (j - i) as real * Spacing(p);
    }
  }

  /** The transmitters depend only on wavelength, separation and count: moving
      the receiver leaves the array where it is. */
  lemma LayoutIgnoresReceiver(math: MathOps, p: Params, q: Params)
    requires p.lambda == q.lambda && p.separation == q.separation
    requires p.transmitters == q.transmitters
    ensures GetModelFromParams(math, p).transmitters == GetModelFromParams(math, q).transmitters
  {
    assert Spacing(p) == Spacing(q) && ArrayWidth(p) == ArrayWidth(q);
    forall i | 0 <= i < p.transmitters ensures Layout(p)[i] == Layout(q)[i] {
      assert TransmitterAt(p, i) == TransmitterAt(q, i);
    }
    assert Layout(p) == Layout(q);
  }

  /** A worked example on the `defaults` record, which the program itself
      never reads: wavelength 20, half-wavelength spacing and five
      transmitters would put the array from x = -20 to x = 20 in steps of 10. */
  lemma DefaultLayout(math: MathOps)
    ensures GetModelFromParams(math, Defaults).transmitters ==
              [Point(-20.0, 0.0), Point(-10.0, 0.0), Point(0.0, 0.0), Point(10.0, 0.0), Point(20.0, 0.0)]
  {
  }

  /** Under cos^2 + sin^2 = 1 the receiver lies on the circle of radius
      `p.distance` about the centre of the array. */
  lemma ReceiverOnCircle(math: MathOps, p: Params)
    requires Pythagorean(math)
    ensures var r := GetModelFromParams(math, p).receiver;
            r.x * r.x + r.y * r.y == p.distance * p.distance
  {
  }
}
