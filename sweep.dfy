/** The radiation-pattern sweep of `drawChart` (js/index.js, lines 79-88):
    1000 receiver angles from -90 degrees upward, each paired with the scale
    of the sum of the waves every transmitter sends to a receiver at that
    angle. */
module Sweep {
  import opened RealMath
  import opened Geometry
  import opened Waves

  /** Number of samples in the chart. */
  const SampleCount: nat := 1000

  /** One point of the chart: angle in degrees, resulting amplitude. */
  datatype ChartPoint = ChartPoint(x: real, y: real)

  /** Maps a fraction of the sweep in [0, 1) to an angle in degrees. */
  function Interp(x: real): (deg: real)
    ensures (deg + 90.0) / 180.0 == x
    ensures 0.0 <= x < 1.0 ==> -90.0 <= deg < 90.0
  {
    (x * 180.0) - 90.0
  }

  /** The wave of every transmitter of `model`, in transmitter order. */
  function TransmitterWaves(math: MathOps, p: Params, model: ArrayModel): (ws: seq<Wave>)
    requires p.lambda != 0.0
    ensures |ws| == |model.transmitters|
    ensures forall i :: 0 <= i < |ws| ==> ws[i].scale == 1.0
    ensures forall i :: 0 <= i < |ws| ==>
              ws[i] == WaveFromTransmitter(math, p, model.transmitters[i], model.receiver)
  {
    seq(|model.transmitters|, i requires 0 <= i < |model.transmitters| =>
      WaveFromTransmitter(math, p, model.transmitters[i], model.receiver))
  }

  /** Scale of the superposition of all transmitters' waves at the receiver
      placed by `p`. */
  function Amplitude(math: MathOps, p: Params): (a: real)
    requires p.transmitters >= 1 && p.lambda != 0.0
    ensures p.transmitters == 1 ==> a == 1.0
    ensures CosIsBounded(math) && SqrtIsNonNegative(math) ==> 0.0 <= a
  {
    var model := GetModelFromParams(math, p);
    Reduce(math, TransmitterWaves(math, p, model)).scale
  }

  /** Sample `i`: the angle `i/1000` of the way through the sweep, and the
      amplitude with the receiver at that angle. */
  function SampleAt(math: MathOps, init: Params, i: nat): (r: ChartPoint)
    requires init.transmitters >= 1 && init.lambda != 0.0
    ensures r.x == i as real * 180.0 / 1000.0 - 90.0
    ensures i < SampleCount ==> -90.0 <= r.x < 90.0
    ensures r.y == Amplitude(math, init.(theta := Deg2Rad(math, r.x)))
  {
    var deg := Interp(i as real / SampleCount as real);
    var params := init.(theta := Deg2Rad(math, deg));
    ChartPoint(deg, Amplitude(math, params))
  }

  /** The chart: 1000 samples on a uniform grid starting at -90 degrees and
      staying below 90, each giving the amplitude at its own angle. */
  function ChartData(math: MathOps, init: Params): (r: seq<ChartPoint>)
    requires init.transmitters >= 1 && init.lambda != 0.0
    ensures |r| == SampleCount
    ensures forall i :: 0 <= i < |r| ==> r[i].x == i as real * 180.0 / 1000.0 - 90.0
    ensures r[0].x == -90.0
    ensures forall i, j :: 0 <= i < j < |r| ==> r[i].x < r[j].x
    ensures forall i :: 0 <= i < |r| ==> -90.0 <= r[i].x < 90.0
    ensures forall i :: 0 <= i < |r| ==>
              r[i].y == Amplitude(math, init.(theta := Deg2Rad(math, r[i].x)))
  {
    seq(SampleCount, i requires 0 <= i < SampleCount => SampleAt(math, init, i))
  }

  /** With one transmitter the chart is flat at 1, whatever the wavelength,
      separation and receiver distance. */
  lemma ChartFlatForSingleTransmitter(math: MathOps, init: Params)
    requires init.transmitters == 1 && init.lambda != 0.0
    ensures forall i :: 0 <= i < |ChartData(math, init)| ==> ChartData(math, init)[i].y == 1.0
  {
  }

  /** Under the bounds of cosine and square root, no sample is negative. */
  lemma ChartNonNegative(math: MathOps, init: Params)
    requires CosIsBounded(math) && SqrtIsNonNegative(math)
    requires init.transmitters >= 1 && init.lambda != 0.0
    ensures forall i :: 0 <= i < |ChartData(math, init)| ==> 0.0 <= ChartData(math, init)[i].y
  {
  }

  /** Only the receiver moves during the sweep: every sample sees the array
      laid out as the initial parameters lay it out. */
  lemma ChartKeepsLayout(math: MathOps, init: Params, deg: real)
    ensures GetModelFromParams(math, init.(theta := Deg2Rad(math, deg))).transmitters
         == GetModelFromParams(math, init).transmitters
  {
    LayoutIgnoresReceiver(math, init.(theta := Deg2Rad(math, deg)), init);
  }

  /** In radians the receiver angles cover [-pi/2, pi/2), in increasing order. */
  lemma ChartAnglesInRadians(math: MathOps, init: Params)
    requires 0.0 < math.pi
    requires init.transmitters >= 1 && init.lambda != 0.0
    ensures forall i :: 0 <= i < |ChartData(math, init)| ==>
              -math.pi / 2.0 <= Deg2Rad(math, ChartData(math, init)[i].x) < math.pi / 2.0
    ensures forall i, j :: 0 <= i < j < |ChartData(math, init)| ==>
              Deg2Rad(math, ChartData(math, init)[i].x) < Deg2Rad(math, ChartData(math, init)[j].x)
  {
    var r := ChartData(math, init);
    Deg2RadFixedPoints(math);
    assert Deg2Rad(math, 90.0) == math.pi / 2.0;
    forall i | 0 <= i < |r|
      ensures -math.pi / 2.0 <= Deg2Rad(math, r[i].x) < math.pi / 2.0
    {
      if r[i].x != -90.0 {
        Deg2RadStrictlyIncreasing(math, -90.0, r[i].x);
      }
      Deg2RadStrictlyIncreasing(math, r[i].x, 90.0);
    }
    forall i, j | 0 <= i < j < |r|
      ensures Deg2Rad(math, r[i].x) < Deg2Rad(math, r[j].x)
    {
      Deg2RadStrictlyIncreasing(math, r[i].x, r[j].x);
    }
  }
}
