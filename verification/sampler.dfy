/** Parametric point sampling of the configured curve. */
module Sampler {
  import opened Maths
  import opened Config

  /** A point in the plane. */
  type Point = (real, real)

  /**
   * One hypotrochoid point, with k = R - r and angle multiplier k / r.
   * At angle 0 it is (R - r + d, 0).
   */
  function HypotrochoidPoint(theta: real, c: SpiroConfig, trig: Trig): (p: Point)
    requires c.innerRadius != 0.0
    ensures theta == 0.0 && ExactAtZero(trig) ==>
              p == (c.outerRadius - c.innerRadius + c.penOffset, 0.0)
  {
    var k := c.outerRadius - c.innerRadius;
    var angle := (k / c.innerRadius) * theta;
    var p := (k * trig.cos(theta) + c.penOffset * trig.cos(angle),
              k * trig.sin(theta) - c.penOffset * trig.sin(angle));
    assert theta == 0.0 && ExactAtZero(trig) ==> p.0 == c.outerRadius - c.innerRadius + c.penOffset && p.1 == 0.0 by {
      if theta == 0.0 && ExactAtZero(trig) {
        assert angle == 0.0;
      }
    }
    p
  }

  /**
   * One epitrochoid point, with k = R + r and angle multiplier k / r.
   * At angle 0 it is (R + r - d, 0).
   */
  function EpitrochoidPoint(theta: real, c: SpiroConfig, trig: Trig): (p: Point)
    requires c.innerRadius != 0.0
    ensures theta == 0.0 && ExactAtZero(trig) ==>
              p == (c.outerRadius + c.innerRadius - c.penOffset, 0.0)
  {
    var k := c.outerRadius + c.innerRadius;
    var angle := (k / c.innerRadius) * theta;
    var p := (k * trig.cos(theta) - c.penOffset * trig.cos(angle),
              k * trig.sin(theta) - c.penOffset * trig.sin(angle));
    assert theta == 0.0 && ExactAtZero(trig) ==> p.0 == c.outerRadius + c.innerRadius - c.penOffset && p.1 == 0.0 by {
      if theta == 0.0 && ExactAtZero(trig) {
        assert angle == 0.0;
      }
    }
    p
  }

  /** The point of the configured family at an angle; the two families cover every type. */
  function CurvePoint(theta: real, c: SpiroConfig, trig: Trig): (p: Point)
    requires c.innerRadius != 0.0
    ensures c.spiroType == Hypotrochoid ==> p == HypotrochoidPoint(theta, c, trig)
    ensures c.spiroType != Hypotrochoid ==> p == EpitrochoidPoint(theta, c, trig)
  {
    match c.spiroType
    case Hypotrochoid => HypotrochoidPoint(theta, c, trig)
    case Epitrochoid => EpitrochoidPoint(theta, c, trig)
  }

  /** The nominal angle swept: 2 pi times the number of cycles. */
  function TotalAngle(c: SpiroConfig): real {
    2.0 * Pi * c.cycles
  }

  /**
   * The number of segments: the truncated quotient of the total angle by the
   * step, but never fewer than one.
   */
  function Steps(c: SpiroConfig): (n: int)
    requires c.thetaStep != 0.0
    ensures n >= 1
    ensures c.thetaStep > 0.0 && c.cycles >= 0.0 ==>
              var q := (TotalAngle(c) / c.thetaStep).Floor;
              (q >= 1 ==> n == q) && (q < 1 ==> n == 1)
  {
    var n := Trunc(TotalAngle(c) / c.thetaStep);
    if n > 1 then n else 1
  }

  /**
   * When the step fits in the total angle, the last sampled angle lies in
   * (total - step, total]: the sweep overshoots by less than one step and
   * never falls short by a whole one.
   */
  lemma LastAngleBounds(c: SpiroConfig)
    requires c.thetaStep > 0.0 && TotalAngle(c) >= c.thetaStep
    ensures TotalAngle(c) - c.thetaStep < Angle(Steps(c), c) <= TotalAngle(c)
  {
    var t, h := TotalAngle(c), c.thetaStep;
    QuotientAtLeastOne(t, h);
    FloorQuotient(t, h);
  }

  /** A quotient by a positive divisor no larger than the dividend is at least one. */
  lemma QuotientAtLeastOne(t: real, h: real)
    requires 0.0 < h <= t
    ensures t / h >= 1.0
  {
  }

  /** Flooring a quotient by a positive divisor loses less than one divisor. */
  lemma FloorQuotient(t: real, h: real)
    requires h > 0.0
    ensures (t / h).Floor as real * h <= t < (t / h).Floor as real * h + h
  {
    var q := t / h;
    var n := q.Floor as real;
    assert q * h == t;
    assert n <= q < n + 1.0;
    ScaleMonotone(n, q, h);
    ScaleMonotone(q, n + 1.0, h);
    assert (n + 1.0) * h == n * h + h;
    assert q * h < (n + 1.0) * h;
    assert t < n * h + h;
  }

  /** Multiplying by a positive factor keeps (strict) order. */
  lemma ScaleMonotone(a: real, b: real, h: real)
    requires h > 0.0
    ensures a <= b ==> a * h <= b * h
    ensures a < b ==> a * h < b * h
  {
  }

  /** When the step exceeds the total angle a single segment is drawn, ending at angle `theta_step`. */
  lemma SingleSegment(c: SpiroConfig)
    requires c.thetaStep > 0.0 && TotalAngle(c) < c.thetaStep
    ensures Steps(c) == 1
    ensures Angle(Steps(c), c) == c.thetaStep
  {
  }

  /** The angle of the i-th sample. */
  function Angle(i: int, c: SpiroConfig): real {
    i as real * c.thetaStep
  }

  /** The point sampled at index i. */
  function SamplePoint(i: int, c: SpiroConfig, trig: Trig): Point
    requires c.innerRadius != 0.0
  {
    CurvePoint(Angle(i, c), c, trig)
  }

  /**
   * The reference sample sequence: steps + 1 points, point i at angle
   * i * theta_step.
   */
  function SamplePoints(c: SpiroConfig, trig: Trig): (r: seq<Point>)
    requires c.thetaStep != 0.0 && c.innerRadius != 0.0
    ensures |r| == Steps(c) + 1
    ensures forall i :: 0 <= i < |r| ==> r[i] == SamplePoint(i, c, trig)
  {
    seq(Steps(c) + 1, i requires 0 <= i => SamplePoint(i, c, trig))
  }

  /**
   * Samples steps + 1 points in ascending angle order: point i is the
   * configured family's point at angle i * theta_step.
   */
  method GeneratePoints(c: SpiroConfig, trig: Trig) returns (points: seq<Point>)
    requires c.thetaStep != 0.0 && c.innerRadius != 0.0
    ensures |points| == Steps(c) + 1
    ensures |points| >= 2
    ensures forall i :: 0 <= i < |points| ==> points[i] == SamplePoint(i, c, trig)
    ensures points == SamplePoints(c, trig)
  {
    var steps := Steps(c);
    points := [];
    for index := 0 to steps + 1
      invariant |points| == index
      invariant forall i :: 0 <= i < index ==> points[i] == SamplePoint(i, c, trig)
    {
      var theta := Angle(index, c);
      var point;
      if c.spiroType == Hypotrochoid {
        point := HypotrochoidPoint(theta, c, trig);
      } else {
        point := EpitrochoidPoint(theta, c, trig);
      }
      assert point == SamplePoint(index, c, trig);
      points := points + [point];
    }
  }

  /** Sample angles strictly increase with the index when the step is positive. */
  lemma AnglesAscend(c: SpiroConfig, i: int, j: int)
    requires c.thetaStep > 0.0 && i < j
    ensures Angle(i, c) < Angle(j, c)
  {
  }

  /** The first sampled point is the start of the curve at angle 0: (R - r + d, 0) or (R + r - d, 0). */
  lemma FirstPoint(c: SpiroConfig, trig: Trig)
    requires c.innerRadius != 0.0 && ExactAtZero(trig)
    ensures c.spiroType == Hypotrochoid ==>
              SamplePoint(0, c, trig) == (c.outerRadius - c.innerRadius + c.penOffset, 0.0)
    ensures c.spiroType == Epitrochoid ==>
              SamplePoint(0, c, trig) == (c.outerRadius + c.innerRadius - c.penOffset, 0.0)
  {
  }

  /**
   * The default design (R = 180, r = 75, d = 40, step 0.02, 20 cycles) takes
   * 6283 steps, so 6284 points.
   */
  lemma DefaultDesignSteps()
    ensures Steps(SpiroConfig(180.0, 75.0, 40.0, 0.02, 20.0, 2.0, "#1f77b4", 900, Hypotrochoid)) == 6283
  {
  }

  /** One cycle stepped by pi takes two steps, so three points. */
  lemma HalfTurnSteps(c: SpiroConfig)
    requires c.cycles == 1.0 && c.thetaStep == Pi
    ensures Steps(c) == 2
  {
  }
}
