/** The uniform scale-and-translate that fits a raw curve to the canvas. */
module Scaler {
  import opened Maths
  import opened Config
  import opened Sampler

  /**
   * The span used for scaling. A span of exactly zero (the only span that
   * `math.isclose` with default tolerances calls close to 0) is replaced by
   * max(R, 1); any other span is used as it is.
   */
  function GuardedSpan(c: SpiroConfig): (span: real)
    ensures span != 0.0
    ensures Span(c) != 0.0 ==> span == Span(c)
    ensures Span(c) == 0.0 ==> span >= 1.0 && span >= c.outerRadius
    ensures Span(c) == 0.0 ==> span == c.outerRadius || span == 1.0
  {
    if Span(c) == 0.0 then Max(c.outerRadius, 1.0) else Span(c)
  }

  /** Half the canvas side: the canvas centre on both axes. */
  function HalfCanvas(c: SpiroConfig): real {
    c.canvasSize as real / 2.0
  }

  /** The divisor max(span / 2, 1): never below one, whatever the span. */
  function Divisor(c: SpiroConfig): (d: real)
    ensures d >= 1.0 && d >= GuardedSpan(c) / 2.0
    ensures d == 1.0 || d == GuardedSpan(c) / 2.0
  {
    Max(GuardedSpan(c) / 2.0, 1.0)
  }

  /**
   * The scale factor, shared by both axes. It times the divisor gives half
   * the canvas, so on a non-empty canvas it is positive and at most half the
   * canvas side.
   */
  function ScaleFactor(c: SpiroConfig): (s: real)
    ensures s * Divisor(c) == HalfCanvas(c)
    ensures c.canvasSize > 0 ==> 0.0 < s <= HalfCanvas(c)
  {
    var s := HalfCanvas(c) / Divisor(c);
    assert c.canvasSize > 0 ==> s <= HalfCanvas(c) by {
      if c.canvasSize > 0 {
        ScaleMonotone(1.0, Divisor(c), s);
      }
    }
    s
  }

  /** Scales a point by s about the raw origin and moves the origin to (h, h). */
  function Affine(p: Point, s: real, h: real): (q: Point)
    ensures p == (0.0, 0.0) ==> q == (h, h)
    ensures q.0 - h == p.0 * s && q.1 - h == p.1 * s
  {
    (h + p.0 * s, h + p.1 * s)
  }

  /** The inverse of Affine for a non-zero factor. */
  function InverseAffine(q: Point, s: real, h: real): Point
    requires s != 0.0
  {
    ((q.0 - h) / s, (q.1 - h) / s)
  }

  /** Affine is undone by InverseAffine. */
  lemma AffineInverse(p: Point, s: real, h: real)
    requires s != 0.0
    ensures InverseAffine(Affine(p, s, h), s, h) == p
  {
    assert (h + p.0 * s) - h == p.0 * s && (p.0 * s) / s == p.0;
    assert (h + p.1 * s) - h == p.1 * s && (p.1 * s) / s == p.1;
    var back := InverseAffine(Affine(p, s, h), s, h);
    assert back.0 == p.0 && back.1 == p.1;
  }

  /** Applies Affine to each point, in order. */
  function AffineAll(points: seq<Point>, s: real, h: real): (r: seq<Point>)
    ensures |r| == |points|
    ensures forall i :: 0 <= i < |r| ==> r[i] == Affine(points[i], s, h)
  {
    if |points| == 0 then []
    else [Affine(points[0], s, h)] + AffineAll(points[1..], s, h)
  }

  /**
   * Scales every point, keeping length and order: an empty curve stays
   * empty, and output i is (h + x_i * s, h + y_i * s) with h half the canvas
   * and one factor s on both axes.
   */
  function ScalePoints(points: seq<Point>, c: SpiroConfig): (r: seq<Point>)
    ensures |points| == 0 ==> r == []
    ensures |r| == |points|
    ensures forall i :: 0 <= i < |r| ==> r[i] == Affine(points[i], ScaleFactor(c), HalfCanvas(c))
  {
    if |points| == 0 then []
    else AffineAll(points, ScaleFactor(c), HalfCanvas(c))
  }

  /** The raw origin lands on the canvas centre. */
  lemma OriginToCentre(points: seq<Point>, c: SpiroConfig, i: int)
    requires 0 <= i < |points| && points[i] == (0.0, 0.0)
    ensures ScalePoints(points, c)[i] == (HalfCanvas(c), HalfCanvas(c))
  {
  }

  /**
   * The transform preserves aspect ratio: differences between any two
   * output points are the input differences times the same factor on both axes.
   */
  lemma UniformScale(points: seq<Point>, c: SpiroConfig, i: int, j: int)
    requires 0 <= i < |points| && 0 <= j < |points|
    ensures ScalePoints(points, c)[i].0 - ScalePoints(points, c)[j].0
              == (points[i].0 - points[j].0) * ScaleFactor(c)
    ensures ScalePoints(points, c)[i].1 - ScalePoints(points, c)[j].1
              == (points[i].1 - points[j].1) * ScaleFactor(c)
  {
    var h, s := HalfCanvas(c), ScaleFactor(c);
    var r := ScalePoints(points, c);
    assert r[i] == Affine(points[i], s, h) && r[j] == Affine(points[j], s, h);
    ShiftedDifference(points[i].0, points[j].0, s, h);
    ShiftedDifference(points[i].1, points[j].1, s, h);
  }

  /** The shift cancels in a difference of two scaled coordinates. */
  lemma ShiftedDifference(a: real, b: real, s: real, h: real)
    ensures (h + a * s) - (h + b * s) == (a - b) * s
  {
  }

  /** Undoes a scaling with the same factor and shift, point by point. */
  function InverseAffineAll(points: seq<Point>, s: real, h: real): (r: seq<Point>)
    requires s != 0.0
    ensures |r| == |points|
    ensures forall i :: 0 <= i < |r| ==> r[i] == InverseAffine(points[i], s, h)
  {
    if |points| == 0 then []
    else [InverseAffine(points[0], s, h)] + InverseAffineAll(points[1..], s, h)
  }

  /** On a non-empty canvas scaling loses nothing: the inverse recovers the raw curve. */
  lemma ScaleRoundTrip(points: seq<Point>, c: SpiroConfig)
    requires c.canvasSize > 0
    ensures InverseAffineAll(ScalePoints(points, c), ScaleFactor(c), HalfCanvas(c)) == points
  {
    var s, h := ScaleFactor(c), HalfCanvas(c);
    var back := InverseAffineAll(ScalePoints(points, c), s, h);
    forall i | 0 <= i < |points|
      ensures back[i] == points[i]
    {
      AffineInverse(points[i], s, h);
    }
  }
}
