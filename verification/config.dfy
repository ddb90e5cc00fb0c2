/** The configuration record of a Spirograph design and the extent it implies. */
module Config {
  import opened Results

  /** The two curve families. */
  datatype SpiroType = Hypotrochoid | Epitrochoid

  /** The string value carried by each enum member. */
  function TypeName(t: SpiroType): string {
    match t
    case Hypotrochoid => "hypotrochoid"
    case Epitrochoid => "epitrochoid"
  }

  /**
   * The enum's constructor from its value: it succeeds exactly on the two
   * member values, and the member it finds carries the given text.
   */
  function ParseSpiroType(s: string): (r: Option<SpiroType>)
    ensures r.Some? <==> (s == "hypotrochoid" || s == "epitrochoid")
    ensures r.Some? ==> TypeName(r.value) == s
  {
    if s == "hypotrochoid" then Some(Hypotrochoid)
    else if s == "epitrochoid" then Some(Epitrochoid)
    else None
  }

  /** Every member's value parses back to that member. */
  lemma ParseTypeName(t: SpiroType)
    ensures ParseSpiroType(TypeName(t)) == Some(t)
  {
  }

  /** The list of choices built from the enum, in declaration order. */
  function TypeChoices(): (r: seq<string>)
    ensures |r| == 2
    ensures forall s :: s in r <==> ParseSpiroType(s).Some?
  {
    [TypeName(Hypotrochoid), TypeName(Epitrochoid)]
  }

  /** Every knob that controls a design; immutable once built. */
  datatype SpiroConfig = SpiroConfig(
    outerRadius: real,
    innerRadius: real,
    penOffset: real,
    thetaStep: real,
    cycles: real,
    strokeWidth: real,
    strokeColor: string,
    canvasSize: int,
    spiroType: SpiroType)

  /**
   * The (min, max) radius used for scaling. The span between them is r + 2d
   * for a hypotrochoid and R + r + d for an epitrochoid, whose minimum is 0.
   */
  function Extent(c: SpiroConfig): (e: (real, real))
    ensures c.spiroType == Hypotrochoid ==> e.1 - e.0 == c.innerRadius + 2.0 * c.penOffset
    ensures c.spiroType == Hypotrochoid ==> e.1 == c.outerRadius + c.penOffset
    ensures c.spiroType == Epitrochoid ==> e.1 - e.0 == c.outerRadius + c.innerRadius + c.penOffset
    ensures c.spiroType == Epitrochoid ==> e.0 == 0.0
  {
    match c.spiroType
    case Hypotrochoid => (c.outerRadius - c.innerRadius - c.penOffset, c.outerRadius + c.penOffset)
    case Epitrochoid => (0.0, c.outerRadius + c.innerRadius + c.penOffset)
  }

  /** The width of the extent. */
  function Span(c: SpiroConfig): real {
    Extent(c).1 - Extent(c).0
  }

  /**
   * With positive radii and pen offset the span is positive for both
   * families, so the zero-span substitution of the scaler is never taken.
   */
  lemma SpanPositive(c: SpiroConfig)
    requires c.innerRadius > 0.0 && c.penOffset > 0.0
    requires c.spiroType == Epitrochoid ==> c.outerRadius > 0.0
    ensures Span(c) > 0.0
  {
  }

  /**
   * The extent depends on the two radii, the pen offset and the curve type
   * only: step, cycles, canvas and stroke fields do not affect it.
   */
  lemma ExtentReadsGeometryOnly(c1: SpiroConfig, c2: SpiroConfig)
    requires c1.outerRadius == c2.outerRadius && c1.innerRadius == c2.innerRadius
    requires c1.penOffset == c2.penOffset && c1.spiroType == c2.spiroType
    ensures Extent(c1) == Extent(c2)
  {
  }
}
