/**
 * The knob table and the validation that turns user-supplied knob values
 * into a configuration.
 */
module Cli {
  import opened Results
  import opened Maths
  import opened Text
  import opened Config

  /** The Python type a knob's value is converted to. */
  datatype ValueType = FloatType | IntType | StrType

  /** A knob value, already converted to its Python type. */
  datatype Value = Real(r: real) | Int(i: int) | Str(s: string)

  /** The metadata of one configurable knob. */
  datatype Knob = Knob(
    name: string,
    prompt: string,
    valueType: ValueType,
    default: Value,
    minimum: Option<real>,
    maximum: Option<real>,
    choices: Option<seq<string>>)

  /** The ValueError messages of the validator, as data. */
  datatype ValidationError =
    | BelowMinimum(name: string, minimum: real)
    | AboveMaximum(name: string, maximum: real)
    | InvalidChoice(name: string, value: string)
    | BadStrokeColor
    | UnknownSpiroType(text: string)

  /**
   * The knob table, in its declaration order. It is keyed by name, so the
   * names are distinct; every numeric knob carries both bounds, the lower
   * not above the upper, and every default has its knob's type.
   */
  function Knobs(): (r: seq<Knob>)
    ensures |r| == 9
    ensures forall i, j :: 0 <= i < j < |r| ==> r[i].name != r[j].name
    ensures forall i :: 0 <= i < |r| && r[i].valueType != StrType ==>
              r[i].minimum.Some? && r[i].maximum.Some?
    ensures forall i :: 0 <= i < |r| && r[i].valueType != StrType ==>
              r[i].minimum.value <= r[i].maximum.value
    ensures forall i :: 0 <= i < |r| ==>
              && (r[i].default.Real? <==> r[i].valueType == FloatType)
              && (r[i].default.Int? <==> r[i].valueType == IntType)
              && (r[i].default.Str? <==> r[i].valueType == StrType)
  {
    [ Knob("outer_radius", "Outer radius of the fixed circle", FloatType,
           Real(180.0), Some(10.0), Some(400.0), None),
      Knob("inner_radius", "Inner radius of the rolling circle", FloatType,
           Real(75.0), Some(5.0), Some(250.0), None),
      Knob("pen_offset", "Distance of the pen from the rolling circle center", FloatType,
           Real(40.0), Some(1.0), Some(250.0), None),
      Knob("theta_step", "Angle step between points (smaller = smoother)", FloatType,
           Real(0.02), Some(0.001), Some(0.2), None),
      Knob("cycles", "Number of rotations to complete", FloatType,
           Real(20.0), Some(1.0), Some(60.0), None),
      Knob("stroke_width", "Stroke width of the curve", FloatType,
           Real(2.0), Some(0.1), Some(10.0), None),
      Knob("canvas_size", "Canvas size in pixels", IntType,
           Int(900), Some(200.0), Some(3000.0), None),
      Knob("stroke_color", "Stroke color (hex)", StrType,
           Str("#1f77b4"), None, None, None),
      Knob("spiro_type", "Spirograph type", StrType,
           Str(TypeName(Hypotrochoid)), None, None, Some(TypeChoices())) ]
  }

  /** A value lies within every bound the knob sets; an absent bound sets none. */
  predicate InRange(x: real, knob: Knob) {
    && (knob.minimum.Some? ==> knob.minimum.value <= x)
    && (knob.maximum.Some? ==> x <= knob.maximum.value)
  }

  /**
   * Range validation: the value comes back unchanged exactly when it is in
   * range; otherwise the minimum is checked first, then the maximum.
   */
  function ValidateRange(name: string, x: real, knob: Knob): (r: Result<real, ValidationError>)
    ensures r.Ok? <==> InRange(x, knob)
    ensures r.Ok? ==> r.value == x
    ensures knob.minimum.Some? && x < knob.minimum.value ==>
              r == Err(BelowMinimum(name, knob.minimum.value))
    ensures (knob.minimum.None? || knob.minimum.value <= x)
              && knob.maximum.Some? && x > knob.maximum.value ==>
              r == Err(AboveMaximum(name, knob.maximum.value))
  {
    if knob.minimum.Some? && x < knob.minimum.value then
      Err(BelowMinimum(name, knob.minimum.value))
    else if knob.maximum.Some? && x > knob.maximum.value then
      Err(AboveMaximum(name, knob.maximum.value))
    else
      Ok(x)
  }

  /** Python's `float()` on an int or float. */
  function AsReal(v: Value): real
    requires !v.Str?
  {
    match v
    case Real(x) => x
    case Int(n) => n as real
  }

  /** Python's `int()` on an int or float. */
  function AsInt(v: Value): int
    requires !v.Str?
  {
    match v
    case Real(x) => Trunc(x)
    case Int(n) => n
  }

  /** A non-empty list of choices (Python treats an empty list as no choices). */
  predicate HasChoices(knob: Knob) {
    knob.choices.Some? && |knob.choices.value| > 0
  }

  /** The shape the colour check demands: a leading '#' and 4 or 7 characters in all. */
  predicate ColorShaped(t: string) {
    |t| > 0 && t[0] == '#' && (|t| == 4 || |t| == 7)
  }

  /** A colour as the validator hands it on: well shaped, stripped, lower case. */
  predicate CanonicalColor(t: string) {
    ColorShaped(t) && Stripped(t) && Lower(t) == t
  }

  /**
   * The stroke colour check: accepted exactly when the stripped text is well
   * shaped (the digits themselves are not checked); the result is canonical.
   */
  function NormalizeColor(text: string): (r: Result<string, ValidationError>)
    ensures r.Ok? <==> ColorShaped(Strip(text))
    ensures r.Ok? ==> r.value == Lower(Strip(text))
    ensures r.Ok? ==> CanonicalColor(r.value) && |r.value| == |Strip(text)|
    ensures r.Err? ==> r.error == BadStrokeColor
  {
    var t := Strip(text);
    if !(|t| > 0 && t[0] == '#') || !(|t| == 4 || |t| == 7) then
      Err(BadStrokeColor)
    else
      LowerIdempotent(t);
      LowerKeepsStripped(t);
      Ok(Lower(t))
  }

  /** Re-normalising an accepted colour returns it unchanged. */
  lemma NormalizeColorIdempotent(text: string)
    requires NormalizeColor(text).Ok?
    ensures NormalizeColor(NormalizeColor(text).value) == NormalizeColor(text)
  {
  }

  /** A canonical colour is its own normal form. */
  lemma CanonicalColorFixed(t: string)
    requires CanonicalColor(t)
    ensures NormalizeColor(t) == Ok(t)
  {
  }

  /** The types the validator expects: text for string knobs, numbers otherwise. */
  predicate WellTyped(v: Value, knob: Knob) {
    v.Str? <==> knob.valueType == StrType
  }

  /**
   * Validation of one knob value. Numbers are converted to the knob's type
   * and range checked; a knob with choices accepts exactly its choices; the
   * stroke colour is checked and canonicalised; any other text passes.
   */
  function NormalizeValue(name: string, v: Value, knob: Knob): (r: Result<Value, ValidationError>)
    requires WellTyped(v, knob)
    ensures knob.valueType == FloatType ==>
              (r.Ok? <==> InRange(AsReal(v), knob)) && (r.Ok? ==> r.value == Real(AsReal(v)))
    ensures knob.valueType == IntType ==>
              (r.Ok? <==> InRange(AsInt(v) as real, knob)) && (r.Ok? ==> r.value == Int(AsInt(v)))
    ensures knob.valueType == StrType && HasChoices(knob) ==>
              (r.Ok? <==> v.s in knob.choices.value) && (r.Ok? ==> r.value == v)
    ensures knob.valueType == StrType && !HasChoices(knob) && name == "stroke_color" ==>
              (r.Ok? <==> ColorShaped(Strip(v.s))) &&
              (r.Ok? ==> r.value == Str(Lower(Strip(v.s))) && CanonicalColor(r.value.s))
    ensures knob.valueType == StrType && !HasChoices(knob) && name != "stroke_color" ==>
              r == Ok(v)
  {
    match knob.valueType
    case FloatType =>
      var x :- ValidateRange(name, AsReal(v), knob);
      Ok(Real(x))
    case IntType =>
      var n := AsInt(v);
      var _ :- ValidateRange(name, n as real, knob);
      Ok(Int(n))
    case StrType =>
      if HasChoices(knob) then
        if v.s !in knob.choices.value then Err(InvalidChoice(name, v.s)) else Ok(v)
      else if name == "stroke_color" then
        var t :- NormalizeColor(v.s);
        Ok(Str(t))
      else
        Ok(v)
  }

  /**
   * What a validated value of a knob looks like, stated apart from the
   * validator: a number of the knob's type within its bounds, one of its
   * choices, a canonical colour, or any text.
   */
  predicate Admissible(v: Value, knob: Knob) {
    match knob.valueType
    case FloatType => v.Real? && InRange(v.r, knob)
    case IntType => v.Int? && InRange(v.i as real, knob)
    case StrType =>
      && v.Str?
      && (HasChoices(knob) ==> v.s in knob.choices.value)
      && (!HasChoices(knob) && knob.name == "stroke_color" ==> CanonicalColor(v.s))
  }

  /** Every value the validator accepts is admissible for its knob. */
  lemma NormalizeSound(v: Value, knob: Knob)
    requires WellTyped(v, knob) && NormalizeValue(knob.name, v, knob).Ok?
    ensures Admissible(NormalizeValue(knob.name, v, knob).value, knob)
  {
  }

  /**
   * Every admissible value is accepted unchanged; with NormalizeSound this
   * makes validation idempotent.
   */
  lemma NormalizeFixesAdmissible(v: Value, knob: Knob)
    requires Admissible(v, knob)
    ensures WellTyped(v, knob) && NormalizeValue(knob.name, v, knob) == Ok(v)
  {
    if knob.valueType == StrType && !HasChoices(knob) && knob.name == "stroke_color" {
      CanonicalColorFixed(v.s);
    }
  }

  /** Validating an accepted value again returns it unchanged. */
  lemma NormalizeIdempotent(v: Value, knob: Knob)
    requires WellTyped(v, knob) && NormalizeValue(knob.name, v, knob).Ok?
    ensures var w := NormalizeValue(knob.name, v, knob).value;
            WellTyped(w, knob) && NormalizeValue(knob.name, w, knob) == Ok(w)
  {
  }

  /**
   * Every knob's default is admissible, so it passes validation unchanged;
   * for the numeric knobs this is minimum <= default <= maximum.
   */
  lemma DefaultsAccepted()
    ensures forall i :: 0 <= i < |Knobs()| ==> Admissible(Knobs()[i].default, Knobs()[i])
    ensures forall i :: 0 <= i < |Knobs()| ==>
              WellTyped(Knobs()[i].default, Knobs()[i]) &&
              NormalizeValue(Knobs()[i].name, Knobs()[i].default, Knobs()[i]) == Ok(Knobs()[i].default)
  {
  }

  /** A number is stored under the key. */
  predicate NumberAt(values: map<string, Value>, key: string) {
    key in values && !values[key].Str?
  }

  /** Text is stored under the key. */
  predicate TextAt(values: map<string, Value>, key: string) {
    key in values && values[key].Str?
  }

  /** Every key the configuration is built from is present with a value of its type. */
  predicate Complete(values: map<string, Value>) {
    && NumberAt(values, "outer_radius") && NumberAt(values, "inner_radius")
    && NumberAt(values, "pen_offset") && NumberAt(values, "theta_step")
    && NumberAt(values, "cycles") && NumberAt(values, "stroke_width")
    && NumberAt(values, "canvas_size")
    && TextAt(values, "stroke_color") && TextAt(values, "spiro_type")
  }

  /**
   * Copies the validated values into a configuration. It fails only when
   * the curve type is not one of the enum's values; every field is the
   * converted value stored under its name.
   */
  function BuildConfig(values: map<string, Value>): (r: Result<SpiroConfig, ValidationError>)
    requires Complete(values)
    ensures r.Ok? <==> values["spiro_type"].s in TypeChoices()
    ensures r.Err? ==> r.error == UnknownSpiroType(values["spiro_type"].s)
    ensures r.Ok? ==> TypeName(r.value.spiroType) == values["spiro_type"].s
    ensures r.Ok? ==> r.value.outerRadius == AsReal(values["outer_radius"])
    ensures r.Ok? ==> r.value.innerRadius == AsReal(values["inner_radius"])
    ensures r.Ok? ==> r.value.penOffset == AsReal(values["pen_offset"])
    ensures r.Ok? ==> r.value.thetaStep == AsReal(values["theta_step"])
    ensures r.Ok? ==> r.value.cycles == AsReal(values["cycles"])
    ensures r.Ok? ==> r.value.strokeWidth == AsReal(values["stroke_width"])
    ensures r.Ok? ==> r.value.strokeColor == values["stroke_color"].s
    ensures r.Ok? ==> r.value.canvasSize == AsInt(values["canvas_size"])
  {
    match ParseSpiroType(values["spiro_type"].s)
    case None => Err(UnknownSpiroType(values["spiro_type"].s))
    case Some(t) =>
      Ok(SpiroConfig(
        outerRadius := AsReal(values["outer_radius"]),
        innerRadius := AsReal(values["inner_radius"]),
        penOffset := AsReal(values["pen_offset"]),
        thetaStep := AsReal(values["theta_step"]),
        cycles := AsReal(values["cycles"]),
        strokeWidth := AsReal(values["stroke_width"]),
        strokeColor := values["stroke_color"].s,
        canvasSize := AsInt(values["canvas_size"]),
        spiroType := t))
  }

  /** Every knob has an admissible value stored under its name. */
  predicate Accepted(values: map<string, Value>) {
    forall i :: 0 <= i < |Knobs()| ==>
      Knobs()[i].name in values && Admissible(values[Knobs()[i].name], Knobs()[i])
  }

  /** The positivity the sampler and scaler rely on. */
  predicate Samplable(c: SpiroConfig) {
    && c.outerRadius > 0.0 && c.innerRadius > 0.0 && c.penOffset > 0.0
    && c.thetaStep > 0.0 && c.cycles > 0.0 && c.canvasSize > 0
  }

  /**
   * Values that passed validation always build a configuration, and its
   * lower bounds make it samplable: the inner radius and step are positive
   * divisors and the extent's span is positive.
   */
  lemma AcceptedBuildsSamplable(values: map<string, Value>)
    requires Accepted(values)
    ensures Complete(values)
    ensures BuildConfig(values).Ok?
    ensures Samplable(BuildConfig(values).value)
    ensures Span(BuildConfig(values).value) > 0.0
  {
    var knobs := Knobs();
    assert knobs[0].name in values && Admissible(values[knobs[0].name], knobs[0]);
    assert knobs[1].name in values && Admissible(values[knobs[1].name], knobs[1]);
    assert knobs[2].name in values && Admissible(values[knobs[2].name], knobs[2]);
    assert knobs[3].name in values && Admissible(values[knobs[3].name], knobs[3]);
    assert knobs[4].name in values && Admissible(values[knobs[4].name], knobs[4]);
    assert knobs[5].name in values && Admissible(values[knobs[5].name], knobs[5]);
    assert knobs[6].name in values && Admissible(values[knobs[6].name], knobs[6]);
    assert knobs[7].name in values && Admissible(values[knobs[7].name], knobs[7]);
    assert knobs[8].name in values && Admissible(values[knobs[8].name], knobs[8]);
    SpanPositive(BuildConfig(values).value);
  }
}
