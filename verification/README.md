# Spirograph curve pipeline in Dafny

This project models the core of a Spirograph SVG generator. A validated
configuration goes through three pure stages:

- the **sampler** evaluates a hypotrochoid or epitrochoid at `steps + 1` angles;
- the **scaler** fits those raw points to a square canvas with one
  scale-and-translate;
- the **path encoder** turns the scaled points into an SVG `M`/`L` path string.

The model also covers the command-line validator that produces the
configuration. It includes the knob table with its bounds, range validation,
choice and stroke-colour normalisation, and the copy of the validated values
into the configuration record.

Modules follow the source layout:

| module | models |
|---|---|
| `Config` (config.dfy) | `SpiroType`, `SpiroConfig`, `extent` |
| `Sampler` (sampler.dfy) | `_hypotrochoid_point`, `_epitrochoid_point`, `generate_points` |
| `Scaler` (scaler.dfy) | `scale_points` |
| `PathEncoder` (encoder.dfy) | `points_to_path`, and Python's `" ".join` |
| `Generator` (generator.dfy) | `generate_path` |
| `Cli` (cli.dfy) | `Knob`, `KNOBS`, `_validate_range`, `_normalize_value`, `_build_config` |
| `Maths`, `Text`, `Results` | Python's `math.pi`, `int()`, `max`, `str.strip`, `str.lower`, and raised errors as `Result` values |

Things the model cannot compute are parameters supplied by the caller:

- `sin` and `cos` come in a `Trig` record of functions. Nothing is assumed
  about them except, where a property needs it, `sin(0) = 0` and `cos(0) = 1`.
- The `:.3f` coordinate formatter is a function `fmt: real -> string`.
- `math.pi` is the decimal Python prints for it, `3.141592653589793`. The
  double itself is 3.14159265358979311…

Arithmetic is over `real`. Python's `int()` on a float truncates toward zero;
`Maths.Trunc` models that, and it agrees with `Floor` for non-negative
arguments.

Two details of the code shape the model:

- The degenerate-span guard uses `math.isclose(span, 0.0)` with default
  tolerances. With an absolute tolerance of 0, that is true only for a span of
  exactly 0, so the guard is modelled as `span == 0`.
- The scaler centres the raw origin, not the midpoint of the extent. For an
  epitrochoid the extent is `(0, R + r + d)`, so its midpoint does not land on
  the canvas centre. `Scaler.OriginToCentre` states what the code does.

## Model

| member | source | states |
|---|---|---|
| `Config.ParseSpiroType` | spirograph/config.py:9-13 | building the enum from a string succeeds exactly on "hypotrochoid" and "epitrochoid", and the member found carries that string |
| `Config.TypeChoices` | spirograph/cli.py:94-100 | the choice list built from the enum has two entries, and they are exactly the strings the enum accepts |
| `Config.Extent` | spirograph/config.py:30-36 | the extent's span is r + 2d for a hypotrochoid, whose maximum is R + d, and R + r + d for an epitrochoid, whose minimum is 0 |
| `Config.SpanPositive` | spirograph/config.py:33-36 | with positive r and d (and R for the epitrochoid) the span is positive, so the zero-span branch of the scaler cannot be taken |
| `Config.ExtentReadsGeometryOnly` | spirograph/config.py:30-36 | two configurations with the same R, r, d and curve type have the same extent, whatever their step, cycles, canvas and stroke |
| `Maths.Trunc` | spirograph/generator.py:40 | `int()` of a float lies within one of its argument, on the side of zero |
| `Maths.Max` | spirograph/generator.py:61-63 | Python's `max` of two floats is at least both and equal to one of them |
| `Maths.TruncIsFloor` | spirograph/generator.py:40 | for non-negative quotients `int()` is the floor |
| `Sampler.HypotrochoidPoint` | spirograph/generator.py:12-21 | at angle 0, with exact sin and cos there, the hypotrochoid point is (R - r + d, 0) |
| `Sampler.EpitrochoidPoint` | spirograph/generator.py:24-33 | at angle 0, with exact sin and cos there, the epitrochoid point is (R + r - d, 0) |
| `Sampler.CurvePoint` | spirograph/generator.py:44-47 | the hypotrochoid formula for a hypotrochoid and the epitrochoid formula otherwise, so the dispatch is total |
| `Sampler.SamplePoints` | spirograph/generator.py:40-48 | the reference sample sequence: steps + 1 points, point i at angle i * step |
| `Sampler.Steps` | spirograph/generator.py:39-40 | the step count is at least 1, and for a positive step and non-negative cycles it is max(1, floor(2 pi cycles / step)) |
| `Sampler.LastAngleBounds` | spirograph/generator.py:39-43 | when the step fits in 2 pi cycles, the last sampled angle lies in (2 pi cycles - step, 2 pi cycles] |
| `Sampler.SingleSegment` | spirograph/generator.py:39-43 | when the step exceeds 2 pi cycles, one segment is drawn and the last angle is exactly the step |
| `Sampler.GeneratePoints` | spirograph/generator.py:36-49 | exactly steps + 1 points (so at least 2), point i is the configured family's point at angle i * step, and the loop's result is the reference sequence |
| `Sampler.AnglesAscend` | spirograph/generator.py:42-43 | with a positive step, sample angles strictly increase with the index |
| `Sampler.FirstPoint` | spirograph/generator.py:42-47 | sample 0 is (R - r + d, 0) for a hypotrochoid and (R + r - d, 0) for an epitrochoid |
| `Sampler.DefaultDesignSteps` | spirograph/generator.py:39-40 | the default design (step 0.02, 20 cycles) takes 6283 steps |
| `Sampler.HalfTurnSteps` | spirograph/generator.py:39-40 | one cycle with step pi takes 2 steps |
| `Scaler.GuardedSpan` | spirograph/generator.py:58-61 | the span used is never zero: a non-zero span is kept, and a zero span becomes max(R, 1), the larger of R and 1 |
| `Scaler.Divisor` | spirograph/generator.py:63 | the divisor is at least 1 and at least half the guarded span, and it is one of the two |
| `Scaler.ScaleFactor` | spirograph/generator.py:62-63 | the factor times the divisor is half the canvas, so on a positive canvas 0 < s <= canvas_size / 2 |
| `Scaler.ScalePoints` | spirograph/generator.py:52-68 | empty input gives empty output; otherwise length and order are kept and output i is (h + x_i s, h + y_i s) with h half the canvas |
| `Scaler.Affine` | spirograph/generator.py:67 | the raw origin goes to (h, h), and each coordinate's offset from h is the raw coordinate times the same s |
| `Scaler.AffineAll` | spirograph/generator.py:65-68 | the per-point loop keeps length and order and maps each point by the one transform |
| `Scaler.AffineInverse` | spirograph/generator.py:67 | the per-point transform is invertible for a non-zero factor |
| `Scaler.OriginToCentre` | spirograph/generator.py:62-67 | a raw point at the origin lands on (canvas_size / 2, canvas_size / 2) |
| `Scaler.UniformScale` | spirograph/generator.py:63-67 | differences between output points are input differences times the same factor on both axes |
| `Scaler.ScaleRoundTrip` | spirograph/generator.py:65-68 | on a positive canvas, undoing the transform recovers the raw curve exactly |
| `PathEncoder.LineSegments` | spirograph/generator.py:80 | one line-to per remaining point, in order |
| `PathEncoder.Segments` | spirograph/generator.py:74-80 | an error exactly for empty input; otherwise one move-to for the first point and a line-to for each other point, in order |
| `PathEncoder.SegmentsRoundTrip` | spirograph/generator.py:77-80 | the targets of the commands are exactly the input points |
| `PathEncoder.SegmentText` | spirograph/generator.py:79-80 | each command's text starts with its letter, M for the first point and L otherwise, followed by a space |
| `PathEncoder.SegmentTexts` | spirograph/generator.py:79-80 | one text per command, in order |
| `PathEncoder.Join` | spirograph/generator.py:81 | `" ".join` is empty for no parts, the part itself for one part, and starts with the first part otherwise |
| `PathEncoder.JoinAppend` | spirograph/generator.py:81 | joining one more part adds a space and that part |
| `PathEncoder.PointsToPath` | spirograph/generator.py:71-81 | raises exactly on empty input; otherwise the path starts with "M " |
| `PathEncoder.SinglePointPath` | spirograph/generator.py:77-81 | one point gives "M fx fy" |
| `PathEncoder.AppendPointPath` | spirograph/generator.py:79-81 | appending a point to a non-empty curve appends " L fx fy" to its path, so the path is "M fx fy" then " L fx fy" for each further point, in order |
| `PathEncoder.JoinCount` | spirograph/generator.py:81 | joining with spaces adds no character other than spaces |
| `PathEncoder.SegmentTextCount` | spirograph/generator.py:79-80 | each command's text holds one command letter, M for the move and L for a line |
| `PathEncoder.CommandCounts` | spirograph/generator.py:79-81 | for a formatter that writes no M or L, a path of n > 0 points holds one M and n - 1 L |
| `PathEncoder.TwoPointPath` | spirograph/generator.py:79-81 | (10, 20), (30, 40) encode as "M 10.000 20.000 L 30.000 40.000" |
| `Generator.GeneratePath` | spirograph/generator.py:84-89 | the result is the encoding of the scaled reference samples, so equal inputs give equal paths; the empty-curve error is never reached; the path opens with "M " and, for a letter-free formatter, holds one M and exactly `steps` L |
| `Text.StripLeft` | spirograph/cli.py:167 | removes exactly a whitespace prefix, leaving a suffix that does not start with whitespace |
| `Text.StripRight` | spirograph/cli.py:167 | removes exactly a whitespace suffix, leaving a prefix that does not end with whitespace |
| `Text.Strip` | spirograph/cli.py:167 | the result is a slice of the input with no whitespace at either end, and everything cut away is whitespace |
| `Text.StripStripped` | spirograph/cli.py:167 | stripping text with no whitespace at its ends changes nothing |
| `Text.Lower` | spirograph/cli.py:170 | lower-casing keeps the length and maps each character on its own |
| `Text.LowerIdempotent` | spirograph/cli.py:170 | lower-casing twice equals lower-casing once |
| `Text.LowerKeepsStripped` | spirograph/cli.py:170 | lower-casing stripped text leaves it stripped |
| `Text.CountConcat` | spirograph/generator.py:81 | character counts add up over concatenation |
| `Cli.Knobs` | spirograph/cli.py:31-101 | nine knobs with distinct names; every numeric knob has both bounds with the minimum not above the maximum; a default is a float, an int or text exactly when its knob is a float, int or text knob |
| `Cli.ValidateRange` | spirograph/cli.py:147-152 | returns the value unchanged iff it is within the bounds that are present; otherwise below-minimum is reported first, then above-maximum |
| `Cli.NormalizeColor` | spirograph/cli.py:166-170 | accepted iff the stripped text starts with '#' and has 4 or 7 characters (digits unchecked); the result is the lower-cased stripped text, which is canonical |
| `Cli.NormalizeColorIdempotent` | spirograph/cli.py:166-170 | normalising an accepted colour again returns it unchanged |
| `Cli.CanonicalColorFixed` | spirograph/cli.py:166-170 | a well-shaped, stripped, lower-case colour is its own normal form |
| `Cli.NormalizeValue` | spirograph/cli.py:155-171 | numbers are converted and accepted iff in range; a choice knob accepts exactly its choices, unchanged; the stroke colour is accepted iff well shaped and comes back as its lower-cased stripped text; other text passes |
| `Cli.NormalizeSound` | spirograph/cli.py:155-171 | every accepted value is admissible for its knob |
| `Cli.NormalizeFixesAdmissible` | spirograph/cli.py:155-171 | every admissible value passes validation unchanged |
| `Cli.NormalizeIdempotent` | spirograph/cli.py:155-171 | validating an accepted value again returns it unchanged |
| `Cli.DefaultsAccepted` | spirograph/cli.py:31-101 | every default is admissible (minimum <= default <= maximum for numbers) and passes validation unchanged |
| `Cli.BuildConfig` | spirograph/cli.py:206-217 | fails only for a curve type outside the enum; otherwise every field is the converted value stored under its name |
| `Cli.AcceptedBuildsSamplable` | spirograph/cli.py:206-217 | values that passed validation always build a configuration with positive radii, offset, step, cycles and canvas, and a positive extent span |

## Left out

- `spirograph/render.py` is not part of this model. It fills an SVG template, stamps the current time and writes a file.
- Argument parsing, interactive prompts, the summary table, the seeded and system random generators, `_collect_knob_values` and `main` are I/O and are left out.
- The string-to-number conversions in `_normalize_value` are left out. Values arrive already typed (`Cli.Value`), and `Cli.NormalizeValue` requires text exactly for string knobs.
- IEEE-754 behaviour is left out; all arithmetic is exact over `real`. The knob bounds and defaults, such as 0.001 and 0.02, are the decimals the source writes, and `math.pi` is the decimal Python prints for it.
- Python's Unicode `strip()` and `lower()` are modelled over ASCII whitespace and ASCII letters only.
- The digits of the `:.3f` formatter are left out; it is the opaque parameter `fmt`.
- Sampler.HypotrochoidPoint: states only the value at angle 0, because sin and cos are uninterpreted. No claim needs more trigonometry, such as "every point lies within the extent".
- Sampler.EpitrochoidPoint: states only the value at angle 0, for the same reason.
- Sampler.GeneratePoints: requires a non-zero step and inner radius. The source raises ZeroDivisionError for either; the validator's lower bounds rule both out.
- Generator.GeneratePath: has the same requires as Sampler.GeneratePoints, for the same reason, so the ZeroDivisionError path of `generate_path` is not modelled either.
- Cli.BuildConfig: requires every key to be present with a value of its type. A missing key raises KeyError in the source, and conversion of text to numbers is left out.
- Cli.AcceptedBuildsSamplable: holds because arithmetic is exact. In the program, `_validate_range` lets a NaN through, since both of its comparisons are false, so a NaN inner radius or step would pass validation.
