/** Serialisation of a scaled curve as an SVG move/line path. */
module PathEncoder {
  import opened Results
  import opened Text
  import opened Sampler

  /** One absolute drawing command. */
  datatype Segment = MoveTo(x: real, y: real) | LineTo(x: real, y: real)

  /** The error raised when asked to encode no points. */
  datatype PathError = EmptyCurve

  /** A line-to command for every point, in order. */
  function LineSegments(points: seq<Point>): (r: seq<Segment>)
    ensures |r| == |points|
    ensures forall i :: 0 <= i < |r| ==> r[i] == LineTo(points[i].0, points[i].1)
  {
    if |points| == 0 then []
    else [LineTo(points[0].0, points[0].1)] + LineSegments(points[1..])
  }

  /**
   * The commands for a curve: none for an empty curve, which is an error;
   * otherwise one move-to for the first point and a line-to for each of the
   * others, in order.
   */
  function Segments(points: seq<Point>): (r: Result<seq<Segment>, PathError>)
    ensures r.Err? <==> |points| == 0
    ensures r.Ok? ==> |r.value| == |points|
    ensures r.Ok? ==> r.value[0] == MoveTo(points[0].0, points[0].1)
    ensures r.Ok? ==> forall i :: 1 <= i < |points| ==> r.value[i] == LineTo(points[i].0, points[i].1)
  {
    if |points| == 0 then Err(EmptyCurve)
    else Ok([MoveTo(points[0].0, points[0].1)] + LineSegments(points[1..]))
  }

  /** The point each command goes to, in order. */
  function Targets(segments: seq<Segment>): (r: seq<Point>)
    ensures |r| == |segments|
  {
    if |segments| == 0 then []
    else [(segments[0].x, segments[0].y)] + Targets(segments[1..])
  }

  /** Encoding a non-empty curve loses no point: the command targets are the curve. */
  lemma {:induction false} SegmentsRoundTrip(points: seq<Point>)
    requires |points| > 0
    ensures Targets(Segments(points).value) == points
  {
    var segments := Segments(points).value;
    var targets := Targets(segments);
    forall i | 0 <= i < |points|
      ensures targets[i] == points[i]
    {
      TargetAt(segments, i);
    }
  }

  /** The i-th target is the i-th command's point. */
  lemma {:induction false} TargetAt(segments: seq<Segment>, i: int)
    requires 0 <= i < |segments|
    ensures Targets(segments)[i] == (segments[i].x, segments[i].y)
  {
    if i > 0 {
      TargetAt(segments[1..], i - 1);
    }
  }

  /** One command as text: its letter, then both coordinates through the formatter. */
  function SegmentText(segment: Segment, fmt: real -> string): (r: string)
    ensures |r| >= 2 && r[1] == ' '
    ensures r[0] == (if segment.MoveTo? then 'M' else 'L')
  {
    match segment
    case MoveTo(x, y) => "M " + fmt(x) + " " + fmt(y)
    case LineTo(x, y) => "L " + fmt(x) + " " + fmt(y)
  }

  /** The text of every command, in order. */
  function SegmentTexts(segments: seq<Segment>, fmt: real -> string): (r: seq<string>)
    ensures |r| == |segments|
    ensures forall i :: 0 <= i < |r| ==> r[i] == SegmentText(segments[i], fmt)
  {
    if |segments| == 0 then []
    else [SegmentText(segments[0], fmt)] + SegmentTexts(segments[1..], fmt)
  }

  /**
   * Python's `" ".join(parts)`: empty for no parts, the part itself for one,
   * and starting with the first part otherwise.
   */
  function Join(parts: seq<string>): (r: string)
    ensures |parts| == 0 ==> r == ""
    ensures |parts| == 1 ==> r == parts[0]
    ensures |parts| > 0 ==> |r| >= |parts[0]| && r[..|parts[0]|] == parts[0]
  {
    if |parts| == 0 then ""
    else if |parts| == 1 then parts[0]
    else parts[0] + " " + Join(parts[1..])
  }

  /**
   * The path text of a curve, with `fmt` standing for the fixed three-decimal
   * formatting of a coordinate. Empty input is an error; any other input
   * gives a path that opens with a move-to.
   */
  function PointsToPath(points: seq<Point>, fmt: real -> string): (r: Result<string, PathError>)
    ensures r.Err? <==> |points| == 0
    ensures r.Ok? ==> |r.value| >= 2 && r.value[..2] == "M "
  {
    match Segments(points)
    case Err(e) => Err(e)
    case Ok(segments) =>
      var texts := SegmentTexts(segments, fmt);
      var path := Join(texts);
      assert path[..2] == texts[0][..2] == "M " by {
        assert path[..|texts[0]|] == texts[0];
      }
      Ok(path)
  }

  /** A formatter whose output never contains a command letter. */
  ghost predicate LetterFree(fmt: real -> string) {
    forall x :: 'M' !in fmt(x) && 'L' !in fmt(x)
  }

  /** Total count of a character over a list of strings. */
  function CountAll(parts: seq<string>, ch: char): nat {
    if |parts| == 0 then 0 else Count(parts[0], ch) + CountAll(parts[1..], ch)
  }

  /** Joining with spaces adds no other character. */
  lemma {:induction false} JoinCount(parts: seq<string>, ch: char)
    requires ch != ' '
    ensures Count(Join(parts), ch) == CountAll(parts, ch)
  {
    if |parts| > 1 {
      CountConcat(parts[0], " " + Join(parts[1..]), ch);
      CountConcat(" ", Join(parts[1..]), ch);
      JoinCount(parts[1..], ch);
      assert parts[0] + " " + Join(parts[1..]) == parts[0] + (" " + Join(parts[1..]));
    } else if |parts| == 1 {
      assert CountAll(parts[1..], ch) == 0;
    }
  }

  /** A command's text holds exactly one letter: M for a move, L for a line. */
  lemma SegmentTextCount(segment: Segment, fmt: real -> string)
    requires LetterFree(fmt)
    ensures Count(SegmentText(segment, fmt), 'M') == (if segment.MoveTo? then 1 else 0)
    ensures Count(SegmentText(segment, fmt), 'L') == (if segment.LineTo? then 1 else 0)
  {
    var head := if segment.MoveTo? then "M " else "L ";
    var rest := fmt(segment.x) + " " + fmt(segment.y);
    assert SegmentText(segment, fmt) == head + rest;
    CountConcat(head, rest, 'M');
    CountConcat(head, rest, 'L');
    CountConcat(fmt(segment.x) + " ", fmt(segment.y), 'M');
    CountConcat(fmt(segment.x) + " ", fmt(segment.y), 'L');
    CountConcat(fmt(segment.x), " ", 'M');
    CountConcat(fmt(segment.x), " ", 'L');
    CountAbsent(fmt(segment.x), 'M');
    CountAbsent(fmt(segment.x), 'L');
    CountAbsent(fmt(segment.y), 'M');
    CountAbsent(fmt(segment.y), 'L');
  }

  /** Line commands contribute one L each and no M. */
  lemma {:induction false} LinesCount(points: seq<Point>, fmt: real -> string)
    requires LetterFree(fmt)
    ensures CountAll(SegmentTexts(LineSegments(points), fmt), 'M') == 0
    ensures CountAll(SegmentTexts(LineSegments(points), fmt), 'L') == |points|
  {
    if |points| > 0 {
      var segments := LineSegments(points);
      assert segments[1..] == LineSegments(points[1..]);
      SegmentTextCount(segments[0], fmt);
      LinesCount(points[1..], fmt);
    }
  }

  /**
   * With a formatter that writes no command letters, the path of n > 0 points
   * holds exactly one M and n - 1 L commands.
   */
  lemma CommandCounts(points: seq<Point>, fmt: real -> string)
    requires |points| > 0
    ensures LetterFree(fmt) ==> Count(PointsToPath(points, fmt).value, 'M') == 1
    ensures LetterFree(fmt) ==> Count(PointsToPath(points, fmt).value, 'L') == |points| - 1
  {
    if !LetterFree(fmt) {
      return;
    }
    var segments := Segments(points).value;
    var texts := SegmentTexts(segments, fmt);
    assert segments[1..] == LineSegments(points[1..]);
    assert texts[1..] == SegmentTexts(LineSegments(points[1..]), fmt);
    SegmentTextCount(segments[0], fmt);
    LinesCount(points[1..], fmt);
    JoinCount(texts, 'M');
    JoinCount(texts, 'L');
  }

  /** Two points give one move-to and one line-to, separated by a space. */
  lemma TwoPointPath(fmt: real -> string)
    requires fmt(10.0) == "10.000" && fmt(20.0) == "20.000"
    requires fmt(30.0) == "30.000" && fmt(40.0) == "40.000"
    ensures PointsToPath([(10.0, 20.0), (30.0, 40.0)], fmt) == Ok("M 10.000 20.000 L 30.000 40.000")
  {
    var points := [(10.0, 20.0), (30.0, 40.0)];
    var segments := Segments(points).value;
    assert segments == [MoveTo(10.0, 20.0), LineTo(30.0, 40.0)];
    var move, line := "M 10.000 20.000", "L 30.000 40.000";
    assert SegmentText(segments[0], fmt) == move;
    assert SegmentText(segments[1], fmt) == line;
    assert SegmentTexts(segments[1..], fmt) == [line] by {
      assert segments[1..][1..] == [];
    }
    var texts := SegmentTexts(segments, fmt);
    assert texts == [move, line];
    assert Join(texts) == move + " " + Join([line]);
    assert Join(texts) == "M 10.000 20.000 L 30.000 40.000";
    assert PointsToPath(points, fmt) == Ok(Join(texts));
  }

  /** Appending a part to a non-empty join adds a space and that part. */
  lemma {:induction false} JoinAppend(parts: seq<string>, t: string)
    requires |parts| > 0
    ensures Join(parts + [t]) == Join(parts) + " " + t
  {
    if |parts| == 1 {
      assert (parts + [t])[1..] == [t];
    } else {
      assert (parts + [t])[1..] == parts[1..] + [t];
      JoinAppend(parts[1..], t);
    }
  }

  /** One point encodes as a single move-to: "M x y". */
  lemma SinglePointPath(p: Point, fmt: real -> string)
    ensures PointsToPath([p], fmt) == Ok("M " + fmt(p.0) + " " + fmt(p.1))
  {
    var segments := Segments([p]).value;
    assert segments == [MoveTo(p.0, p.1)];
    assert SegmentTexts(segments, fmt) == [SegmentText(MoveTo(p.0, p.1), fmt)];
  }

  /**
   * Appending a point to a non-empty curve appends " L x y" to its path:
   * with SinglePointPath this fixes the whole path text, point by point in order.
   */
  lemma AppendPointPath(points: seq<Point>, p: Point, fmt: real -> string)
    requires |points| > 0
    ensures PointsToPath(points + [p], fmt).value
              == PointsToPath(points, fmt).value + " L " + fmt(p.0) + " " + fmt(p.1)
  {
    var before := Segments(points).value;
    var line := LineTo(p.0, p.1);
    SegmentsAppend(points, p);
    SegmentTextsAppend(before, line, fmt);
    var texts := SegmentTexts(before, fmt);
    var text := SegmentText(line, fmt);
    PathIsJoin(points, fmt);
    PathIsJoin(points + [p], fmt);
    JoinAppend(texts, text);
    LineSuffix(Join(texts), fmt(p.0), fmt(p.1));
  }

  /** The path of a non-empty curve is its command texts joined with spaces. */
  lemma PathIsJoin(points: seq<Point>, fmt: real -> string)
    requires |points| > 0
    ensures PointsToPath(points, fmt).value == Join(SegmentTexts(Segments(points).value, fmt))
  {
  }

  /** Appending a space and a line-to text regroups as one suffix. */
  lemma LineSuffix(path: string, x: string, y: string)
    ensures path + " " + ("L " + x + " " + y) == path + " L " + x + " " + y
  {
  }


  /** One more point adds one more line-to at the end. */
  lemma SegmentsAppend(points: seq<Point>, p: Point)
    requires |points| > 0
    ensures Segments(points + [p]).value == Segments(points).value + [LineTo(p.0, p.1)]
  {
    var after := Segments(points + [p]).value;
    var expected := Segments(points).value + [LineTo(p.0, p.1)];
    assert |after| == |expected|;
    forall i | 0 <= i < |after|
      ensures after[i] == expected[i]
    {
      if i < |points| {
        assert (points + [p])[i] == points[i];
      }
    }
  }

  /** One more command adds its text at the end. */
  lemma SegmentTextsAppend(segments: seq<Segment>, segment: Segment, fmt: real -> string)
    ensures SegmentTexts(segments + [segment], fmt)
              == SegmentTexts(segments, fmt) + [SegmentText(segment, fmt)]
  {
    var after := SegmentTexts(segments + [segment], fmt);
    var expected := SegmentTexts(segments, fmt) + [SegmentText(segment, fmt)];
    assert |after| == |expected|;
    forall i | 0 <= i < |after|
      ensures after[i] == expected[i]
    {
      if i < |segments| {
        assert (segments + [segment])[i] == segments[i];
      }
    }
  }

}
