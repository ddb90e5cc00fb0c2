/** The whole pipeline: sample, scale, encode. */
module Generator {
  import opened Results
  import opened Text
  import opened Config
  import opened Sampler
  import opened Scaler
  import opened PathEncoder

  /**
   * Generates the path of a design: the encoding of the scaled reference
   * samples, so equal inputs give equal paths. The empty-curve error is never reached:
   * the sampler yields at least two points and scaling keeps their number, so
   * the path opens with a move-to and, for a formatter that writes no command
   * letters, holds one M and exactly `steps` L commands.
   */
  method GeneratePath(c: SpiroConfig, trig: Maths.Trig, fmt: real -> string)
    returns (r: Result<string, PathError>)
    requires c.thetaStep != 0.0 && c.innerRadius != 0.0
    ensures r == PointsToPath(ScalePoints(SamplePoints(c, trig), c), fmt)
    ensures r.Ok?
    ensures |r.value| >= 2 && r.value[..2] == "M "
    ensures LetterFree(fmt) ==> Count(r.value, 'M') == 1 && Count(r.value, 'L') == Steps(c)
  {
    var points := GeneratePoints(c, trig);
    var scaled := ScalePoints(points, c);
    CommandCounts(scaled, fmt);
    r := PointsToPath(scaled, fmt);
  }
}
