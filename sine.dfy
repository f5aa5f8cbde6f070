/**
 * Construction of the `sine` pattern (internal/generator/sine.go), `int64`
 * branch: which parameter becomes which coefficient. The values themselves
 * are floating-point trigonometry and are not part of this model.
 */
module SineGenerator {
  import opened Int64s
  import opened Errors
  import opened GeneratorUtils
  import Consts

  /** `amplitude * sin(2π/b * (x + horizontalShift)) + verticalShift`, x = 0 .. count-1. */
  datatype Sine = Sine(amplitude: Int64, b: Int64, verticalShift: Int64, horizontalShift: Int64, count: int)

  /** `newSineGenerator[int64]`: defaults b = 10, vertical shift 1, horizontal shift 0. */
  function New(valueStr: string, count: int): (r: Result<Sine>)
  {
    var p :- ParsedRange(valueStr);
    Ok(Sine(p[0],
            if |p| > 1 then p[1] else Consts.DefaultSineGeneratorB,
            if |p| > 2 then p[2] else 1,
            if |p| > 3 then p[3] else 0,
            count))
  }

  /**
   * Whatever parameter string parses to `xs`, its first four values fill the
   * coefficients in order, missing ones keep their defaults, and any further
   * values are ignored.
   */
  lemma NewDefaults(valueStr: string, xs: seq<Int64>, count: int)
    ensures ParsedRange(valueStr) == Ok(xs) ==> New(valueStr, count) == Ok(Sine(
      xs[0],
      if |xs| > 1 then xs[1] else 10,
      if |xs| > 2 then xs[2] else 1,
      if |xs| > 3 then xs[3] else 0,
      count))
    ensures |xs| >= 1 ==> ParsedRange(FormatList(xs)) == Ok(xs)
  {
    if |xs| >= 1 {
      ParsedRangeFormatList(xs);
    }
  }

  /** Construction fails exactly when the parameter list does not parse. */
  lemma NewFailsWithRange(valueStr: string, count: int)
    ensures New(valueStr, count).Err? <==> ParsedRange(valueStr).Err?
    ensures New(valueStr, count).Err? ==> New(valueStr, count).error == ParsedRange(valueStr).error
  {
  }
}
