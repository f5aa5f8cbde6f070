/**
 * The `sequence` pattern (internal/generator/sequence.go): the parsed list,
 * cut to at most `count` values.
 */
module SequenceGenerator {
  import opened Int64s
  import opened Errors
  import opened GeneratorUtils
  import Iteration

  /** A constructed sequence generator. */
  datatype Sequence = Sequence(values: seq<Int64>, count: int)

  const ParseFailurePrefix := "failed to parse sequence values"

  /** `newSequenceGenerator[int64]`: a parse failure is wrapped. */
  function New(valueStr: string, count: int): (r: Result<Sequence>)
  {
    match ParsedRange(valueStr)
    case Err(e) => Err(Wrapped(ParseFailurePrefix, e))
    case Ok(values) => Ok(Sequence(values, count))
  }

  /** `min(count, len(values))`, never negative when used as a loop bound. */
  function MaxIterations(g: Sequence): (n: nat)
    ensures n <= |g.values|
    ensures g.count <= 0 ==> n == 0
    ensures 0 < g.count <= |g.values| ==> n == g.count
    ensures g.count >= |g.values| ==> n == |g.values|
  {
    if g.count <= 0 then 0 else if g.count < |g.values| then g.count else |g.values|
  }

  /** The values yielded undisturbed: a prefix of the parsed list. */
  function Values(g: Sequence): (r: seq<Int64>)
    ensures |r| == MaxIterations(g)
    ensures r == g.values[..|r|]
  {
    g.values[..MaxIterations(g)]
  }

  /** Construction wraps the parse error, or keeps the parsed list (never empty). */
  lemma NewOutcome(valueStr: string, count: int)
    ensures ParsedRange(valueStr).Err? ==>
      New(valueStr, count) == Err(Wrapped(ParseFailurePrefix, ParsedRange(valueStr).error))
    ensures ParsedRange(valueStr).Ok? ==>
      New(valueStr, count).Ok? && New(valueStr, count).value.values == ParsedRange(valueStr).value
    ensures New(valueStr, count).Ok? ==> |New(valueStr, count).value.values| >= 1
  {
  }

  /** The values of a well-formed list are the list itself, cut to `count`. */
  lemma NewFormatted(xs: seq<Int64>, count: int)
    requires |xs| >= 1
    ensures New(FormatList(xs), count) == Ok(Sequence(xs, count))
    ensures count >= |xs| ==> Values(Sequence(xs, count)) == xs
  {
    ParsedRangeFormatList(xs);
  }

  /** The generator's loop over `i := range min(count, len(values))`. */
  method Run(g: Sequence, cancelled: nat -> bool, accept: nat -> bool) returns (out: seq<Int64>)
    ensures out == Iteration.Emitted(Values(g), cancelled, accept)
  {
    ghost var full := Values(g);
    var maxIterations := if g.count < |g.values| then g.count else |g.values|;
    out := [];
    var i := 0;
    while i < maxIterations
      invariant 0 <= i <= |full|
      invariant out + Iteration.EmittedFrom(full, i, cancelled, accept) == Iteration.Emitted(full, cancelled, accept)
    {
      if cancelled(i) {
        return;
      }
      out := out + [g.values[i]];
      if !accept(i) {
        return;
      }
      i := i + 1;
    }
  }
}
