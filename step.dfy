/**
 * The `step` pattern (internal/generator/step.go): an arithmetic progression
 * in `int64`, wrapping around on overflow as Go's `+=` does.
 */
module StepGenerator {
  import opened Int64s
  import opened Errors
  import opened GeneratorUtils
  import Iteration

  /** A constructed step generator. */
  datatype Step = Step(initial: Int64, step: Int64, count: int)

  /** `newStepGenerator[int64]`: the first parameter is the start, the second the step (default 1). */
  function New(valueStr: string, count: int): (r: Result<Step>)
  {
    var values :- ParsedRange(valueStr);
    Ok(Step(values[0], if |values| > 1 then values[1] else 1, count))
  }

  /** Term k of the progression, `initial + k*step` reduced to `int64`. */
  function Term(g: Step, k: nat): (t: Int64)
    ensures (t - (g.initial + k * g.step)) % MODULUS == 0
  {
    Wrap(g.initial + k * g.step)
  }

  /** The values yielded undisturbed: terms 0 .. count-1. */
  function Values(g: Step): (r: seq<Int64>)
    ensures |r| == if g.count > 0 then g.count else 0
    ensures forall k :: 0 <= k < |r| ==> r[k] == Term(g, k)
  {
    seq(if g.count > 0 then g.count else 0, (k: int) requires 0 <= k => Term(g, k))
  }

  /** Construction fails exactly when the parameter list does not parse. */
  lemma NewFailsWithRange(valueStr: string, count: int)
    ensures New(valueStr, count).Err? <==> ParsedRange(valueStr).Err?
    ensures New(valueStr, count).Err? ==> New(valueStr, count).error == ParsedRange(valueStr).error
  {
  }

  /**
   * Any parameter string that parses to a single value starts there with
   * step 1; the plain decimal spelling of any `int64` is such a string.
   */
  lemma NewDefaultStep(valueStr: string, initial: Int64, count: int)
    ensures ParsedRange(valueStr) == Ok([initial]) ==> New(valueStr, count) == Ok(Step(initial, 1, count))
    ensures ParsedRange(FormatList([initial])) == Ok([initial])
  {
    ParsedRangeFormatList([initial]);
  }

  /** With two or more parsed values, the first two are start and step and the rest is ignored. */
  lemma NewIgnoresExtra(valueStr: string, initial: Int64, step: Int64, extra: seq<Int64>, count: int)
    ensures ParsedRange(valueStr) == Ok([initial, step] + extra) ==> New(valueStr, count) == Ok(Step(initial, step, count))
    ensures ParsedRange(FormatList([initial, step] + extra)) == Ok([initial, step] + extra)
  {
    ParsedRangeFormatList([initial, step] + extra);
  }

  /** Undisturbed, a step that fits in `int64` gives the exact progression. */
  lemma ValuesExact(g: Step, k: nat)
    requires k < |Values(g)|
    requires InRange(g.initial + k * g.step)
    ensures Values(g)[k] == g.initial + k * g.step
  {
    assert Values(g)[k] == Wrap(g.initial + k * g.step);
  }

  /** `current += step` moves from term i to term i + 1 of the progression. */
  lemma NextTerm(g: Step, i: nat)
    ensures Wrap(Term(g, i) + g.step) == Term(g, i + 1)
  {
    WrapAdd(g.initial + i * g.step, g.step);
    assert g.initial + i * g.step + g.step == g.initial + (i + 1) * g.step;
  }

  /** The generator's loop, with `current += step` after each yielded value. */
  method Run(g: Step, cancelled: nat -> bool, accept: nat -> bool) returns (out: seq<Int64>)
    ensures out == Iteration.Emitted(Values(g), cancelled, accept)
  {
    ghost var full := Values(g);
    var current := g.initial;
    assert current == Term(g, 0);
    out := [];
    var i := 0;
    while i < g.count
      invariant 0 <= i <= |full|
      invariant current == Term(g, i)
      invariant out + Iteration.EmittedFrom(full, i, cancelled, accept) == Iteration.Emitted(full, cancelled, accept)
    {
      Iteration.EmittedFromStep(full, i, cancelled, accept);
      if cancelled(i) {
        return;
      }
      assert full[i] == current;
      out := out + [current];
      if !accept(i) {
        return;
      }
      NextTerm(g, i);
      current := Wrap(current + g.step);
      i := i + 1;
    }
  }
}
