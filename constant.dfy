/**
 * The `constant` pattern (internal/generator/constant.go): one parsed value,
 * repeated `count` times.
 */
module ConstantGenerator {
  import opened Int64s
  import opened Errors
  import opened GeneratorUtils
  import Iteration

  /** A constructed constant generator: the value and the loop bound. */
  datatype Constant = Constant(value: Int64, count: int)

  /** `newConstantGenerator[int64]`. */
  function New(valueStr: string, count: int): (r: Result<Constant>)
  {
    var value :- ParseValue(valueStr);
    Ok(Constant(value, count))
  }

  /** The values the loop yields when nothing interrupts it. */
  function Values(g: Constant): (r: seq<Int64>)
    ensures |r| == if g.count > 0 then g.count else 0
    ensures forall k :: 0 <= k < |r| ==> r[k] == g.value
  {
    seq(if g.count > 0 then g.count else 0, _ => g.value)
  }

  /** Construction succeeds exactly when the value parses, and keeps that value. */
  lemma NewOutcome(valueStr: string, count: int)
    ensures New(valueStr, count).Ok? <==> ParseValue(valueStr).Ok?
    ensures New(valueStr, count).Ok? ==> New(valueStr, count).value == Constant(ParseValue(valueStr).value, count)
    ensures New(valueStr, count).Err? ==> New(valueStr, count).error == ParseValue(valueStr).error
  {
  }

  /** A list such as `"1,2"` is not a constant. */
  lemma NewRejectsList(valueStr: string, count: int, k: nat)
    requires k < |valueStr| && valueStr[k] == ','
    ensures New(valueStr, count).Err?
  {
    ParseValueRejectsComma(valueStr, k);
  }

  /** Any decimal `int64`, with surrounding white space, makes a constant of itself. */
  lemma NewFormatted(x: Int64, pre: string, post: string, count: int)
    requires forall k :: 0 <= k < |pre| ==> Text.IsSpace(pre[k])
    requires forall k :: 0 <= k < |post| ==> Text.IsSpace(post[k])
    ensures New(pre + Decimal.FormatInt(x) + post, count) == Ok(Constant(x, count))
  {
    ParseValueFormat(x, pre, post);
  }

  /**
   * The generator's loop: `for range count`, stopping when the context is
   * done or the consumer's `yield` returns false.
   */
  method Run(g: Constant, cancelled: nat -> bool, accept: nat -> bool) returns (out: seq<Int64>)
    ensures out == Iteration.Emitted(Values(g), cancelled, accept)
  {
    ghost var full := Values(g);
    out := [];
    var i := 0;
    while i < g.count
      invariant 0 <= i <= |full|
      invariant out + Iteration.EmittedFrom(full, i, cancelled, accept) == Iteration.Emitted(full, cancelled, accept)
    {
      if cancelled(i) {
        return;
      }
      out := out + [g.value];
      if !accept(i) {
        return;
      }
      i := i + 1;
    }
  }
}
