/**
 * The `random` pattern (internal/generator/random.go), `int64` branch:
 * uniform draws from `[min, max]`, the random source being an oracle.
 */
module RandomGenerator {
  import opened Int64s
  import opened Errors
  import opened GeneratorUtils
  import Iteration

  /** A constructed random generator; construction guarantees `min < max`. */
  datatype Random = Random(min: Int64, max: Int64, count: int)

  /** `newRandomGenerator[int64]`: max is the first parameter, min the second (default 0). */
  function New(valueStr: string, count: int): (r: Result<Random>)
    ensures r.Ok? ==> r.value.min < r.value.max
  {
    var values :- ParsedRange(valueStr);
    var maxVal := values[0];
    var minVal := if |values| > 1 then values[1] else 0;
    if minVal >= maxVal then Err(MinNotBelowMax(minVal, maxVal))
    else Ok(Random(minVal, maxVal, count))
  }

  /**
   * Any parameter string that parses to a single value makes that value the
   * maximum, with minimum 0, so it must be positive. The plain decimal
   * spelling of any `int64` is such a string.
   */
  lemma NewSingle(valueStr: string, maxVal: Int64, count: int)
    ensures ParsedRange(valueStr) == Ok([maxVal]) ==>
      && (maxVal > 0 ==> New(valueStr, count) == Ok(Random(0, maxVal, count)))
      && (maxVal <= 0 ==> New(valueStr, count) == Err(MinNotBelowMax(0, maxVal)))
    ensures ParsedRange(FormatList([maxVal])) == Ok([maxVal])
  {
    ParsedRangeFormatList([maxVal]);
  }

  /**
   * Any parameter string that parses to two or more values: max first, then
   * min; the rest is ignored.
   */
  lemma NewPair(valueStr: string, maxVal: Int64, minVal: Int64, extra: seq<Int64>, count: int)
    ensures ParsedRange(valueStr) == Ok([maxVal, minVal] + extra) ==>
      && (minVal < maxVal ==> New(valueStr, count) == Ok(Random(minVal, maxVal, count)))
      && (minVal >= maxVal ==> New(valueStr, count) == Err(MinNotBelowMax(minVal, maxVal)))
    ensures ParsedRange(FormatList([maxVal, minVal] + extra)) == Ok([maxVal, minVal] + extra)
  {
    ParsedRangeFormatList([maxVal, minVal] + extra);
  }

  /** `"5,10"` asks for max 5 and min 10, which is refused. */
  lemma NewRejectsAscending(count: int)
    ensures New(FormatList([5, 10]), count) == Err(MinNotBelowMax(10, 5))
  {
    NewPair(FormatList([5, 10]), 5, 10, [], count);
    assert [5, 10] + [] == [5, 10];
  }

  /**
   * The argument the source passes to `rand.Int64N`: `diff+1` with
   * `diff := max - min`, both computed in wrapping `int64` arithmetic.
   */
  function DrawBoundAsWritten(minVal: Int64, maxVal: Int64): Int64
  {
    Wrap(Wrap(maxVal - minVal) + 1)
  }

  /**
   * `rand.Int64N(n)` panics unless `n > 0`; the source's argument is
   * positive exactly when `max - min` is below the largest `int64`, so a
   * range spanning `2^63 - 1` or more values panics on the first draw.
   */
  lemma DrawBoundAsWrittenPositive(minVal: Int64, maxVal: Int64)
    requires minVal < maxVal
    ensures DrawBoundAsWritten(minVal, maxVal) > 0 <==> maxVal - minVal < MAX
  {
    var d := maxVal - minVal;
    if d < MAX {
      assert Wrap(d) == d;
      assert Wrap(d + 1) == d + 1;
    } else if d == MAX {
      assert Wrap(d) == d;
      assert Wrap(d + 1) == d + 1 - MODULUS;
    } else {
      assert Wrap(d) == d - MODULUS;
      assert Wrap(d - MODULUS + 1) == d - MODULUS + 1;
    }
  }

  /**
   * For instance the single parameter `"9223372036854775807"`, which New
   * accepts as max = MaxInt64, min = 0 (NewSingle), hands `Int64N` a
   * negative bound.
   */
  lemma DrawBoundAsWrittenOverflows()
    ensures DrawBoundAsWritten(0, MAX) == MIN
  {
    assert Wrap(MAX) == MAX;
    assert Wrap(MAX + 1) == MIN;
  }

  /** The intended bound: the number of values in `[min, max]`. */
  function DrawBound(minVal: Int64, maxVal: Int64): (n: int)
    requires minVal < maxVal
    ensures n >= 2
  {
    maxVal - minVal + 1
  }

  /** Where the source does not overflow it computes the intended bound. */
  lemma DrawBoundAgrees(minVal: Int64, maxVal: Int64)
    requires minVal < maxVal && maxVal - minVal < MAX
    ensures DrawBoundAsWritten(minVal, maxVal) == DrawBound(minVal, maxVal)
  {
  }

  /**
   * The draws: `draw(k)` is what the random source returns for the k-th
   * value, a number in `[0, DrawBound)`.
   */
  ghost predicate DrawsInBounds(g: Random, draw: nat -> int)
    requires g.min < g.max
  {
    forall k: nat :: 0 <= draw(k) < DrawBound(g.min, g.max)
  }

  /** The values drawn undisturbed: `count` of them, each within `[min, max]`. */
  function Values(g: Random, draw: nat -> int): (r: seq<Int64>)
    requires g.min < g.max && DrawsInBounds(g, draw)
    ensures |r| == if g.count > 0 then g.count else 0
    ensures forall k :: 0 <= k < |r| ==> g.min <= r[k] <= g.max && r[k] == g.min + draw(k)
  {
    seq(if g.count > 0 then g.count else 0, k requires k >= 0 => (g.min + draw(k)) as Int64)
  }

  /** The generator's loop, one draw per iteration. */
  method Run(g: Random, draw: nat -> int, cancelled: nat -> bool, accept: nat -> bool) returns (out: seq<Int64>)
    requires g.min < g.max && DrawsInBounds(g, draw)
    ensures out == Iteration.Emitted(Values(g, draw), cancelled, accept)
    ensures forall k :: 0 <= k < |out| ==> g.min <= out[k] <= g.max
  {
    ghost var full := Values(g, draw);
    out := [];
    var i := 0;
    while i < g.count
      invariant 0 <= i <= |full|
      invariant out + Iteration.EmittedFrom(full, i, cancelled, accept) == Iteration.Emitted(full, cancelled, accept)
    {
      if cancelled(i) {
        break;
      }
      var value: Int64 := g.min + draw(i);
      out := out + [value];
      if !accept(i) {
        break;
      }
      i := i + 1;
    }
    Iteration.EmittedIsPrefix(full, cancelled, accept);
  }
}
