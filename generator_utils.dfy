/**
 * Parameter parsing for the generators (internal/generator/utils.go),
 * `int64` instantiation: `parseValue` reads one trimmed literal, `parseRange`
 * a comma-separated list of them.
 */
module GeneratorUtils {
  import opened Wrappers
  import opened Int64s
  import opened Errors
  import Text
  import Decimal

  /** `parseValue[int64]`. */
  function ParseValue(v: string): (r: Result<Int64>)
  {
    var value := Text.TrimSpace(v);
    if value == "" then Err(EmptyValue)
    else match Decimal.ParseInt(value)
      case Some(x) => Ok(x)
      case None => Err(InvalidInt64(value))
  }

  /**
   * ParseValue fails on an empty or all-white-space token, otherwise it
   * succeeds exactly when the trimmed token is a valid decimal `int64`.
   */
  lemma ParseValueOutcome(v: string)
    ensures (forall k :: 0 <= k < |v| ==> Text.IsSpace(v[k])) ==> ParseValue(v) == Err(EmptyValue)
    ensures (exists k :: 0 <= k < |v| && !Text.IsSpace(v[k])) ==>
      match Decimal.ParseInt(Text.TrimSpace(v))
      case Some(x) => ParseValue(v) == Ok(x)
      case None => ParseValue(v) == Err(InvalidInt64(Text.TrimSpace(v)))
  {
    Text.TrimSpaceEmpty(v);
  }

  /** Surrounding white space never matters: the token is trimmed first. */
  lemma ParseValueTrims(v: string)
    ensures ParseValue(Text.TrimSpace(v)) == ParseValue(v)
  {
    Text.TrimSpaceIdempotent(v);
  }

  /** Any `int64` written in decimal, padded with white space, parses back to itself. */
  lemma ParseValueFormat(x: Int64, pre: string, post: string)
    requires forall k :: 0 <= k < |pre| ==> Text.IsSpace(pre[k])
    requires forall k :: 0 <= k < |post| ==> Text.IsSpace(post[k])
    ensures ParseValue(pre + Decimal.FormatInt(x) + post) == Ok(x)
  {
    var f := Decimal.FormatInt(x);
    var s := pre + f + post;
    var i, j := Text.TrimSpaceSlice(s);
    assert f[0] == s[|pre|] && f[|f| - 1] == s[|pre| + |f| - 1];
    assert !Text.IsSpace(f[0]) && !Text.IsSpace(f[|f| - 1]);
    assert i == |pre|;
    assert j == |pre| + |f|;
    assert s[i..j] == f;
    Decimal.ParseFormat(x);
  }

  /** A token with a comma in it is never a valid value (so `"1,2"` is not a constant). */
  lemma ParseValueRejectsComma(v: string, k: nat)
    requires k < |v| && v[k] == ','
    ensures ParseValue(v).Err?
  {
    var i, j := Text.TrimSpaceSlice(v);
    var t := Text.TrimSpace(v);
    assert i <= k < j by {
      assert !Text.IsSpace(v[k]);
    }
    assert t[k - i] == ',';
    if k - i == 0 {
      assert t[0] != '+' && t[0] != '-';
    }
    Decimal.RejectsNonDigit(t, k - i);
  }

  /** `parseValue` applied to each part, in order. */
  function ParseEach(parts: seq<string>): (rs: seq<Result<Int64>>)
    ensures |rs| == |parts|
    ensures forall j :: 0 <= j < |parts| ==> rs[j] == ParseValue(parts[j])
  {
    seq(|parts|, j requires 0 <= j < |parts| => ParseValue(parts[j]))
  }

  /** `parseRange[int64]`, as a function of its input. */
  function ParsedRange(v: string): (r: Result<seq<Int64>>)
    ensures r.Ok? ==> |r.value| >= 1
  {
    var value := Text.TrimSpace(v);
    if value == "" then Err(EmptyRange)
    else
      Text.SplitLength(value);
      Collect(ParseEach(Text.Split(value)))
  }

  /** parseValue never reports the empty-range error. */
  lemma ParseValueNotEmptyRange(part: string)
    ensures ParseValue(part) != Err(EmptyRange)
  {
  }

  /** parseRange reports an empty range exactly when its input is all white space. */
  lemma ParsedRangeEmpty(v: string)
    ensures (forall i :: 0 <= i < |v| ==> Text.IsSpace(v[i])) <==> ParsedRange(v) == Err(EmptyRange)
  {
    Text.TrimSpaceEmpty(v);
    var value := Text.TrimSpace(v);
    if value != "" {
      var rs := ParseEach(Text.Split(value));
      CollectErrorIsInput(rs);
      if Collect(rs).Err? {
        var k :| 0 <= k < |rs| && rs[k] == Err(Collect(rs).error);
        ParseValueNotEmptyRange(Text.Split(value)[k]);
      }
    }
  }

  /** parseRange reports either the empty range or the error of one of its parts. */
  lemma ParsedRangeErrors(v: string)
    ensures ParsedRange(v).Err? ==>
      var e := ParsedRange(v).error;
      e == EmptyRange || e == EmptyValue || e.InvalidInt64?
  {
    var value := Text.TrimSpace(v);
    if value != "" {
      var rs := ParseEach(Text.Split(value));
      CollectErrorIsInput(rs);
      if Collect(rs).Err? {
        var k :| 0 <= k < |rs| && rs[k] == Err(Collect(rs).error);
        assert rs[k] == ParseValue(Text.Split(value)[k]);
      }
    }
  }

  /**
   * When every comma-separated part of the trimmed input parses, parseRange
   * returns their values, one per part, in input order.
   */
  lemma ParsedRangeValues(v: string)
    requires Text.TrimSpace(v) != ""
    requires forall j :: 0 <= j < |Text.Split(Text.TrimSpace(v))| ==> ParseValue(Text.Split(Text.TrimSpace(v))[j]).Ok?
    ensures var parts := Text.Split(Text.TrimSpace(v));
      && ParsedRange(v).Ok?
      && |ParsedRange(v).value| == |parts|
      && forall j :: 0 <= j < |parts| ==> ParsedRange(v).value[j] == ParseValue(parts[j]).value
  {
    CollectAllOk(ParseEach(Text.Split(Text.TrimSpace(v))));
  }

  /**
   * Otherwise parseRange stops at the first part that does not parse (an
   * empty part from `",,"` or a trailing comma among them) and reports
   * that part's error.
   */
  lemma ParsedRangeFirstError(v: string, k: nat)
    requires Text.TrimSpace(v) != ""
    requires k < |Text.Split(Text.TrimSpace(v))|
    requires forall j :: 0 <= j < k ==> ParseValue(Text.Split(Text.TrimSpace(v))[j]).Ok?
    requires ParseValue(Text.Split(Text.TrimSpace(v))[k]).Err?
    ensures ParsedRange(v) == Err(ParseValue(Text.Split(Text.TrimSpace(v))[k]).error)
  {
    CollectFirstError(ParseEach(Text.Split(Text.TrimSpace(v))), k);
  }

  /** The decimal spellings of `xs`, joined with commas: a well-formed parameter string. */
  function FormatList(xs: seq<Int64>): (s: string)
    requires |xs| >= 1
  {
    if |xs| == 1 then Decimal.FormatInt(xs[0])
    else Decimal.FormatInt(xs[0]) + "," + FormatList(xs[1..])
  }

  lemma FormatIntShape(x: int)
    ensures var f := Decimal.FormatInt(x);
      && f != [] && ',' !in f && !Text.IsSpace(f[0]) && !Text.IsSpace(f[|f| - 1])
  {
    var f := Decimal.FormatInt(x);
    var n := Decimal.FormatNat(if x < 0 then -x else x);
    assert f[|f| - 1] == n[|n| - 1];
    if x < 0 {
      assert forall k :: 1 <= k < |f| ==> f[k] == n[k - 1];
    }
  }

  lemma {:induction false} FormatListShape(xs: seq<Int64>)
    requires |xs| >= 1
    ensures var s := FormatList(xs);
      && s != [] && !Text.IsSpace(s[0]) && !Text.IsSpace(s[|s| - 1])
      && Text.Split(s) == seq(|xs|, k requires 0 <= k < |xs| => Decimal.FormatInt(xs[k]))
  {
    var f := Decimal.FormatInt(xs[0]);
    FormatIntShape(xs[0]);
    if |xs| == 1 {
      Text.SplitNoComma(f);
    } else {
      var t := FormatList(xs[1..]);
      FormatListShape(xs[1..]);
      Text.SplitPrefix(f, t);
      var s := f + "," + t;
      assert s[|s| - 1] == t[|t| - 1];
    }
  }

  /** A parameter string of decimal `int64`s parses back to exactly those values. */
  lemma ParsedRangeFormatList(xs: seq<Int64>)
    requires |xs| >= 1
    ensures ParsedRange(FormatList(xs)) == Ok(xs)
  {
    var s := FormatList(xs);
    FormatListShape(xs);
    assert Text.TrimLeft(s) == s;
    assert Text.TrimRight(s) == s;
    var parts := Text.Split(s);
    forall j | 0 <= j < |parts| ensures ParseValue(parts[j]) == Ok(xs[j]) {
      ParseValueFormat(xs[j], "", "");
      assert "" + parts[j] + "" == parts[j];
    }
    ParsedRangeValues(s);
    assert ParsedRange(s).value == xs;
  }

  /** `parseRange[int64]`: the loop over the split parts, appending to `result`. */
  method ParseRange(v: string) returns (r: Result<seq<Int64>>)
    ensures r == ParsedRange(v)
  {
    var value := Text.TrimSpace(v);
    if value == "" {
      return Err(EmptyRange);
    }
    var parts := Text.Split(value);
    var result: seq<Int64> := [];
    for i := 0 to |parts|
      invariant |result| == i
      invariant forall j :: 0 <= j < i ==> ParseValue(parts[j]).Ok? && result[j] == ParseValue(parts[j]).value
    {
      var parsed := ParseValue(parts[i]);
      if parsed.Err? {
        CollectFirstError(ParseEach(parts), i);
        return Err(parsed.error);
      }
      result := result + [parsed.value];
    }
    CollectAllOk(ParseEach(parts));
    assert Collect(ParseEach(parts)).value == result;
    return Ok(result);
  }
}
