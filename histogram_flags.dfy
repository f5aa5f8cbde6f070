/**
 * The histogram command's view decision (cmd/szgen/histogram.go): the four
 * flag values become no view, one view, or an error.
 */
module HistogramFlags {
  import opened Wrappers
  import opened Errors
  import MetricViewConfig

  /** The exponential parameters used when a flag is left at zero. */
  const DefaultMaxScale := 20
  const DefaultMaxSize := 160

  const InvalidBucketViewPrefix := "invalid explicit bucket histogram view"
  const InvalidExponentialViewPrefix := "invalid exponential histogram view"

  /** The view built for explicit buckets. */
  function BucketView(buckets: seq<real>): MetricViewConfig.MetricView
  {
    MetricViewConfig.ApplyAll(MetricViewConfig.Default, [
      MetricViewConfig.WithInstrumentKind("histogram"),
      MetricViewConfig.WithExplicitBuckets(buckets)])
  }

  /** The view built for an exponential histogram. */
  function ExponentialView(scale: int, size: int, noMinMax: bool): MetricViewConfig.MetricView
  {
    MetricViewConfig.ApplyAll(MetricViewConfig.Default, [
      MetricViewConfig.WithInstrumentKind("histogram"),
      MetricViewConfig.WithExponentialHistogram(scale, size, noMinMax)])
  }

  /** The explicit-bucket view, its two options applied. */
  lemma BucketViewFields(buckets: seq<real>)
    ensures BucketView(buckets) == MetricViewConfig.MetricView(
      MetricViewConfig.ViewInstrument("*", "histogram"),
      MetricViewConfig.ViewAggregation("explicit_bucket_histogram", 0, 0, false, buckets))
  {
    var options := [MetricViewConfig.WithInstrumentKind("histogram"), MetricViewConfig.WithExplicitBuckets(buckets)];
    var m1 := MetricViewConfig.Apply(options[0], MetricViewConfig.Default);
    var m2 := MetricViewConfig.Apply(options[1], m1);
    assert options[1..] == [options[1]];
    assert [options[1]][1..] == [];
    assert MetricViewConfig.ApplyAll(m1, [options[1]]) == MetricViewConfig.ApplyAll(m2, []) == m2;
  }

  /** The exponential view, its two options applied. */
  lemma ExponentialViewFields(scale: int, size: int, noMinMax: bool)
    ensures ExponentialView(scale, size, noMinMax) == MetricViewConfig.MetricView(
      MetricViewConfig.ViewInstrument("*", "histogram"),
      MetricViewConfig.ViewAggregation("base2_exponential_histogram", scale, size, noMinMax, []))
  {
    var options := [MetricViewConfig.WithInstrumentKind("histogram"), MetricViewConfig.WithExponentialHistogram(scale, size, noMinMax)];
    var m1 := MetricViewConfig.Apply(options[0], MetricViewConfig.Default);
    var m2 := MetricViewConfig.Apply(options[1], m1);
    assert options[1..] == [options[1]];
    assert [options[1]][1..] == [];
    assert MetricViewConfig.ApplyAll(m1, [options[1]]) == MetricViewConfig.ApplyAll(m2, []) == m2;
  }

  /** `parseHistogramViews`, the flags given as arguments. */
  function ParseHistogramViews(buckets: seq<real>, maxScale: int, maxSize: int, noMinMax: bool)
    : (r: Result<seq<MetricViewConfig.MetricView>>)
    ensures r.Ok? ==> |r.value| <= 1
  {
    var hasExplicitBuckets := |buckets| > 0;
    var hasExpoParams := maxScale > 0 || maxSize > 0;
    if !hasExplicitBuckets && !hasExpoParams then Ok([])
    else if hasExplicitBuckets && hasExpoParams then Err(HistogramModeConflict)
    else if hasExplicitBuckets then
      var v := BucketView(buckets);
      match MetricViewConfig.Validate(v)
      case Some(e) => Err(Wrapped(InvalidBucketViewPrefix, e))
      case None => Ok([v])
    else
      var scale := if maxScale == 0 then DefaultMaxScale else maxScale;
      var size := if maxSize == 0 then DefaultMaxSize else maxSize;
      var v := ExponentialView(scale, size, noMinMax);
      match MetricViewConfig.Validate(v)
      case Some(e) => Err(Wrapped(InvalidExponentialViewPrefix, e))
      case None => Ok([v])
  }

  /** No buckets and no positive exponential parameter: no view and no error, whatever `noMinMax` says. */
  lemma NoFlagsNoViews(buckets: seq<real>, maxScale: int, maxSize: int, noMinMax: bool)
    requires |buckets| == 0 && maxScale <= 0 && maxSize <= 0
    ensures ParseHistogramViews(buckets, maxScale, maxSize, noMinMax) == Ok([])
  {
  }

  /** Buckets together with a positive exponential parameter are refused. */
  lemma BothModesConflict(buckets: seq<real>, maxScale: int, maxSize: int, noMinMax: bool)
    requires |buckets| > 0 && (maxScale > 0 || maxSize > 0)
    ensures ParseHistogramViews(buckets, maxScale, maxSize, noMinMax) == Err(HistogramModeConflict)
  {
  }

  /** Buckets alone give one valid explicit-bucket view over all histograms. */
  lemma BucketsGiveOneView(buckets: seq<real>, maxScale: int, maxSize: int, noMinMax: bool)
    requires |buckets| > 0 && maxScale <= 0 && maxSize <= 0
    ensures var r := ParseHistogramViews(buckets, maxScale, maxSize, noMinMax);
      && r.Ok? && |r.value| == 1
      && r.value[0].instrument == MetricViewConfig.ViewInstrument("*", "histogram")
      && r.value[0].aggregation.kind == "explicit_bucket_histogram"
      && r.value[0].aggregation.boundaries == buckets
      && MetricViewConfig.Validate(r.value[0]) == None
  {
    BucketViewFields(buckets);
  }

  /**
   * Exponential parameters alone: a zero scale becomes 20 and a zero size
   * 160; the one view carries them and is kept when it validates.
   */
  lemma ExponentialDefaults(maxScale: int, maxSize: int, noMinMax: bool)
    requires maxScale > 0 || maxSize > 0
    ensures var scale := if maxScale == 0 then 20 else maxScale;
      var size := if maxSize == 0 then 160 else maxSize;
      var r := ParseHistogramViews([], maxScale, maxSize, noMinMax);
      && (0 <= scale <= 20 && size > 0 ==>
            && r.Ok? && |r.value| == 1
            && r.value[0].instrument == MetricViewConfig.ViewInstrument("*", "histogram")
            && r.value[0].aggregation == MetricViewConfig.ViewAggregation("base2_exponential_histogram", scale, size, noMinMax, []))
      && (scale < 0 || scale > 20 ==> r == Err(Wrapped(InvalidExponentialViewPrefix, MaxScaleOutOfRange)))
      && (0 <= scale <= 20 && size < 0 ==> r == Err(Wrapped(InvalidExponentialViewPrefix, MaxSizeNotPositive)))
  {
    var scale := if maxScale == 0 then 20 else maxScale;
    var size := if maxSize == 0 then 160 else maxSize;
    ExponentialViewFields(scale, size, noMinMax);
  }

  /** A negative scale is not defaulted: with a positive size it fails validation. */
  lemma NegativeScaleRejected(maxScale: int, maxSize: int, noMinMax: bool)
    requires maxScale < 0 && maxSize > 0
    ensures ParseHistogramViews([], maxScale, maxSize, noMinMax) == Err(Wrapped(InvalidExponentialViewPrefix, MaxScaleOutOfRange))
  {
    ExponentialDefaults(maxScale, maxSize, noMinMax);
  }
}
