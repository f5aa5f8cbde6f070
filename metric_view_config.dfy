/**
 * The metric view record, its options and its validation
 * (internal/config/metric_view.go). Unlike the task options, every view
 * option overwrites its fields unconditionally.
 */
module MetricViewConfig {
  import opened Wrappers
  import opened Errors
  import Consts
  import Validator

  datatype ViewInstrument = ViewInstrument(name: string, kind: string)

  /** `ViewAggregation`; the bucket boundaries are `float64`s, here reals. */
  datatype ViewAggregation = ViewAggregation(kind: string, maxScale: int, maxSize: int, noMinMax: bool, boundaries: seq<real>)

  /** `MetricView`, with its one-field `ViewStream` flattened into `aggregation`. */
  datatype MetricView = MetricView(instrument: ViewInstrument, aggregation: ViewAggregation)

  datatype MetricViewOption =
    | WithInstrumentName(name: string)
    | WithInstrumentKind(kind: string)
    | WithExplicitBuckets(buckets: seq<real>)
    | WithExponentialHistogram(maxScale: int, maxSize: int, noMinMax: bool)

  /** The Go zero value of `ViewAggregation`. */
  const ZeroAggregation := ViewAggregation("", 0, 0, false, [])

  /** The view before any option runs: every instrument name, no kind, no aggregation. */
  const Default := MetricView(ViewInstrument("*", Consts.InstrumentKindUndefined), ZeroAggregation)

  /** The largest exponential-histogram scale the validator accepts. */
  const MaxScaleLimit := 20

  function Apply(o: MetricViewOption, mv: MetricView): MetricView
  {
    match o
    case WithInstrumentName(x) => mv.(instrument := mv.instrument.(name := x))
    case WithInstrumentKind(x) => mv.(instrument := mv.instrument.(kind := x))
    case WithExplicitBuckets(b) =>
      mv.(aggregation := mv.aggregation.(kind := Consts.AggregationExplicitBucketHistogram, boundaries := b))
    case WithExponentialHistogram(scale, size, noMinMax) =>
      mv.(aggregation := mv.aggregation.(
        kind := Consts.AggregationExponentialHistogram, maxScale := scale, maxSize := size, noMinMax := noMinMax))
  }

  function ApplyAll(mv: MetricView, options: seq<MetricViewOption>): MetricView
    decreases |options|
  {
    if options == [] then mv else ApplyAll(Apply(options[0], mv), options[1..])
  }

  /** `NewMetricView(opts...)`. */
  method NewMetricView(options: seq<MetricViewOption>) returns (mv: MetricView)
    ensures mv == ApplyAll(Default, options)
  {
    mv := Default;
    for i := 0 to |options|
      invariant ApplyAll(mv, options[i..]) == ApplyAll(Default, options)
    {
      assert options[i..][1..] == options[i + 1..];
      mv := Apply(options[i], mv);
    }
  }

  /** The prefix of the error an invalid instrument kind is wrapped in. */
  const InvalidInstrumentPrefix := "invalid instrument"

  /** The aggregation's own checks, by kind. */
  function ValidateAggregation(a: ViewAggregation): Option<Error>
  {
    if a.kind == Consts.AggregationExponentialHistogram then
      if a.maxScale < 0 || a.maxScale > MaxScaleLimit then Some(MaxScaleOutOfRange)
      else if a.maxSize <= 0 then Some(MaxSizeNotPositive)
      else None
    else if a.kind == Consts.AggregationExplicitBucketHistogram then
      if |a.boundaries| == 0 then Some(EmptyBuckets) else None
    else Some(UnsupportedAggregation(a.kind))
  }

  /** `MetricView.Validate`: instrument match, instrument kind, then the aggregation. */
  function Validate(mv: MetricView): Option<Error>
  {
    if mv.instrument.name == "" && mv.instrument.kind == "" then Some(EmptyInstrumentMatch)
    else match Validator.ValidateInstrumentKind(mv.instrument.kind)
      case Some(e) => Some(Wrapped(InvalidInstrumentPrefix, e))
      case None => ValidateAggregation(mv.aggregation)
  }

  /** Whether the aggregation is one of the two supported kinds, with acceptable parameters. */
  predicate WellFormedAggregation(a: ViewAggregation)
  {
    || (a.kind == "base2_exponential_histogram" && 0 <= a.maxScale <= 20 && a.maxSize > 0)
    || (a.kind == "explicit_bucket_histogram" && |a.boundaries| > 0)
  }

  /** A view is valid exactly when it matches something, by a known kind, with a well-formed aggregation. */
  lemma ValidateAccepts(mv: MetricView)
    ensures Validate(mv) == None <==>
      && (mv.instrument.name != "" || mv.instrument.kind != "")
      && Validator.ValidateInstrumentKind(mv.instrument.kind) == None
      && WellFormedAggregation(mv.aggregation)
  {
  }

  /** The instrument is checked before the aggregation, whatever the aggregation holds. */
  lemma ValidateInstrumentFirst(mv: MetricView, a: ViewAggregation)
    ensures mv.instrument.name == "" && mv.instrument.kind == "" ==>
      Validate(mv.(aggregation := a)) == Some(EmptyInstrumentMatch)
    ensures Validator.ValidateInstrumentKind(mv.instrument.kind).Some? ==>
      Validate(mv.(aggregation := a)) == Some(Wrapped(InvalidInstrumentPrefix, InvalidInstrumentKind(mv.instrument.kind)))
  {
  }

  /** Any aggregation kind but the two supported ones, the empty one included, is refused. */
  lemma ValidateUnsupported(mv: MetricView)
    requires mv.instrument.name != "" || mv.instrument.kind != ""
    requires Validator.ValidateInstrumentKind(mv.instrument.kind) == None
    requires mv.aggregation.kind !in {"base2_exponential_histogram", "explicit_bucket_histogram"}
    ensures Validate(mv) == Some(UnsupportedAggregation(mv.aggregation.kind))
  {
  }

  /** A view built without an aggregation option is invalid. */
  lemma DefaultInvalid()
    ensures Default.instrument == ViewInstrument("*", "")
    ensures Validate(Default) == Some(UnsupportedAggregation(""))
  {
  }

  /** The aggregation options touch only the aggregation, never the instrument. */
  lemma AggregationOptionsKeepInstrument(mv: MetricView, buckets: seq<real>, scale: int, size: int, noMinMax: bool)
    ensures var r := Apply(WithExplicitBuckets(buckets), mv);
      && r.instrument == mv.instrument
      && r.aggregation.kind == "explicit_bucket_histogram" && r.aggregation.boundaries == buckets
      && r.aggregation.maxScale == mv.aggregation.maxScale && r.aggregation.maxSize == mv.aggregation.maxSize
      && r.aggregation.noMinMax == mv.aggregation.noMinMax
    ensures var r := Apply(WithExponentialHistogram(scale, size, noMinMax), mv);
      && r.instrument == mv.instrument
      && r.aggregation == ViewAggregation("base2_exponential_histogram", scale, size, noMinMax, mv.aggregation.boundaries)
  {
  }

  /** The instrument options touch only their own instrument field. */
  lemma InstrumentOptionsKeepRest(mv: MetricView, name: string, kind: string)
    ensures Apply(WithInstrumentName(name), mv) == MetricView(ViewInstrument(name, mv.instrument.kind), mv.aggregation)
    ensures Apply(WithInstrumentKind(kind), mv) == MetricView(ViewInstrument(mv.instrument.name, kind), mv.aggregation)
  {
  }

  /** Each option is idempotent. */
  lemma ApplyIdempotent(o: MetricViewOption, mv: MetricView)
    ensures Apply(o, Apply(o, mv)) == Apply(o, mv)
  {
  }
}
