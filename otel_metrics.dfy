/**
 * The mappings from configuration to SDK values in internal/otel/metrics.go:
 * instrument kinds, the temporality selector, and view construction.
 */
module OtelMetrics {
  import opened Wrappers
  import opened Errors
  import opened Sdk
  import Int64s
  import Consts
  import Validator
  import MetricViewConfig
  import ExportSettings

  /** `parseInstrumentKind`. */
  function ParseInstrumentKind(kind: string): Result<InstrumentKind>
  {
    if kind == Consts.InstrumentKindUndefined then Ok(KindUndefined)
    else if kind == Consts.InstrumentKindCounter then Ok(KindCounter)
    else if kind == Consts.InstrumentKindUpDownCounter then Ok(KindUpDownCounter)
    else if kind == Consts.InstrumentKindHistogram then Ok(KindHistogram)
    else if kind == Consts.InstrumentKindGauge then Ok(KindGauge)
    else if kind == Consts.InstrumentKindObservableCounter then Ok(KindObservableCounter)
    else if kind == Consts.InstrumentKindObservableUpDown then Ok(KindObservableUpDownCounter)
    else if kind == Consts.InstrumentKindObservableGauge then Ok(KindObservableGauge)
    else Err(UnknownInstrumentKind(kind))
  }

  /** The configuration name of each SDK kind, the inverse of ParseInstrumentKind. */
  function KindName(k: InstrumentKind): string
  {
    match k
    case KindUndefined => ""
    case KindCounter => "counter"
    case KindUpDownCounter => "updowncounter"
    case KindHistogram => "histogram"
    case KindGauge => "gauge"
    case KindObservableCounter => "observablecounter"
    case KindObservableUpDownCounter => "observableupdowncounter"
    case KindObservableGauge => "observablegauge"
  }

  /**
   * The parser accepts exactly what the validator accepts, the empty kind
   * meaning kind 0, and an unknown name is an error naming it.
   */
  lemma ParseInstrumentKindMatchesValidator(kind: string)
    ensures ParseInstrumentKind(kind).Ok? <==> Validator.ValidateInstrumentKind(kind) == None
    ensures ParseInstrumentKind(kind).Err? ==> ParseInstrumentKind(kind).error == UnknownInstrumentKind(kind)
    ensures ParseInstrumentKind("") == Ok(KindUndefined)
  {
  }

  /** Parsing inverts naming, and naming inverts parsing. */
  lemma ParseInstrumentKindRoundTrip(k: InstrumentKind, kind: string)
    ensures ParseInstrumentKind(KindName(k)) == Ok(k)
    ensures ParseInstrumentKind(kind).Ok? ==> KindName(ParseInstrumentKind(kind).value) == kind
  {
  }

  /** `temporalitySelector(exportCfg)`: the same answer for every instrument kind. */
  function TemporalitySelector(exportCfg: ExportSettings.ExportConfig): (selector: InstrumentKind -> Temporality)
  {
    (_: InstrumentKind) => if exportCfg.temporality == Consts.TemporalityCumulative then Cumulative else Delta
  }

  /** `cumulative` selects Cumulative; every other string, unknown ones included, Delta. */
  lemma TemporalitySelectorMaps(exportCfg: ExportSettings.ExportConfig, k: InstrumentKind)
    ensures TemporalitySelector(exportCfg)(k) == Cumulative <==> exportCfg.temporality == "cumulative"
    ensures TemporalitySelector(exportCfg)(k) == TemporalitySelector(exportCfg)(KindUndefined)
  {
  }

  /** `sdkmetric.Instrument`, the selector of a view. */
  datatype Instrument = Instrument(name: string, kind: InstrumentKind)

  /** What `sdkmetric.NewView` is given. */
  datatype View = View(instrument: Instrument, aggregation: Aggregation)

  const InvalidInstrumentKindPrefix := "invalid instrument kind"

  /** `newMetricView`: the instrument kind first, then the aggregation, sizes converted with `int32(...)`. */
  function NewMetricView(viewCfg: MetricViewConfig.MetricView): Result<View>
  {
    match ParseInstrumentKind(viewCfg.instrument.kind)
    case Err(e) => Err(Wrapped(InvalidInstrumentKindPrefix, e))
    case Ok(kind) =>
      var a := viewCfg.aggregation;
      var instrument := Instrument(viewCfg.instrument.name, kind);
      if a.kind == Consts.AggregationExponentialHistogram then
        Ok(View(instrument, AggregationBase2ExponentialHistogram(Int64s.Wrap32(a.maxSize), Int64s.Wrap32(a.maxScale), a.noMinMax)))
      else if a.kind == Consts.AggregationExplicitBucketHistogram then
        Ok(View(instrument, AggregationExplicitBucketHistogram(a.boundaries, a.noMinMax)))
      else Err(UnsupportedAggregation(a.kind))
  }

  /** A bad instrument kind is reported before the aggregation is looked at. */
  lemma NewMetricViewKindFirst(viewCfg: MetricViewConfig.MetricView)
    requires Validator.ValidateInstrumentKind(viewCfg.instrument.kind).Some?
    ensures NewMetricView(viewCfg) == Err(Wrapped(InvalidInstrumentKindPrefix, UnknownInstrumentKind(viewCfg.instrument.kind)))
  {
    ParseInstrumentKindMatchesValidator(viewCfg.instrument.kind);
  }

  /** An aggregation kind other than the two histogram ones is an error. */
  lemma NewMetricViewUnsupported(viewCfg: MetricViewConfig.MetricView)
    requires Validator.ValidateInstrumentKind(viewCfg.instrument.kind) == None
    requires viewCfg.aggregation.kind !in {"base2_exponential_histogram", "explicit_bucket_histogram"}
    ensures NewMetricView(viewCfg) == Err(UnsupportedAggregation(viewCfg.aggregation.kind))
  {
    ParseInstrumentKindMatchesValidator(viewCfg.instrument.kind);
  }

  /**
   * A view that passed validation always converts: instrument name and kind
   * are kept, the exponential parameters are copied (the size exactly while
   * it fits in an `int32`), and the buckets are passed through.
   */
  lemma ValidViewConverts(viewCfg: MetricViewConfig.MetricView)
    requires MetricViewConfig.Validate(viewCfg) == None
    ensures var r := NewMetricView(viewCfg);
      var a := viewCfg.aggregation;
      && r.Ok?
      && r.value.instrument.name == viewCfg.instrument.name
      && KindName(r.value.instrument.kind) == viewCfg.instrument.kind
      && (a.kind == "base2_exponential_histogram" ==>
            && r.value.aggregation.AggregationBase2ExponentialHistogram?
            && r.value.aggregation.maxScale == a.maxScale
            && r.value.aggregation.noMinMax == a.noMinMax
            && (a.maxSize <= Int64s.MAX32 ==> r.value.aggregation.maxSize == a.maxSize))
      && (a.kind == "explicit_bucket_histogram" ==>
            r.value.aggregation == AggregationExplicitBucketHistogram(a.boundaries, a.noMinMax))
  {
    MetricViewConfig.ValidateAccepts(viewCfg);
    ParseInstrumentKindMatchesValidator(viewCfg.instrument.kind);
    ParseInstrumentKindRoundTrip(KindUndefined, viewCfg.instrument.kind);
  }
}
