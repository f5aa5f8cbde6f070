/**
 * The OpenTelemetry SDK values the modelled code produces or consumes
 * (`sdkmetric.InstrumentKind`, `metricdata.Temporality`,
 * `sdkmetric.Aggregation`), as plain enumerations.
 */
module Sdk {
  /** `sdkmetric.InstrumentKind`; `KindUndefined` is `InstrumentKind(0)`. */
  datatype InstrumentKind =
    | KindUndefined
    | KindCounter
    | KindUpDownCounter
    | KindHistogram
    | KindGauge
    | KindObservableCounter
    | KindObservableUpDownCounter
    | KindObservableGauge

  datatype Temporality = Cumulative | Delta

  /** The aggregations; the two histogram ones carry their parameters (the sizes as `int32`). */
  datatype Aggregation =
    | AggregationDefault
    | AggregationBase2ExponentialHistogram(maxSize: int, maxScale: int, noMinMax: bool)
    | AggregationExplicitBucketHistogram(boundaries: seq<real>, noMinMax: bool)
}
