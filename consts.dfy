/** The string and numeric constants of package consts. */
module Consts {

  const ExportModeExecute := "execute"
  const ExportModeSave := "save"
  const ExportModeExecuteAndSave := "execute-and-save"

  const AggregationExplicitBucketHistogram := "explicit_bucket_histogram"
  const AggregationExponentialHistogram := "base2_exponential_histogram"
  const ExecutorStrategySerial := "serial"
  const ExecutorStrategyConcurrent := "concurrent"
  const GeneratorConstant := "constant"
  const GeneratorRandom := "random"
  const GeneratorSequence := "sequence"
  const GeneratorSine := "sine"
  const GeneratorStep := "step"
  const MetricTypeCounter := "counter"
  const MetricTypeGauge := "gauge"
  const MetricTypeHistogram := "histogram"
  const MetricTypeUpDownCounter := "updowncounter"
  const TemporalityCumulative := "cumulative"
  const TemporalityDelta := "delta"
  const ValueTypeFloat64 := "float64"
  const ValueTypeInt64 := "int64"

  const InstrumentKindUndefined := ""
  const InstrumentKindCounter := "counter"
  const InstrumentKindGauge := "gauge"
  const InstrumentKindHistogram := "histogram"
  const InstrumentKindObservableCounter := "observablecounter"
  const InstrumentKindObservableGauge := "observablegauge"
  const InstrumentKindObservableUpDown := "observableupdowncounter"
  const InstrumentKindUpDownCounter := "updowncounter"

  /** One second as a `time.Duration`, in nanoseconds. */
  const Second: int := 1_000_000_000

  const DefaultCount: int := 1
  const DefaultExecutorStrategy := ExecutorStrategySerial
  const DefaultExportMode := ExportModeExecute
  const DefaultExportTemporality := TemporalityDelta
  const DefaultGenerator := GeneratorConstant
  const DefaultMetricKind := MetricTypeCounter
  const DefaultMetricName := "szgen.metric"
  const DefaultOTLPEndpoint := "127.0.0.1:4317"
  const DefaultOTLPInterval: int := Second
  const DefaultRate: int := Second
  const DefaultServiceName := "szgen"
  const DefaultServiceVersion := "0.1.0"
  const DefaultSineGeneratorB: int := 10
  const DefaultValue := "1"
  const DefaultValueType := ValueTypeFloat64
}
