/**
 * The membership validators and the metric-name check of
 * internal/config/validator.go. Each returns `None` for Go's nil error.
 */
module Validator {
  import opened Wrappers
  import opened Errors
  import opened Consts

  const ValidMetricTypes: seq<string> := [MetricTypeCounter, MetricTypeGauge, MetricTypeHistogram, MetricTypeUpDownCounter]
  const ValidTemporalities: seq<string> := [TemporalityCumulative, TemporalityDelta]
  const ValidModes: seq<string> := [ExportModeExecute, ExportModeExecuteAndSave, ExportModeSave]
  const ValidGenerators: seq<string> := [GeneratorConstant, GeneratorRandom, GeneratorStep, GeneratorSine, GeneratorSequence]
  const ValidValueTypes: seq<string> := [ValueTypeInt64, ValueTypeFloat64]
  const ValidInstrumentKinds: seq<string> := [
    InstrumentKindUndefined, InstrumentKindCounter, InstrumentKindGauge, InstrumentKindHistogram,
    InstrumentKindObservableCounter, InstrumentKindObservableGauge, InstrumentKindObservableUpDown,
    InstrumentKindUpDownCounter
  ]

  /** The longest accepted metric name, in bytes. */
  const MaxMetricNameLength := 255

  function ValidateMetricKind(metricKind: string): Option<Error>
  {
    if metricKind in ValidMetricTypes then None else Some(InvalidMetricKind(metricKind))
  }

  function ValidateInstrumentKind(instrumentKind: string): Option<Error>
  {
    if instrumentKind in ValidInstrumentKinds then None else Some(InvalidInstrumentKind(instrumentKind))
  }

  /** The empty name is accepted: it stands for "no generator given". */
  function ValidateGenerator(name: string): Option<Error>
  {
    if name == "" then None
    else if name in ValidGenerators then None
    else Some(InvalidGenerator(name))
  }

  function ValidateMode(mode: string): Option<Error>
  {
    if mode in ValidModes then None else Some(InvalidMode(mode))
  }

  function ValidateTemporality(temporality: string): Option<Error>
  {
    if temporality in ValidTemporalities then None else Some(InvalidTemporality(temporality))
  }

  function ValidateValueType(valueType: string): Option<Error>
  {
    if valueType in ValidValueTypes then None else Some(InvalidValueType(valueType))
  }

  /** The number of bytes `c` takes in UTF-8. */
  function Utf8Width(c: char): (w: nat)
    ensures 1 <= w <= 4
    ensures w == 1 <==> (c as int) < 0x80
  {
    if (c as int) < 0x80 then 1
    else if (c as int) < 0x800 then 2
    else if (c as int) < 0x1_0000 then 3
    else 4
  }

  /** Go's `len` of a string: its length in UTF-8 bytes. */
  function Utf8Length(s: string): (n: nat)
    ensures |s| <= n <= 4 * |s|
  {
    if s == [] then 0 else Utf8Width(s[0]) + Utf8Length(s[1..])
  }

  predicate IsAsciiLetter(c: char)
  {
    ('a' <= c <= 'z') || ('A' <= c <= 'Z')
  }

  /** `\w` (ASCII letters, digits, underscore) or a dot. */
  predicate IsNameChar(c: char)
  {
    IsAsciiLetter(c) || ('0' <= c <= '9') || c == '_' || c == '.'
  }

  /** `metricNameRegex`, `^[a-zA-Z]{1}[\w\.]+$`: a letter followed by one or more name characters. */
  predicate MatchesMetricNamePattern(s: string)
  {
    |s| >= 2 && IsAsciiLetter(s[0]) && forall i :: 1 <= i < |s| ==> IsNameChar(s[i])
  }

  /** Length in bytes first (1 to 255), then the pattern. */
  function ValidateMetricName(metricName: string): Option<Error>
  {
    var l := Utf8Length(metricName);
    if l == 0 || l > MaxMetricNameLength then Some(InvalidMetricLength(l))
    else if !MatchesMetricNamePattern(metricName) then Some(InvalidMetricName(metricName))
    else None
  }

  lemma {:induction false} Utf8LengthAscii(s: string)
    requires forall i :: 0 <= i < |s| ==> (s[i] as int) < 0x80
    ensures Utf8Length(s) == |s|
  {
    if s != [] {
      Utf8LengthAscii(s[1..]);
    }
  }

  /**
   * A metric name is accepted exactly when it is 2 to 255 characters of the
   * pattern (ASCII, so bytes and characters agree).
   */
  lemma ValidateMetricNameAccepts(metricName: string)
    ensures ValidateMetricName(metricName) == None <==>
      |metricName| <= MaxMetricNameLength && MatchesMetricNamePattern(metricName)
  {
    if MatchesMetricNamePattern(metricName) {
      assert forall i :: 0 <= i < |metricName| ==> IsNameChar(metricName[i]);
      Utf8LengthAscii(metricName);
    }
  }

  /** Lengths are checked before the pattern: an empty or over-long name is a length error. */
  lemma ValidateMetricNameLength(metricName: string)
    ensures metricName == [] ==> ValidateMetricName(metricName) == Some(InvalidMetricLength(0))
    ensures Utf8Length(metricName) > MaxMetricNameLength ==>
      ValidateMetricName(metricName) == Some(InvalidMetricLength(Utf8Length(metricName)))
    ensures |metricName| > MaxMetricNameLength ==> ValidateMetricName(metricName).Some?
  {
  }

  /** A name that fits the length bound but not the pattern is reported as such. */
  lemma ValidateMetricNamePattern(metricName: string)
    requires 0 < Utf8Length(metricName) <= MaxMetricNameLength
    requires !MatchesMetricNamePattern(metricName)
    ensures ValidateMetricName(metricName) == Some(InvalidMetricName(metricName))
  {
  }

  /** The default metric name is valid. */
  lemma DefaultMetricNameValid()
    ensures ValidateMetricName(DefaultMetricName) == None
  {
    var s := DefaultMetricName;
    assert MatchesMetricNamePattern(s) by {
      forall i | 1 <= i < |s| ensures IsNameChar(s[i]) {
        assert s[i] in "zgen.metric";
      }
    }
    ValidateMetricNameAccepts(s);
  }

  /** Exactly the four metric kinds. */
  lemma ValidatesMetricKind(metricKind: string)
    ensures ValidateMetricKind(metricKind) == None <==>
      metricKind in {"counter", "gauge", "histogram", "updowncounter"}
    ensures ValidateMetricKind(metricKind).Some? ==> ValidateMetricKind(metricKind) == Some(InvalidMetricKind(metricKind))
  {
  }

  /** The empty name and the five generator names. */
  lemma ValidatesGenerator(name: string)
    ensures ValidateGenerator(name) == None <==>
      name in {"", "constant", "random", "step", "sine", "sequence"}
    ensures ValidateGenerator(name).Some? ==> ValidateGenerator(name) == Some(InvalidGenerator(name))
  {
  }

  /** Exactly `int64` and `float64`. */
  lemma ValidatesValueType(valueType: string)
    ensures ValidateValueType(valueType) == None <==> valueType in {"int64", "float64"}
    ensures ValidateValueType(valueType).Some? ==> ValidateValueType(valueType) == Some(InvalidValueType(valueType))
  {
  }

  /** The empty kind and the seven named instrument kinds. */
  lemma ValidatesInstrumentKind(instrumentKind: string)
    ensures ValidateInstrumentKind(instrumentKind) == None <==>
      instrumentKind in {"", "counter", "gauge", "histogram", "observablecounter",
                         "observablegauge", "observableupdowncounter", "updowncounter"}
    ensures ValidateInstrumentKind(instrumentKind).Some? ==>
      ValidateInstrumentKind(instrumentKind) == Some(InvalidInstrumentKind(instrumentKind))
  {
  }

  /** The three export modes. */
  lemma ValidatesMode(mode: string)
    ensures ValidateMode(mode) == None <==> mode in {"execute", "execute-and-save", "save"}
    ensures ValidateMode(mode).Some? ==> ValidateMode(mode) == Some(InvalidMode(mode))
  {
  }

  /** The two temporalities. */
  lemma ValidatesTemporality(temporality: string)
    ensures ValidateTemporality(temporality) == None <==> temporality in {"cumulative", "delta"}
    ensures ValidateTemporality(temporality).Some? ==> ValidateTemporality(temporality) == Some(InvalidTemporality(temporality))
  {
  }
}
