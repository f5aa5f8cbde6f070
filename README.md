# szgen core, modelled in Dafny

szgen is a synthetic-metrics generator. It reads a set of metric tasks and
runs them through OpenTelemetry. Each task has a name, an instrument kind, a
value type, a rate, a count, a value pattern and a parameter string. This
project models the deterministic core of the program:

- **Value generators.** A pattern name (`constant`, `step`, `sequence`,
  `random`, `sine`) and a comma-separated parameter string become a finite
  sequence of `int64` values. The sequence is cut short when the context is
  cancelled or when the consumer stops pulling.
  - The parameter parsers `parseValue` and `parseRange` are modelled.
  - Each generator gets two things: a pure function that gives the full
    sequence, and a method that mirrors its `iter.Seq` loop. The method's
    output is proved equal to `Iteration.Emitted` of that full sequence.
- **Task runner.**
  - The metric task's pull-then-record loop. The ticker and `ctx.Done()`
    become an event oracle.
  - The serial executor.
  - Executor dispatch.
  - The sequential parts of the concurrent executor: parameter decoding,
    error mapping per task, and the first-error result.
- **Configuration.** Defaults, functional options, membership validators,
  metric-name validation, and the ordered first-error-wins `Validate`
  methods. This covers metric tasks, views, the executor, export,
  resource and the top-level `Config`.
- **Mappings.**
  - The histogram command's view decision.
  - `parseInstrumentKind`, `temporalitySelector` and `newMetricView`.
  - The composite exporter's fan-out, with its error joining.

How things are represented:

- **Go `error` values** are the `Errors.Error` datatype, with one
  constructor per error the modelled code creates. `%w` wrapping is
  `Wrapped(prefix, cause)`. `errors.Join` is `Joined`, and
  `Errors.EntriesOrNone` flattens it.
- **`int64`** is an unbounded `int` restricted to the 64-bit range.
  Overflow is modelled with `Int64s.Wrap` (two's complement); `int32(...)`
  conversions use `Int64s.Wrap32`.
- **Options.** Go options mutate a pointer. Here each option is a datatype
  value, `Apply` is a function from record to record, and each `New*`
  constructor is a loop method proved equal to folding `Apply` over the
  options.
- **Outside inputs.** Cancellation, consumer answers, ticker events, random
  draws, task outcomes, completion order and the otelconf schema check all
  come in as parameters.

## Model

| member | source | states |
|---|---|---|
| Int64s.Wrap | internal/generator/step.go:30 | the result is the `int64` congruent to the input modulo 2^64, and it equals the input when the input is in range (Go's wrap-around on `+=`) |
| Int64s.WrapAdd | internal/generator/step.go:30 | adding to a wrapped value and wrapping again is the same as wrapping the exact sum |
| Int64s.Wrap32 | internal/otel/metrics.go:67-72 | `int32(x)` lies in the `int32` range, is congruent to `x` modulo 2^32, and is `x` itself when `x` fits |
| Text.TrimSpace | internal/generator/utils.go:10 | `strings.TrimSpace`: drops leading and trailing white space; its shape is stated by `Text.TrimSpaceSlice`, `Text.TrimSpaceEmpty` and `Text.TrimSpaceIdempotent` |
| Text.TrimSpaceSlice | internal/generator/utils.go:10 | `strings.TrimSpace` returns a slice of its input that has only white space on either side and no white space at its two ends |
| Text.TrimSpaceEmpty | internal/generator/utils.go:10-13 | the trimmed string is empty exactly when the input is all white space |
| Text.TrimSpaceIdempotent | internal/generator/utils.go:10 | trimming twice is the same as trimming once |
| Text.Split | internal/generator/utils.go:39 | `strings.Split(s, ",")` always returns at least one part |
| Text.SplitLength | internal/generator/utils.go:39 | `strings.Split(s, ",")` returns one more part than there are commas in `s` |
| Text.SplitPiecesHaveNoComma | internal/generator/utils.go:39 | no part returned by the split contains a comma |
| Text.JoinSplit | internal/generator/utils.go:39 | joining the parts with commas gives back the input |
| Text.SplitJoin | internal/generator/utils.go:39 | splitting comma-joined, comma-free parts gives back exactly those parts |
| Text.SplitNoComma | internal/generator/utils.go:39 | a string without a comma splits into itself alone |
| Text.SplitPrefix | internal/generator/utils.go:39 | splitting `p,t` with a comma-free `p` gives `p` followed by the parts of `t` |
| Decimal.ParseInt | internal/generator/utils.go:16-20 | a successful `strconv.ParseInt(s, 10, 64)` means an optional sign followed by a non-empty, all-digit string, and the result is the signed value of those digits |
| Decimal.ParseFormat | internal/generator/utils.go:16-20 | every `int64` written in decimal parses back to itself |
| Decimal.RejectsNonDigit | internal/generator/utils.go:16-20 | any character that is not a digit (other than a leading sign) makes the parse fail |
| Decimal.DigitsValueFormat | internal/generator/utils.go:16-20 | the digits produced by formatting a natural number have that number as their value |
| GeneratorUtils.ParseValue | internal/generator/utils.go:9-21 | `parseValue` on `int64`: trim, reject empty, then `strconv.ParseInt`; its outcome is stated by `GeneratorUtils.ParseValueOutcome` |
| GeneratorUtils.ParseValueOutcome | internal/generator/utils.go:9-21 | an empty or all-white-space token is `empty value`; otherwise the token succeeds exactly when its trimmed text is a valid decimal `int64`, and an invalid token reports the trimmed text |
| GeneratorUtils.ParseValueTrims | internal/generator/utils.go:10 | surrounding white space never changes the outcome of `parseValue` |
| GeneratorUtils.ParseValueFormat | internal/generator/utils.go:9-21 | any `int64` in decimal, padded with white space, parses back to itself |
| GeneratorUtils.ParseValueRejectsComma | internal/generator/utils.go:16-20 | a token containing a comma is always rejected |
| GeneratorUtils.ParseValueNotEmptyRange | internal/generator/utils.go:11-20 | `parseValue` never reports `empty range` |
| GeneratorUtils.ParseEach | internal/generator/utils.go:42-49 | one `parseValue` result per part, in order |
| GeneratorUtils.ParsedRange | internal/generator/utils.go:33-52 | a successful `parseRange` is never empty |
| GeneratorUtils.ParsedRangeEmpty | internal/generator/utils.go:34-37 | `parseRange` reports `empty range` exactly when its input is all white space |
| GeneratorUtils.ParsedRangeErrors | internal/generator/utils.go:33-52 | every `parseRange` error is `empty range` or the error of one part (`empty value` or `invalid int64 value`) |
| GeneratorUtils.ParsedRangeValues | internal/generator/utils.go:39-51 | when every part parses, the result has one value per comma-separated part, `result[i] == parseValue(part_i)`, in input order |
| GeneratorUtils.ParsedRangeFirstError | internal/generator/utils.go:43-46 | otherwise the whole parse fails with the error of the first failing part (an empty part from `",,"` or a trailing comma included) |
| GeneratorUtils.FormatIntShape | internal/generator/utils.go:16-20 | a formatted integer is non-empty, has no comma and has no white space at either end |
| GeneratorUtils.FormatListShape | internal/generator/utils.go:39 | comma-joined decimals split back into the individual decimals |
| GeneratorUtils.ParsedRangeFormatList | internal/generator/utils.go:33-52 | a comma-joined list of decimal `int64`s parses back to exactly that list |
| GeneratorUtils.ParseRange | internal/generator/utils.go:33-52 | the loop that appends each parsed part, returning early on the first error, computes `ParsedRange` |
| Iteration.EmittedFromStep | internal/generator/constant.go:15-22 | one loop iteration: a cancelled iteration yields nothing; otherwise it yields its value and continues only while `yield` returns true |
| Iteration.EmittedFromShape | internal/generator/constant.go:15-22 | from any iteration on, the values yielded are consecutive undisturbed values, none of them seen cancelled, all but the last accepted |
| Iteration.EmittedIsPrefix | internal/generator/constant.go:15-22 | the values yielded are a prefix of the undisturbed sequence; an early stop happens because cancellation was seen at the next iteration or because the consumer refused the last value |
| Iteration.EmittedUndisturbed | internal/generator/constant.go:15-22 | without cancellation and with a consumer that never stops, the whole sequence is yielded |
| Iteration.EmittedCancelled | internal/generator/constant.go:16-17 | once cancellation is seen at iteration k, no value from k on is yielded |
| Iteration.EmittedRefused | internal/generator/constant.go:19-21 | after the consumer refuses value k, nothing more is yielded |
| ConstantGenerator.Values | internal/generator/constant.go:14-22 | undisturbed, exactly `max(count, 0)` values are yielded, each equal to the parsed value |
| ConstantGenerator.New | internal/generator/constant.go:7-12 | `newConstantGenerator`'s construction; its outcome is stated by `ConstantGenerator.NewOutcome` |
| ConstantGenerator.NewOutcome | internal/generator/constant.go:8-12 | construction succeeds exactly when `parseValue` does; the generator holds that value, and a failure reports the parse error |
| ConstantGenerator.NewRejectsList | internal/generator/constant.go:8-11 | a parameter string containing a comma (a list such as `"1,2"`) is rejected |
| ConstantGenerator.NewFormatted | internal/generator/constant.go:7-25 | any `int64` in decimal, with surrounding white space, builds the constant generator of that value |
| ConstantGenerator.Run | internal/generator/constant.go:14-24 | the generator loop yields exactly `Emitted(Values(g), cancelled, accept)` |
| StepGenerator.Term | internal/generator/step.go:21-31 | term k is `initial + k*step`, reduced to `int64` |
| StepGenerator.Values | internal/generator/step.go:20-32 | undisturbed, there are `max(count, 0)` values and value k is term k |
| StepGenerator.New | internal/generator/step.go:7-18 | `newStepGenerator`'s construction; its outcome is stated by `StepGenerator.NewFailsWithRange`, `StepGenerator.NewDefaultStep` and `StepGenerator.NewIgnoresExtra` |
| StepGenerator.NewFailsWithRange | internal/generator/step.go:8-11 | construction fails exactly when `parseRange` fails, with its error |
| StepGenerator.NewDefaultStep | internal/generator/step.go:8-18 | any parameter string whose `parseRange` is a single value starts there with step 1 (the decimal spelling of any `int64` is such a string) |
| StepGenerator.NewIgnoresExtra | internal/generator/step.go:8-18 | any parameter string whose `parseRange` has two or more values starts at the first with the second as step; further values are ignored |
| StepGenerator.ValuesExact | internal/generator/step.go:21-30 | a term that fits in `int64` is exactly `initial + k*step` |
| StepGenerator.NextTerm | internal/generator/step.go:30 | `current += step` moves from term i to term i + 1 |
| StepGenerator.Run | internal/generator/step.go:20-33 | the loop that updates `current` yields exactly `Emitted(Values(g), cancelled, accept)` |
| SequenceGenerator.MaxIterations | internal/generator/sequence.go:15-16 | this is `min(count, len(values))`, and 0 when `count <= 0` |
| SequenceGenerator.Values | internal/generator/sequence.go:15-22 | undisturbed, the output is the first `maxIterations` parsed values |
| SequenceGenerator.New | internal/generator/sequence.go:8-13 | `newSequenceGenerator`'s construction; its outcome is stated by `SequenceGenerator.NewOutcome` |
| SequenceGenerator.NewOutcome | internal/generator/sequence.go:9-13 | a parse failure becomes `failed to parse sequence values: <parse error>`; a success keeps the (non-empty) parsed list and the count |
| SequenceGenerator.NewFormatted | internal/generator/sequence.go:8-27 | a comma-joined decimal list builds a generator over exactly that list, and when `count` covers the list the whole list is yielded |
| SequenceGenerator.Run | internal/generator/sequence.go:14-24 | the index loop yields exactly `Emitted(Values(g), cancelled, accept)` |
| RandomGenerator.New | internal/generator/random.go:10-25 | every generator that is built has `min < max` |
| RandomGenerator.NewSingle | internal/generator/random.go:10-24 | for any parameter string whose `parseRange` is a single value, max is that value and min is 0; a value `<= 0` (for example `"0"` or a negative one) is a construction error |
| RandomGenerator.NewPair | internal/generator/random.go:10-24 | for any parameter string whose `parseRange` has two or more values, max is the first and min the second; further values are ignored; `min >= max` is an error |
| RandomGenerator.NewRejectsAscending | internal/generator/random.go:22-24 | `"5,10"` is rejected with min 10 and max 5 |
| RandomGenerator.DrawBoundAsWrittenPositive | internal/generator/random.go:35-36 | the bound the code passes to `Int64N` is positive exactly when `max - min < MaxInt64` |
| RandomGenerator.DrawBoundAsWrittenOverflows | internal/generator/random.go:35-36 | for min 0 and max `MaxInt64`, the bound as written wraps around to `MinInt64` |
| RandomGenerator.DrawBound | internal/generator/random.go:35-36 | the exact size of the range `[min, max]`, which is at least 2 |
| RandomGenerator.DrawBoundAgrees | internal/generator/random.go:35-36 | where the code's arithmetic does not overflow, it computes the exact size of the range |
| RandomGenerator.Values | internal/generator/random.go:27-40 | undisturbed, `max(count, 0)` values are drawn; value k is `min + draw(k)` and lies in `[min, max]` |
| RandomGenerator.Run | internal/generator/random.go:26-48 | the draw loop yields exactly `Emitted(Values(g, draw), cancelled, accept)`, and every value lies in `[min, max]` |
| SineGenerator.New | internal/generator/sine.go:10-31 | `newSineGenerator`'s construction; its outcome is stated by `SineGenerator.NewDefaults` and `SineGenerator.NewFailsWithRange` |
| SineGenerator.NewDefaults | internal/generator/sine.go:11-31 | for any parameter string that `parseRange` accepts, the amplitude, period factor, vertical shift and horizontal shift come from the first four parameters in that order; a missing period factor defaults to 10, a missing vertical shift to 1 and a missing horizontal shift to 0; values beyond the fourth are ignored |
| SineGenerator.NewFailsWithRange | internal/generator/sine.go:11-14 | construction fails exactly when `parseRange` fails, with its error |
| Generator.New | internal/generator/generator.go:13-28 | the pattern switch of `generator.New`; stated by `Generator.NewDispatches` and `Generator.NewUnknownPattern` |
| Generator.NewDispatches | internal/generator/generator.go:14-24 | each of the five pattern names gives exactly what that pattern's constructor gives: its generator wrapped as that pattern on success, its error unchanged on failure; what is built carries the pattern it was asked for |
| Generator.NewUnknownPattern | internal/generator/generator.go:25-27 | a pattern outside the five names is exactly what yields `unknown generator pattern` |
| Generator.PatternsAreValidGenerators | internal/generator/generator.go:15-23 | the names `New` accepts are exactly the generator names the validator lists |
| Generator.ValidatedPatternKnown | internal/generator/generator.go:26 | `""` passes `ValidateGenerator` but `New` rejects it; every other validated name is accepted by `New` |
| Validator.Utf8Width | internal/config/validator.go:95 | a character takes 1 to 4 bytes, and exactly 1 when it is ASCII |
| Validator.Utf8Length | internal/config/validator.go:95 | the byte length `len` measures lies between the character count and four times that count |
| Validator.Utf8LengthAscii | internal/config/validator.go:95 | for ASCII text the byte length is the character count |
| Validator.ValidateMetricNameAccepts | internal/config/validator.go:94-103 | a name is accepted exactly when it has at most 255 characters and matches `^[a-zA-Z]{1}[\w\.]+$`, so it is at least 2 bytes long |
| Validator.ValidateMetricNameLength | internal/config/validator.go:95-97 | a byte length of 0 or above 255 is reported as a length error |
| Validator.ValidateMetricNamePattern | internal/config/validator.go:99-101 | a name of acceptable length that does not match the pattern is reported as an invalid name |
| Validator.DefaultMetricNameValid | internal/config/validator.go:94-103 | the default name `szgen.metric` is accepted |
| Validator.ValidateMetricName | internal/config/validator.go:94-103 | the length check, then the pattern check; stated by `Validator.ValidateMetricNameAccepts`, `Validator.ValidateMetricNameLength` and `Validator.ValidateMetricNamePattern` |
| Validator.ValidateMetricKind | internal/config/validator.go:38-44 | membership in the metric kinds; stated by `Validator.ValidatesMetricKind` |
| Validator.ValidateGenerator | internal/config/validator.go:54-64 | membership in the generator names; stated by `Validator.ValidatesGenerator` |
| Validator.ValidateValueType | internal/config/validator.go:82-88 | membership in the value types; stated by `Validator.ValidatesValueType` |
| Validator.ValidateInstrumentKind | internal/config/validator.go:46-52 | membership in the instrument kinds; stated by `Validator.ValidatesInstrumentKind` |
| Validator.ValidateMode | internal/config/validator.go:66-72 | membership in the modes; stated by `Validator.ValidatesMode` |
| Validator.ValidateTemporality | internal/config/validator.go:74-80 | membership in the temporalities; stated by `Validator.ValidatesTemporality` |
| Validator.ValidatesMetricKind | internal/config/validator.go:38-44 | accepts exactly `counter`, `gauge`, `histogram` and `updowncounter`, and the error names the input |
| Validator.ValidatesGenerator | internal/config/validator.go:54-64 | accepts `""` and the five generator names, and the error names the input |
| Validator.ValidatesValueType | internal/config/validator.go:82-88 | accepts exactly `int64` and `float64` |
| Validator.ValidatesInstrumentKind | internal/config/validator.go:46-52 | accepts `""` and the seven named kinds |
| Validator.ValidatesMode | internal/config/validator.go:66-72 | accepts exactly `execute`, `execute-and-save` and `save` |
| Validator.ValidatesTemporality | internal/config/validator.go:74-80 | accepts exactly `cumulative` and `delta` |
| MetricTaskConfig.Apply | internal/config/metric_task.go:86-164 | one `With*` option applied to the task; stated by `MetricTaskConfig.ApplyWritesTarget` and `MetricTaskConfig.ApplyIdempotent` |
| MetricTaskConfig.Validate | internal/config/metric_task.go:45-67 | the ordered checks of `MetricTask.Validate`; stated by `MetricTaskConfig.ValidateOutcome` and `MetricTaskConfig.ValidateIgnores` |
| MetricTaskConfig.NewMetricTask | internal/config/metric_task.go:27-43 | starting from the defaults, the loop applies the options in order |
| MetricTaskConfig.ApplyWritesTarget | internal/config/metric_task.go:86-164 | an option sets its own field when its argument is non-empty, non-zero or non-nil, and leaves every other field alone; an empty argument changes nothing |
| MetricTaskConfig.ApplyIdempotent | internal/config/metric_task.go:86-164 | applying an option twice is the same as applying it once |
| MetricTaskConfig.ApplyAllSnoc | internal/config/metric_task.go:38-40 | applying options in order: adding one more option applies it to the result so far |
| MetricTaskConfig.LastOverrideWins | internal/config/metric_task.go:38-40 | each field ends up with the argument of the last option that overrides it, or keeps its starting value |
| MetricTaskConfig.EmptyOptionsKeep | internal/config/metric_task.go:86-164 | a run of options with empty arguments leaves the record unchanged |
| MetricTaskConfig.ValidateOutcome | internal/config/metric_task.go:45-67 | the task is valid exactly when name, kind, generator, type and rate all pass; when the earlier checks pass, the first failing check's error is the result (name, then kind, generator, value type), and a zero rate after four passing checks is `empty rate` |
| MetricTaskConfig.ValidateIgnores | internal/config/metric_task.go:62-66 | only a zero rate is refused (a negative one passes), and count and value are never checked |
| MetricTaskConfig.DefaultFields | internal/config/metric_task.go:28-36 | the defaults: name `szgen.metric`, kind `counter`, type `float64`, rate 1s, count 1, value `"1"`, generator `constant`, no attributes |
| MetricTaskConfig.DefaultValidates | internal/config/metric_task.go:28-67 | the default task passes `Validate` |
| MetricViewConfig.Apply | internal/config/metric_view.go:79-105 | one view option; stated by `MetricViewConfig.InstrumentOptionsKeepRest`, `MetricViewConfig.AggregationOptionsKeepInstrument` and `MetricViewConfig.ApplyIdempotent` |
| MetricViewConfig.Validate | internal/config/metric_view.go:33-59 | `MetricView.Validate`; stated by `MetricViewConfig.ValidateAccepts`, `MetricViewConfig.ValidateInstrumentFirst` and `MetricViewConfig.ValidateUnsupported` |
| MetricViewConfig.NewMetricView | internal/config/metric_view.go:61-77 | starting from instrument `"*"` with no kind, the loop applies the options in order |
| MetricViewConfig.ValidateAccepts | internal/config/metric_view.go:33-59 | a view is valid exactly when it matches by name or by kind, its kind is known, and its aggregation is exponential with `0 <= MaxScale <= 20` and `MaxSize > 0`, or explicit-bucket with non-empty boundaries |
| MetricViewConfig.ValidateInstrumentFirst | internal/config/metric_view.go:34-40 | an empty name with an empty kind, or an unknown kind, is reported before the aggregation is looked at |
| MetricViewConfig.ValidateUnsupported | internal/config/metric_view.go:54-55 | any other aggregation kind is `unsupported aggregation kind` |
| MetricViewConfig.DefaultInvalid | internal/config/metric_view.go:62-70 | the default view has instrument `"*"` with kind `""`, and is rejected because it has no aggregation kind |
| MetricViewConfig.AggregationOptionsKeepInstrument | internal/config/metric_view.go:91-105 | the bucket and exponential options set only their aggregation fields and leave the instrument unchanged |
| MetricViewConfig.InstrumentOptionsKeepRest | internal/config/metric_view.go:79-89 | the instrument options set only their own field, and always do |
| MetricViewConfig.ApplyIdempotent | internal/config/metric_view.go:79-105 | applying an option twice is the same as applying it once |
| ExecutorSettings.Apply | internal/config/executor.go:16-30 | one executor option; stated by `ExecutorSettings.ApplyIdempotent` and `ExecutorSettings.EmptyOptionsKeep` |
| ExecutorSettings.ValidateExecutorStrategy | internal/config/executor.go:53-61 | the strategy switch; stated by `ExecutorSettings.ValidateAccepts` |
| ExecutorSettings.Validate | internal/config/executor.go:45-51 | `ExecutorConfig.Validate`; stated by `ExecutorSettings.ValidateAccepts` |
| ExecutorSettings.NewExecutorConfig | internal/config/executor.go:32-43 | starting from the defaults, the loop applies the options in order |
| ExecutorSettings.ValidateAccepts | internal/config/executor.go:45-61 | the config validates exactly when the strategy is `serial` or `concurrent`, and the error names the strategy |
| ExecutorSettings.EmptyOptionsKeep | internal/config/executor.go:16-30 | an empty strategy and nil params do not override |
| ExecutorSettings.ApplyIdempotent | internal/config/executor.go:16-30 | each option is idempotent and touches only its own field |
| ExecutorSettings.DefaultValidates | internal/config/executor.go:32-51 | the defaults are strategy `serial` with empty params, and they validate |
| ExportSettings.Apply | internal/config/export.go:23-91 | one export option; stated by `ExportSettings.EmptyOptionsKeep`, `ExportSettings.InsecureAlwaysOverrides` and `ExportSettings.ApplyIdempotent` |
| ExportSettings.Validate | internal/config/export.go:108-117 | `ExportConfig.Validate`; stated by `ExportSettings.ValidateOutcome` |
| ExportSettings.NewExportConfig | internal/config/export.go:93-106 | starting from the defaults, the loop applies the options in order |
| ExportSettings.ValidateOutcome | internal/config/export.go:108-117 | the mode is checked before the temporality, the first failure is reported, and file, endpoint, certificates and interval are never checked |
| ExportSettings.EmptyOptionsKeep | internal/config/export.go:23-91 | string options with empty arguments and a zero interval change nothing |
| ExportSettings.InsecureAlwaysOverrides | internal/config/export.go:55-59 | `WithInsecure` always sets its field |
| ExportSettings.ApplyIdempotent | internal/config/export.go:23-91 | applying an option twice is the same as applying it once |
| ExportSettings.DefaultValidates | internal/config/export.go:93-117 | the defaults are mode `execute`, endpoint `127.0.0.1:4317`, temporality `delta` and interval 1s, and they validate |
| ResourceSettings.Apply | internal/config/resource.go:17-39 | one resource option; stated by `ResourceSettings.OptionsKeepServiceName`, `ResourceSettings.EmptyOptionsKeep` and `ResourceSettings.ApplyIdempotent` |
| ResourceSettings.Validate | internal/config/resource.go:55-61 | `ResourceConfig.Validate`; stated by `ResourceSettings.ValidateAccepts` |
| ResourceSettings.NewResourceConfig | internal/config/resource.go:41-53 | starting from the defaults, the loop applies the options in order |
| ResourceSettings.OptionsKeepServiceName | internal/config/resource.go:17-23 | no option can empty a non-empty service name, so a configuration built from valid defaults stays valid |
| ResourceSettings.EmptyOptionsKeep | internal/config/resource.go:17-39 | an empty name or version and an empty attribute map do not override |
| ResourceSettings.ApplyIdempotent | internal/config/resource.go:17-39 | applying an option twice is the same as applying it once |
| ResourceSettings.ValidateAccepts | internal/config/resource.go:55-61 | validation fails exactly when the service name is empty, and the error is then `empty service name` |
| ResourceSettings.DefaultValidates | internal/config/resource.go:41-61 | the defaults are `szgen`, `0.1.0` and no attributes, and they validate |
| Configuration.Apply | internal/config/config.go:35-63 | one top-level option; stated by `Configuration.SettersNeverFail` and `Configuration.DefaultConfigContents` |
| Configuration.Build | internal/config/config.go:23-33 | the options applied in order, stopping at the first error; stated by `Configuration.BuildPrefix` and `Configuration.NewConfigStopsAtFailure` |
| Configuration.Validation | internal/config/config.go:115-145 | the ordered checks of `Config.Validate`; stated by `Configuration.ValidationAccepts` and the `Configuration.Validation*` lemmas |
| Configuration.NewConfig | internal/config/config.go:23-33 | the loop applies the options in order from the zero `Config`, and stops at the first option error |
| Configuration.BuildPrefix | internal/config/config.go:25-30 | building with a list of options is building with a prefix of it, then with the rest |
| Configuration.NewConfigStopsAtFailure | internal/config/config.go:25-29 | the first failing option's error is the result, and no config is returned |
| Configuration.SettersNeverFail | internal/config/config.go:35-63 | the default and the setter options never fail |
| Configuration.NoOptionsIsZero | internal/config/config.go:24 | with no options the result is the zero `Config`, with nil `Metrics` |
| Configuration.DefaultConfigContents | internal/config/config.go:35-41 | `WithDefaultConfig` sets an empty task list, the default OpenTelemetry map and the default executor config |
| Configuration.Validate | internal/config/config.go:115-145 | the checks run in order: task list non-empty, executor, each task, OpenTelemetry map non-empty, schema; the loop reports the first failure |
| Configuration.FirstInvalidTaskAt | internal/config/config.go:124-128 | the first invalid task is reported with its zero-based index and its error |
| Configuration.FirstInvalidTaskNone | internal/config/config.go:124-128 | no task is reported exactly when every task validates |
| Configuration.ValidationNoMetricsFirst | internal/config/config.go:116-118 | an empty task list is reported first |
| Configuration.ValidationExecutorBeforeTasks | internal/config/config.go:120-122 | the executor config is checked before any metric task |
| Configuration.ValidationFirstInvalidTask | internal/config/config.go:124-128 | with a valid executor, the first invalid metric is reported as `metric[i]` |
| Configuration.ValidationAccepts | internal/config/config.go:115-145 | a configuration is valid exactly when it has tasks, a valid executor, only valid tasks, a non-empty OpenTelemetry map and a schema-valid one |
| Configuration.DefaultConfigNeedsTasks | internal/config/config.go:35-41 | the default configuration alone fails validation because it has no tasks |
| MetricTaskRunner.New | internal/runner/metrictask/metric_task.go:53-66 | `metrictask.New`; stated by `MetricTaskRunner.NewOutcome` |
| MetricTaskRunner.Name | internal/runner/metrictask/metric_task.go:24-26 | the configured name; stated by `MetricTaskRunner.NewOutcome` |
| MetricTaskRunner.NewOutcome | internal/runner/metrictask/metric_task.go:24-66 | `New` validates before anything else is built; its unsupported-type branch is unreachable; the task carries the configured name (what `Name()` returns), the rate and the value type |
| MetricTaskRunner.Continues | internal/runner/metrictask/metric_task.go:35-39 | the loop body lets the generator continue exactly after a tick |
| MetricTaskRunner.Pulled | internal/runner/metrictask/metric_task.go:34 | no more values are pulled than the generator has |
| MetricTaskRunner.Recorded | internal/runner/metrictask/metric_task.go:34-45 | no more values are recorded than the generator has |
| MetricTaskRunner.Execute | internal/runner/metrictask/metric_task.go:28-49 | a non-positive interval makes `NewTicker` panic before anything is recorded; otherwise the loop records `Recorded(...)` and returns `Result(...)` |
| MetricTaskRunner.RecordedIsPrefix | internal/runner/metrictask/metric_task.go:34-39 | the recorded values are a prefix of the generator's values, in order, one per tick; the value is pulled before the tick is awaited, so at most one more is pulled than recorded |
| MetricTaskRunner.ResultNilIff | internal/runner/metrictask/metric_task.go:34-48 | nil is returned exactly when cancellation is not seen in the select; otherwise `ctx.Err()` is returned |
| MetricTaskRunner.UndisturbedRecordsAll | internal/runner/metrictask/metric_task.go:34-48 | without cancellation every generated value is recorded, and the result is nil |
| MetricTaskRunner.DoneStopsRecording | internal/runner/metrictask/metric_task.go:36-37 | when `ctx.Done()` wins the select for value k, values 0..k are pulled, only 0..k-1 recorded, and `ctx.Err()` returned |
| MetricTaskRunner.NegativeRatePanics | internal/runner/metrictask/metric_task.go:31 | a negative rate passes validation and reaches the task, where the ticker panics |
| SerialExecutor.FirstUnsuccessful | internal/runner/executors/serial.go:14-17 | the position of the first task that fails or panics, with every task before it successful |
| SerialExecutor.Execute | internal/runner/executors/serial.go:13-22 | tasks run in list order, up to and including the first failing one and never beyond it; the outcome is `RunOutcome` |
| SerialExecutor.FirstUnsuccessfulAt | internal/runner/executors/serial.go:14-17 | the first failure is determined by the tasks before it succeeding |
| SerialExecutor.RunOutcome | internal/runner/executors/serial.go:13-22 | the serial run's outcome; stated by `SerialExecutor.RunOutcomeNilIff`, `SerialExecutor.RunOutcomeFirstFailure` and `SerialExecutor.RunOutcomePanic` |
| SerialExecutor.RunOutcomeNilIff | internal/runner/executors/serial.go:14-21 | the result is nil exactly when every task succeeds, the empty list included |
| SerialExecutor.RunOutcomeFirstFailure | internal/runner/executors/serial.go:15-17 | the first failing task's error, `context.Canceled` included, is reported with its 1-based position |
| SerialExecutor.RunOutcomePanic | internal/runner/executors/serial.go:14-17 | a panic in a task is not recovered and ends the run |
| ConcurrentExecutor.TruncateTowardZero | internal/runner/executors/concurrent.go:63 | `int(float64)` truncates toward zero |
| ConcurrentExecutor.NewConcurrent | internal/runner/executors/concurrent.go:56-70 | parameter decoding; stated by `ConcurrentExecutor.NewConcurrentDecodes` |
| ConcurrentExecutor.NewConcurrentDecodes | internal/runner/executors/concurrent.go:56-70 | a missing key gives 0, an `int` is used as is, a `float64` is truncated, and any other type gives 0 |
| ConcurrentExecutor.Limit | internal/runner/executors/concurrent.go:24-26 | a parallelism limit is set exactly when `maxConcurrency > 0`, and then it is that value |
| ConcurrentExecutor.ExecuteWithRecovery | internal/runner/executors/concurrent.go:43-54 | one task's mapped result; stated by `ConcurrentExecutor.ExecuteWithRecoveryMaps` |
| ConcurrentExecutor.ExecuteWithRecoveryMaps | internal/runner/executors/concurrent.go:43-54 | a panic becomes `task panicked`; exactly `context.Canceled` maps to nil, while an error that wraps it does not; any other error is wrapped as `task aborted` |
| ConcurrentExecutor.Execute | internal/runner/executors/concurrent.go:16-41 | the first non-nil mapped result in finishing order; stated by `ConcurrentExecutor.ExecuteEmpty` and `ConcurrentExecutor.ExecuteNilIff` |
| ConcurrentExecutor.ExecuteEmpty | internal/runner/executors/concurrent.go:17-20 | an empty task list returns nil |
| ConcurrentExecutor.ExecuteNilIff | internal/runner/executors/concurrent.go:28-40 | the result is nil exactly when every task's mapped result is nil, and otherwise it is one of the tasks' errors |
| Executors.New | internal/runner/executors/executors.go:11-23 | the strategy switch; stated by `Executors.NewDispatches` |
| Executors.NewDispatches | internal/runner/executors/executors.go:11-23 | `serial` builds the serial executor and `concurrent` builds one from the params; any other strategy is `invalid executor configuration`, so the default branch is unreachable |
| Executors.DefaultIsSerial | internal/runner/executors/executors.go:17-18 | the default executor config builds the serial executor |
| HistogramFlags.ParseHistogramViews | cmd/szgen/histogram.go:44-99 | at most one view is built |
| HistogramFlags.BucketViewFields | cmd/szgen/histogram.go:61-65 | the bucket view matches every histogram and carries the buckets |
| HistogramFlags.ExponentialViewFields | cmd/szgen/histogram.go:83-86 | the exponential view matches every histogram and carries scale, size and `noMinMax` |
| HistogramFlags.NoFlagsNoViews | cmd/szgen/histogram.go:50-55 | no buckets, scale `<= 0` and size `<= 0` give no views and no error, whatever `noMinMax` says |
| HistogramFlags.BothModesConflict | cmd/szgen/histogram.go:57-59 | buckets together with a positive scale or size are an error |
| HistogramFlags.BucketsGiveOneView | cmd/szgen/histogram.go:61-73 | buckets alone give exactly one valid explicit-bucket view with instrument kind `histogram` |
| HistogramFlags.ExponentialDefaults | cmd/szgen/histogram.go:76-98 | a zero scale defaults to 20 and a zero size to 160; a valid result is exactly one view with those parameters, and an invalid one is reported wrapped |
| HistogramFlags.NegativeScaleRejected | cmd/szgen/histogram.go:76-90 | a negative scale with a positive size is not defaulted, and so fails validation |
| OtelMetrics.ParseInstrumentKind | internal/otel/metrics.go:102-123 | the kind switch; stated by `OtelMetrics.ParseInstrumentKindMatchesValidator` and `OtelMetrics.ParseInstrumentKindRoundTrip` |
| OtelMetrics.ParseInstrumentKindMatchesValidator | internal/otel/metrics.go:102-123 | parsing succeeds on exactly the strings `ValidateInstrumentKind` accepts; `""` is kind 0; an unknown string is an error naming it |
| OtelMetrics.ParseInstrumentKindRoundTrip | internal/otel/metrics.go:102-123 | every SDK kind's configuration name parses back to that kind, and a parsed name is that kind's name |
| OtelMetrics.TemporalitySelector | internal/otel/metrics.go:89-100 | the selector built from the export config; stated by `OtelMetrics.TemporalitySelectorMaps` |
| OtelMetrics.TemporalitySelectorMaps | internal/otel/metrics.go:89-100 | `cumulative` gives Cumulative and anything else gives Delta, whatever the instrument kind |
| OtelMetrics.NewMetricView | internal/otel/metrics.go:54-87 | the view conversion; stated by `OtelMetrics.NewMetricViewKindFirst`, `OtelMetrics.NewMetricViewUnsupported` and `OtelMetrics.ValidViewConverts` |
| OtelMetrics.NewMetricViewKindFirst | internal/otel/metrics.go:55-58 | a bad instrument kind fails before the aggregation is looked at, wrapped as `invalid instrument kind` |
| OtelMetrics.NewMetricViewUnsupported | internal/otel/metrics.go:78-79 | an unsupported aggregation kind is an error |
| OtelMetrics.ValidViewConverts | internal/otel/metrics.go:54-87 | a validated view always converts, keeping name and kind; the exponential aggregation copies `MaxScale` and `NoMinMax`, and copies `MaxSize` while it fits in `int32`; buckets pass through |
| CompositeExporter.WrappedFailures | internal/exporter/composite.go:24-26 | the list of wrapped failures is empty exactly when every call succeeded |
| CompositeExporter.FanOut | internal/exporter/composite.go:22-30 | every exporter is called exactly once, in order, even after a failure; the result is nil exactly when all succeed, and the joined error has one wrapped entry per failure, in order |
| CompositeExporter.Export | internal/exporter/composite.go:22-30 | `Export` calls every exporter in order; the result is nil exactly when all succeed (an empty list included), with one `composite exporter failed` entry per failure |
| CompositeExporter.ForceFlush | internal/exporter/composite.go:32-40 | the same fan-out, with `composite flush failed` entries |
| CompositeExporter.Shutdown | internal/exporter/composite.go:42-50 | the same fan-out, with `composite shutdown failed` entries |
| CompositeExporter.WrappedFailuresCount | internal/exporter/composite.go:24-26 | there are as many wrapped entries as failures, and entry j wraps the j-th failure with the prefix |
| CompositeExporter.FailuresAllFail | internal/exporter/composite.go:24-26 | when every exporter fails, there is one failure per exporter, in exporter order |
| CompositeExporter.AggregationFor | internal/exporter/composite.go:52-58 | delegates to the first exporter, and with no exporters it is the default aggregation |
| CompositeExporter.TemporalityFor | internal/exporter/composite.go:60-66 | delegates to the first exporter, and with no exporters it is Delta |
| CompositeExporter.DelegatesToFirst | internal/exporter/composite.go:52-66 | exporters after the first never change the answer |
| Errors.Collect | internal/generator/utils.go:42-49 | a successful collection has one value per input result |
| Errors.CollectAllOk | internal/generator/utils.go:42-49 | when every result is a success, the collection holds their values in order |
| Errors.CollectFirstError | internal/generator/utils.go:43-46 | the first failing result's error is the collection's error |
| Errors.CollectErrorIsInput | internal/generator/utils.go:43-46 | a collection error is one of the input errors |
| Errors.FirstError | internal/config/metric_task.go:45-67 | the first of an ordered list of checks is reported: nothing exactly when every check passes, and otherwise one of the failures |
| Errors.FirstErrorAt | internal/config/metric_task.go:45-67 | the reported failure is the first failing check |
| Errors.NonNil | internal/exporter/composite.go:24-26 | `errors.Join` keeps only the non-nil errors |
| Errors.JoinAppends | internal/exporter/composite.go:25 | `errs = errors.Join(errs, e)` is non-nil, and its entries are the old entries followed by `e` |

## Left out

- The float64 branches are left out: `parseValue`'s `strconv.ParseFloat`, the float draws of `random`, and the float instruments. The model works on `int64` only.
- The `sine` generator's value sequence is left out, because it is trigonometry on floats. Only its construction (parameter defaults and errors) is modelled.
- The standard library's `rand` is replaced by a draw oracle whose results lie in `[0, max - min]`.
- `time.Ticker` and `select` become an event oracle, and `ctx.Err()` is a parameter that is `Canceled` or `DeadlineExceeded`.
- When a value is ready and the ticker has fired at the same time, Go's `select` picks a case at random. The oracle stands for that choice.
- `slog` logging is left out.
- `newInstrument` in internal/runner/metrictask/parser.go is left out: it creates the generator and the OpenTelemetry recorder. `MetricTaskRunner.New` takes its error as a parameter. The recorder is modelled by what `Execute` returns as `recorded`.
- The concurrent executor's goroutines, errgroup limits and shared cancellation are left out. `ConcurrentExecutor.Execute` takes the order in which tasks finish as a parameter and returns the first non-nil mapped error, as `errgroup.Wait` does.
- RandomGenerator.Run: the model draws with the corrected `RandomGenerator.DrawBound`, so it yields values where the Go loop panics in `rand.Int64N` because `max - min >= MaxInt64` (see Findings).
- `ConcurrentExecutor.TruncateTowardZero` does not model a `float64` too large for `int`, or NaN. Go leaves those conversions implementation-defined.
- `Configuration.Validate` and `Configuration.Validation` require `Metrics` to be non-nil, because the Go code dereferences it without a check. A nil `Metrics` is a nil-pointer panic that the model does not represent.
- The `yaml.Marshal` failure inside `Config.Validate` is left out. `otelconf.ParseYAML` is an oracle parameter, `schema`.
- File and YAML loading is left out: `WithOtelConfigFile`, `WithSzgenConfigFile`, `MetricTask.UnmarshalYAML` and internal/config/loader.go. Only the generic loader option `WithLoader` stands for them. At internal/config/loader.go:26, `config := NewConfig()` does not match the two-result signature of `NewConfig` at internal/config/config.go:23. Loader.go is not part of this model.
- `MetricsConfig` is not defined in the modelled files. It is represented by its task list, which is all `Config.Validate` reads.
- Options mutate a shared pointer in Go. Here they are functions on values, so aliasing is not modelled.
- The composite exporter's context argument and the metrics sent by `Export` are left out. Each exporter is described by the results of its three calls and by its two selectors.
- `buildMetricsProvider`, internal/otel/sdk.go, internal/otel/resource.go, internal/otel/logger.go and internal/exporter/file.go are not part of this model. They start the SDK and perform I/O.
- The cobra commands in cmd/szgen other than `parseHistogramViews` are left out, as is signal handling: they only wire flags. In `HistogramFlags.ParseHistogramViews` the four flag values are arguments.
- internal/config/otel.go is a static map literal. It is copied as `Configuration.DefaultOpenTelemetry`, and only its size is stated.
- internal/runner/task.go and internal/runner/executor.go only declare interfaces. Tasks are modelled by their outcome.

Behaviour of the code that a reader might not expect:

- The metric task pulls the next value *before* it waits for a tick.
- On cancellation seen in the `select`, the metric task returns `ctx.Err()`. Cancellation seen inside the generator ends the loop with nil.
- `ValidateGenerator` accepts `""`, but `generator.New` rejects it.
- A negative rate passes validation, and then `time.NewTicker` panics.
- `int32(MaxSize)` wraps around for sizes above the `int32` range.
- The concurrent executor reports only the first error, not all of them.

The model follows the code in each case.

## Findings

| source | as written | input that shows it | evidently intended | confidence | as-written member | corrected member |
|---|---|---|---|---|---|---|
| internal/generator/random.go:35-36 | `diff := max - min`, then `rand.Int64N(diff+1)`, all in `int64`; the bound wraps when `max - min >= MaxInt64` | parameter string `"9223372036854775807"` (max = MaxInt64, min = 0): the bound becomes MinInt64, and `Int64N` panics on a non-positive bound | a draw over the full range `[min, max]` for every accepted `min < max` | not executed | RandomGenerator.DrawBoundAsWrittenOverflows | RandomGenerator.DrawBound |

`RandomGenerator.NewSingle` shows that the input above is accepted: it builds
`Random(0, MaxInt64, count)`. `RandomGenerator.DrawBoundAsWrittenPositive`
characterises exactly when the bound as written is usable. The model draws
with `RandomGenerator.DrawBound`, the exact size of the range, and proves
every value lies in `[min, max]` (`RandomGenerator.Values`,
`RandomGenerator.Run`).
