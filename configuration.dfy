/**
 * The top-level configuration (internal/config/config.go): construction by
 * options that may fail, and the whole-configuration check. The schema
 * check of the OpenTelemetry section (`yaml.Marshal` followed by
 * `otelconf.ParseYAML`) is a parameter.
 */
module Configuration {
  import opened Wrappers
  import opened Errors
  import opened Dynamic
  import MetricTaskConfig
  import ExecutorSettings

  /** `MetricsConfig`, of which the model keeps the task list. */
  datatype MetricsConfig = MetricsConfig(tasks: seq<MetricTaskConfig.MetricTask>)

  /** `Config`; `metrics` is `None` for a nil pointer, a nil map is an empty one. */
  datatype Config = Config(
    metrics: Option<MetricsConfig>,
    openTelemetry: map<string, Any>,
    executor: ExecutorSettings.ExecutorConfig)

  /**
   * The options. `WithLoader` stands for an option whose effect lies outside
   * the model (`WithOtelConfigFile`, `WithSzgenConfigFile`): it either fails
   * or produces a new configuration.
   */
  datatype ConfigOption =
    | WithDefaultConfig
    | WithMetricsConfig(metrics: Option<MetricsConfig>)
    | WithOpenTelemetryConfig(otel: map<string, Any>)
    | WithExecutorConfig(executor: ExecutorSettings.ExecutorConfig)
    | WithLoader(load: Config -> Result<Config>)

  /** The zero `Config` that NewConfig starts from. */
  const Zero := Config(None, map[], ExecutorSettings.ExecutorConfig("", map[]))

  /** `NewOTelConfig()` (internal/config/otel.go): the built-in OpenTelemetry SDK settings. */
  const DefaultOpenTelemetry: map<string, Any> := map[
    "file_format" := StringValue("1.0-rc.2"),
    "disabled" := BoolValue(false),
    "log_level" := StringValue("info"),
    "meter_provider" := MapValue(map[
      "readers" := ListValue([MapValue(map[
        "periodic" := MapValue(map[
          "interval" := IntValue(1000),
          "timeout" := IntValue(1000),
          "exporter" := MapValue(map[
            "otlp_grpc" := MapValue(map[
              "endpoint" := StringValue("http://127.0.0.1:4317"),
              "encoding" := StringValue("protobuf"),
              "compression" := StringValue("gzip"),
              "insecure" := BoolValue(true),
              "timeout" := IntValue(1000),
              "temporality_preference" := StringValue("delta"),
              "default_histogram_aggregation" := StringValue("base2_exponential_bucket_histogram")
            ])
          ])
        ])
      ])]),
      "views" := ListValue([MapValue(map[
        "selector" := MapValue(map["instrument_type" := StringValue("histogram")]),
        "stream" := MapValue(map[
          "aggregation" := MapValue(map[
            "base2_exponential_bucket_histogram" := MapValue(map[
              "max_size" := IntValue(100),
              "max_scale" := IntValue(10)
            ])
          ])
        ])
      ])])
    ]),
    "resource" := MapValue(map[
      "attributes" := ListValue([
        MapValue(map["name" := StringValue("service.name"), "value" := StringValue("szgen"), "type" := StringValue("string")]),
        MapValue(map["name" := StringValue("service.version"), "value" := StringValue("0.1.0"), "type" := StringValue("string")])
      ])
    ])
  ]

  /** Calling the option on the configuration. */
  function Apply(o: ConfigOption, c: Config): Result<Config>
  {
    match o
    case WithDefaultConfig =>
      Ok(Config(Some(MetricsConfig([])), DefaultOpenTelemetry, ExecutorSettings.Default))
    case WithMetricsConfig(m) => Ok(c.(metrics := m))
    case WithOpenTelemetryConfig(otel) => Ok(c.(openTelemetry := otel))
    case WithExecutorConfig(e) => Ok(c.(executor := e))
    case WithLoader(load) => load(c)
  }

  /** The options applied in order, stopping at the first that fails. */
  function Build(c: Config, options: seq<ConfigOption>): Result<Config>
    decreases |options|
  {
    if options == [] then Ok(c)
    else
      var next :- Apply(options[0], c);
      Build(next, options[1..])
  }

  /** `NewConfig(options...)`: the error of the first failing option, or the configuration. */
  method NewConfig(options: seq<ConfigOption>) returns (r: Result<Config>)
    ensures r == Build(Zero, options)
  {
    var c := Zero;
    for i := 0 to |options|
      invariant Build(c, options[i..]) == Build(Zero, options)
    {
      assert options[i..][1..] == options[i + 1..];
      var applied := Apply(options[i], c);
      if applied.Err? {
        return Err(applied.error);
      }
      c := applied.value;
    }
    return Ok(c);
  }

  lemma {:induction false} BuildPrefix(c: Config, options: seq<ConfigOption>, k: nat)
    requires k <= |options|
    ensures Build(c, options) ==
      match Build(c, options[..k])
      case Err(e) => Err(e)
      case Ok(mid) => Build(mid, options[k..])
    decreases k
  {
    if k > 0 {
      assert options[1..][..k - 1] == options[1..k];
      assert options[1..][k - 1..] == options[k..];
      match Apply(options[0], c)
      case Err(_) =>
      case Ok(next) => BuildPrefix(next, options[1..], k - 1);
    }
  }

  /**
   * When option k is the first to fail, NewConfig returns its error: the
   * options after it never run.
   */
  lemma NewConfigStopsAtFailure(options: seq<ConfigOption>, k: nat)
    requires k < |options|
    requires Build(Zero, options[..k]).Ok?
    requires Apply(options[k], Build(Zero, options[..k]).value).Err?
    ensures Build(Zero, options) == Err(Apply(options[k], Build(Zero, options[..k]).value).error)
  {
    BuildPrefix(Zero, options, k);
  }

  /** The setters never fail; only the loaders can. */
  lemma {:induction false} SettersNeverFail(c: Config, options: seq<ConfigOption>)
    requires forall i :: 0 <= i < |options| ==> !options[i].WithLoader?
    ensures Build(c, options).Ok?
    decreases |options|
  {
    if options != [] {
      SettersNeverFail(Apply(options[0], c).value, options[1..]);
    }
  }

  /** Without options NewConfig yields the zero configuration, with no metrics section. */
  lemma NoOptionsIsZero()
    ensures Build(Zero, []) == Ok(Zero)
    ensures Zero.metrics == None && Zero.openTelemetry == map[]
  {
  }

  /** The default configuration: no tasks, the built-in SDK settings, the default executor. */
  lemma DefaultConfigContents(c: Config)
    ensures Apply(WithDefaultConfig, c) == Ok(Config(Some(MetricsConfig([])), DefaultOpenTelemetry, ExecutorSettings.Default))
    ensures |DefaultOpenTelemetry| == 5 && ExecutorSettings.Validate(ExecutorSettings.Default) == None
  {
    assert DefaultOpenTelemetry.Keys == {"file_format", "disabled", "log_level", "meter_provider", "resource"};
  }

  /** The prefix of a schema error. */
  const SchemaErrorPrefix := "failed to parse otelconf schema"

  /** The first invalid task at or after `from`, reported with its zero-based index. */
  function FirstInvalidTask(tasks: seq<MetricTaskConfig.MetricTask>, from: nat): Option<Error>
    decreases |tasks| - from
  {
    if from >= |tasks| then None
    else match MetricTaskConfig.Validate(tasks[from])
      case Some(e) => Some(MetricInvalid(from, e))
      case None => FirstInvalidTask(tasks, from + 1)
  }

  /**
   * `Config.Validate` as a function: tasks present, executor, each task,
   * OpenTelemetry section present, then its schema. The source dereferences
   * `Metrics` unconditionally, so a configuration without one is outside
   * its domain.
   */
  function Validation(c: Config, schema: map<string, Any> -> Option<Error>): Option<Error>
    requires c.metrics.Some?
  {
    var tasks := c.metrics.value.tasks;
    if |tasks| == 0 then Some(NoMetrics)
    else if ExecutorSettings.Validate(c.executor).Some? then ExecutorSettings.Validate(c.executor)
    else if FirstInvalidTask(tasks, 0).Some? then FirstInvalidTask(tasks, 0)
    else if |c.openTelemetry| == 0 then Some(NoOpenTelemetry)
    else match schema(c.openTelemetry)
      case Some(e) => Some(Wrapped(SchemaErrorPrefix, e))
      case None => None
  }

  /** `Config.Validate`, with its loop over the tasks. */
  method Validate(c: Config, schema: map<string, Any> -> Option<Error>) returns (err: Option<Error>)
    requires c.metrics.Some?
    ensures err == Validation(c, schema)
  {
    var tasks := c.metrics.value.tasks;
    if |tasks| == 0 {
      return Some(NoMetrics);
    }
    var executorErr := ExecutorSettings.Validate(c.executor);
    if executorErr.Some? {
      return executorErr;
    }
    for i := 0 to |tasks|
      invariant FirstInvalidTask(tasks, 0) == FirstInvalidTask(tasks, i)
    {
      var taskErr := MetricTaskConfig.Validate(tasks[i]);
      if taskErr.Some? {
        return Some(MetricInvalid(i, taskErr.value));
      }
    }
    if |c.openTelemetry| == 0 {
      return Some(NoOpenTelemetry);
    }
    var schemaErr := schema(c.openTelemetry);
    if schemaErr.Some? {
      return Some(Wrapped(SchemaErrorPrefix, schemaErr.value));
    }
    return None;
  }

  lemma {:induction false} FirstInvalidTaskAt(tasks: seq<MetricTaskConfig.MetricTask>, from: nat, k: nat)
    requires from <= k < |tasks|
    requires forall j :: from <= j < k ==> MetricTaskConfig.Validate(tasks[j]) == None
    requires MetricTaskConfig.Validate(tasks[k]).Some?
    ensures FirstInvalidTask(tasks, from) == Some(MetricInvalid(k, MetricTaskConfig.Validate(tasks[k]).value))
    decreases k - from
  {
    if from < k {
      FirstInvalidTaskAt(tasks, from + 1, k);
    }
  }

  lemma {:induction false} FirstInvalidTaskNone(tasks: seq<MetricTaskConfig.MetricTask>, from: nat)
    ensures FirstInvalidTask(tasks, from) == None <==>
      forall j :: from <= j < |tasks| ==> MetricTaskConfig.Validate(tasks[j]) == None
    decreases |tasks| - from
  {
    if from < |tasks| {
      FirstInvalidTaskNone(tasks, from + 1);
    }
  }

  /** An empty task list is reported first, whatever else is wrong. */
  lemma ValidationNoMetricsFirst(c: Config, schema: map<string, Any> -> Option<Error>)
    requires c.metrics.Some? && c.metrics.value.tasks == []
    ensures Validation(c, schema) == Some(NoMetrics)
  {
  }

  /** The executor is checked before any task. */
  lemma ValidationExecutorBeforeTasks(c: Config, schema: map<string, Any> -> Option<Error>)
    requires c.metrics.Some? && c.metrics.value.tasks != []
    requires ExecutorSettings.Validate(c.executor).Some?
    ensures Validation(c, schema) == Some(InvalidExecutorStrategy(c.executor.strategy))
  {
  }

  /** The first invalid task is reported with its zero-based index, before the OpenTelemetry section. */
  lemma ValidationFirstInvalidTask(c: Config, schema: map<string, Any> -> Option<Error>, k: nat)
    requires c.metrics.Some? && k < |c.metrics.value.tasks|
    requires ExecutorSettings.Validate(c.executor) == None
    requires forall j :: 0 <= j < k ==> MetricTaskConfig.Validate(c.metrics.value.tasks[j]) == None
    requires MetricTaskConfig.Validate(c.metrics.value.tasks[k]).Some?
    ensures Validation(c, schema) == Some(MetricInvalid(k, MetricTaskConfig.Validate(c.metrics.value.tasks[k]).value))
  {
    FirstInvalidTaskAt(c.metrics.value.tasks, 0, k);
  }

  /** A configuration is valid exactly when every part of it is. */
  lemma ValidationAccepts(c: Config, schema: map<string, Any> -> Option<Error>)
    requires c.metrics.Some?
    ensures Validation(c, schema) == None <==>
      && |c.metrics.value.tasks| > 0
      && ExecutorSettings.Validate(c.executor) == None
      && (forall j :: 0 <= j < |c.metrics.value.tasks| ==> MetricTaskConfig.Validate(c.metrics.value.tasks[j]) == None)
      && |c.openTelemetry| > 0
      && schema(c.openTelemetry) == None
  {
    FirstInvalidTaskNone(c.metrics.value.tasks, 0);
  }

  /** The default configuration has no tasks, so it does not validate on its own. */
  lemma DefaultConfigNeedsTasks(c: Config, schema: map<string, Any> -> Option<Error>)
    ensures Apply(WithDefaultConfig, c).Ok?
    ensures Validation(Apply(WithDefaultConfig, c).value, schema) == Some(NoMetrics)
  {
  }
}
