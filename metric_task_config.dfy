/**
 * The metric task record, its functional options and its validation
 * (internal/config/metric_task.go). An option is a `func(*MetricTask)` that
 * overwrites one field when its argument is non-empty or non-zero; here each
 * option is a value and Apply is what calling it does to the record.
 */
module MetricTaskConfig {
  import opened Wrappers
  import opened Errors
  import Consts
  import Validator

  /** `config.MetricTask`; `Attributes` is `None` for a nil map. */
  datatype MetricTask = MetricTask(
    name: string,
    kind: string,
    valueType: string,
    rate: int,
    count: int,
    value: string,
    attributes: Option<map<string, string>>,
    generator: string,
    description: string,
    unit: string)

  /** The `With*` options, with the argument each was built from. */
  datatype MetricTaskOption =
    | WithName(name: string)
    | WithKind(kind: string)
    | WithType(valueType: string)
    | WithRate(rate: int)
    | WithCount(count: int)
    | WithValue(value: string)
    | WithMetricAttributes(attrs: Option<map<string, string>>)
    | WithGenerator(generator: string)
    | WithDescription(description: string)
    | WithUnit(unit: string)

  /** The fields of the record, to say which one an option targets. */
  datatype Field = Name | Kind | Type | Rate | Count | Value | Attributes | GeneratorName | Description | Unit

  /** A field's content, whatever its Go type. */
  datatype FieldValue = Text(s: string) | Number(n: int) | Map(m: Option<map<string, string>>)

  function Get(mt: MetricTask, f: Field): FieldValue
  {
    match f
    case Name => Text(mt.name)
    case Kind => Text(mt.kind)
    case Type => Text(mt.valueType)
    case Rate => Number(mt.rate)
    case Count => Number(mt.count)
    case Value => Text(mt.value)
    case Attributes => Map(mt.attributes)
    case GeneratorName => Text(mt.generator)
    case Description => Text(mt.description)
    case Unit => Text(mt.unit)
  }

  /** The field an option writes. */
  function Target(o: MetricTaskOption): Field
  {
    match o
    case WithName(_) => Name
    case WithKind(_) => Kind
    case WithType(_) => Type
    case WithRate(_) => Rate
    case WithCount(_) => Count
    case WithValue(_) => Value
    case WithMetricAttributes(_) => Attributes
    case WithGenerator(_) => GeneratorName
    case WithDescription(_) => Description
    case WithUnit(_) => Unit
  }

  /** The value an option would write. */
  function Argument(o: MetricTaskOption): FieldValue
  {
    match o
    case WithName(x) => Text(x)
    case WithKind(x) => Text(x)
    case WithType(x) => Text(x)
    case WithRate(x) => Number(x)
    case WithCount(x) => Number(x)
    case WithValue(x) => Text(x)
    case WithMetricAttributes(x) => Map(x)
    case WithGenerator(x) => Text(x)
    case WithDescription(x) => Text(x)
    case WithUnit(x) => Text(x)
  }

  /** Whether the option writes at all: a non-empty string, a non-zero number, a non-nil map. */
  predicate Overrides(o: MetricTaskOption)
  {
    match Argument(o)
    case Text(s) => s != ""
    case Number(n) => n != 0
    case Map(m) => m.Some?
  }

  /** Calling the option on the record. */
  function Apply(o: MetricTaskOption, mt: MetricTask): (r: MetricTask)
  {
    match o
    case WithName(x) => if x != "" then mt.(name := x) else mt
    case WithKind(x) => if x != "" then mt.(kind := x) else mt
    case WithType(x) => if x != "" then mt.(valueType := x) else mt
    case WithRate(x) => if x != 0 then mt.(rate := x) else mt
    case WithCount(x) => if x != 0 then mt.(count := x) else mt
    case WithValue(x) => if x != "" then mt.(value := x) else mt
    case WithMetricAttributes(x) => if x.Some? then mt.(attributes := x) else mt
    case WithGenerator(x) => if x != "" then mt.(generator := x) else mt
    case WithDescription(x) => if x != "" then mt.(description := x) else mt
    case WithUnit(x) => if x != "" then mt.(unit := x) else mt
  }

  /** The options applied left to right. */
  function ApplyAll(mt: MetricTask, options: seq<MetricTaskOption>): MetricTask
    decreases |options|
  {
    if options == [] then mt else ApplyAll(Apply(options[0], mt), options[1..])
  }

  /** The record before any option runs. */
  const Default := MetricTask(
    Consts.DefaultMetricName, Consts.DefaultMetricKind, Consts.DefaultValueType,
    Consts.DefaultRate, Consts.DefaultCount, Consts.DefaultValue,
    None, Consts.DefaultGenerator, "", "")

  /** `NewMetricTask(options...)`: the defaults, then each option in turn. */
  method NewMetricTask(options: seq<MetricTaskOption>) returns (mt: MetricTask)
    ensures mt == ApplyAll(Default, options)
  {
    mt := Default;
    for i := 0 to |options|
      invariant ApplyAll(mt, options[i..]) == ApplyAll(Default, options)
    {
      assert options[i..][1..] == options[i + 1..];
      mt := Apply(options[i], mt);
    }
  }

  /** `MetricTask.Validate`: name, kind, generator, type, then the rate; the first failure wins. */
  function Validate(mt: MetricTask): Option<Error>
  {
    FirstError(Checks(mt))
  }

  /** The checks Validate runs, in order. */
  function Checks(mt: MetricTask): seq<Option<Error>>
  {
    [
      Validator.ValidateMetricName(mt.name),
      Validator.ValidateMetricKind(mt.kind),
      Validator.ValidateGenerator(mt.generator),
      Validator.ValidateValueType(mt.valueType),
      if mt.rate == 0 then Some(EmptyRate) else None
    ]
  }

  /** An option writes its own field, its argument when it overrides, and nothing else. */
  lemma ApplyWritesTarget(o: MetricTaskOption, mt: MetricTask)
    ensures Get(Apply(o, mt), Target(o)) == if Overrides(o) then Argument(o) else Get(mt, Target(o))
    ensures forall f :: f != Target(o) ==> Get(Apply(o, mt), f) == Get(mt, f)
    ensures !Overrides(o) ==> Apply(o, mt) == mt
  {
  }

  /** Applying the same option twice is applying it once. */
  lemma ApplyIdempotent(o: MetricTaskOption, mt: MetricTask)
    ensures Apply(o, Apply(o, mt)) == Apply(o, mt)
  {
  }

  /** The argument of the last overriding option for field `f`, if any. */
  function LastOverride(options: seq<MetricTaskOption>, f: Field): Option<FieldValue>
    decreases |options|
  {
    if options == [] then None
    else
      var o := options[|options| - 1];
      if Target(o) == f && Overrides(o) then Some(Argument(o))
      else LastOverride(options[..|options| - 1], f)
  }

  lemma {:induction false} ApplyAllSnoc(mt: MetricTask, options: seq<MetricTaskOption>, o: MetricTaskOption)
    ensures ApplyAll(mt, options + [o]) == Apply(o, ApplyAll(mt, options))
    decreases |options|
  {
    if options != [] {
      assert (options + [o])[1..] == options[1..] + [o];
      ApplyAllSnoc(Apply(options[0], mt), options[1..], o);
    }
  }

  /**
   * After a list of options every field holds the argument of the last
   * option that overrode it, or its previous value if none did.
   */
  lemma {:induction false} LastOverrideWins(mt: MetricTask, options: seq<MetricTaskOption>, f: Field)
    ensures Get(ApplyAll(mt, options), f) ==
      match LastOverride(options, f) case Some(v) => v case None => Get(mt, f)
    decreases |options|
  {
    if options != [] {
      var init := options[..|options| - 1];
      var o := options[|options| - 1];
      assert init + [o] == options;
      ApplyAllSnoc(mt, init, o);
      LastOverrideWins(mt, init, f);
      ApplyWritesTarget(o, ApplyAll(mt, init));
    }
  }

  /** Options with empty arguments leave the record as it was. */
  lemma {:induction false} EmptyOptionsKeep(mt: MetricTask, options: seq<MetricTaskOption>)
    requires forall i :: 0 <= i < |options| ==> !Overrides(options[i])
    ensures ApplyAll(mt, options) == mt
    decreases |options|
  {
    if options != [] {
      EmptyOptionsKeep(mt, options[1..]);
    }
  }

  /** Validation passes exactly when each checked field passes and the rate is not zero. */
  lemma ValidateOutcome(mt: MetricTask)
    ensures Validate(mt) == None <==>
      && Validator.ValidateMetricName(mt.name) == None
      && Validator.ValidateMetricKind(mt.kind) == None
      && Validator.ValidateGenerator(mt.generator) == None
      && Validator.ValidateValueType(mt.valueType) == None
      && mt.rate != 0
    ensures Validator.ValidateMetricName(mt.name).Some? ==> Validate(mt) == Validator.ValidateMetricName(mt.name)
    ensures Validator.ValidateMetricName(mt.name) == None && Validator.ValidateMetricKind(mt.kind).Some? ==>
      Validate(mt) == Validator.ValidateMetricKind(mt.kind)
    ensures (&& Validator.ValidateMetricName(mt.name) == None
             && Validator.ValidateMetricKind(mt.kind) == None
             && Validator.ValidateGenerator(mt.generator).Some?) ==>
      Validate(mt) == Validator.ValidateGenerator(mt.generator)
    ensures (&& Validator.ValidateMetricName(mt.name) == None
             && Validator.ValidateMetricKind(mt.kind) == None
             && Validator.ValidateGenerator(mt.generator) == None
             && Validator.ValidateValueType(mt.valueType).Some?) ==>
      Validate(mt) == Validator.ValidateValueType(mt.valueType)
    ensures (&& Validator.ValidateMetricName(mt.name) == None
             && Validator.ValidateMetricKind(mt.kind) == None
             && Validator.ValidateGenerator(mt.generator) == None
             && Validator.ValidateValueType(mt.valueType) == None
             && mt.rate == 0) ==>
      Validate(mt) == Some(EmptyRate)
  {
    var errs := Checks(mt);
    assert errs[4].None? <==> mt.rate != 0;
    if errs[0].None? && errs[1].None? && errs[2].None? && errs[3].None? && errs[4].None? {
      forall j | 0 <= j < |errs| ensures errs[j].None? {
        assert j in {0, 1, 2, 3, 4};
      }
    }
    if errs[0].None? && errs[1].Some? {
      FirstErrorAt(errs, 1);
    }
    if errs[0].None? && errs[1].None? && errs[2].Some? {
      FirstErrorAt(errs, 2);
    }
    if errs[0].None? && errs[1].None? && errs[2].None? && errs[3].Some? {
      FirstErrorAt(errs, 3);
    }
    if errs[0].None? && errs[1].None? && errs[2].None? && errs[3].None? && errs[4].Some? {
      FirstErrorAt(errs, 4);
    }
  }

  /**
   * Count, value, attributes, description and unit are never checked, and
   * any non-zero rate, negative ones included, is as good as any other.
   */
  lemma ValidateIgnores(mt: MetricTask, rate: int, count: int, value: string)
    requires rate != 0 && mt.rate != 0
    ensures Validate(mt.(rate := rate, count := count, value := value)) == Validate(mt)
    ensures Validate(mt.(rate := 0)) == Validate(mt.(rate := 0, count := count, value := value))
  {
  }

  /** The defaults: name, kind, type, rate, count, value and generator. */
  lemma DefaultFields()
    ensures Default.name == "szgen.metric" && Default.kind == "counter" && Default.valueType == "float64"
    ensures Default.rate == 1_000_000_000 && Default.count == 1 && Default.value == "1"
    ensures Default.generator == "constant" && Default.attributes == None
  {
  }

  /** The default task passes validation. */
  lemma DefaultValidates()
    ensures Validate(Default) == None
  {
    Validator.DefaultMetricNameValid();
  }
}
