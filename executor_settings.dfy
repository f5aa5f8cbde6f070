/** The executor configuration (internal/config/executor.go). */
module ExecutorSettings {
  import opened Wrappers
  import opened Errors
  import Consts
  import opened Dynamic

  /** `ExecutorConfig`; a nil `Params` reads like an empty map and is modelled as one. */
  datatype ExecutorConfig = ExecutorConfig(strategy: string, params: map<string, Any>)

  /** The options; `None` stands for a nil map argument. */
  datatype ExecutorOption =
    | WithExecutorStrategy(strategy: string)
    | WithExecutorParams(params: Option<map<string, Any>>)

  const Default := ExecutorConfig(Consts.DefaultExecutorStrategy, map[])

  /** The strategy is overwritten only by a non-empty name, the parameters only by a non-nil map. */
  function Apply(o: ExecutorOption, ec: ExecutorConfig): ExecutorConfig
  {
    match o
    case WithExecutorStrategy(s) => if s != "" then ec.(strategy := s) else ec
    case WithExecutorParams(p) => if p.Some? then ec.(params := p.value) else ec
  }

  function ApplyAll(ec: ExecutorConfig, options: seq<ExecutorOption>): ExecutorConfig
    decreases |options|
  {
    if options == [] then ec else ApplyAll(Apply(options[0], ec), options[1..])
  }

  /** `NewExecutorConfig(options...)`. */
  method NewExecutorConfig(options: seq<ExecutorOption>) returns (ec: ExecutorConfig)
    ensures ec == ApplyAll(Default, options)
  {
    ec := Default;
    for i := 0 to |options|
      invariant ApplyAll(ec, options[i..]) == ApplyAll(Default, options)
    {
      assert options[i..][1..] == options[i + 1..];
      ec := Apply(options[i], ec);
    }
  }

  /** `ValidateExecutorStrategy`. */
  function ValidateExecutorStrategy(strategy: string): Option<Error>
  {
    if strategy == Consts.ExecutorStrategySerial || strategy == Consts.ExecutorStrategyConcurrent then None
    else Some(InvalidExecutorStrategy(strategy))
  }

  /** `ExecutorConfig.Validate`: only the strategy is checked. */
  function Validate(ec: ExecutorConfig): Option<Error>
  {
    ValidateExecutorStrategy(ec.strategy)
  }

  /** Exactly the two strategies pass, whatever the parameters. */
  lemma ValidateAccepts(ec: ExecutorConfig)
    ensures Validate(ec) == None <==> ec.strategy in {"serial", "concurrent"}
    ensures Validate(ec).Some? ==> Validate(ec) == Some(InvalidExecutorStrategy(ec.strategy))
  {
  }

  /** Empty arguments override nothing. */
  lemma {:induction false} EmptyOptionsKeep(ec: ExecutorConfig, options: seq<ExecutorOption>)
    requires forall i :: 0 <= i < |options| ==> options[i] in {WithExecutorStrategy(""), WithExecutorParams(None)}
    ensures ApplyAll(ec, options) == ec
    decreases |options|
  {
    if options != [] {
      EmptyOptionsKeep(ec, options[1..]);
    }
  }

  /** Each option is idempotent and leaves the other field alone. */
  lemma ApplyIdempotent(o: ExecutorOption, ec: ExecutorConfig)
    ensures Apply(o, Apply(o, ec)) == Apply(o, ec)
    ensures o.WithExecutorStrategy? ==> Apply(o, ec).params == ec.params
    ensures o.WithExecutorParams? ==> Apply(o, ec).strategy == ec.strategy
  {
  }

  /** The default strategy is serial with no parameters, and it validates. */
  lemma DefaultValidates()
    ensures Default == ExecutorConfig("serial", map[])
    ensures Validate(Default) == None
  {
  }
}
