/** Executor construction (internal/runner/executors/executors.go). */
module Executors {
  import opened Errors
  import Consts
  import ExecutorSettings
  import ConcurrentExecutor

  /** The two `runner.Executor` implementations. */
  datatype Executor = Serial | Concurrent(executor: ConcurrentExecutor.Concurrent)

  const InvalidConfigurationPrefix := "invalid executor configuration"

  /** `executors.New`: validate, then dispatch on the strategy. */
  function New(cfg: ExecutorSettings.ExecutorConfig): Result<Executor>
  {
    match ExecutorSettings.Validate(cfg)
    case Some(e) => Err(Wrapped(InvalidConfigurationPrefix, e))
    case None =>
      if cfg.strategy == Consts.ExecutorStrategySerial then Ok(Serial)
      else if cfg.strategy == Consts.ExecutorStrategyConcurrent then Ok(Concurrent(ConcurrentExecutor.NewConcurrent(cfg.params)))
      else Err(UnknownExecutorStrategy(cfg.strategy))
  }

  /**
   * `serial` gives the serial executor, `concurrent` one built from the
   * parameters, and any other strategy the wrapped validation error; the
   * "unknown strategy" branch is never taken.
   */
  lemma NewDispatches(cfg: ExecutorSettings.ExecutorConfig)
    ensures cfg.strategy == "serial" ==> New(cfg) == Ok(Serial)
    ensures cfg.strategy == "concurrent" ==> New(cfg) == Ok(Concurrent(ConcurrentExecutor.NewConcurrent(cfg.params)))
    ensures cfg.strategy !in {"serial", "concurrent"} ==>
      New(cfg) == Err(Wrapped(InvalidConfigurationPrefix, InvalidExecutorStrategy(cfg.strategy)))
    ensures !(New(cfg).Err? && New(cfg).error.UnknownExecutorStrategy?)
  {
    ExecutorSettings.ValidateAccepts(cfg);
  }

  /** The default executor configuration builds the serial executor. */
  lemma DefaultIsSerial()
    ensures New(ExecutorSettings.Default) == Ok(Serial)
  {
  }
}
