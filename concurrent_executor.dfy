/**
 * The concurrent executor (internal/runner/executors/concurrent.go), without
 * the goroutines: the parameter decoding, the per-task error mapping of
 * `executeWithRecovery`, and what `errgroup.Wait` returns, with the order in
 * which the tasks finish as an oracle.
 */
module ConcurrentExecutor {
  import opened Wrappers
  import opened Errors
  import opened Runner
  import opened Dynamic

  /** `concurrentExecutor`. */
  datatype Concurrent = Concurrent(maxConcurrency: int)

  /** The parameter key holding the limit. */
  const MaxConcurrencyKey := "max_concurrency"

  /** Go's `int(f)` for a float64 in range: truncation toward zero. */
  function TruncateTowardZero(f: real): (n: int)
    ensures 0.0 <= f ==> 0 <= n && (n as real) <= f < (n as real) + 1.0
    ensures f < 0.0 ==> n <= 0 && (n as real) - 1.0 < f <= (n as real)
  {
    if f >= 0.0 then f.Floor else -((-f).Floor)
  }

  /** `NewConcurrent(params)`: an `int` is used as is, a `float64` truncated, anything else is 0. */
  function NewConcurrent(params: map<string, Any>): (e: Concurrent)
  {
    if MaxConcurrencyKey in params then
      match params[MaxConcurrencyKey]
      case IntValue(i) => Concurrent(i)
      case FloatValue(f) => Concurrent(TruncateTowardZero(f))
      case _ => Concurrent(0)
    else Concurrent(0)
  }

  /** The decoding, case by case. */
  lemma NewConcurrentDecodes(params: map<string, Any>)
    ensures MaxConcurrencyKey !in params ==> NewConcurrent(params).maxConcurrency == 0
    ensures MaxConcurrencyKey in params && params[MaxConcurrencyKey].IntValue? ==>
      NewConcurrent(params).maxConcurrency == params[MaxConcurrencyKey].i
    ensures MaxConcurrencyKey in params && params[MaxConcurrencyKey].FloatValue? ==>
      var f := params[MaxConcurrencyKey].f;
      NewConcurrent(params).maxConcurrency == if f >= 0.0 then f.Floor else -((-f).Floor)
    ensures MaxConcurrencyKey in params && !params[MaxConcurrencyKey].IntValue? && !params[MaxConcurrencyKey].FloatValue? ==>
      NewConcurrent(params).maxConcurrency == 0
  {
  }

  /** The `errgroup` limit Execute sets: only a positive maximum limits anything. */
  function Limit(e: Concurrent): (r: Option<nat>)
    ensures r.Some? <==> e.maxConcurrency > 0
    ensures r.Some? ==> r.value == e.maxConcurrency
  {
    if e.maxConcurrency > 0 then Some(e.maxConcurrency) else None
  }

  /** The prefix `executeWithRecovery` wraps a task error in. */
  const TaskAbortedPrefix := "task aborted"

  /**
   * `executeWithRecovery`: a panic becomes an error, the `context.Canceled`
   * sentinel itself becomes nil, any other error is wrapped.
   */
  function ExecuteWithRecovery(t: Task): Option<Error>
  {
    match t.outcome
    case Panicked(r) => Some(TaskPanicked(r))
    case Returned(None) => None
    case Returned(Some(err)) => if err == Canceled then None else Some(Wrapped(TaskAbortedPrefix, err))
  }

  /** The mapping, case by case; only the bare sentinel is filtered, not an error wrapping it. */
  lemma ExecuteWithRecoveryMaps(t: Task)
    ensures t.outcome.Panicked? ==> ExecuteWithRecovery(t) == Some(TaskPanicked(t.outcome.reason))
    ensures t.outcome == Returned(Some(Canceled)) ==> ExecuteWithRecovery(t) == None
    ensures t.outcome == Returned(Some(Wrapped("x", Canceled))) ==> ExecuteWithRecovery(t) == Some(Wrapped(TaskAbortedPrefix, Wrapped("x", Canceled)))
    ensures ExecuteWithRecovery(t) == None <==> t.outcome == Returned(None) || t.outcome == Returned(Some(Canceled))
    ensures ExecuteWithRecovery(t).Some? && !t.outcome.Panicked? ==>
      ExecuteWithRecovery(t) == Some(Wrapped(TaskAbortedPrefix, t.outcome.err.value))
  {
  }

  /** `finish` lists every task index once: the order in which the goroutines return. */
  predicate IsFinishOrder(n: nat, finish: seq<nat>)
  {
    && |finish| == n
    && (forall k :: 0 <= k < |finish| ==> finish[k] < n)
    && (forall i :: 0 <= i < n ==> i in finish)
  }

  /**
   * `concurrentExecutor.Execute`: nil for no tasks; otherwise what
   * `errgroup.Wait` returns, the first non-nil task result in finishing order.
   */
  function Execute(tasks: seq<Task>, finish: seq<nat>): Option<Error>
    requires IsFinishOrder(|tasks|, finish)
  {
    if |tasks| == 0 then None
    else FirstError(seq(|finish|, k requires 0 <= k < |finish| => ExecuteWithRecovery(tasks[finish[k]])))
  }

  /** No tasks, no error. */
  lemma ExecuteEmpty(finish: seq<nat>)
    requires IsFinishOrder(0, finish)
    ensures Execute([], finish) == None
  {
  }

  /**
   * Execute returns nil exactly when every task returns nil or is cancelled,
   * whatever order they finish in; otherwise it returns one of the mapped task errors.
   */
  lemma ExecuteNilIff(tasks: seq<Task>, finish: seq<nat>)
    requires IsFinishOrder(|tasks|, finish)
    ensures Execute(tasks, finish) == None <==> forall i :: 0 <= i < |tasks| ==> ExecuteWithRecovery(tasks[i]) == None
    ensures Execute(tasks, finish).Some? ==> exists i :: 0 <= i < |tasks| && Execute(tasks, finish) == ExecuteWithRecovery(tasks[i])
  {
    var results := seq(|finish|, k requires 0 <= k < |finish| => ExecuteWithRecovery(tasks[finish[k]]));
    if |tasks| > 0 {
      if forall i :: 0 <= i < |tasks| ==> ExecuteWithRecovery(tasks[i]) == None {
        assert forall k :: 0 <= k < |results| ==> results[k].None?;
      }
      if forall k :: 0 <= k < |results| ==> results[k].None? {
        forall i | 0 <= i < |tasks| ensures ExecuteWithRecovery(tasks[i]) == None {
          assert i in finish;
          var k :| 0 <= k < |finish| && finish[k] == i;
          assert results[k] == ExecuteWithRecovery(tasks[i]);
        }
      }
      if Execute(tasks, finish).Some? {
        var k :| 0 <= k < |results| && results[k] == Execute(tasks, finish);
        assert finish[k] < |tasks|;
      }
    }
  }
}
