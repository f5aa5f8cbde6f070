/**
 * The runner interfaces (internal/runner/task.go, internal/runner/executor.go).
 * A task's `Execute` is observed only through what it does when run: it
 * returns an error or nil, or it panics.
 */
module Runner {
  import opened Wrappers
  import opened Errors

  /** How a call ended: a return with an error or nil, or a panic with its value. */
  datatype Outcome = Returned(err: Option<Error>) | Panicked(reason: string)

  /** A `runner.Task`: its `Name()` and the outcome of its `Execute`. */
  datatype Task = Task(name: string, outcome: Outcome)

  /** The panic value `time.NewTicker` raises for a non-positive interval. */
  const NonPositiveInterval := "non-positive interval for NewTicker"
}
