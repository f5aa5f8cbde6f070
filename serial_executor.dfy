/**
 * The serial executor (internal/runner/executors/serial.go): tasks run one
 * after another, and the first failure ends the run. A panic in a task is
 * not recovered and propagates out of Execute.
 */
module SerialExecutor {
  import opened Wrappers
  import opened Errors
  import opened Runner

  /** Whether a task ran to completion and returned nil. */
  predicate Succeeds(t: Task)
  {
    t.outcome == Returned(None)
  }

  /** The index of the first task that does not succeed, or `|tasks|`. */
  function FirstUnsuccessful(tasks: seq<Task>): (k: nat)
    ensures k <= |tasks|
    ensures forall j :: 0 <= j < k ==> Succeeds(tasks[j])
    ensures k < |tasks| ==> !Succeeds(tasks[k])
  {
    if tasks == [] then 0
    else if !Succeeds(tasks[0]) then 0
    else 1 + FirstUnsuccessful(tasks[1..])
  }

  /** The outcome of the run: that of the first unsuccessful task, its error tagged with its 1-based position. */
  function RunOutcome(tasks: seq<Task>): Outcome
  {
    var k := FirstUnsuccessful(tasks);
    if k == |tasks| then Returned(None)
    else match tasks[k].outcome
      case Panicked(r) => Panicked(r)
      case Returned(e) => Returned(Some(SerialTaskAborted(k + 1, e.value)))
  }

  /**
   * `serialExecutor.Execute`. `executed` lists the indices of the tasks
   * whose Execute was called, in call order.
   */
  method Execute(tasks: seq<Task>) returns (outcome: Outcome, executed: seq<nat>)
    ensures outcome == RunOutcome(tasks)
    ensures var k := FirstUnsuccessful(tasks);
      executed == seq(if k < |tasks| then k + 1 else k, j => j)
  {
    executed := [];
    for i := 0 to |tasks|
      invariant executed == seq(i, j => j)
      invariant forall j :: 0 <= j < i ==> Succeeds(tasks[j])
    {
      executed := executed + [i];
      match tasks[i].outcome
      case Panicked(r) =>
        FirstUnsuccessfulAt(tasks, i);
        return Panicked(r), executed;
      case Returned(err) =>
        if err.Some? {
          FirstUnsuccessfulAt(tasks, i);
          return Returned(Some(SerialTaskAborted(i + 1, err.value))), executed;
        }
    }
    FirstUnsuccessfulAt(tasks, |tasks|);
    return Returned(None), executed;
  }

  /** The first unsuccessful task is the one after a run of successes. */
  lemma {:induction false} FirstUnsuccessfulAt(tasks: seq<Task>, k: nat)
    requires k <= |tasks|
    requires forall j :: 0 <= j < k ==> Succeeds(tasks[j])
    requires k < |tasks| ==> !Succeeds(tasks[k])
    ensures FirstUnsuccessful(tasks) == k
  {
    if k > 0 {
      assert forall j :: 0 <= j < k - 1 ==> tasks[1..][j] == tasks[j + 1];
      FirstUnsuccessfulAt(tasks[1..], k - 1);
    }
  }

  /** The run returns nil exactly when every task does, the empty list included. */
  lemma RunOutcomeNilIff(tasks: seq<Task>)
    ensures RunOutcome(tasks) == Returned(None) <==> forall j :: 0 <= j < |tasks| ==> Succeeds(tasks[j])
  {
  }

  /**
   * The first failing task's error is reported with its 1-based position,
   * `context.Canceled` included; the tasks after it never run.
   */
  lemma RunOutcomeFirstFailure(tasks: seq<Task>, k: nat, e: Error)
    requires k < |tasks|
    requires forall j :: 0 <= j < k ==> Succeeds(tasks[j])
    requires tasks[k].outcome == Returned(Some(e))
    ensures RunOutcome(tasks) == Returned(Some(SerialTaskAborted(k + 1, e)))
    ensures FirstUnsuccessful(tasks) == k
  {
    FirstUnsuccessfulAt(tasks, k);
  }

  /** A panicking task ends the run with its panic. */
  lemma RunOutcomePanic(tasks: seq<Task>, k: nat, reason: string)
    requires k < |tasks|
    requires forall j :: 0 <= j < k ==> Succeeds(tasks[j])
    requires tasks[k].outcome == Panicked(reason)
    ensures RunOutcome(tasks) == Panicked(reason)
  {
    FirstUnsuccessfulAt(tasks, k);
  }
}
