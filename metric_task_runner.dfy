/**
 * The runnable metric task (internal/runner/metrictask/metric_task.go).
 *
 * `Execute` ranges over the task's value generator; the loop body waits on a
 * `select` between `ctx.Done()` and the next tick. The generator, the
 * ticker and the context are oracles: `full` is what the generator would
 * yield undisturbed, `genCancelled(i)` whether the generator sees its own
 * context done before value i, and `events(i)` which `select` case fires
 * for value i.
 */
module MetricTaskRunner {
  import opened Wrappers
  import opened Errors
  import opened Runner
  import Consts
  import MetricTaskConfig
  import Iteration

  /** The case of the `select` that fires for one pulled value. */
  datatype Event = Tick | Done

  /** The two instantiations of `newInstrument`. */
  datatype ValueKind = Int64Values | Float64Values

  /** `metricTask[T]`; the generator and the recorder are passed to Execute. */
  datatype MetricTask = MetricTask(taskName: string, genInterval: int, valueKind: ValueKind)

  /** `Name()`. */
  function Name(t: MetricTask): string
  {
    t.taskName
  }

  /**
   * `New`: validation first, then the dispatch on the value type.
   * `instrumentErr` is what `newInstrument` (generator and SDK instrument
   * construction, outside the model) reports.
   */
  function New(mt: MetricTaskConfig.MetricTask, instrumentErr: Option<Error>): Result<MetricTask>
  {
    match MetricTaskConfig.Validate(mt)
    case Some(e) => Err(e)
    case None =>
      if mt.valueType == Consts.ValueTypeInt64 || mt.valueType == Consts.ValueTypeFloat64 then
        match instrumentErr
        case Some(e) => Err(e)
        case None =>
          Ok(MetricTask(mt.name, mt.rate, if mt.valueType == Consts.ValueTypeInt64 then Int64Values else Float64Values))
      else Err(UnsupportedMetricType(mt.valueType))
  }

  /**
   * New never builds from an invalid record, its unsupported-type branch is
   * unreachable, and what it builds carries the record's name, rate and type.
   */
  lemma NewOutcome(mt: MetricTaskConfig.MetricTask, instrumentErr: Option<Error>)
    ensures MetricTaskConfig.Validate(mt).Some? ==> New(mt, instrumentErr) == Err(MetricTaskConfig.Validate(mt).value)
    ensures New(mt, instrumentErr).Ok? <==> MetricTaskConfig.Validate(mt) == None && instrumentErr == None
    ensures !New(mt, instrumentErr).Err? || !New(mt, instrumentErr).error.UnsupportedMetricType?
            || instrumentErr == Some(New(mt, instrumentErr).error)
    ensures New(mt, instrumentErr).Ok? ==>
      var t := New(mt, instrumentErr).value;
      && Name(t) == mt.name && t.genInterval == mt.rate
      && (t.valueKind == Int64Values <==> mt.valueType == "int64")
  {
    MetricTaskConfig.ValidateOutcome(mt);
  }

  /** The body lets the generator go on (its `yield` returns true) exactly after a tick. */
  function Continues(events: nat -> Event): (accept: nat -> bool)
    ensures forall i: nat :: accept(i) == events(i).Tick?
  {
    (i: nat) => events(i).Tick?
  }

  /** What the generator hands to the loop body: it stops early when the body returns. */
  function Pulled<V>(full: seq<V>, genCancelled: nat -> bool, events: nat -> Event): (p: seq<V>)
    ensures |p| <= |full|
  {
    Iteration.EmittedIsPrefix(full, genCancelled, Continues(events));
    Iteration.Emitted(full, genCancelled, Continues(events))
  }

  /** Whether the body saw `ctx.Done()` for the last value pulled. */
  predicate StoppedByContext<V>(full: seq<V>, genCancelled: nat -> bool, events: nat -> Event)
  {
    var p := Pulled(full, genCancelled, events);
    |p| > 0 && events(|p| - 1).Done?
  }

  /** The values handed to the recorder: every pulled value except one that met `ctx.Done()`. */
  function Recorded<V>(full: seq<V>, genCancelled: nat -> bool, events: nat -> Event): (r: seq<V>)
    ensures |r| <= |full|
  {
    var p := Pulled(full, genCancelled, events);
    if StoppedByContext(full, genCancelled, events) then p[..|p| - 1] else p
  }

  /** What Execute returns when the ticker could be created. */
  function Result<V>(full: seq<V>, genCancelled: nat -> bool, events: nat -> Event, ctxErr: Error): Option<Error>
  {
    if StoppedByContext(full, genCancelled, events) then Some(ctxErr) else None
  }

  /**
   * `Execute`: the generator's loop and the task's loop body, merged into one
   * loop over the value index. Returns the recorded values and the outcome.
   */
  method Execute<V>(t: MetricTask, full: seq<V>, genCancelled: nat -> bool, events: nat -> Event, ctxErr: Error)
    returns (recorded: seq<V>, outcome: Outcome)
    requires ctxErr == Canceled || ctxErr == DeadlineExceeded
    ensures t.genInterval <= 0 ==> recorded == [] && outcome == Panicked(NonPositiveInterval)
    ensures t.genInterval > 0 ==>
      && recorded == Recorded(full, genCancelled, events)
      && outcome == Returned(Result(full, genCancelled, events, ctxErr))
  {
    recorded := [];
    if t.genInterval <= 0 {
      return recorded, Panicked(NonPositiveInterval);
    }
    ghost var accept := Continues(events);
    var i := 0;
    while i < |full|
      invariant 0 <= i <= |full| && |recorded| == i
      invariant forall j :: 0 <= j < i ==> events(j).Tick?
      invariant Pulled(full, genCancelled, events) == recorded + Iteration.EmittedFrom(full, i, genCancelled, accept)
    {
      Iteration.EmittedFromStep(full, i, genCancelled, accept);
      if genCancelled(i) {
        break;
      }
      var value := full[i];
      if events(i).Done? {
        ghost var p := Pulled(full, genCancelled, events);
        assert p == recorded + [value];
        assert p[..|p| - 1] == recorded;
        return recorded, Returned(Some(ctxErr));
      }
      recorded := recorded + [value];
      i := i + 1;
    }
    assert Pulled(full, genCancelled, events) == recorded;
    return recorded, Returned(None);
  }

  /**
   * The recorded values are a prefix of the generator's values, in order,
   * one per tick; the pulled values are at most one longer.
   */
  lemma RecordedIsPrefix<V>(full: seq<V>, genCancelled: nat -> bool, events: nat -> Event)
    ensures var r := Recorded(full, genCancelled, events);
      && r == full[..|r|]
      && (forall j :: 0 <= j < |r| ==> events(j).Tick? && !genCancelled(j))
      && |Pulled(full, genCancelled, events)| == |r| + (if StoppedByContext(full, genCancelled, events) then 1 else 0)
  {
    Iteration.EmittedIsPrefix(full, genCancelled, Continues(events));
  }

  /**
   * Execute returns nil exactly when no pulled value met `ctx.Done()`: the
   * generator ran out, or stopped on its own context, first.
   */
  lemma ResultNilIff<V>(full: seq<V>, genCancelled: nat -> bool, events: nat -> Event, ctxErr: Error)
    ensures Result(full, genCancelled, events, ctxErr) == None <==>
      forall j :: 0 <= j < |Pulled(full, genCancelled, events)| ==> events(j).Tick?
    ensures Result(full, genCancelled, events, ctxErr) != None ==> Result(full, genCancelled, events, ctxErr) == Some(ctxErr)
  {
    Iteration.EmittedIsPrefix(full, genCancelled, Continues(events));
  }

  /** Undisturbed, every generated value is recorded and the task completes. */
  lemma UndisturbedRecordsAll<V>(full: seq<V>, genCancelled: nat -> bool, events: nat -> Event, ctxErr: Error)
    requires forall j :: 0 <= j < |full| ==> !genCancelled(j) && events(j).Tick?
    ensures Recorded(full, genCancelled, events) == full
    ensures Result(full, genCancelled, events, ctxErr) == None
  {
    var accept := Continues(events);
    Iteration.EmittedUndisturbed(full, genCancelled, accept);
  }

  /**
   * When `ctx.Done()` wins the `select` for value k, the first k values are
   * recorded, value k has been pulled but is dropped, and `ctx.Err()` is
   * returned.
   */
  lemma DoneStopsRecording<V>(full: seq<V>, genCancelled: nat -> bool, events: nat -> Event, ctxErr: Error, k: nat)
    requires k < |full|
    requires forall j :: 0 <= j <= k ==> !genCancelled(j)
    requires forall j :: 0 <= j < k ==> events(j).Tick?
    requires events(k).Done?
    ensures Pulled(full, genCancelled, events) == full[..k + 1]
    ensures Recorded(full, genCancelled, events) == full[..k]
    ensures Result(full, genCancelled, events, ctxErr) == Some(ctxErr)
  {
    var accept := Continues(events);
    Iteration.EmittedIsPrefix(full, genCancelled, accept);
    Iteration.EmittedRefused(full, genCancelled, accept, k);
    var p := Pulled(full, genCancelled, events);
    assert |p| == k + 1;
  }

  /** A validated record with a negative rate builds a task whose Execute panics. */
  lemma NegativeRatePanics(mt: MetricTaskConfig.MetricTask)
    requires mt.rate < 0
    requires MetricTaskConfig.Validate(mt) == None
    ensures New(mt, None).Ok? && New(mt, None).value.genInterval < 0
  {
    MetricTaskConfig.ValidateOutcome(mt);
  }
}
