/**
 * The errors the modelled code returns. Each constructor stands for one
 * `fmt.Errorf` site (its formatted arguments are the constructor's fields);
 * `Wrapped` is `fmt.Errorf("<prefix>: %w", cause)` and `Joined` is the value
 * `errors.Join` builds. `Canceled` and `DeadlineExceeded` are the two
 * sentinel values `ctx.Err()` can return.
 */
module Errors {
  import opened Wrappers

  datatype Error =
    // package context
    | Canceled
    | DeadlineExceeded
    // composition
    | Wrapped(prefix: string, cause: Error)
    | Joined(errs: seq<Error>)
    // package generator
    | UnknownPattern(pattern: string)
    | EmptyValue
    | InvalidInt64(token: string)
    | EmptyRange
    | MinNotBelowMax(min: int, max: int)
    // package config, validators
    | InvalidMetricKind(kind: string)
    | InvalidInstrumentKind(instrumentKind: string)
    | InvalidGenerator(name: string)
    | InvalidMode(mode: string)
    | InvalidTemporality(temporality: string)
    | InvalidValueType(valueType: string)
    | InvalidMetricLength(length: int)
    | InvalidMetricName(metricName: string)
    | InvalidExecutorStrategy(strategy: string)
    // package config, records
    | EmptyRate
    | EmptyServiceName
    | EmptyInstrumentMatch
    | MaxScaleOutOfRange
    | MaxSizeNotPositive
    | EmptyBuckets
    | UnsupportedAggregation(aggregationKind: string)
    | NoMetrics
    | MetricInvalid(index: int, cause: Error)
    | NoOpenTelemetry
    // cmd/szgen
    | HistogramModeConflict
    // package otel
    | UnknownInstrumentKind(unknownKind: string)
    // packages runner/metrictask and runner/executors
    | UnsupportedMetricType(metricType: string)
    | SerialTaskAborted(position: int, cause: Error)
    | TaskPanicked(reason: string)
    | UnknownExecutorStrategy(unknownStrategy: string)
    // an error produced by a collaborator outside the model
    | External(description: string)

  /** A Go `(T, error)` pair where exactly one side is meaningful. */
  datatype Result<+T> = Ok(value: T) | Err(error: Error) {

    predicate IsFailure() {
      Err?
    }

    function PropagateFailure<U>(): Result<U>
      requires Err?
    {
      Err(error)
    }

    function Extract(): T
      requires Ok?
    {
      value
    }
  }

  /** The values of a list of results, or the first error among them. */
  function Collect<T>(rs: seq<Result<T>>): (r: Result<seq<T>>)
    ensures r.Ok? ==> |r.value| == |rs|
  {
    if rs == [] then Ok([])
    else if rs[0].Err? then Err(rs[0].error)
    else match Collect(rs[1..])
      case Ok(tail) => Ok([rs[0].value] + tail)
      case Err(e) => Err(e)
  }

  lemma {:induction false} CollectAllOk<T>(rs: seq<Result<T>>)
    requires forall j :: 0 <= j < |rs| ==> rs[j].Ok?
    ensures Collect(rs).Ok?
    ensures forall j :: 0 <= j < |rs| ==> Collect(rs).value[j] == rs[j].value
  {
    if rs != [] {
      CollectAllOk(rs[1..]);
      forall j | 0 <= j < |rs| ensures Collect(rs).value[j] == rs[j].value {
        if j > 0 {
          assert rs[1..][j - 1] == rs[j];
        }
      }
    }
  }

  lemma {:induction false} CollectFirstError<T>(rs: seq<Result<T>>, k: nat)
    requires k < |rs|
    requires forall j :: 0 <= j < k ==> rs[j].Ok?
    requires rs[k].Err?
    ensures Collect(rs) == Err(rs[k].error)
  {
    if k > 0 {
      assert rs[1..][k - 1] == rs[k];
      CollectFirstError(rs[1..], k - 1);
    }
  }

  /** Every error Collect reports is the error of one of its inputs. */
  lemma {:induction false} CollectErrorIsInput<T>(rs: seq<Result<T>>)
    ensures Collect(rs).Err? ==> exists k :: 0 <= k < |rs| && rs[k] == Err(Collect(rs).error)
  {
    if rs != [] && rs[0].Ok? {
      CollectErrorIsInput(rs[1..]);
      if Collect(rs).Err? {
        var k :| 0 <= k < |rs[1..]| && rs[1..][k] == Err(Collect(rs[1..]).error);
        assert rs[k + 1] == rs[1..][k];
      }
    }
  }

  /**
   * A chain of `if err := check(); err != nil { return err }`: the first
   * non-nil error, or nil.
   */
  function FirstError(errs: seq<Option<Error>>): (r: Option<Error>)
    ensures r.None? <==> forall j :: 0 <= j < |errs| ==> errs[j].None?
    ensures r.Some? ==> r in errs
  {
    if errs == [] then None
    else if errs[0].Some? then errs[0]
    else FirstError(errs[1..])
  }

  /** The first check that fails decides the result, whatever comes after it. */
  lemma {:induction false} FirstErrorAt(errs: seq<Option<Error>>, k: nat)
    requires k < |errs| && errs[k].Some?
    requires forall j :: 0 <= j < k ==> errs[j].None?
    ensures FirstError(errs) == errs[k]
  {
    if k > 0 {
      assert errs[1..][k - 1] == errs[k];
      FirstErrorAt(errs[1..], k - 1);
    }
  }

  /** The non-nil errors of `errs`, in order. */
  function NonNil(errs: seq<Option<Error>>): (r: seq<Error>)
    ensures |r| <= |errs|
  {
    if errs == [] then []
    else (if errs[0].Some? then [errs[0].value] else []) + NonNil(errs[1..])
  }

  /**
   * `errors.Join(errs...)`: nil when every argument is nil, otherwise a join
   * error that holds the non-nil arguments in order.
   */
  function Join(errs: seq<Option<Error>>): (r: Option<Error>)
  {
    var present := NonNil(errs);
    if present == [] then None else Some(Joined(present))
  }

  /**
   * The individual errors inside a (possibly nested) join error, in order:
   * what `Error()` prints one per line and what `errors.Is` visits first.
   */
  function Entries(e: Error): seq<Error>
  {
    match e
    case Joined(es) => EntriesOf(es)
    case _ => [e]
  }

  function EntriesOf(es: seq<Error>): seq<Error>
    decreases es
  {
    if es == [] then [] else Entries(es[0]) + EntriesOf(es[1..])
  }

  /** The entries of a nil error: none. */
  function EntriesOrNone(e: Option<Error>): seq<Error>
  {
    if e.Some? then Entries(e.value) else []
  }

  /**
   * The composite exporter's accumulation step `errs = errors.Join(errs, e)`
   * appends the entries of `e` to those already accumulated.
   */
  lemma {:induction false} JoinAppends(acc: Option<Error>, e: Error)
    ensures Join([acc, Some(e)]).Some?
    ensures EntriesOrNone(Join([acc, Some(e)])) == EntriesOrNone(acc) + Entries(e)
  {
    assert [acc, Some(e)][1..] == [Some(e)];
    assert [Some(e)][1..] == [];
    if acc.Some? {
      assert NonNil([acc, Some(e)]) == [acc.value, e];
      assert [acc.value, e][1..] == [e];
      assert EntriesOf([acc.value, e]) == Entries(acc.value) + EntriesOf([e]);
      assert EntriesOf([e]) == Entries(e) + EntriesOf([]);
    } else {
      assert NonNil([acc, Some(e)]) == [e];
      assert EntriesOf([e]) == Entries(e) + EntriesOf([]);
    }
  }
}
