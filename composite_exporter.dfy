/**
 * The composite exporter (internal/exporter/composite.go): every call is
 * fanned out to all exporters in order, and their failures are joined.
 */
module CompositeExporter {
  import opened Wrappers
  import opened Errors
  import opened Sdk

  /**
   * One `sdkmetric.Exporter`, observed through what each of its methods
   * returns (the context and the metrics being exported are left out).
   */
  datatype Exporter = Exporter(
    exportErr: Option<Error>,
    flushErr: Option<Error>,
    shutdownErr: Option<Error>,
    aggregation: InstrumentKind -> Aggregation,
    temporality: InstrumentKind -> Temporality)

  const ExportFailedPrefix := "composite exporter failed"
  const FlushFailedPrefix := "composite flush failed"
  const ShutdownFailedPrefix := "composite shutdown failed"

  /** The failures among `results`, each wrapped with `prefix`, in order. */
  function WrappedFailures(prefix: string, results: seq<Option<Error>>): (r: seq<Error>)
    ensures |r| <= |results|
    ensures r == [] <==> forall j :: 0 <= j < |results| ==> results[j].None?
  {
    if results == [] then []
    else
      var last := results[|results| - 1];
      WrappedFailures(prefix, results[..|results| - 1]) + (if last.Some? then [Wrapped(prefix, last.value)] else [])
  }

  /**
   * The shared loop: call every exporter's method (its result is
   * `results[i]`) and `errs = errors.Join(errs, fmt.Errorf(prefix + ": %w", err))`
   * for each failure. `called` lists the exporters called, in order.
   */
  method FanOut(prefix: string, results: seq<Option<Error>>) returns (errs: Option<Error>, called: seq<nat>)
    ensures called == seq(|results|, j => j)
    ensures errs.None? <==> forall j :: 0 <= j < |results| ==> results[j].None?
    ensures EntriesOrNone(errs) == WrappedFailures(prefix, results)
  {
    errs := None;
    called := [];
    for i := 0 to |results|
      invariant called == seq(i, j => j)
      invariant errs.None? <==> forall j :: 0 <= j < i ==> results[j].None?
      invariant EntriesOrNone(errs) == WrappedFailures(prefix, results[..i])
    {
      called := called + [i];
      assert results[..i + 1][..i] == results[..i];
      var err := results[i];
      if err.Some? {
        JoinAppends(errs, Wrapped(prefix, err.value));
        errs := Join([errs, Some(Wrapped(prefix, err.value))]);
      }
    }
    assert results[..|results|] == results;
  }

  function ExportResults(exporters: seq<Exporter>): (rs: seq<Option<Error>>)
    ensures |rs| == |exporters|
    ensures forall j :: 0 <= j < |exporters| ==> rs[j] == exporters[j].exportErr
  {
    seq(|exporters|, i requires 0 <= i < |exporters| => exporters[i].exportErr)
  }

  function FlushResults(exporters: seq<Exporter>): (rs: seq<Option<Error>>)
    ensures |rs| == |exporters|
    ensures forall j :: 0 <= j < |exporters| ==> rs[j] == exporters[j].flushErr
  {
    seq(|exporters|, i requires 0 <= i < |exporters| => exporters[i].flushErr)
  }

  function ShutdownResults(exporters: seq<Exporter>): (rs: seq<Option<Error>>)
    ensures |rs| == |exporters|
    ensures forall j :: 0 <= j < |exporters| ==> rs[j] == exporters[j].shutdownErr
  {
    seq(|exporters|, i requires 0 <= i < |exporters| => exporters[i].shutdownErr)
  }

  /** `compositeExporter.Export`. */
  method Export(exporters: seq<Exporter>) returns (errs: Option<Error>, called: seq<nat>)
    ensures called == seq(|exporters|, j => j)
    ensures errs.None? <==> forall j :: 0 <= j < |exporters| ==> exporters[j].exportErr.None?
    ensures EntriesOrNone(errs) == WrappedFailures(ExportFailedPrefix, ExportResults(exporters))
  {
    errs, called := FanOut(ExportFailedPrefix, ExportResults(exporters));
  }

  /** `compositeExporter.ForceFlush`. */
  method ForceFlush(exporters: seq<Exporter>) returns (errs: Option<Error>, called: seq<nat>)
    ensures called == seq(|exporters|, j => j)
    ensures errs.None? <==> forall j :: 0 <= j < |exporters| ==> exporters[j].flushErr.None?
    ensures EntriesOrNone(errs) == WrappedFailures(FlushFailedPrefix, FlushResults(exporters))
  {
    errs, called := FanOut(FlushFailedPrefix, FlushResults(exporters));
  }

  /** `compositeExporter.Shutdown`. */
  method Shutdown(exporters: seq<Exporter>) returns (errs: Option<Error>, called: seq<nat>)
    ensures called == seq(|exporters|, j => j)
    ensures errs.None? <==> forall j :: 0 <= j < |exporters| ==> exporters[j].shutdownErr.None?
    ensures EntriesOrNone(errs) == WrappedFailures(ShutdownFailedPrefix, ShutdownResults(exporters))
  {
    errs, called := FanOut(ShutdownFailedPrefix, ShutdownResults(exporters));
  }

  /** The failures among `results`, in order: the non-nil errors. */
  function Failures(results: seq<Option<Error>>): (fs: seq<Error>)
    ensures |fs| <= |results|
  {
    if results == [] then []
    else
      var last := results[|results| - 1];
      Failures(results[..|results| - 1]) + (if last.Some? then [last.value] else [])
  }

  /**
   * One wrapped entry per failing exporter: as many entries as failures,
   * entry j wrapping the j-th failure.
   */
  lemma {:induction false} WrappedFailuresCount(prefix: string, results: seq<Option<Error>>)
    ensures |WrappedFailures(prefix, results)| == |Failures(results)|
    ensures forall j :: 0 <= j < |Failures(results)| ==>
      WrappedFailures(prefix, results)[j] == Wrapped(prefix, Failures(results)[j])
    decreases |results|
  {
    if results != [] {
      var init := results[..|results| - 1];
      WrappedFailuresCount(prefix, init);
    }
  }

  /** When every exporter fails, there is one failure per exporter, in exporter order. */
  lemma {:induction false} FailuresAllFail(results: seq<Option<Error>>)
    requires forall j :: 0 <= j < |results| ==> results[j].Some?
    ensures |Failures(results)| == |results|
    ensures forall j :: 0 <= j < |results| ==> Failures(results)[j] == results[j].value
    decreases |results|
  {
    if results != [] {
      FailuresAllFail(results[..|results| - 1]);
    }
  }

  /** `compositeExporter.Aggregation`: the first exporter's answer, or the default aggregation. */
  function AggregationFor(exporters: seq<Exporter>, kind: InstrumentKind): (a: Aggregation)
    ensures exporters == [] ==> a == AggregationDefault
    ensures exporters != [] ==> a == exporters[0].aggregation(kind)
  {
    if |exporters| == 0 then AggregationDefault else exporters[0].aggregation(kind)
  }

  /** `compositeExporter.Temporality`: the first exporter's answer, or Delta. */
  function TemporalityFor(exporters: seq<Exporter>, kind: InstrumentKind): (t: Temporality)
    ensures exporters == [] ==> t == Delta
    ensures exporters != [] ==> t == exporters[0].temporality(kind)
  {
    if |exporters| == 0 then Delta else exporters[0].temporality(kind)
  }

  /** Only the first exporter is consulted: later ones never change the answer. */
  lemma DelegatesToFirst(first: Exporter, rest: seq<Exporter>, others: seq<Exporter>, kind: InstrumentKind)
    ensures AggregationFor([first] + rest, kind) == AggregationFor([first] + others, kind)
    ensures TemporalityFor([first] + rest, kind) == TemporalityFor([first] + others, kind)
  {
  }
}
