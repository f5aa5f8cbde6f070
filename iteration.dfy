/**
 * The contract every value generator's `iter.Seq` loop shares:
 *
 *   for i := range n { select { case <-ctx.Done(): return; default:
 *       if !yield(v_i) { return } } }
 *
 * `full` is the sequence v_0 .. v_(n-1) the loop would yield undisturbed;
 * `cancelled(i)` says whether `ctx.Done()` is ready when iteration `i`
 * checks it, and `accept(i)` is what the consumer's `yield` returns for the
 * i-th value. The values actually handed to the consumer are `Emitted(...)`.
 */
module Iteration {

  function EmittedFrom<T>(full: seq<T>, i: nat, cancelled: nat -> bool, accept: nat -> bool): seq<T>
    decreases |full| - i
  {
    if i >= |full| || cancelled(i) then []
    else if !accept(i) then [full[i]]
    else [full[i]] + EmittedFrom(full, i + 1, cancelled, accept)
  }

  function Emitted<T>(full: seq<T>, cancelled: nat -> bool, accept: nat -> bool): seq<T>
  {
    EmittedFrom(full, 0, cancelled, accept)
  }

  /** One iteration of the loop. */
  lemma EmittedFromStep<T>(full: seq<T>, i: nat, cancelled: nat -> bool, accept: nat -> bool)
    requires i < |full|
    ensures EmittedFrom(full, i, cancelled, accept) ==
      if cancelled(i) then []
      else if !accept(i) then [full[i]]
      else [full[i]] + EmittedFrom(full, i + 1, cancelled, accept)
  {
  }

  /** The consumer sees every value when nothing cancels and it never stops. */
  predicate Undisturbed(n: nat, cancelled: nat -> bool, accept: nat -> bool)
  {
    forall i: nat :: i < n ==> !cancelled(i) && accept(i)
  }

  lemma {:induction false} EmittedFromShape<T>(full: seq<T>, i: nat, cancelled: nat -> bool, accept: nat -> bool)
    requires i <= |full|
    ensures var e := EmittedFrom(full, i, cancelled, accept);
      && i + |e| <= |full|
      && e == full[i..i + |e|]
      && (forall j :: i <= j < i + |e| ==> !cancelled(j))
      && (forall j :: i <= j < i + |e| - 1 ==> accept(j))
      && (i + |e| < |full| ==> cancelled(i + |e|) || (|e| > 0 && !accept(i + |e| - 1)))
    decreases |full| - i
  {
    if i < |full| && !cancelled(i) && accept(i) {
      EmittedFromShape(full, i + 1, cancelled, accept);
    }
  }

  /**
   * The emitted values are a prefix of the undisturbed sequence; no iteration
   * that yielded saw cancellation; every value but the last was accepted; and
   * a run that stops early stops because it saw cancellation at the next
   * iteration or because the consumer refused the last value.
   */
  lemma EmittedIsPrefix<T>(full: seq<T>, cancelled: nat -> bool, accept: nat -> bool)
    ensures var e := Emitted(full, cancelled, accept);
      && |e| <= |full|
      && e == full[..|e|]
      && (forall j :: 0 <= j < |e| ==> !cancelled(j))
      && (forall j :: 0 <= j < |e| - 1 ==> accept(j))
      && (|e| < |full| ==> cancelled(|e|) || (|e| > 0 && !accept(|e| - 1)))
  {
    EmittedFromShape(full, 0, cancelled, accept);
  }

  /** Undisturbed, the consumer receives the whole sequence. */
  lemma {:induction false} EmittedUndisturbed<T>(full: seq<T>, cancelled: nat -> bool, accept: nat -> bool)
    requires Undisturbed(|full|, cancelled, accept)
    ensures Emitted(full, cancelled, accept) == full
  {
    EmittedIsPrefix(full, cancelled, accept);
  }

  /** Once iteration k observes cancellation, nothing from index k on is yielded. */
  lemma EmittedCancelled<T>(full: seq<T>, cancelled: nat -> bool, accept: nat -> bool, k: nat)
    requires cancelled(k)
    ensures |Emitted(full, cancelled, accept)| <= k
  {
    EmittedIsPrefix(full, cancelled, accept);
  }

  /** Once the consumer refuses value k, nothing after it is yielded. */
  lemma EmittedRefused<T>(full: seq<T>, cancelled: nat -> bool, accept: nat -> bool, k: nat)
    requires !accept(k)
    ensures |Emitted(full, cancelled, accept)| <= k + 1
  {
    EmittedIsPrefix(full, cancelled, accept);
  }
}
