/** The sections one merge delivery runs in, taken apart. The observer wrapper
    checks `is_disposed()` before it calls the strategy; `on_error` then runs
    `dispose()` outside the lock (merge.hpp:65, :113) and forwards under the
    lock (merge.hpp:67-68, :115-116); `on_next` forwards under the lock
    (merge.hpp:59-60). The forward does not look at the disposed flag again.
    `MergeSpec.Step` runs the sections of one delivery back to back; the lemmas
    here show that this agrees with the sections, and what a delivery that
    passed its check before another one disposed can still forward. */
module MergeRace {
  import opened Rx
  import opened MergeSpec

  /** The observer wrapper's check: the delivery reaches the strategy only
      while nothing reports disposed. */
  predicate Admitted<T>(s: State<T>)
  {
    !IsDisposed(s)
  }

  /** `disposable->dispose()`, outside the lock. */
  function DisposeShared<T>(s: State<T>): State<T>
  {
    s.(disposed := true)
  }

  /** The forward under `disposable->lock_guard()`, with no further check. */
  function ForwardLocked<T>(s: State<T>, ev: Event<T>): State<T>
  {
    s.(log := s.log + [ev])
  }

  /** The strategy part of an error delivery: dispose, then forward. */
  function ErrorSections<T>(s: State<T>, e: ErrorToken): State<T>
  {
    ForwardLocked(DisposeShared(s), OnError(e))
  }

  /** An inner error and an inner value, each run with nothing in between its
      sections, are the steps of `MergeSpec`. */
  lemma SectionsBackToBack<T>(s: State<T>, src: SourceId, e: ErrorToken, v: T)
    ensures Step(s, InnerError(src, e)) == Finish(if Admitted(s) then ErrorSections(s, e) else s, src)
    ensures Step(s, InnerNext(src, v)) == (if Admitted(s) then ForwardLocked(s, OnNext(v)) else s)
  {
  }

  /** Two errors from two sources that both pass the wrapper's check before
      either of them disposes are both forwarded: the downstream observer gets
      a second terminal event. Run back to back, the second one is dropped. */
  lemma OverlappingErrors<T>(s: State<T>, e1: ErrorToken, e2: ErrorToken)
    requires Admitted(s)
    ensures var r := ErrorSections(ErrorSections(s, e1), e2);
      && r.log == s.log + [OnError(e1), OnError(e2)]
      && !WellFormed(r.log)
    ensures Step(Step(s, InnerError(1, e1)), InnerError(2, e2)).log == s.log + [OnError(e1)]
  {
    var r := ErrorSections(ErrorSections(s, e1), e2);
    assert r.log[|s.log|] == OnError(e1);
  }

  /** A value whose delivery passed the check waits for the lock while an
      error runs all its sections; it is then forwarded after the error. Run
      back to back, the value is dropped. */
  lemma NextOvertakenByError<T>(s: State<T>, v: T, e: ErrorToken)
    requires Admitted(s)
    ensures var r := ForwardLocked(ErrorSections(s, e), OnNext(v));
      && r.log == s.log + [OnError(e), OnNext(v)]
      && r.disposed
      && !WellFormed(r.log)
    ensures Step(Step(s, InnerError(1, e)), InnerNext(2, v)).log == s.log + [OnError(e)]
  {
    var r := ForwardLocked(ErrorSections(s, e), OnNext(v));
    assert r.log[|s.log|] == OnError(e);
  }
}
