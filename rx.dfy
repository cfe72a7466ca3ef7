/** Vocabulary shared by the merge, connectable and type-erased observer models:
    identifiers, the observer protocol's events, and the rule that a stream is a
    run of values closed by at most one terminal event. */
module Rx {

  /** A disposable (an upstream link, a subscription) is known by its identity. */
  type DisposableId = nat

  /** An opaque `std::exception_ptr`: errors are forwarded, never inspected. */
  type ErrorToken = nat

  /** A source feeding a merge: 0 is the outer context, inner sources are 1, 2, ... */
  type SourceId = nat

  datatype Option<T> = None | Some(value: T)

  /** One delivery to an observer. */
  datatype Event<T> = OnNext(value: T) | OnError(error: ErrorToken) | OnCompleted
  {
    predicate IsTerminal() { !OnNext? }
  }

  /** The observer contract: values, then at most one terminal event, and nothing after it. */
  predicate WellFormed<T>(log: seq<Event<T>>)
  {
    forall i :: 0 <= i < |log| - 1 ==> log[i].OnNext?
  }

  predicate Terminated<T>(log: seq<Event<T>>)
  {
    |log| > 0 && log[|log| - 1].IsTerminal()
  }

  predicate EndsWithCompleted<T>(log: seq<Event<T>>)
  {
    |log| > 0 && log[|log| - 1].OnCompleted?
  }

  predicate EndsWithError<T>(log: seq<Event<T>>)
  {
    |log| > 0 && log[|log| - 1].OnError?
  }

  /** The payloads of the `on_next` deliveries of a log, in order. */
  function Values<T>(log: seq<Event<T>>): seq<T>
  {
    if log == [] then []
    else
      var last := log[|log| - 1];
      Values(log[..|log| - 1]) + (if last.OnNext? then [last.value] else [])
  }

  lemma ValuesAppend<T>(log: seq<Event<T>>, e: Event<T>)
    ensures Values(log + [e]) == Values(log) + (if e.OnNext? then [e.value] else [])
  {
    assert (log + [e])[..|log|] == log;
  }

  /** A log that has no terminal event yet stays well formed when one more event is appended. */
  lemma AppendKeepsWellFormed<T>(log: seq<Event<T>>, e: Event<T>)
    requires WellFormed(log) && !Terminated(log)
    ensures WellFormed(log + [e])
  {
  }
}
