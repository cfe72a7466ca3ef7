/** The merge operator as objects: the shared `merge_disposable`, the outer
    observer (`merge_observer_strategy`) and the inner observers
    (`merge_observer_inner_strategy`), forwarding to the downstream observer
    through a `dynamic_strategy`. Every method is one whole delivery (in the
    code: the wrapper's check, the atomic counter update, `dispose()` and the
    locked forward, which are separate sections) run with no other delivery
    in between, and is proved to move the objects as `MergeSpec.Step` moves
    the abstract state; `merge_t::subscribe` and `merge_with_t::subscribe` are proved
    against the traces of `MergeSpec` and `MergeWithSpec`. */
module Merge {
  import opened Rx
  import opened MergeSpec
  import opened MergeWithSpec
  import opened DynamicObserver

  /** The event a call of the downstream observer carries, if any: `set_upstream`
      is a link, not an event. */
  function EventOf<T>(c: Call<T>): seq<Event<T>>
  {
    match c
    case NextByRef(v) => [OnNext(v)]
    case NextByMove(v) => [OnNext(v)]
    case ErrorCall(e) => [OnError(e)]
    case CompletedCall => [OnCompleted]
    case UpstreamCall(_) => []
  }

  /** The events among the calls of the downstream observer, in order. */
  function Events<T>(calls: seq<Call<T>>): seq<Event<T>>
    decreases |calls|
  {
    if calls == [] then [] else Events(calls[..|calls| - 1]) + EventOf(calls[|calls| - 1])
  }

  /** The events since position `base` grow by the event of each new call. */
  lemma EventsAfter<T>(calls: seq<Call<T>>, base: nat, c: Call<T>)
    requires base <= |calls|
    ensures Events((calls + [c])[base..]) == Events(calls[base..]) + EventOf(c)
  {
    var tail := (calls + [c])[base..];
    assert tail == calls[base..] + [c];
    assert tail[..|tail| - 1] == calls[base..];
  }

  /** `calls` continues `before`: the earlier calls are kept, and none of the
      calls made since is a `set_upstream`. */
  ghost predicate Extends<T>(before: seq<Call<T>>, calls: seq<Call<T>>)
  {
    && |before| <= |calls|
    && calls[..|before|] == before
    && forall i :: |before| <= i < |calls| ==> !calls[i].UpstreamCall?
  }

  lemma ExtendsTrans<T>(a: seq<Call<T>>, b: seq<Call<T>>, c: seq<Call<T>>)
    requires Extends(a, b) && Extends(b, c)
    ensures Extends(a, c)
  {
    assert c[..|a|] == c[..|b|][..|a|];
  }

  /** The bookkeeping of a run that the proofs need; it has no counterpart in
      the program. */
  datatype Book = Book(sources: nat, counted: set<SourceId>, completed: set<SourceId>, finished: set<SourceId>)

  /** `merge_disposable`: a composite disposable (its flag and its children)
      with the pending-completion counter. */
  class MergeDisposable {
    /** The identity under which `on_subscribe` hands this disposable downstream. */
    const id: DisposableId
    var pending: nat
    var disposed: bool
    var children: set<DisposableId>
    ghost var book: Book

    constructor (id: DisposableId)
      ensures this.id == id && pending == 0 && !disposed && children == {}
      ensures book == Book(0, {}, {}, {})
    {
      this.id := id;
      pending, disposed, children := 0, false, {};
      book := Book(0, {}, {}, {});
    }

    /** `fetch_add(1)`. */
    method IncrementOnCompleted()
      modifies this
      ensures pending == old(pending) + 1
      ensures disposed == old(disposed) && children == old(children) && book == old(book)
    {
      pending := pending + 1;
    }

    /** `fetch_sub(1) == 1` on a `size_t`: zero wraps to the largest value. */
    method DecrementOnCompleted() returns (last: bool)
      modifies this
      ensures (pending, last) == Decrement(old(pending))
      ensures disposed == old(disposed) && children == old(children) && book == old(book)
    {
      last := pending == 1;
      pending := if pending == 0 then SizeMax else pending - 1;
    }

    method Add(d: DisposableId)
      modifies this
      ensures children == old(children) + {d}
      ensures pending == old(pending) && disposed == old(disposed) && book == old(book)
    {
      children := children + {d};
    }

    method Dispose()
      modifies this
      ensures disposed
      ensures pending == old(pending) && children == old(children) && book == old(book)
    {
      disposed := true;
    }
  }

  /** The abstract state of a merge subscription: the shared disposable, and
      the events the downstream observer received since position `base`. */
  ghost function Abs<T>(d: MergeDisposable, target: Observer<T>, base: nat): State<T>
    requires base <= |target.calls|
    reads d, target
  {
    State(d.pending, d.disposed, d.children, Events(target.calls[base..]), target.disposed,
          d.book.sources, d.book.counted, d.book.completed, d.book.finished)
  }

  /** An observer whose strategy shares `disposable` and forwards to `obs`:
      the outer observer is one with `src == 0`, an inner observer one with
      `src >= 1`. Both kinds run the same `set_upstream`, `is_disposed`,
      `on_error` and `on_completed` code apart from the source they stand for. */
  class MergeObserver<T> {
    const disposable: MergeDisposable
    const obs: DynamicStrategy<T>
    ghost const base: nat
    ghost const src: SourceId

    constructor (disposable: MergeDisposable, obs: DynamicStrategy<T>, ghost base: nat, ghost src: SourceId)
      ensures this.disposable == disposable && this.obs == obs && this.base == base && this.src == src
    {
      this.disposable := disposable;
      this.obs := obs;
      this.base := base;
      this.src := src;
    }

    ghost predicate Valid()
      reads obs.forwarder
    {
      obs.Valid() && base <= |obs.forwarder.calls|
    }

    ghost function Model(): State<T>
      requires Valid()
      reads obs.forwarder, disposable
    {
      Abs(disposable, obs.forwarder, base)
    }

    /** `disposable->is_disposed() || obs.is_disposed()`. */
    function IsDisposed(): (r: bool)
      requires obs.Valid()
      reads disposable, obs.forwarder
      ensures base <= |obs.forwarder.calls| ==> (r <==> MergeSpec.IsDisposed(Model()))
    {
      disposable.disposed || obs.IsDisposed()
    }

    /** `on_subscribe` of the outer strategy: count the outer context, then hand
        the shared disposable to the downstream observer. */
    method OnSubscribe()
      requires Valid() && src == 0
      modifies disposable, obs.forwarder
      ensures Valid()
      ensures Model() == Step(old(Model()), Subscribe)
      ensures obs.forwarder.calls == old(obs.forwarder.calls) + [UpstreamCall(disposable.id)]
    {
      disposable.IncrementOnCompleted();
      disposable.book := disposable.book.(counted := disposable.book.counted + {0});
      EventsAfter(obs.forwarder.calls, base, UpstreamCall(disposable.id));
      obs.SetUpstream(disposable.id);
    }

    /** `set_upstream`, the same on outer and inner observers. */
    method SetUpstream(d: DisposableId)
      requires Valid()
      modifies disposable
      ensures Valid()
      ensures Model() == Step(old(Model()), Action.SetUpstream(src, d))
    {
      disposable.Add(d);
    }

    /** `on_next` of the outer strategy, called directly: count a new inner
        source, then subscribe it with a fresh inner observer that shares the
        disposable and a copy of the downstream observer. */
    method StrategyOnNext() returns (inner: MergeObserver<T>)
      requires Valid() && src == 0
      modifies disposable
      ensures Valid() && Model() == Step(old(Model()), ScriptNext)
      ensures fresh(inner) && inner.Valid()
      ensures inner.disposable == disposable && inner.obs.forwarder == obs.forwarder && inner.base == base
      ensures inner.src == disposable.book.sources && inner.src != 0
    {
      disposable.IncrementOnCompleted();
      ghost var n := disposable.book.sources + 1;
      disposable.book := disposable.book.(sources := n, counted := disposable.book.counted + {n});
      var copy := new DynamicStrategy.Copy(obs);
      inner := new MergeObserver(disposable, copy, base, n);
    }

    /** The outer `on_next` as the observer wrapper delivers it: dropped once disposed. */
    method OnNext() returns (inner: Option<MergeObserver<T>>)
      requires Valid() && src == 0
      modifies disposable
      ensures Valid() && Model() == Step(old(Model()), OuterNext)
      ensures inner.Some? <==> !MergeSpec.IsDisposed(old(Model()))
      ensures inner.Some? ==> fresh(inner.value) && inner.value.Valid()
      ensures inner.Some? ==> inner.value.disposable == disposable && inner.value.obs.forwarder == obs.forwarder && inner.value.base == base
      ensures inner.Some? ==> inner.value.src == disposable.book.sources && inner.value.src != 0
    {
      if IsDisposed() {
        return None;
      }
      var o := StrategyOnNext();
      return Some(o);
    }

    /** `on_next` of the inner strategy, as the observer wrapper delivers it:
        the value is passed on unchanged under the lock, or dropped once disposed. */
    method InnerOnNext(v: T)
      requires Valid() && src != 0
      modifies obs.forwarder
      ensures Valid() && Model() == Step(old(Model()), InnerNext(src, v))
      ensures obs.forwarder.calls
        == old(obs.forwarder.calls) + (if MergeSpec.IsDisposed(old(Model())) then [] else [NextByRef(v)])
      ensures Extends(old(obs.forwarder.calls), obs.forwarder.calls)
    {
      if IsDisposed() {
        return;
      }
      EventsAfter(obs.forwarder.calls, base, NextByRef(v));
      obs.OnNextByRef(v);
    }

    /** `on_error` of either strategy: dispose the shared state, then forward. */
    method StrategyOnError(e: ErrorToken)
      requires Valid()
      modifies disposable, obs.forwarder
      ensures Valid() && Model() == Fail(Finish(old(Model()), src), e)
      ensures obs.forwarder.calls == old(obs.forwarder.calls) + [ErrorCall(e)]
    {
      disposable.Dispose();
      disposable.book := disposable.book.(finished := disposable.book.finished + {src});
      EventsAfter(obs.forwarder.calls, base, ErrorCall(e));
      obs.OnError(e);
    }

    /** `on_completed` of either strategy: only the decrement from 1 to 0
        disposes the shared state and forwards. */
    method StrategyOnCompleted()
      requires Valid()
      modifies disposable, obs.forwarder
      ensures Valid() && Model() == Complete(Finish(old(Model()), src), src)
      ensures obs.forwarder.calls
        == old(obs.forwarder.calls) + (if Decrement(old(disposable.pending)).1 then [CompletedCall] else [])
      ensures Extends(old(obs.forwarder.calls), obs.forwarder.calls)
    {
      disposable.book := disposable.book.(finished := disposable.book.finished + {src});
      var last := disposable.DecrementOnCompleted();
      disposable.book := disposable.book.(completed := disposable.book.completed + {src});
      if last {
        disposable.Dispose();
        EventsAfter(obs.forwarder.calls, base, CompletedCall);
        obs.OnCompleted();
      }
    }

    /** The terminal a source emits, as the observer wrapper delivers it: when
        disposed it is dropped, and the source counts as finished. */
    method Terminate(terminal: Event<T>)
      requires Valid() && terminal.IsTerminal()
      modifies disposable, obs.forwarder
      ensures Valid()
      ensures Model() == Step(old(Model()), TerminalAction(src, terminal))
      ensures obs.forwarder.calls == old(obs.forwarder.calls) +
        (if MergeSpec.IsDisposed(old(Model())) then []
         else if terminal.OnError? then [ErrorCall(terminal.error)]
         else if Decrement(old(disposable.pending)).1 then [CompletedCall]
         else [])
      ensures Extends(old(obs.forwarder.calls), obs.forwarder.calls)
    {
      if IsDisposed() {
        disposable.book := disposable.book.(finished := disposable.book.finished + {src});
        return;
      }
      if terminal.OnError? {
        StrategyOnError(terminal.error);
      } else {
        StrategyOnCompleted();
      }
    }

    /** The shared composite is disposed from outside, through the disposable
        handed downstream by `on_subscribe`. */
    method Dispose()
      requires Valid()
      modifies disposable
      ensures Valid() && Model() == Step(old(Model()), Action.Dispose)
    {
      disposable.Dispose();
    }
  }

  /** The action of a source emitting a terminal event. */
  function TerminalAction<T>(src: SourceId, terminal: Event<T>): (a: Action<T>)
    requires terminal.IsTerminal()
  {
    match terminal
    case OnError(e) => if src == 0 then OuterError(e) else InnerError(src, e)
    case OnCompleted => if src == 0 then OuterCompleted else InnerCompleted(src)
  }

  /** `merge_t::subscribe`: the downstream observer is made dynamic, a fresh
      shared state is created, and the outer observer runs `on_subscribe`
      before the outer source emits anything. The outer source then drives the
      returned observer. */
  method MergeSubscribe<T>(downstream: Observer<T>, id: DisposableId) returns (outer: MergeObserver<T>)
    modifies downstream
    ensures fresh(outer.disposable) && outer.src == 0 && outer.obs.forwarder == downstream
    ensures outer.Valid() && outer.base == old(|downstream.calls|)
    ensures outer.Model() == Step(Start(old(downstream.disposed)), Subscribe)
    ensures outer.Model().pending == 1 && outer.Model().counted == {0} && outer.disposable.book.sources == 0
    ensures outer.disposable.id == id && downstream.calls == old(downstream.calls) + [UpstreamCall(id)]
  {
    var dyn := new DynamicStrategy(downstream);
    var d := new MergeDisposable(id);
    outer := new MergeObserver(d, dyn, |downstream.calls|, 0);
    assert downstream.calls[outer.base..] == [];
    outer.OnSubscribe();
  }

  /** A source that emits synchronously inside its `subscribe`: its values
    reach the inner observer in order, then its terminal event if it has one. */
  method EmitSynchronously<T>(inner: MergeObserver<T>, e: Emission<T>, ghost s0: State<T>, ghost pre: seq<Action<T>>)
    requires inner.Valid() && inner.src != 0 && inner.Model() == Run(s0, pre)
    modifies inner.disposable, inner.obs.forwarder
    ensures inner.Valid() && inner.Model() == Run(s0, pre + Nexts(inner.src, e.values) + Ending(inner.src, e.end))
    ensures inner.disposable.book.sources == old(inner.disposable.book.sources)
    ensures Extends(old(inner.obs.forwarder.calls), inner.obs.forwarder.calls)
  {
    EmitValues(inner, e.values, s0, pre);
    ghost var before := inner.obs.forwarder.calls;
    EmitEnding(inner, e.end, s0, pre + Nexts(inner.src, e.values));
    ExtendsTrans(old(inner.obs.forwarder.calls), before, inner.obs.forwarder.calls);
  }

  /** The values a source emits synchronously, delivered in order. */
  method EmitValues<T>(inner: MergeObserver<T>, vs: seq<T>, ghost s0: State<T>, ghost pre: seq<Action<T>>)
    requires inner.Valid() && inner.src != 0 && inner.Model() == Run(s0, pre)
    modifies inner.obs.forwarder
    ensures inner.Valid() && inner.Model() == Run(s0, pre + Nexts(inner.src, vs))
    ensures Extends(old(inner.obs.forwarder.calls), inner.obs.forwarder.calls)
  {
    var n := inner.src;
    var j := 0;
    assert vs[..0] == [];
    assert pre + Nexts(n, vs[..0]) == pre;
    while j < |vs|
      invariant 0 <= j <= |vs|
      invariant inner.Valid() && inner.Model() == Run(s0, pre + Nexts(n, vs[..j]))
      invariant Extends(old(inner.obs.forwarder.calls), inner.obs.forwarder.calls)
    {
      ghost var before := inner.obs.forwarder.calls;
      inner.InnerOnNext(vs[j]);
      ExtendsTrans(old(inner.obs.forwarder.calls), before, inner.obs.forwarder.calls);
      assert vs[..j + 1][..j] == vs[..j];
      assert pre + Nexts(n, vs[..j + 1]) == pre + Nexts(n, vs[..j]) + [InnerNext(n, vs[j])];
      RunSnoc(s0, pre + Nexts(n, vs[..j]), InnerNext(n, vs[j]));
      j := j + 1;
    }
    assert vs[..j] == vs;
  }

  /** The terminal event a source emits synchronously, if it has one. */
  method EmitEnding<T>(inner: MergeObserver<T>, end: End, ghost s0: State<T>, ghost upTo: seq<Action<T>>)
    requires inner.Valid() && inner.src != 0 && inner.Model() == Run(s0, upTo)
    modifies inner.disposable, inner.obs.forwarder
    ensures inner.Valid() && inner.Model() == Run(s0, upTo + Ending(inner.src, end))
    ensures inner.disposable.book.sources == old(inner.disposable.book.sources)
    ensures Extends(old(inner.obs.forwarder.calls), inner.obs.forwarder.calls)
  {
    var n := inner.src;
    match end {
      case Completes =>
        inner.Terminate(OnCompleted);
        RunSnoc(s0, upTo, InnerCompleted(n));
      case Fails(err) =>
        inner.Terminate(OnError(err));
        RunSnoc(s0, upTo, InnerError(n, err));
      case Open =>
        assert upTo + Ending<T>(n, end) == upTo;
        assert inner.obs.forwarder.calls[..|inner.obs.forwarder.calls|] == inner.obs.forwarder.calls;
    }
  }

  /** `strategy.on_next(obs, observable)` for one observable of the tuple:
      count it, subscribe it with a fresh inner observer, and let it emit. */
  method SubscribeSource<T>(outer: MergeObserver<T>, e: Emission<T>, ghost s0: State<T>, ghost done: seq<Action<T>>)
    requires outer.Valid() && outer.src == 0 && outer.Model() == Run(s0, done)
    modifies outer.disposable, outer.obs.forwarder
    ensures outer.Valid()
    ensures outer.disposable.book.sources == old(outer.disposable.book.sources) + 1
    ensures outer.Model() == Run(s0, done + Turn(outer.disposable.book.sources, e))
    ensures Extends(old(outer.obs.forwarder.calls), outer.obs.forwarder.calls)
  {
    var inner := outer.StrategyOnNext();
    RunSnoc(s0, done, ScriptNext);
    EmitSynchronously(inner, e, s0, done + [ScriptNext]);
    assert done + [ScriptNext] + Nexts(inner.src, e.values) + Ending(inner.src, e.end)
        == done + Turn(inner.src, e);
  }

  /** The subscribe loop of `merge_with_t::subscribe`: the original observable,
      then each extra one in tuple order, each counted before it is subscribed. */
  method SubscribeAll<T>(outer: MergeObserver<T>, sources: seq<Emission<T>>, ghost s0: State<T>)
    requires outer.Valid() && outer.src == 0 && outer.disposable.book.sources == 0
    requires outer.Model() == Run(s0, [Subscribe])
    modifies outer.disposable, outer.obs.forwarder
    ensures outer.Valid() && outer.Model() == Run(s0, Script(sources))
    ensures Extends(old(outer.obs.forwarder.calls), outer.obs.forwarder.calls)
  {
    var i := 0;
    assert sources[..0] == [];
    while i < |sources|
      invariant 0 <= i <= |sources|
      invariant outer.Valid() && outer.Model() == Run(s0, Script(sources[..i]))
      invariant outer.disposable.book.sources == i
      invariant Extends(old(outer.obs.forwarder.calls), outer.obs.forwarder.calls)
    {
      ghost var before := outer.obs.forwarder.calls;
      SubscribeSource(outer, sources[i], s0, Script(sources[..i]));
      ExtendsTrans(old(outer.obs.forwarder.calls), before, outer.obs.forwarder.calls);
      assert sources[..i + 1][..i] == sources[..i];
      i := i + 1;
    }
    assert sources[..i] == sources;
  }

  /** The body of `merge_with_t::subscribe` after `on_subscribe`: the subscribe
      loop, then the direct strategy `on_completed`. */
  method SubscribeAllThenComplete<T>(outer: MergeObserver<T>, sources: seq<Emission<T>>, ghost s0: State<T>)
    requires outer.Valid() && outer.src == 0 && outer.disposable.book.sources == 0
    requires outer.Model() == Run(s0, [Subscribe])
    modifies outer.disposable, outer.obs.forwarder
    ensures outer.Valid() && outer.Model() == Run(s0, MergeWithTrace(sources))
    ensures Extends(old(outer.obs.forwarder.calls), outer.obs.forwarder.calls)
  {
    SubscribeAll(outer, sources, s0);
    ghost var looped := outer.obs.forwarder.calls;
    outer.StrategyOnCompleted();
    ExtendsTrans(old(outer.obs.forwarder.calls), looped, outer.obs.forwarder.calls);
    RunSnoc(s0, Script(sources), ScriptCompleted);
  }

  /** `merge_with_t::subscribe` over sources that emit synchronously while they
      are subscribed: `on_subscribe`, then for the original observable and each
      extra one in tuple order a direct strategy `on_next` that counts it and
      subscribes it (its emissions run in place), then a direct strategy
      `on_completed`. The objects end as the script's run ends, so the
      downstream observer receives what `MergeWithSynchronous` describes, after
      the one `set_upstream` of `on_subscribe`, and nothing else. */
  method MergeWithSubscribe<T>(downstream: Observer<T>, id: DisposableId, sources: seq<Emission<T>>)
      returns (outer: MergeObserver<T>)
    modifies downstream
    ensures outer.Valid() && outer.obs.forwarder == downstream && outer.base == old(|downstream.calls|)
    ensures outer.Model() == Run(Start(old(downstream.disposed)), MergeWithTrace(sources))
    ensures !old(downstream.disposed) ==>
      Events(downstream.calls[old(|downstream.calls|)..])
        == SyncLog(sources) + (if AllComplete(sources) then [OnCompleted] else [])
    ensures Extends(old(downstream.calls) + [UpstreamCall(id)], downstream.calls)
  {
    ghost var s0 := Start<T>(downstream.disposed);
    outer := MergeSubscribe(downstream, id);
    RunOne(s0, Subscribe);
    SubscribeAllThenComplete(outer, sources, s0);
    if !s0.observerDisposed {
      MergeWithSynchronous(sources);
    }
  }
}
