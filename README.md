# ReactivePlusPlus core: merge, connectable gate, type-erased observer

This project models three pieces of ReactivePlusPlus (a C++ reactive-streams
library) and proves properties of the models.

- **Merge.** `merge_disposable` is the shared state of one merge
  subscription: a pending-completion counter, the disposed flag of a
  composite disposable and its children. The outer observer
  (`merge_observer_strategy`) and the inner observers
  (`merge_observer_inner_strategy`) update it. `merge_t::subscribe` wraps
  the downstream observer and subscribes the outer source.
  `merge_with_t::subscribe` is a fixed script: `on_subscribe`, then a
  strategy `on_next` for the original observable and for each extra
  observable in tuple order, then a strategy `on_completed`.
  - `merge_spec.dfy` (module `MergeSpec`) is the pure state machine. A
    `State` holds the shared state, the log of everything forwarded
    downstream, and bookkeeping of which sources were counted, completed or
    finished. `Step` applies one `Action`. One step is one whole delivery:
    the observer wrapper's `is_disposed` check, the strategy's atomic
    counter update, its `dispose()` and its locked forward, with no other
    delivery in between.
  - `merge_race.dfy` (module `MergeRace`) takes a delivery apart into the
    sections the code runs separately. It shows that the sections, run back
    to back, are the steps of `MergeSpec`. It also shows what overlapping
    deliveries can forward: a second error, or a value after an error.
  - `merge_with_spec.dfy` (module `MergeWithSpec`) builds the trace of
    `merge_with_t::subscribe` over sources that emit synchronously while they
    are subscribed. `SyncLog` is an independent reference definition of what
    the downstream observer receives.
  - `merge.dfy` (module `Merge`) is the imperative model.
    `MergeDisposable` and `MergeObserver` are classes whose methods are
    proved to move the objects as `Step` moves the abstract state. The
    downstream observer is reached through a `DynamicStrategy`.
    `MergeSubscribe` and `MergeWithSubscribe` are proved against the traces.
- **Connectable gate.** `connectable_observable::connect` works on the shared
  `state_t::sub`, which is empty or holds the live link. Its teardown
  callback empties it again. It does so in two halves: a locked swap, then
  an unlocked release.
  - `connectable_spec.dfy` (module `ConnectableSpec`) is the pure gate, with
    its effects on the original observable and the subject's subscription.
  - `connectable.dfy` (module `Connectable`) holds the objects:
    `ConnectionState` is shared between copies of a `ConnectableObservable`.
- **Type-erased observer.** `dynamic_strategy` holds a shared pointer to one
  wrapped observer and a pointer to a per-type table of six entries.
  `dynamic.dfy` (module `DynamicObserver`) models the wrapped observer as an
  `Observer` object that records the calls it receives. `VTable` and
  `Create` model the table. `DynamicStrategy` dispatches every call
  through the matching table entry.
- `rx.dfy` (module `Rx`) holds the shared vocabulary. `Event` is one
  observer delivery. `WellFormed` states the observer contract: values,
  then at most one terminal event.

The pending-completion counter `m_on_completed_needed` starts at 0
(merge.hpp:37). `on_subscribe` raises it to 1 before any source is counted
(merge.hpp:88-92). The model's `Start` has the counter at 0 and its
`Subscribe` step raises it.

## Model

| member | source | states |
|---|---|---|
| MergeSpec.OnlyTheLastDecrementReports | src/rpp/rpp/operators/merge.hpp:32-33 | after n increments, up to n decrements never wrap; the counter ends at n - k and only the n-th decrement reports the 1 -> 0 step |
| MergeSpec.ExtraDecrementWraps | src/rpp/rpp/operators/merge.hpp:33 | one decrement more than there were increments wraps `size_t` to its maximum and reports false |
| MergeSpec.CompleteKeepsInv | src/rpp/rpp/operators/merge.hpp:119-128 | a completion from a counted source that has not completed finds the counter at least 1; it forwards `on_completed` only on the last completion, and it keeps the invariant |
| MergeSpec.StepKeepsInv | src/rpp/rpp/operators/merge.hpp:40-128 | every legal step keeps the invariant: the log is well formed, a terminal implies disposed, counter = counted - completed, `on_completed` is logged exactly when every counted source completed, and an error has a source that failed |
| MergeSpec.NoUnderflow | src/rpp/rpp/operators/merge.hpp:71-80 | no legal step runs `decrement_on_completed` on a zero counter |
| MergeSpec.RunKeepsInv | src/rpp/rpp/operators/merge.hpp:40-128 | every legal run keeps the invariant |
| MergeSpec.MergeContract | src/rpp/rpp/operators/merge.hpp:206 | over any legal run from a fresh state: the log is values then at most one terminal; it ends with `on_completed` exactly when the outer context and every counted source completed; the counter equals the completions still owed |
| MergeSpec.ErrorDisposesThenForwards | src/rpp/rpp/operators/merge.hpp:111-117 | an outer or inner error on a live merge disposes the shared state and forwards exactly that error; on a disposed merge it is dropped; afterwards every observer sharing the state reports disposed |
| MergeSpec.ChildrenOnlyGrow | src/rpp/rpp/operators/merge.hpp:46-49 | no step of any run takes a disposable out of the composite's children |
| MergeSpec.UpstreamJoinsComposite | src/rpp/rpp/operators/merge.hpp:94-97 | `set_upstream` adds the disposable to the composite's children; it is still there after any later run, so it is still registered when the composite is disposed |
| MergeSpec.StepValues | src/rpp/rpp/operators/merge.hpp:56-61 | one step adds a value only for a live inner `on_next`, and adds that value unchanged |
| MergeSpec.DisposedStaysDisposed | src/rpp/rpp/operators/merge.hpp:51-54 | once the merge is disposed it stays disposed and no further value reaches downstream |
| MergeSpec.ValuesInArrivalOrder | src/rpp/rpp/operators/merge.hpp:56-61 | downstream values are a prefix of the arrived values in arrival order, and all of them while the merge is live, so each source keeps its own order |
| MergeSpec.LogGrows | src/rpp/rpp/operators/merge.hpp:56-128 | no run takes anything back from what was forwarded downstream |
| MergeSpec.CarryOne | src/rpp/rpp/operators/merge.hpp:56-61 | one legal step with no outside disposal keeps the invariant, keeps "disposed only by a forwarded terminal", and adds exactly the arrived value to the downstream values unless the merge was disposed |
| MergeSpec.DroppedValueRulesOutCompletion | src/rpp/rpp/operators/merge.hpp:56-61 | a value that reaches a merge disposed by its own terminal can only have met an error, so the run cannot end with `on_completed` |
| MergeSpec.CompletionCarriesAll | src/rpp/rpp/operators/merge.hpp:119-128 | over a legal run with no outside disposal, a log ending in `on_completed` holds every value that arrived, in arrival order |
| MergeSpec.MergeDeliversAll | src/rpp/rpp/operators/merge.hpp:119-128 | from a fresh subscription with no outside disposal, `on_completed` downstream means the downstream values are exactly the arrived values and the log is well formed |
| MergeSpec.StepCompletesWhenLive | src/rpp/rpp/operators/merge.hpp:119-128 | a legal step that is neither an error nor an outside disposal keeps "disposed only by a forwarded `on_completed`, and while live every finished source is counted as completed" |
| MergeSpec.RunCompletesWhenLive | src/rpp/rpp/operators/merge.hpp:119-128 | the same holds over any legal run with no error and no outside disposal |
| MergeSpec.AllFinishedCompletes | src/rpp/rpp/operators/merge.hpp:119-128 | from a fresh subscription with no error and no outside disposal, once the outer observable and every inner one it subscribed have emitted their terminal event, the log ends with `on_completed` |
| MergeRace.SectionsBackToBack | src/rpp/rpp/operators/merge.hpp:56-69 | an inner error run as check, `dispose()` and locked forward with nothing in between, and an inner value run as check and locked forward, are exactly the `MergeSpec` steps |
| MergeRace.OverlappingErrors | src/rpp/rpp/operators/merge.hpp:63-69 | two errors that both pass the wrapper's check before either disposes are both forwarded, so the forwarded log is not well formed; run back to back, the second is dropped |
| MergeRace.NextOvertakenByError | src/rpp/rpp/operators/merge.hpp:56-61 | a value that passed the check before an error disposed is forwarded after that error, because the locked forward does not check again; run back to back, it is dropped |
| MergeWithSpec.NextsRun | src/rpp/rpp/operators/merge.hpp:56-61 | a run of inner values appends exactly those values when live, nothing when disposed, and changes nothing else |
| MergeWithSpec.SyncLogWellFormed | src/rpp/rpp/operators/merge.hpp:111-117 | the reference log is well formed; a terminal in it is an error; with every source completing it has no terminal |
| MergeWithSpec.CountThenValues | src/rpp/rpp/operators/merge.hpp:104-108 | the strategy `on_next` counts source n before any of its values arrive, and the values reach the log unless the merge is disposed |
| MergeWithSpec.InnerCompletesEarly | src/rpp/rpp/operators/merge.hpp:104-109 | a source that completes inside its own subscribe is counted but cannot drive the counter to 0, because the outer context is still owed |
| MergeWithSpec.EndOfEmission | src/rpp/rpp/operators/merge.hpp:63-80 | how a source's synchronous terminal changes the state: completion is recorded, an error is forwarded and disposes, and nothing is forwarded once disposed |
| MergeWithSpec.EndOfEmissionInv | src/rpp/rpp/operators/merge.hpp:63-80 | the end of a source's synchronous emission keeps the invariant |
| MergeWithSpec.ScriptTurn | src/rpp/rpp/operators/merge.hpp:182 | one turn of the subscribe loop is legal and extends the log as the reference definition does |
| MergeWithSpec.ScriptRun | src/rpp/rpp/operators/merge.hpp:172-174 | after `on_subscribe` and the subscribe loop, the log equals `SyncLog`; the sources are 1..n; the completed ones are exactly `CompletedIds` |
| MergeWithSpec.CompletedIdsAll | src/rpp/rpp/operators/merge.hpp:239 | every source's completion is counted exactly when all of them complete |
| MergeWithSpec.FinalCompletion | src/rpp/rpp/operators/merge.hpp:175 | the final strategy `on_completed` is legal and forwards `on_completed` exactly when every source has completed |
| MergeWithSpec.MergeWithSynchronous | src/rpp/rpp/operators/merge.hpp:160-176 | the whole script is legal; downstream receives every source's values in tuple order up to the first error, which ends the stream; it receives `on_completed` exactly when all sources complete |
| MergeWithSpec.MarbleScript | src/rpp/rpp/operators/merge.hpp:172-175 | with two sources that emit nothing while subscribed, the script leaves the counter at 2 and nothing forwarded |
| MergeWithSpec.MarbleEmissions | src/rpp/rpp/operators/merge.hpp:232-237 | the marble `1-243-6-\|`: sources emitting 1,2,3 and 4,6 yield 1,2,4,3,6 and one `on_completed` |
| Merge.MergeDisposable.constructor | src/rpp/rpp/operators/merge.hpp:37 | a fresh shared state: counter 0, not disposed, no children |
| Merge.MergeDisposable.IncrementOnCompleted | src/rpp/rpp/operators/merge.hpp:32 | the counter rises by one; nothing else changes |
| Merge.MergeDisposable.DecrementOnCompleted | src/rpp/rpp/operators/merge.hpp:33 | counter and reply follow `Decrement`: wrap at 0, true exactly on 1 -> 0 |
| Merge.MergeDisposable.Add | src/rpp/rpp/operators/merge.hpp:48 | the disposable joins the children; nothing else changes |
| Merge.MergeDisposable.Dispose | src/rpp/rpp/operators/merge.hpp:65 | the shared state is disposed; nothing else changes |
| Merge.MergeObserver.constructor | src/rpp/rpp/operators/merge.hpp:108 | an observer shares the given disposable and downstream observer |
| Merge.MergeObserver.IsDisposed | src/rpp/rpp/operators/merge.hpp:99-102 | true exactly when the shared state or the downstream observer is disposed |
| Merge.MergeObserver.OnSubscribe | src/rpp/rpp/operators/merge.hpp:88-92 | moves the state as `Subscribe`: the counter counts the outer context, and the shared disposable is handed downstream via `set_upstream` |
| Merge.MergeObserver.SetUpstream | src/rpp/rpp/operators/merge.hpp:94-97 | moves the state as `SetUpstream` |
| Merge.EmitValues | src/rpp/rpp/operators/merge.hpp:56-61 | a source's synchronous values, delivered one by one to its inner observer, move the state along the matching `InnerNext` steps; earlier downstream calls are kept |
| Merge.EmitEnding | src/rpp/rpp/operators/merge.hpp:63-80 | a source's synchronous terminal, or none, moves the state along the matching ending; earlier downstream calls are kept |
| Merge.SubscribeAllThenComplete | src/rpp/rpp/operators/merge.hpp:173-175 | the subscribe loop followed by the strategy `on_completed` moves the state along the whole `merge_with` script; earlier downstream calls are kept |
| Merge.MergeObserver.StrategyOnNext | src/rpp/rpp/operators/merge.hpp:104-109 | counts the new source first, then returns a fresh inner observer that shares the disposable and the downstream observer |
| Merge.MergeObserver.OnNext | src/rpp/rpp/operators/merge.hpp:104-109 | the outer `on_next` as delivered by the observer wrapper: moves the state as `OuterNext`, and returns an inner observer exactly when the merge is live; that observer is fresh and valid, shares the disposable, forwards to the same downstream observer from the same position, and stands for the newly counted source |
| Merge.MergeObserver.InnerOnNext | src/rpp/rpp/operators/merge.hpp:56-61 | moves the state as `InnerNext`: the downstream observer receives exactly one more call, `on_next` of the value unchanged, when live, and none otherwise; earlier calls are kept |
| Merge.MergeObserver.StrategyOnError | src/rpp/rpp/operators/merge.hpp:111-117 | disposes the shared state, then forwards the error: exactly one call, `on_error`, is appended downstream |
| Merge.MergeObserver.StrategyOnCompleted | src/rpp/rpp/operators/merge.hpp:119-128 | decrements; only on 1 -> 0 disposes and forwards `on_completed`, the only call appended downstream; otherwise nothing is appended; earlier calls are kept |
| Merge.MergeObserver.Terminate | src/rpp/rpp/operators/merge.hpp:63-80 | a terminal event delivered through the observer wrapper moves the state as the matching outer or inner terminal action; downstream gets nothing when disposed, else exactly the error, or `on_completed` only when the counter drops to 0 |
| Merge.MergeObserver.Dispose | src/rpp/rpp/operators/merge.hpp:91 | disposing through the handed-down disposable moves the state as `Dispose` |
| Merge.MergeSubscribe | src/rpp/rpp/operators/merge.hpp:137-147 | the downstream observer is made dynamic, a fresh shared state is created, and `on_subscribe` runs before anything else: counter 1, only the outer context counted; the downstream observer receives exactly one call, `set_upstream` with the shared disposable |
| Merge.EmitSynchronously | src/rpp/rpp/operators/merge.hpp:108 | a source's synchronous values and terminal, delivered to its inner observer, move the state along the matching trace; earlier downstream calls are kept and no `set_upstream` is added |
| Merge.SubscribeSource | src/rpp/rpp/operators/merge.hpp:182 | a strategy `on_next` for one observable of the tuple moves the state along one turn of the script; earlier downstream calls are kept and no `set_upstream` is added |
| Merge.SubscribeAll | src/rpp/rpp/operators/merge.hpp:173-174 | the subscribe loop over the original and the extra observables moves the state along the script; earlier downstream calls are kept and no `set_upstream` is added |
| Merge.MergeWithSubscribe | src/rpp/rpp/operators/merge.hpp:160-176 | the objects end as the `merge_with` trace ends; downstream receives one `set_upstream`, then `SyncLog` and then `on_completed` exactly when all sources complete, and no other `set_upstream`; calls made before are kept |
| ConnectableSpec.InitInv | src/include/rpp/observables/connectable_observable.hpp:74-80 | a fresh connectable stores no link, satisfying the gate invariant |
| ConnectableSpec.ConnectContract | src/include/rpp/observables/connectable_observable.hpp:46-53 | `connect` returns the caller's subscription; with a stored link it changes nothing; otherwise it stores the caller's subscription and subscribes the original observable exactly once with it |
| ConnectableSpec.OpKeepsInv | src/include/rpp/observables/connectable_observable.hpp:46-64 | `connect` and the teardown keep the invariant: every subscription of the original is unsubscribed or is the stored link, which is a child of the subject's subscription |
| ConnectableSpec.ApplyAllKeepsInv | src/include/rpp/observables/connectable_observable.hpp:46-64 | any sequence of `connect` and teardown calls keeps the invariant |
| ConnectableSpec.LiveAtMostOne | src/include/rpp/observables/connectable_observable.hpp:48-52 | at most one subscription of the original observable is live |
| ConnectableSpec.RepeatedConnect | src/include/rpp/observables/connectable_observable.hpp:48-49 | repeated `connect` without teardown: only the first on an empty gate subscribes, later ones are no-ops, a stored link is never replaced |
| ConnectableSpec.TeardownThenConnect | src/include/rpp/observables/connectable_observable.hpp:55-64 | the teardown empties the gate, unsubscribes the stored link and removes it from the subject's subscription; the next `connect` subscribes again |
| ConnectableSpec.TeardownIdempotent | src/include/rpp/observables/connectable_observable.hpp:57-63 | a second teardown finds the gate empty and changes nothing |
| ConnectableSpec.TeardownInSections | src/include/rpp/observables/connectable_observable.hpp:55-64 | the locked swap followed directly by the release is the one-step teardown |
| ConnectableSpec.ConnectBetweenSwapAndRelease | src/include/rpp/observables/connectable_observable.hpp:57-63 | a `connect` between the swap and the release subscribes the original again while the old link is live: two live subscriptions and the invariant broken, until the release restores it |
| ConnectableSpec.SubscriptionsCounted | src/include/rpp/observables/connectable_observable.hpp:51-52 | the original is subscribed once per `connect` that found the gate empty, never more than teardowns + 1 times |
| Connectable.ConnectionState.constructor | src/include/rpp/observables/connectable_observable.hpp:77 | the stored link starts empty |
| Connectable.ConnectableObservable.constructor | src/include/rpp/observables/connectable_observable.hpp:80 | a fresh connectable's objects match the initial gate |
| Connectable.ConnectableObservable.Copy | src/include/rpp/observables/connectable_observable.hpp:80 | a copy shares the connection state |
| Connectable.ConnectableObservable.Connect | src/include/rpp/observables/connectable_observable.hpp:40-68 | the objects and the result move exactly as `ConnectableSpec.Connect` |
| Connectable.ConnectableObservable.SwapOut | src/include/rpp/observables/connectable_observable.hpp:57-61 | under the lock, the stored link is swapped for an empty one and handed back, exactly as `ConnectableSpec.TeardownSwap` |
| Connectable.ConnectableObservable.Release | src/include/rpp/observables/connectable_observable.hpp:62-63 | the swapped-out link is unsubscribed and removed from the subject's subscription, exactly as `ConnectableSpec.TeardownRelease` |
| Connectable.ConnectableObservable.Teardown | src/include/rpp/observables/connectable_observable.hpp:55-64 | both halves run with nothing in between: the objects move exactly as `ConnectableSpec.Teardown` |
| Connectable.ConnectThroughCopies | src/include/rpp/observables/connectable_observable.hpp:74-80 | a connect through one copy is seen by the other: the original is subscribed once |
| DynamicObserver.Create | src/rpp/rpp/observers/dynamic_observer.hpp:79-91 | each of the six entries is bound to the member of the same name, so the entries are pairwise distinct and the two `on_next` overloads have separate entries |
| DynamicObserver.CountAppend | src/tests/test_observer.cpp:33-62 | one more call raises the matching handler's counter by one and no other counter |
| DynamicObserver.CountsAddUp | src/rpp/rpp/observers/dynamic_observer.hpp:56-66 | every call is handled by one of the five call entries, so their counters add up to the number of calls |
| DynamicObserver.DynamicStrategy.constructor | src/rpp/rpp/observers/dynamic_observer.hpp:45-51 | wraps the given observer with the table from `Create` |
| DynamicObserver.DynamicStrategy.Copy | src/rpp/rpp/observers/dynamic_observer.hpp:53 | a copy shares the wrapped observer and the table |
| DynamicObserver.DynamicStrategy.SetUpstream | src/rpp/rpp/observers/dynamic_observer.hpp:56 | the wrapped observer receives exactly one `set_upstream` with the same argument; nothing else changes |
| DynamicObserver.DynamicStrategy.IsDisposed | src/rpp/rpp/observers/dynamic_observer.hpp:58 | answers what the wrapped observer answers |
| DynamicObserver.DynamicStrategy.OnNextByRef | src/rpp/rpp/observers/dynamic_observer.hpp:60 | the wrapped observer receives exactly one by-reference `on_next` with the same value |
| DynamicObserver.DynamicStrategy.OnNextByMove | src/rpp/rpp/observers/dynamic_observer.hpp:62 | the wrapped observer receives exactly one by-move `on_next` with the same value |
| DynamicObserver.DynamicStrategy.OnError | src/rpp/rpp/observers/dynamic_observer.hpp:64 | the wrapped observer receives exactly one `on_error` with the same error |
| DynamicObserver.DynamicStrategy.OnCompleted | src/rpp/rpp/observers/dynamic_observer.hpp:66 | the wrapped observer receives exactly one `on_completed` |
| DynamicObserver.Deliver | src/rpp/rpp/observers/dynamic_observer.hpp:56-66 | a call through the strategy raises exactly the matching handler's counter by one; every other counter and the disposed flag are unchanged |
| DynamicObserver.ValidateObserver | src/tests/test_observer.cpp:27-81 | one `on_next`, `on_error` or `on_completed` on a fresh wrapped observer leaves that counter at 1 and the other two at 0 |
| DynamicObserver.CopyShares | src/rpp/rpp/observers/dynamic_observer.hpp:95 | a call through a copy reaches the original's wrapped observer, and both copies answer `is_disposed` alike |

## Left out

- Mutexes, atomics and memory orderings are not modelled. In `MergeSpec` and `Merge`, one whole delivery is one indivisible step; the code runs its check, counter update, `dispose()` and locked forward as separate sections. `MergeRace` covers only the error and value deliveries taken apart.
- MergeSpec.MergeContract: holds for runs in which the deliveries do not overlap. If deliveries overlap between the wrapper's check and the locked forward, merge can forward a second error (`MergeRace.OverlappingErrors`) or a value after an error (`MergeRace.NextOvertakenByError`), and the forwarded log is then not well formed. The same restriction applies to `MergeSpec.StepKeepsInv`, `MergeSpec.RunKeepsInv` and `MergeWithSpec.MergeWithSynchronous`. Whether the downstream observer itself drops such calls depends on observer code that is not part of this model.
- ConnectableSpec.LiveAtMostOne: holds when no `connect` runs between the two halves of a teardown. A `connect` in that window leaves two subscriptions of the original observable live until the release runs (`ConnectableSpec.ConnectBetweenSwapAndRelease`). The same applies to `ConnectableSpec.OpKeepsInv` and `ConnectableSpec.ApplyAllKeepsInv`. `connect` itself is one step: its locked section together with the registration of the teardown after it.
- `connect` stores `subscriber_subscription.add(subscription)` (connectable_observable.hpp:51). The composite subscription's `add` is not part of this model, which takes its result to be the caller's subscription, now a child of the subject's subscription.
- A source's own `set_upstream` during its synchronous emission is not in `Emission`. So `MergeWithSubscribe` and the marble lemmas end with no children in the composite. `MergeSpec.UpstreamJoinsComposite` and `MergeSpec.ChildrenOnlyGrow` cover `set_upstream` over any run.
- `current_thread::own_queue_and_drain_finally_if_not_owned` is treated as a no-op. The scheduler is not part of this model.
- The observer wrapper `observer<Type, Strategy>` is not part of this model. Two assumptions stand in for it:
  - It drops deliveries once `is_disposed()` holds. The `Outer*` and `Inner*` actions and the `MergeObserver` methods that model a wrapped delivery apply this gate. The strategy calls that `merge_with_t::subscribe` makes directly are not gated.
  - The observer runs `on_subscribe` first when it is subscribed.
- Composite disposables are modelled as a disposed flag plus a set of children. Adding a child after disposal, and the cascade into the children, are not modelled.
- `shared_ptr` and `from_weak` lifetimes are not modelled. Sharing is object identity.
- `std::exception_ptr` payloads are modelled as opaque `ErrorToken` numbers.
- Subject and multicast storage is not modelled. `get_subscriber` and `get_observer` are abstract. The subject's subscription is modelled only by its set of children.
- Unsubscribing a caller's subscription, and so when a teardown runs, is not modelled. The teardown is a method that can be called at any time.
- Connecting with a subscription that is already unsubscribed is not modelled.
- The constructors of `dynamic_observer` from its base, and `as_dynamic`, are type plumbing. They are not modelled apart from building a `DynamicStrategy`.
- A `dynamic_strategy` around another `dynamic_strategy` is prevented by a C++ type constraint. In the model this holds by typing: the constructor takes an `Observer`, not a `DynamicStrategy`.
- The per-type generic table is modelled as one table for the single wrapped observer class `Observer`.
- The wrapped observer's own handlers are not modelled. `Observer` only records the calls it receives, and its `is_disposed` is a flag that the forwarded calls leave unchanged.
- Emissions that inner sources make after subscription, from other threads or schedulers, are covered only by the trace-level lemmas of `MergeSpec`. `MergeWithSubscribe` covers sources that emit synchronously inside their own `subscribe`.
- Merge.MergeDisposable.IncrementOnCompleted: does not model `size_t` wrap-around on increment, because that needs 2^64 live sources.
- Merge.MergeObserver.InnerOnNext: always forwards through the by-reference `on_next`. Whether the C++ code forwards an lvalue or an rvalue depends on the caller, and both reach the log as the same event.
- Merge.MergeObserver.Terminate: the downstream observer's disposed flag does not change during a run, so `ObserverDisposed` is a spec-level action with no method.
