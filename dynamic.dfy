/** `dynamic_strategy`: the type-erased observer. It owns a shared pointer to
    one wrapped `observer<Type, Strategy>` and a pointer to a per-type table of
    six entries, each bound to one member of the wrapped observer. Every
    operation is a single call through its table entry; all state change
    happens in the wrapped observer, which copies of the strategy share. */
module DynamicObserver {
  import opened Rx

  /** The members of the wrapped observer a table entry can be bound to. */
  datatype Member = OnNextLvalue | OnNextRvalue | OnErrorMember | OnCompletedMember | SetUpstreamMember | IsDisposedMember

  /** A call received by the wrapped observer, tagged by the member that handled it. */
  datatype Call<T> =
    | NextByRef(value: T)
    | NextByMove(value: T)
    | ErrorCall(error: ErrorToken)
    | CompletedCall
    | UpstreamCall(upstream: DisposableId)
  {
    function Handler(): Member
    {
      match this
      case NextByRef(_) => OnNextLvalue
      case NextByMove(_) => OnNextRvalue
      case ErrorCall(_) => OnErrorMember
      case CompletedCall => OnCompletedMember
      case UpstreamCall(_) => SetUpstreamMember
    }
  }

  /** The wrapped `observer<Type, Strategy>`, seen from outside: the calls its
      members have received, in order, and what its `is_disposed` answers. */
  class Observer<T> {
    var calls: seq<Call<T>>
    var disposed: bool

    constructor (disposed: bool)
      ensures calls == [] && this.disposed == disposed
    {
      calls := [];
      this.disposed := disposed;
    }

    method OnNextRef(v: T)
      modifies this
      ensures calls == old(calls) + [NextByRef(v)] && disposed == old(disposed)
    {
      calls := calls + [NextByRef(v)];
    }

    method OnNextMove(v: T)
      modifies this
      ensures calls == old(calls) + [NextByMove(v)] && disposed == old(disposed)
    {
      calls := calls + [NextByMove(v)];
    }

    method OnError(e: ErrorToken)
      modifies this
      ensures calls == old(calls) + [ErrorCall(e)] && disposed == old(disposed)
    {
      calls := calls + [ErrorCall(e)];
    }

    method OnCompleted()
      modifies this
      ensures calls == old(calls) + [CompletedCall] && disposed == old(disposed)
    {
      calls := calls + [CompletedCall];
    }

    method SetUpstream(d: DisposableId)
      modifies this
      ensures calls == old(calls) + [UpstreamCall(d)] && disposed == old(disposed)
    {
      calls := calls + [UpstreamCall(d)];
    }

    /** `is_disposed` is a const member: it reads the observer and changes nothing. */
    function IsDisposed(): bool
      reads this
    {
      disposed
    }
  }

  /** The dispatch table: one entry per capability, each bound to a member. */
  datatype VTable = VTable(
    onNextLvalue: Member,
    onNextRvalue: Member,
    onError: Member,
    onCompleted: Member,
    setUpstream: Member,
    isDisposed: Member)
  {
    /** The entry stored for each member: the one whose slot carries it. */
    function Entries(): seq<Member>
    {
      [onNextLvalue, onNextRvalue, onError, onCompleted, setUpstream, isDisposed]
    }
  }

  /** `vtable::create`: the one table of the wrapped observer type, each entry
      bound to the member of the same name; the two `on_next` overloads get
      different entries. */
  function Create(): (t: VTable)
    ensures forall i, j :: 0 <= i < j < |t.Entries()| ==> t.Entries()[i] != t.Entries()[j]
    ensures t.onNextLvalue == OnNextLvalue && t.onNextRvalue == OnNextRvalue
    ensures t.onError == OnErrorMember && t.onCompleted == OnCompletedMember
    ensures t.setUpstream == SetUpstreamMember && t.isDisposed == IsDisposedMember
  {
    VTable(OnNextLvalue, OnNextRvalue, OnErrorMember, OnCompletedMember, SetUpstreamMember, IsDisposedMember)
  }

  /** The number of calls a member has handled, as the counters of an observer built from callbacks. */
  function Count<T>(calls: seq<Call<T>>, m: Member): nat
    decreases |calls|
  {
    if calls == [] then 0
    else Count(calls[..|calls| - 1], m) + (if calls[|calls| - 1].Handler() == m then 1 else 0)
  }

  /** One more call raises the counter of the member that handled it, and no other. */
  lemma CountAppend<T>(calls: seq<Call<T>>, c: Call<T>, m: Member)
    ensures Count(calls + [c], m) == Count(calls, m) + (if c.Handler() == m then 1 else 0)
  {
    assert (calls + [c])[..|calls|] == calls;
  }

  /** Every call is handled by one of the five call entries, so their counters
      add up to the number of calls; `is_disposed` is a query and has no share. */
  lemma {:induction false} CountsAddUp<T>(calls: seq<Call<T>>)
    ensures Count(calls, OnNextLvalue) + Count(calls, OnNextRvalue) + Count(calls, OnErrorMember)
          + Count(calls, OnCompletedMember) + Count(calls, SetUpstreamMember) == |calls|
    decreases |calls|
  {
    if calls != [] {
      CountsAddUp(calls[..|calls| - 1]);
    }
  }

  /** Calling a const entry of the table: only `is_disposed` has that shape. */
  function Query<T>(entry: Member, target: Observer<T>): bool
    requires entry == IsDisposedMember
    reads target
  {
    target.IsDisposed()
  }

  class DynamicStrategy<T> {
    /** `m_forwarder`: the wrapped observer, shared by every copy. */
    const forwarder: Observer<T>
    /** `m_vtable`: the table of the wrapped observer's type. */
    const vtable: VTable

    /** Wraps an observer; the wrapped observer is never itself a dynamic
        strategy, since the constructor takes an `Observer`. */
    constructor (obs: Observer<T>)
      ensures forwarder == obs && vtable == Create()
    {
      forwarder := obs;
      vtable := Create();
    }

    /** The copy constructor: both copies hold the same wrapped observer and table. */
    constructor Copy(other: DynamicStrategy<T>)
      ensures forwarder == other.forwarder && vtable == other.vtable
    {
      forwarder := other.forwarder;
      vtable := other.vtable;
    }

    predicate Valid()
    {
      vtable == Create()
    }

    method OnNextByRef(v: T)
      requires Valid()
      modifies forwarder
      ensures forwarder.calls == old(forwarder.calls) + [NextByRef(v)]
      ensures forwarder.disposed == old(forwarder.disposed)
    {
      match vtable.onNextLvalue {
        case OnNextLvalue => forwarder.OnNextRef(v);
        case _ => assert false;
      }
    }

    method OnNextByMove(v: T)
      requires Valid()
      modifies forwarder
      ensures forwarder.calls == old(forwarder.calls) + [NextByMove(v)]
      ensures forwarder.disposed == old(forwarder.disposed)
    {
      match vtable.onNextRvalue {
        case OnNextRvalue => forwarder.OnNextMove(v);
        case _ => assert false;
      }
    }

    method OnError(e: ErrorToken)
      requires Valid()
      modifies forwarder
      ensures forwarder.calls == old(forwarder.calls) + [ErrorCall(e)]
      ensures forwarder.disposed == old(forwarder.disposed)
    {
      match vtable.onError {
        case OnErrorMember => forwarder.OnError(e);
        case _ => assert false;
      }
    }

    method OnCompleted()
      requires Valid()
      modifies forwarder
      ensures forwarder.calls == old(forwarder.calls) + [CompletedCall]
      ensures forwarder.disposed == old(forwarder.disposed)
    {
      match vtable.onCompleted {
        case OnCompletedMember => forwarder.OnCompleted();
        case _ => assert false;
      }
    }

    method SetUpstream(d: DisposableId)
      requires Valid()
      modifies forwarder
      ensures forwarder.calls == old(forwarder.calls) + [UpstreamCall(d)]
      ensures forwarder.disposed == old(forwarder.disposed)
    {
      match vtable.setUpstream {
        case SetUpstreamMember => forwarder.SetUpstream(d);
        case _ => assert false;
      }
    }

    /** `is_disposed` answers what the wrapped observer answers. */
    function IsDisposed(): (r: bool)
      requires Valid()
      reads forwarder
      ensures r <==> forwarder.disposed
    {
      Query(vtable.isDisposed, forwarder)
    }
  }

  /** Delivering one call through a dynamic strategy: the counter of the
      matching member rises by one and every other counter stays as it was. */
  method Deliver<T>(d: DynamicStrategy<T>, c: Call<T>)
    requires d.Valid()
    modifies d.forwarder
    ensures forall m :: Count(d.forwarder.calls, m) == Count(old(d.forwarder.calls), m) + (if m == c.Handler() then 1 else 0)
    ensures d.forwarder.calls == old(d.forwarder.calls) + [c]
    ensures d.forwarder.disposed == old(d.forwarder.disposed)
  {
    match c {
      case NextByRef(v) => d.OnNextByRef(v);
      case NextByMove(v) => d.OnNextByMove(v);
      case ErrorCall(e) => d.OnError(e);
      case CompletedCall => d.OnCompleted();
      case UpstreamCall(u) => d.SetUpstream(u);
    }
    forall m ensures Count(d.forwarder.calls, m) == Count(old(d.forwarder.calls), m) + (if m == c.Handler() then 1 else 0) {
      CountAppend(old(d.forwarder.calls), c, m);
    }
  }

  /** The callback-counting scenario: a fresh observer, wrapped, receives one
      `on_next`, `on_error` or `on_completed`; exactly the matching counter
      reads 1 and the other two read 0. */
  method ValidateObserver(m: Member) returns (nextCount: nat, errorCount: nat, completedCount: nat)
    requires m == OnNextRvalue || m == OnErrorMember || m == OnCompletedMember
    ensures nextCount == (if m == OnNextRvalue then 1 else 0)
    ensures errorCount == (if m == OnErrorMember then 1 else 0)
    ensures completedCount == (if m == OnCompletedMember then 1 else 0)
  {
    var target := new Observer<int>(false);
    var d := new DynamicStrategy(target);
    var c: Call<int> := if m == OnNextRvalue then NextByMove(1) else if m == OnErrorMember then ErrorCall(0) else CompletedCall;
    Deliver(d, c);
    nextCount := Count(target.calls, OnNextLvalue) + Count(target.calls, OnNextRvalue);
    errorCount := Count(target.calls, OnErrorMember);
    completedCount := Count(target.calls, OnCompletedMember);
  }

  /** Copies alias: a call through a copy reaches the original's wrapped
      observer, and both answer `is_disposed` alike. */
  method CopyShares<T>(d: DynamicStrategy<T>, c: Call<T>) returns (copy: DynamicStrategy<T>)
    requires d.Valid()
    modifies d.forwarder
    ensures copy.Valid() && copy.forwarder == d.forwarder
    ensures d.forwarder.calls == old(d.forwarder.calls) + [c]
    ensures copy.IsDisposed() == d.IsDisposed()
  {
    copy := new DynamicStrategy.Copy(d);
    Deliver(copy, c);
  }
}
