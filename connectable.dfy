/** `connectable_observable` as objects: the connection state behind one shared
    pointer, and the connectable that holds it together with the original
    observable and the subject. `Connect` is one step: the locked section and
    the registration of the teardown after it. The teardown is two steps, the
    locked swap and the release after it, as in the code. Every method is
    proved to move the objects exactly as the gate of `ConnectableSpec` moves. */
module Connectable {
  import opened Rx
  import opened ConnectableSpec

  /** `state_t`: the stored link, empty until a connection is made. */
  class ConnectionState {
    var sub: Option<SubscriptionId>

    constructor ()
      ensures sub == None
    {
      sub := None;
    }
  }

  /** What `connect` and its teardown reach outside the gate: the original
      observable (the subscriptions it was subscribed with), the subject's
      subscription (its children), the callers' subscriptions (those that
      carry a teardown) and the links that were unsubscribed. */
  class World {
    var subscribed: seq<SubscriptionId>
    var subjectChildren: set<SubscriptionId>
    var teardowns: seq<SubscriptionId>
    var unsubscribed: seq<SubscriptionId>

    constructor ()
      ensures subscribed == [] && subjectChildren == {} && teardowns == [] && unsubscribed == []
    {
      subscribed, subjectChildren, teardowns, unsubscribed := [], {}, [], [];
    }
  }

  class ConnectableObservable {
    /** `m_state`: shared by every copy. */
    const state: ConnectionState
    /** `m_original_observable` and `m_subject`, with what they have received. */
    const world: World

    constructor ()
      ensures fresh(state) && fresh(world)
      ensures Model() == Init()
    {
      state := new ConnectionState();
      world := new World();
    }

    /** Copying the connectable copies the shared pointer: both see one state. */
    constructor Copy(other: ConnectableObservable)
      ensures state == other.state && world == other.world
    {
      state := other.state;
      world := other.world;
    }

    function Model(): Gate
      reads state, world
    {
      Gate(state.sub, world.subscribed, world.subjectChildren, world.teardowns, world.unsubscribed)
    }

    method Connect(subscription: SubscriptionId) returns (r: SubscriptionId)
      modifies state, world
      ensures (Model(), r) == ConnectableSpec.Connect(old(Model()), subscription)
    {
      if state.sub.Some? {
        return subscription;
      }
      state.sub := Some(subscription);
      world.subjectChildren := world.subjectChildren + {subscription};
      world.subscribed := world.subscribed + [subscription];
      world.teardowns := world.teardowns + [subscription];
      return subscription;
    }

    /** The locked half of the teardown: swap the stored link with an empty one. */
    method SwapOut() returns (current: Option<SubscriptionId>)
      modifies state
      ensures (Model(), current) == TeardownSwap(old(Model()))
    {
      current := None;
      current, state.sub := state.sub, current;
    }

    /** The unlocked half: unsubscribe what was swapped out and remove it from
        the subject's subscription. */
    method Release(current: Option<SubscriptionId>)
      modifies world
      ensures Model() == TeardownRelease(old(Model()), current)
    {
      if current.Some? {
        world.unsubscribed := world.unsubscribed + [current.value];
        world.subjectChildren := world.subjectChildren - {current.value};
      }
    }

    /** The callback `connect` registers on the caller's subscription, run
        with nothing in between its two halves. */
    method Teardown()
      modifies state, world
      ensures Model() == ConnectableSpec.Teardown(old(Model()))
    {
      TeardownInSections(Model());
      var current := SwapOut();
      Release(current);
    }
  }

  /** A connect through one copy is seen by the other: connecting again through
      the copy does not subscribe the original observable a second time. */
  method ConnectThroughCopies(c: ConnectableObservable, s1: SubscriptionId, s2: SubscriptionId)
      returns (r1: SubscriptionId, r2: SubscriptionId)
    requires c.state.sub == None
    modifies c.state, c.world
    ensures r1 == s1 && r2 == s2
    ensures c.state.sub == Some(s1)
    ensures c.world.subscribed == old(c.world.subscribed) + [s1]
  {
    var d := new ConnectableObservable.Copy(c);
    r1 := c.Connect(s1);
    r2 := d.Connect(s2);
  }
}
