/**
 * `SubscribableValue<T>`: a box holding a value of type `T` that tells its subscribers
 * each time the value is assigned. Subscriptions are kept per subscriber object, one
 * closure each.
 */
module Subscribable {
  import Fanout

  type Notification<T> = Fanout.Call<object, T>

  class SubscribableValue<T> {
    var value: T
    /** The map table from subscriber object to its closure. */
    var subscriptions: map<object, Fanout.Callback>

    /** `init(value:)`: stores the value; `didSet` does not run in an initialiser. */
    constructor (value: T)
      ensures this.value == value
      ensures subscriptions == map[]
    {
      this.value := value;
      subscriptions := map[];
    }

    /**
     * `subscribe(_:using:)`: registers `handler` for `subscriber`, replacing that object's
     * earlier closure if it had one. The value is untouched and no closure is called.
     */
    method Subscribe(subscriber: object, handler: Fanout.Callback)
      modifies this
      ensures subscriptions == old(subscriptions)[subscriber := handler]
      ensures subscriptions[subscriber] == handler
      ensures forall o | o in old(subscriptions) && o != subscriber :: o in subscriptions && subscriptions[o] == old(subscriptions)[o]
      ensures value == old(value)
    {
      subscriptions := subscriptions[subscriber := handler];
    }

    /**
     * Assigning `value`: stores it, then `didSet` calls every registered closure exactly
     * once with the stored value, in the table's enumeration order.
     */
    method SetValue(newValue: T) returns (notified: seq<Notification<T>>)
      modifies this
      ensures value == newValue
      ensures subscriptions == old(subscriptions)
      ensures Fanout.CallsEachOnce(notified, subscriptions, subscriptions.Keys, newValue)
      ensures |notified| == |subscriptions|
    {
      value := newValue;
      var current := value;
      notified := Fanout.CallEach(subscriptions, subscriptions.Keys, current);
    }
  }

  /**
   * Two subscriptions from one object leave only the second closure, and a later
   * assignment calls it alone.
   */
  method ResubscribeScenario<T>(initial: T, next: T, subscriber: object) returns (notified: seq<Notification<T>>)
    ensures notified == [Fanout.Call(subscriber, 2, next)]
  {
    var box := new SubscribableValue(initial);
    box.Subscribe(subscriber, 1);
    box.Subscribe(subscriber, 2);
    assert box.subscriptions == map[subscriber := 2];
    notified := box.SetValue(next);
    assert |notified| == 1;
    assert notified[0].key in Fanout.CalledKeys(notified);
  }
}
