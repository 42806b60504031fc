/**
 * EventHandler.ts: an `EventEmitter<T>` keeps an ordered list of handler
 * functions; `subscribe` pushes, `unsubscribe` splices out the first identical
 * handler, `emit` calls every handler with the event data (`forEach`).
 * Handler functions are compared by reference, so each is modelled by a
 * field-less object whose identity stands for the closure.
 */
module EventHandler {
  import Lists

  /** A handler closure `(data: T) => void`, known only by its identity. */
  class Callback {
    constructor () {}
  }

  /** One handler invocation performed by `emit`. */
  datatype Invocation<T> = Invocation(handler: Callback, data: T)

  class EventEmitter<T> {
    var subscribers: seq<Callback>

    constructor ()
      ensures subscribers == []
    {
      subscribers := [];
    }

    /** `subscribe`: the handler goes at the end of the list. */
    method Subscribe(handler: Callback)
      modifies this
      ensures subscribers == old(subscribers) + [handler]
    {
      subscribers := subscribers + [handler];
    }

    /** `unsubscribe`: removes the first identical handler; absent handlers change nothing. */
    method Unsubscribe(handler: Callback)
      modifies this
      ensures subscribers == Lists.RemoveFirst(old(subscribers), handler)
      ensures handler !in old(subscribers) ==> subscribers == old(subscribers)
    {
      var index := Lists.IndexOf(subscribers, handler);
      if index != -1 {
        subscribers := Lists.RemoveAt(subscribers, index);
      }
    }

    /**
     * `emit`: every subscriber is invoked once per list entry, in list order,
     * with the same data; the list is left as it was.
     */
    method Emit(data: T) returns (calls: seq<Invocation<T>>)
      ensures |calls| == |subscribers|
      ensures forall i :: 0 <= i < |calls| ==> calls[i] == Invocation(subscribers[i], data)
    {
      calls := [];
      var i := 0;
      while i < |subscribers|
        invariant 0 <= i <= |subscribers|
        invariant |calls| == i
        invariant forall k :: 0 <= k < i ==> calls[k] == Invocation(subscribers[k], data)
      {
        calls := calls + [Invocation(subscribers[i], data)];
        i := i + 1;
      }
    }
  }

  /**
   * Subscribing a handler that was not subscribed and then unsubscribing it
   * gives back the original list (the module-level usage at lines 53-62).
   */
  method SubscribeThenUnsubscribe<T>(emitter: EventEmitter<T>, handler: Callback)
    requires handler !in emitter.subscribers
    modifies emitter
    ensures emitter.subscribers == old(emitter.subscribers)
  {
    emitter.Subscribe(handler);
    Lists.AppendThenRemove(old(emitter.subscribers), handler);
    emitter.Unsubscribe(handler);
  }

  /**
   * The driver: a fresh emitter, one subscribed handler, one emit that reaches
   * it with the event data, then an unsubscribe that empties the list again.
   */
  method Scenario<T>(event: T) returns (handler: Callback, calls: seq<Invocation<T>>, remaining: seq<Callback>)
    ensures calls == [Invocation(handler, event)]
    ensures remaining == []
  {
    var emitter := new EventEmitter<T>();
    handler := new Callback();
    emitter.Subscribe(handler);
    calls := emitter.Emit(event);
    emitter.Unsubscribe(handler);
    remaining := emitter.subscribers;
  }
}
