/**
 * Observer.ts: a subject keeps an ordered list of observers; `attach` pushes,
 * `detach` splices out the first identical entry, `notify` calls `update` on
 * every entry in list order. Observers are compared by reference, as `indexOf`
 * does with `===`.
 */
module Observer {
  import Lists

  /** A `ConcreteObserver`; it has no state, only an identity. */
  class ConcreteObserver {
    constructor () {}

    /** `update(data)`: the console line the observer writes. */
    method Update(data: string) returns (line: string)
      ensures line == UpdateLine(data)
    {
      line := "Recived data: " + data;
    }
  }

  /** The line `ConcreteObserver.update` logs: the source's own spelling, "Recived". */
  function UpdateLine(data: string): string {
    "Recived data: " + data
  }

  /** One `update` call made by `notify`: who was called and what it wrote. */
  datatype Delivery = Delivery(observer: ConcreteObserver, line: string)

  /** The observers reached by a sequence of deliveries, in call order. */
  function Recipients(ds: seq<Delivery>): (r: seq<ConcreteObserver>)
    ensures |r| == |ds|
    ensures forall i :: 0 <= i < |ds| ==> r[i] == ds[i].observer
  {
    if ds == [] then [] else [ds[0].observer] + Recipients(ds[1..])
  }

  class ConcreteSubject {
    var observers: seq<ConcreteObserver>

    constructor ()
      ensures observers == []
    {
      observers := [];
    }

    /** `attach`: the observer goes at the end; earlier entries stay as they were. */
    method Attach(observer: ConcreteObserver)
      modifies this
      ensures observers == old(observers) + [observer]
    {
      observers := observers + [observer];
    }

    /**
     * `detach`: `indexOf` and, if found, `splice(index, 1)`; an absent observer
     * leaves the list alone.
     */
    method Detach(observer: ConcreteObserver)
      modifies this
      ensures observers == Lists.RemoveFirst(old(observers), observer)
      ensures observer !in old(observers) ==> observers == old(observers)
    {
      var index := Lists.IndexOf(observers, observer);
      if index != -1 {
        observers := Lists.RemoveAt(observers, index);
      }
    }

    /**
     * `notify`: one `update(data)` per list entry, in list order (an observer
     * attached twice is called twice). The list itself is not changed.
     */
    method Notify(data: string) returns (calls: seq<Delivery>)
      ensures |calls| == |observers|
      ensures forall i :: 0 <= i < |calls| ==> calls[i] == Delivery(observers[i], UpdateLine(data))
      ensures Recipients(calls) == observers
    {
      calls := [];
      for i := 0 to |observers|
        invariant |calls| == i
        invariant forall k :: 0 <= k < i ==> calls[k] == Delivery(observers[k], UpdateLine(data))
      {
        var line := observers[i].Update(data);
        calls := calls + [Delivery(observers[i], line)];
      }
    }
  }

  /** Detaching the first of two distinct observers leaves the second alone. */
  lemma DetachFromPair(o1: ConcreteObserver, o2: ConcreteObserver)
    ensures Lists.RemoveFirst([o1, o2], o1) == [o2]
  {
    assert [o1, o2] == [] + [o1] + [o2];
    Lists.RemoveFirstOccurrence([], o1, [o2]);
  }

  /**
   * The `main` scenario: attach o1 and o2, notify, detach o1, notify again.
   * The first pass reaches o1 then o2, the second only o2.
   */
  method Scenario() returns (o1: ConcreteObserver, o2: ConcreteObserver,
                             first: seq<Delivery>, second: seq<Delivery>)
    ensures o1 != o2
    ensures first == [Delivery(o1, UpdateLine("Hello, observers!")),
                      Delivery(o2, UpdateLine("Hello, observers!"))]
    ensures second == [Delivery(o2, UpdateLine("Goodbye, observer 1!"))]
  {
    var subject := new ConcreteSubject();
    o1 := new ConcreteObserver();
    subject.Attach(o1);
    o2 := new ConcreteObserver();
    subject.Attach(o2);
    assert subject.observers == [o1, o2];
    first := subject.Notify("Hello, observers!");
    assert first == [Delivery(o1, UpdateLine("Hello, observers!")),
                     Delivery(o2, UpdateLine("Hello, observers!"))];
    subject.Detach(o1);
    DetachFromPair(o1, o2);
    second := subject.Notify("Goodbye, observer 1!");
    assert second == [Delivery(o2, UpdateLine("Goodbye, observer 1!"))];
  }
}
