/**
 * Memento.ts: an `Originator` whose one string field can be saved into an
 * immutable `Memento` and restored from one, and a `Caretaker` that keeps the
 * saved mementos in the order they were added.
 *
 * `Originator.state` has no initialiser in the source, so before the first
 * `setState` it is `undefined`: the state is an `Option<string>`.
 */
module Memento {
  import opened Wrappers

  /** A snapshot: it holds the state it was created with, and nothing can change it. */
  datatype Memento = Memento(state: Option<string>)

  /** `Memento.getState`. */
  function MementoState(m: Memento): Option<string> {
    m.state
  }

  class Originator {
    var state: Option<string>

    constructor ()
      ensures state == None
    {
      state := None;
    }

    /** `getState`. */
    function GetState(): Option<string>
      reads this
    {
      state
    }

    /** `setState`: replaces the state; a following `getState` returns `s`. */
    method SetState(s: string)
      modifies this
      ensures GetState() == Some(s)
    {
      state := Some(s);
    }

    /** `createMemento`: a snapshot of the current state; the originator is unchanged. */
    method CreateMemento() returns (m: Memento)
      ensures MementoState(m) == GetState()
    {
      m := Memento(state);
    }

    /** `restoreMemento`: the state becomes the snapshot's. */
    method RestoreMemento(m: Memento)
      modifies this
      ensures GetState() == MementoState(m)
    {
      state := MementoState(m);
    }
  }

  class Caretaker {
    var mementos: seq<Memento>

    constructor ()
      ensures mementos == []
    {
      mementos := [];
    }

    /**
     * `getMemento(index)`: the memento added `index`-th (from 0), or
     * `undefined` when no memento was added at that position.
     */
    function GetMemento(index: int): (r: Option<Memento>)
      reads this
      ensures r.Some? <==> 0 <= index < |mementos|
      ensures r.Some? ==> r.value == mementos[index]
    {
      if 0 <= index < |mementos| then Some(mementos[index]) else None
    }

    /** `addMemento`: appends; every earlier index still gives the same memento. */
    method AddMemento(m: Memento)
      modifies this
      ensures mementos == old(mementos) + [m]
      ensures GetMemento(|old(mementos)|) == Some(m)
      ensures forall i :: 0 <= i < |old(mementos)| ==> GetMemento(i) == old(GetMemento(i))
    {
      mementos := mementos + [m];
    }
  }

  /** Restoring a memento just taken leaves the state as it was. */
  method SaveThenRestore(o: Originator)
    modifies o
    ensures o.GetState() == old(o.GetState())
  {
    var m := o.CreateMemento();
    o.RestoreMemento(m);
  }

  /** A memento keeps its state when the originator changes afterwards. */
  method SnapshotIsFixed(o: Originator, s: string) returns (m: Memento)
    modifies o
    ensures MementoState(m) == old(o.GetState())
    ensures o.GetState() == Some(s)
  {
    m := o.CreateMemento();
    o.SetState(s);
  }

  /**
   * The driver: "State 1" is saved as memento 0, the state becomes "State 2",
   * memento 0 is restored, and `getState` gives "State 1" again.
   */
  method Scenario() returns (out: seq<string>)
    ensures out == ["State 1"]
  {
    var originator := new Originator();
    var caretaker := new Caretaker();
    originator.SetState("State 1");
    var m := originator.CreateMemento();
    caretaker.AddMemento(m);
    originator.SetState("State 2");
    var saved := caretaker.GetMemento(0);
    originator.RestoreMemento(saved.value);
    var s := originator.GetState();
    out := [s.value];
  }
}
