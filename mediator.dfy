/**
 * Mediator.ts: two components that never call each other directly. Each
 * `doX` logs its action and reports event "X" to the mediator; the mediator's
 * `notify` reacts to "A" by running `component2.doC()` and to "D" by running
 * `component1.doB()` then `component2.doC()`, and ignores every other event.
 * The `sender` argument is never looked at.
 */
module Mediator {

  /** The four component actions. */
  datatype Operation = OpA | OpB | OpC | OpD

  /** The event an action reports to the mediator. */
  function EventOf(op: Operation): string {
    match op
    case OpA => "A"
    case OpB => "B"
    case OpC => "C"
    case OpD => "D"
  }

  /** The static routing table of `notify`: the actions an event triggers, in order. */
  function Routing(event: string): seq<Operation> {
    if event == "A" then [OpC]
    else if event == "D" then [OpB, OpC]
    else []
  }

  /** A console line: a component's action, or the mediator's reaction header. */
  datatype Line = Does(op: Operation) | Reacts(event: string)

  /** The text of a console line. */
  function Text(l: Line): string {
    match l
    case Does(OpA) => "Component 1 does A."
    case Does(OpB) => "Component 1 does B."
    case Does(OpC) => "Component 2 does C."
    case Does(OpD) => "Component 2 does D."
    case Reacts(e) => "Mediator reacts on " + e + " and triggers following operations:"
  }

  /** One action line per operation, in order. */
  function ActionLines(ops: seq<Operation>): (r: seq<Line>)
    ensures |r| == |ops|
    ensures forall i :: 0 <= i < |ops| ==> r[i] == Does(ops[i])
  {
    if ops == [] then [] else [Does(ops[0])] + ActionLines(ops[1..])
  }

  /**
   * What `notify(sender, event)` logs: nothing for an unrouted event, else the
   * reaction header followed by the routed actions' lines in table order.
   */
  function NotifyLog(event: string): seq<Line> {
    if Routing(event) == [] then [] else [Reacts(event)] + ActionLines(Routing(event))
  }

  /** What `doX` logs: its own line, then whatever its event makes the mediator do. */
  function OperationLog(op: Operation): seq<Line> {
    [Does(op)] + NotifyLog(EventOf(op))
  }

  /**
   * The routing table never re-triggers a routed event: every action it
   * triggers reports an event that itself triggers nothing. This is why the
   * mutual recursion between `notify` and the `doX` methods stops.
   */
  lemma RoutingIsAcyclic(event: string, i: nat)
    requires i < |Routing(event)|
    ensures Routing(EventOf(Routing(event)[i])) == []
  {
    if event == "A" {
      assert Routing(event) == [OpC];
    } else if event == "D" {
      assert Routing(event) == [OpB, OpC];
    }
  }

  /** Only "A" and "D" are routed. */
  lemma RoutedEvents(event: string)
    ensures Routing(event) != [] <==> event == "A" || event == "D"
  {
    if event == "A" {
      assert Routing(event) == [OpC];
    } else if event == "D" {
      assert Routing(event) == [OpB, OpC];
    }
  }

  /** Recursion depth bound for `notify`: only routed events call back into components. */
  function NotifyRank(event: string): nat {
    if event == "A" || event == "D" then 2 else 0
  }

  class Mediator {
    const component1: Component1
    const component2: Component2

    /**
     * What `notify(_, event)` dereferences: every component it calls back has
     * a mediator for its own `this.mediator!` (any mediator, not necessarily
     * this one, since the events those calls report route nothing).
     */
    predicate CanReact(event: string)
      reads this, component1, component2
    {
      (event == "A" ==> component2.mediator != null) &&
      (event == "D" ==> component1.mediator != null && component2.mediator != null)
    }

    /** The constructor stores both components and makes each point back here. */
    constructor (c1: Component1, c2: Component2)
      modifies c1, c2
      ensures component1 == c1 && component2 == c2
      ensures c1.mediator == this && c2.mediator == this
    {
      component1 := c1;
      component2 := c2;
      new;
      c1.SetMediator(this);
      c2.SetMediator(this);
    }

    /** `notify`: the routing of `event`; `sender` does not matter. */
    method Notify(sender: object, event: string) returns (out: seq<Line>)
      requires CanReact(event)
      ensures out == NotifyLog(event)
      decreases NotifyRank(event)
    {
      out := [];
      if event == "A" {
        out := out + [Reacts("A")];
        var c := component2.DoC();
        out := out + c;
      }
      if event == "D" {
        out := out + [Reacts("D")];
        var b := component1.DoB();
        var c := component2.DoC();
        out := out + b + c;
      }
    }
  }

  class Component1 {
    var mediator: Mediator?

    /** `BaseComponent`'s constructor: the given mediator, `null` by default. */
    constructor (m: Mediator?)
      ensures mediator == m
    {
      mediator := m;
    }

    method SetMediator(m: Mediator)
      modifies this
      ensures mediator == m
    {
      mediator := m;
    }

    /** `doA`: logs, then reports "A" (which makes component 2 do C). */
    method DoA() returns (out: seq<Line>)
      requires mediator != null && mediator.CanReact("A")
      ensures out == OperationLog(OpA)
      ensures out == [Does(OpA), Reacts("A"), Does(OpC)]
      decreases 3
    {
      var n := mediator.Notify(this, "A");
      out := [Does(OpA)] + n;
      assert Routing("A") == [OpC];
    }

    /** `doB`: logs, then reports "B" (which triggers nothing). */
    method DoB() returns (out: seq<Line>)
      requires mediator != null
      ensures out == OperationLog(OpB)
      ensures out == [Does(OpB)]
      decreases 1
    {
      var n := mediator.Notify(this, "B");
      out := [Does(OpB)] + n;
    }
  }

  class Component2 {
    var mediator: Mediator?

    /** `BaseComponent`'s constructor, as for component 1. */
    constructor (m: Mediator?)
      ensures mediator == m
    {
      mediator := m;
    }

    method SetMediator(m: Mediator)
      modifies this
      ensures mediator == m
    {
      mediator := m;
    }

    /** `doC`: logs, then reports "C" (which triggers nothing). */
    method DoC() returns (out: seq<Line>)
      requires mediator != null
      ensures out == OperationLog(OpC)
      ensures out == [Does(OpC)]
      decreases 1
    {
      var n := mediator.Notify(this, "C");
      out := [Does(OpC)] + n;
    }

    /** `doD`: logs, then reports "D" (which makes component 1 do B, then component 2 do C). */
    method DoD() returns (out: seq<Line>)
      requires mediator != null && mediator.CanReact("D")
      ensures out == OperationLog(OpD)
      ensures out == [Does(OpD), Reacts("D"), Does(OpB), Does(OpC)]
      decreases 3
    {
      var n := mediator.Notify(this, "D");
      out := [Does(OpD)] + n;
      assert Routing("D") == [OpB, OpC];
    }
  }

  /** The driver: wire two components, then `component1.doA()` and `component2.doD()`. */
  method Scenario() returns (out: seq<Line>)
    ensures out == [Does(OpA), Reacts("A"), Does(OpC),
                    Does(OpD), Reacts("D"), Does(OpB), Does(OpC)]
  {
    var component1 := new Component1(null);
    var component2 := new Component2(null);
    var mediator := new Mediator(component1, component2);
    var a := component1.DoA();
    var d := component2.DoD();
    out := a + d;
  }

  /**
   * A component shared by two mediators: the second constructor re-points
   * component 1 at `m2`, while component 2 still points at `m1`. `doD` then
   * still logs the whole D reaction; the "B" that component 1 reports goes to
   * `m2`, which routes nothing.
   */
  method SharedComponent() returns (out: seq<Line>)
    ensures out == [Does(OpD), Reacts("D"), Does(OpB), Does(OpC)]
  {
    var c1 := new Component1(null);
    var c2 := new Component2(null);
    var c3 := new Component2(null);
    var m1 := new Mediator(c1, c2);
    var m2 := new Mediator(c1, c3);
    assert c2.mediator == m1 && c1.mediator == m2;
    out := c2.DoD();
  }

  /** The reaction header logged for "A", as the source spells it. */
  lemma ReactsAText()
    ensures Text(Reacts("A")) == "Mediator reacts on A and triggers following operations:"
  {
  }

  /** The reaction header logged for "D". */
  lemma ReactsDText()
    ensures Text(Reacts("D")) == "Mediator reacts on D and triggers following operations:"
  {
  }
}
