/**
 * ChainResponsibility.ts: handlers linked through a mutable `nextHandler`
 * field. `handleRequest` lets the current handler handle the request when its
 * `canHandle` accepts it, otherwise forwards it to the next handler, and at
 * the end of the chain reports that the request cannot be handled.
 */
module ChainResponsibility {

  /** The three concrete handler classes. */
  datatype Kind = HandlerA | HandlerB | HandlerC

  /** The one request each concrete handler accepts. */
  function Accepted(k: Kind): string {
    match k
    case HandlerA => "A"
    case HandlerB => "B"
    case HandlerC => "C"
  }

  /** `canHandle`: `request === "A"` (resp. "B", "C"). */
  predicate CanHandle(k: Kind, request: string) {
    request == Accepted(k)
  }

  function ClassName(k: Kind): string {
    match k
    case HandlerA => "ConcreteHandlerA"
    case HandlerB => "ConcreteHandlerB"
    case HandlerC => "ConcreteHandlerC"
  }

  /** A console line: `handle`'s message, or the end-of-chain message. */
  datatype Line = Handles(handler: Kind, request: string) | CannotBeHandled

  /** The text of a console line. */
  function Text(l: Line): string {
    match l
    case Handles(k, request) => ClassName(k) + " handles request: " + request
    case CannotBeHandled => "Request cannot be handled."
  }

  /** The result of dispatching a request: the position of the handler that took it, or none. */
  datatype Outcome = HandledAt(index: nat) | Unhandled

  /**
   * The reference meaning of a chain of handler kinds: the first handler, in
   * chain order, whose `canHandle` accepts the request; `Unhandled` when none does.
   */
  function Dispatch(kinds: seq<Kind>, request: string): (r: Outcome)
    ensures r.HandledAt? <==> exists i :: 0 <= i < |kinds| && CanHandle(kinds[i], request)
    ensures r.HandledAt? ==> r.index < |kinds| && CanHandle(kinds[r.index], request)
    ensures r.HandledAt? ==> forall j :: 0 <= j < r.index ==> !CanHandle(kinds[j], request)
  {
    if |kinds| == 0 then Unhandled
    else if CanHandle(kinds[0], request) then HandledAt(0)
    else
      match Dispatch(kinds[1..], request)
      case HandledAt(i) => HandledAt(i + 1)
      case Unhandled => Unhandled
  }

  /** The line logged for an outcome. */
  function OutcomeLines(kinds: seq<Kind>, outcome: Outcome, request: string): seq<Line>
    requires outcome.HandledAt? ==> outcome.index < |kinds|
  {
    match outcome
    case HandledAt(i) => [Handles(kinds[i], request)]
    case Unhandled => [CannotBeHandled]
  }

  /** No request is accepted by two different kinds of handler. */
  lemma AcceptsExactlyOne(k1: Kind, k2: Kind, request: string)
    requires CanHandle(k1, request) && CanHandle(k2, request)
    ensures k1 == k2
  {
    match k1
    case HandlerA => assert request == "A";
    case HandlerB => assert request == "B";
    case HandlerC => assert request == "C";
  }

  class Handler {
    const kind: Kind
    var nextHandler: Handler?

    constructor (kind: Kind)
      ensures this.kind == kind && nextHandler == null
    {
      this.kind := kind;
      nextHandler := null;
    }

    /** `setNext`: replaces the link, so the last call wins. */
    method SetNext(handler: Handler)
      modifies this
      ensures nextHandler == handler
    {
      nextHandler := handler;
    }

    /**
     * `handleRequest`, on the handlers it visits. The ghost `chain` lists the
     * handlers reached by following `nextHandler` from here until one accepts
     * the request or has no successor; such a list exists exactly when the
     * source's recursion stops, which it does after at most `|chain|` steps.
     * The links may form a cycle, as long as the walk meets an accepting
     * handler first (a cycle with none recurses forever in the source).
     */
    method HandleRequest(request: string, ghost chain: seq<Handler>)
        returns (outcome: Outcome, out: seq<Line>)
      requires IsPathFor(this, chain, request)
      ensures outcome == Dispatch(Kinds(chain), request)
      ensures out == OutcomeLines(Kinds(chain), outcome, request)
      decreases |chain|
    {
      if CanHandle(kind, request) {
        outcome, out := HandledAt(0), [Handles(kind, request)];
      } else if nextHandler != null {
        assert Kinds(chain)[1..] == Kinds(chain[1..]);
        var o;
        o, out := nextHandler.HandleRequest(request, chain[1..]);
        outcome := if o.HandledAt? then HandledAt(o.index + 1) else Unhandled;
      } else {
        outcome, out := Unhandled, [CannotBeHandled];
      }
    }
  }

  /** The kinds along a chain, in chain order. */
  function Kinds(chain: seq<Handler>): (ks: seq<Kind>)
    ensures |ks| == |chain|
    ensures forall i :: 0 <= i < |chain| ==> ks[i] == chain[i].kind
  {
    if chain == [] then [] else [chain[0].kind] + Kinds(chain[1..])
  }

  /**
   * `chain` is what following `nextHandler` from `h` visits: it starts at `h`,
   * each entry links to the next, and the last one has no successor.
   */
  ghost predicate IsChainFrom(h: Handler, chain: seq<Handler>)
    reads chain
  {
    |chain| > 0 && chain[0] == h &&
    (forall i :: 0 <= i < |chain| - 1 ==> chain[i].nextHandler == chain[i + 1]) &&
    chain[|chain| - 1].nextHandler == null
  }

  /**
   * `chain` is the walk `handleRequest(request)` makes from `h`: it starts at
   * `h`, each entry links to the next, and the walk ends at a handler that
   * accepts the request or has no successor.
   */
  ghost predicate IsPathFor(h: Handler, chain: seq<Handler>, request: string)
    reads chain
  {
    |chain| > 0 && chain[0] == h &&
    (forall i :: 0 <= i < |chain| - 1 ==> chain[i].nextHandler == chain[i + 1]) &&
    (chain[|chain| - 1].nextHandler == null || CanHandle(chain[|chain| - 1].kind, request))
  }

  /**
   * On the chain A, B, C each of "A", "B", "C" is taken by the handler of that
   * name; "D" is taken by none.
   */
  lemma DispatchABC()
    ensures Dispatch([HandlerA, HandlerB, HandlerC], "A") == HandledAt(0)
    ensures Dispatch([HandlerA, HandlerB, HandlerC], "B") == HandledAt(1)
    ensures Dispatch([HandlerA, HandlerB, HandlerC], "C") == HandledAt(2)
    ensures Dispatch([HandlerA, HandlerB, HandlerC], "D") == Unhandled
  {
    var ks := [HandlerA, HandlerB, HandlerC];
    assert ks[1..] == [HandlerB, HandlerC] && ks[2..] == [HandlerC] && ks[3..] == [];
  }

  /** The driver's wiring: `handlerA.setNext(handlerB); handlerB.setNext(handlerC)`. */
  method BuildChain() returns (head: Handler, ghost chain: seq<Handler>)
    ensures IsChainFrom(head, chain)
    ensures forall request :: IsPathFor(head, chain, request)
    ensures Kinds(chain) == [HandlerA, HandlerB, HandlerC]
  {
    var handlerA := new Handler(HandlerA);
    var handlerB := new Handler(HandlerB);
    var handlerC := new Handler(HandlerC);
    handlerA.SetNext(handlerB);
    handlerB.SetNext(handlerC);
    head, chain := handlerA, [handlerA, handlerB, handlerC];
    assert Kinds(chain) == [HandlerA] + Kinds([handlerB, handlerC]);
  }

  /**
   * The driver: A -> B -> C, then requests "B", "C" and "D". "B" is handled
   * by B, "C" by C, and "D" by nobody.
   */
  method Scenario() returns (out: seq<Line>)
    ensures out == [Handles(HandlerB, "B"), Handles(HandlerC, "C"), CannotBeHandled]
  {
    var handlerA, chain := BuildChain();
    DispatchABC();
    var _, out1 := handlerA.HandleRequest("B", chain);
    var _, out2 := handlerA.HandleRequest("C", chain);
    var _, out3 := handlerA.HandleRequest("D", chain);
    out := out1 + out2 + out3;
  }

  /** The console text of the driver's line for "B", as its expected-output comment gives it. */
  lemma HandlesBText()
    ensures Text(Handles(HandlerB, "B")) == "ConcreteHandlerB handles request: B"
  {
  }

  /** The console text of the driver's line for "C". */
  lemma HandlesCText()
    ensures Text(Handles(HandlerC, "C")) == "ConcreteHandlerC handles request: C"
  {
  }

  /**
   * A cyclic wiring the source still finishes: with `a.setNext(b)` and
   * `b.setNext(a)`, the request "B" is passed from A to B, which handles it.
   */
  method CyclicChain() returns (out: seq<Line>)
    ensures out == [Handles(HandlerB, "B")]
  {
    var a := new Handler(HandlerA);
    var b := new Handler(HandlerB);
    a.SetNext(b);
    b.SetNext(a);
    assert Kinds([a, b]) == [HandlerA, HandlerB];
    assert Dispatch([HandlerA, HandlerB], "B") == HandledAt(1) by {
      assert [HandlerA, HandlerB][1..] == [HandlerB];
    }
    var _, o := a.HandleRequest("B", [a, b]);
    out := o;
  }
}
