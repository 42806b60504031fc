/**
 * State.ts: a `Context` delegates `request` to its current state object.
 * State A logs "mode A" and installs a fresh state B; state B logs "mode B"
 * and installs a fresh state A. A new context starts in state A.
 * Each state object keeps the context it was created for, and `handle`
 * installs its successor there, which need not be the context whose
 * `request` ran.
 */
module State {

  datatype Mode = ModeA | ModeB

  /** The line `handle` logs: 'Работа в режиме A' (resp. B), "working in mode A". */
  function ModeLine(m: Mode): string {
    match m
    case ModeA => "Работа в режиме A"
    case ModeB => "Работа в режиме B"
  }

  /** The state each `handle` installs. */
  function Successor(m: Mode): Mode {
    match m
    case ModeA => ModeB
    case ModeB => ModeA
  }

  /** The mode after `n` requests from a new context. */
  function ModeAfter(n: nat): Mode {
    if n % 2 == 0 then ModeA else ModeB
  }

  /**
   * A state object: `ConcreteStateA` or `ConcreteStateB`, told apart by `mode`,
   * with the context it was constructed with.
   */
  class ConcreteState {
    const context: Context
    const mode: Mode

    constructor (context: Context, mode: Mode)
      ensures this.context == context && this.mode == mode
    {
      this.context := context;
      this.mode := mode;
    }

    /** `handle`: logs its mode and installs a new state of the other class in its own context. */
    method Handle() returns (out: seq<string>)
      modifies context
      ensures out == [ModeLine(mode)]
      ensures context.state != null && fresh(context.state)
      ensures context.state.mode == Successor(mode) && context.state.context == context
    {
      out := [ModeLine(mode)];
      var next := new ConcreteState(context, Successor(mode));
      context.SetState(next);
    }
  }

  class Context {
    /** `null` only while the constructor runs, before the first state exists. */
    var state: ConcreteState?

    /** A new context is in a state A that points back to it. */
    constructor ()
      ensures state != null && state.mode == ModeA && state.context == this
    {
      state := null;
      new;
      state := new ConcreteState(this, ModeA);
    }

    /** `setState`: replaces the current state and nothing else. */
    method SetState(s: ConcreteState)
      modifies this
      ensures state == s
    {
      state := s;
    }

    /**
     * `request`: the current state's `handle`. It logs that state's mode, and
     * the context the state belongs to gets a new state of the other mode.
     */
    method Request() returns (out: seq<string>)
      requires state != null
      modifies state.context
      ensures out == [ModeLine(old(state.mode))]
      ensures old(state.context).state != null && fresh(old(state.context).state)
      ensures old(state.context).state.mode == Successor(old(state.mode))
      ensures old(state.context).state.context == old(state.context)
    {
      out := state.Handle();
    }
  }

  /**
   * `n` requests on a new context: the log alternates A, B, A, ... starting
   * with A, and the context ends in A exactly when `n` is even.
   */
  method Requests(n: nat) returns (out: seq<string>, final: Mode)
    ensures |out| == n
    ensures forall i :: 0 <= i < n ==> out[i] == ModeLine(if i % 2 == 0 then ModeA else ModeB)
    ensures final == ModeA <==> n % 2 == 0
  {
    var context := new Context();
    out := [];
    while |out| < n
      invariant |out| <= n
      invariant context.state != null && context.state.context == context
      invariant context.state.mode == ModeAfter(|out|)
      invariant forall i :: 0 <= i < |out| ==> out[i] == ModeLine(ModeAfter(i))
    {
      var line := context.Request();
      out := out + line;
    }
    final := context.state.mode;
  }

  /** The driver: three requests log A, B, A. */
  method Scenario() returns (out: seq<string>)
    ensures out == ["Работа в режиме A", "Работа в режиме B", "Работа в режиме A"]
  {
    var context := new Context();
    var a1 := context.Request();
    var b := context.Request();
    var a2 := context.Request();
    out := a1 + b + a2;
  }

  /**
   * A state created for another context: after `ctx1.setState(new
   * ConcreteStateB(ctx2))`, `ctx1.request()` logs mode B and moves `ctx2` to
   * state A, while `ctx1` stays in that state B.
   */
  method CrossContext() returns (out: seq<string>, first: Mode, second: Mode)
    ensures out == [ModeLine(ModeB)]
    ensures first == ModeB && second == ModeA
  {
    var ctx1 := new Context();
    var ctx2 := new Context();
    var b := new ConcreteState(ctx2, ModeB);
    ctx1.SetState(b);
    out := ctx1.Request();
    first := ctx1.state.mode;
    second := ctx2.state.mode;
  }
}
