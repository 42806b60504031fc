/**
 * Command.ts: a `RemoteControl` keeps a stack of commands (`push`/`pop`) and a
 * one-slot undo record. `pressButton` pops and executes the most recently set
 * command and remembers it; `undoButton` undoes the remembered command once.
 * The only command kind is `LightOnCommand`, whose receiver is a `Light`;
 * the light's on/off condition is made explicit as a boolean field.
 */
module Command {
  import opened Wrappers

  const LightOnLine := "Light is on"
  const LightOffLine := "Light is off"

  class Light {
    var isOn: bool

    constructor ()
      ensures !isOn
    {
      isOn := false;
    }

    /** `turnOn`: logs "Light is on". */
    method TurnOn() returns (out: seq<string>)
      modifies this
      ensures isOn && out == [LightOnLine]
    {
      isOn := true;
      out := [LightOnLine];
    }

    /** `turnOff`: logs "Light is off". */
    method TurnOff() returns (out: seq<string>)
      modifies this
      ensures !isOn && out == [LightOffLine]
    {
      isOn := false;
      out := [LightOffLine];
    }
  }

  /** The `Command` interface's implementations: here only `LightOnCommand`. */
  datatype Command = LightOnCommand(light: Light)

  /** The light a command acts on, as a frame. */
  function Receivers(c: Option<Command>): set<Light> {
    if c.Some? then {c.value.light} else {}
  }

  /** `execute`: `LightOnCommand` switches its light on. */
  method Execute(c: Command) returns (out: seq<string>)
    modifies c.light
    ensures c.light.isOn && out == [LightOnLine]
  {
    out := c.light.TurnOn();
  }

  /** `undo`: the compensating action, switching the light off. */
  method Undo(c: Command) returns (out: seq<string>)
    modifies c.light
    ensures !c.light.isOn && out == [LightOffLine]
  {
    out := c.light.TurnOff();
  }

  /** The top of the command stack, if any. */
  function Top(commands: seq<Command>): Option<Command> {
    if |commands| > 0 then Some(commands[|commands| - 1]) else None
  }

  class RemoteControl {
    var commands: seq<Command>
    var undoCommand: Option<Command>

    constructor ()
      ensures commands == [] && undoCommand == None
    {
      commands := [];
      undoCommand := None;
    }

    /** `setCommand`: pushes onto the end of the stack. */
    method SetCommand(command: Command)
      modifies this
      ensures commands == old(commands) + [command]
      ensures undoCommand == old(undoCommand)
    {
      commands := commands + [command];
    }

    /**
     * `pressButton`: on a non-empty stack, pops the most recently set command,
     * executes it and makes it the undo record (replacing any earlier one);
     * on an empty stack nothing happens.
     */
    method PressButton() returns (out: seq<string>)
      modifies this, Receivers(Top(commands))
      ensures old(commands) == [] ==>
        commands == [] && undoCommand == old(undoCommand) && out == []
      ensures old(commands) != [] ==>
        var top := old(commands[|commands| - 1]);
        commands == old(commands[..|commands| - 1]) &&
        undoCommand == Some(top) &&
        top.light.isOn && out == [LightOnLine]
    {
      out := [];
      if |commands| > 0 {
        var command := commands[|commands| - 1];
        commands := commands[..|commands| - 1];
        out := Execute(command);
        undoCommand := Some(command);
      }
    }

    /**
     * `undoButton`: with a recorded command, undoes it and clears the record;
     * without one, nothing happens. The stack is not touched.
     */
    method UndoButton() returns (out: seq<string>)
      modifies this, Receivers(undoCommand)
      ensures commands == old(commands)
      ensures undoCommand == None
      ensures old(undoCommand) == None ==> out == []
      ensures old(undoCommand).Some? ==>
        !old(undoCommand).value.light.isOn && out == [LightOffLine]
    {
      out := [];
      if undoCommand.Some? {
        out := Undo(undoCommand.value);
        undoCommand := None;
      }
    }
  }

  /**
   * The driver: set a `LightOnCommand`, press, undo. The light ends up off and
   * the log reads "Light is on", "Light is off"; a further undo adds nothing.
   */
  method Scenario() returns (out: seq<string>, lightIsOn: bool, extra: seq<string>)
    ensures out == ["Light is on", "Light is off"]
    ensures !lightIsOn
    ensures extra == []
  {
    var light := new Light();
    var lightOnCommand := LightOnCommand(light);
    var remoteControl := new RemoteControl();
    remoteControl.SetCommand(lightOnCommand);
    var pressed := remoteControl.PressButton();
    var undone := remoteControl.UndoButton();
    out := pressed + undone;
    lightIsOn := light.isOn;
    extra := remoteControl.UndoButton();
  }

  /**
   * Stack order: with two commands set in order, the first press executes the
   * second, last-set one and leaves the first queued, its light untouched;
   * the undo then switches the second light off again.
   */
  method StackOrder() returns (l1: Light, l2: Light, pressedFirst: bool, pressedSecond: bool,
                               finalFirst: bool, finalSecond: bool, remaining: seq<Command>)
    ensures l1 != l2
    ensures !pressedFirst && pressedSecond
    ensures !finalFirst && !finalSecond
    ensures remaining == [LightOnCommand(l1)]
  {
    l1 := new Light();
    l2 := new Light();
    var remote := new RemoteControl();
    remote.SetCommand(LightOnCommand(l1));
    remote.SetCommand(LightOnCommand(l2));
    var _ := remote.PressButton();
    pressedFirst, pressedSecond := l1.isOn, l2.isOn;
    var _ := remote.UndoButton();
    finalFirst, finalSecond, remaining := l1.isOn, l2.isOn, remote.commands;
  }
}
