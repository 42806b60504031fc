/**
 * Multiplexer.ts: a queue of parameterless tasks; `addTask` appends, and
 * `executeTasks` runs every queued task in order (`forEach`) and then empties
 * the queue. A task is modelled by the console lines it writes.
 */
module Multiplexer {

  /** A task `() => void`, known by what it logs. */
  datatype Task = Task(output: seq<string>)

  /** The log of running the tasks one after another. */
  function RunAll(tasks: seq<Task>): seq<string> {
    if tasks == [] then [] else tasks[0].output + RunAll(tasks[1..])
  }

  /** Running two queues back to back logs the same as running them as one queue. */
  lemma {:induction false} RunAllAppend(a: seq<Task>, b: seq<Task>)
    ensures RunAll(a + b) == RunAll(a) + RunAll(b)
  {
    if a == [] {
      assert a + b == b;
    } else {
      assert (a + b)[1..] == a[1..] + b;
      RunAllAppend(a[1..], b);
    }
  }

  class Multiplexer {
    var tasks: seq<Task>

    constructor ()
      ensures tasks == []
    {
      tasks := [];
    }

    /** `addTask`: appends to the queue. */
    method AddTask(task: Task)
      modifies this
      ensures tasks == old(tasks) + [task]
    {
      tasks := tasks + [task];
    }

    /**
     * `executeTasks`: every queued task runs once, in insertion order; the
     * queue is then empty, so a second call runs nothing.
     */
    method ExecuteTasks() returns (out: seq<string>)
      modifies this
      ensures out == RunAll(old(tasks))
      ensures tasks == []
    {
      var queue := tasks;
      out := [];
      for i := 0 to |queue|
        invariant out == RunAll(queue[..i])
      {
        RunAllAppend(queue[..i], [queue[i]]);
        assert queue[..i + 1] == queue[..i] + [queue[i]];
        out := out + queue[i].output;
      }
      assert queue[..|queue|] == queue;
      tasks := [];
    }
  }

  /** The driver: three tasks logging "Задача 1", "Задача 2", "Задача 3", run once. */
  method Scenario() returns (out: seq<string>, again: seq<string>)
    ensures out == ["Задача 1", "Задача 2", "Задача 3"]
    ensures again == []
  {
    var multiplexer := new Multiplexer();
    multiplexer.AddTask(Task(["Задача 1"]));
    multiplexer.AddTask(Task(["Задача 2"]));
    multiplexer.AddTask(Task(["Задача 3"]));
    out := multiplexer.ExecuteTasks();
    assert RunAll([Task(["Задача 3"])]) == ["Задача 3"];
    assert RunAll([Task(["Задача 2"]), Task(["Задача 3"])]) == ["Задача 2", "Задача 3"];
    again := multiplexer.ExecuteTasks();
  }
}
