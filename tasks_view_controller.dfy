/** The task list screen (TaskList/ViewControllers/TasksViewController.swift):
    an in-memory, append-only, ordered list whose rows are read by index and
    whose only writer is the editor's `didCreate` callback.

    The Swift delegate protocol declares `didCreate(task: String)` and the
    list stores `[String]`, while the editor hands over a `Task`. The class
    is therefore generic in its element type; the editor uses it at `Task`.
 */
module TaskListing {

  /** What `cellForRowAt` yields: the stored element as the cell's content,
      or the runtime trap that Swift raises for an out-of-range index. */
  datatype Cell<T> = Content(text: T) | Trap

  /** The rows after `didCreate(task)`: every earlier row stays where it was,
      and the new task is the last row. */
  function Created<T>(tasks: seq<T>, task: T): (r: seq<T>)
    ensures |r| == |tasks| + 1
    ensures r[..|tasks|] == tasks && r[|tasks|] == task
  {
    tasks + [task]
  }

  /** The rows after a series of `didCreate` calls, one per element of
      `created`, in that order. */
  function CreatedAll<T>(tasks: seq<T>, created: seq<T>): seq<T>
    decreases |created|
  {
    if created == [] then tasks else CreatedAll(Created(tasks, created[0]), created[1..])
  }

  /** A series of `didCreate` calls appends its tasks in call order and never
      removes or reorders a row. */
  lemma {:induction false} CreatedAllAppends<T>(tasks: seq<T>, created: seq<T>)
    ensures CreatedAll(tasks, created) == tasks + created
    decreases |created|
  {
    if created != [] {
      CreatedAllAppends(Created(tasks, created[0]), created[1..]);
      assert Created(tasks, created[0]) + created[1..] == tasks + created;
    }
  }

  /** The k-th call of a series reports index |tasks| + k (the count before
      that call), and that is the row where its task stays after the series. */
  lemma CreatedAllIndices<T>(tasks: seq<T>, created: seq<T>, k: nat)
    requires k < |created|
    ensures |CreatedAll(tasks, created[..k])| == |tasks| + k
    ensures |CreatedAll(tasks, created)| == |tasks| + |created|
    ensures CreatedAll(tasks, created)[|tasks| + k] == created[k]
  {
    CreatedAllAppends(tasks, created[..k]);
    CreatedAllAppends(tasks, created);
  }

  class TasksViewController<T> {
    /** `private var tasks: [String] = []` */
    var tasks: seq<T>

    /** The list starts empty. */
    constructor ()
      ensures tasks == []
    {
      tasks := [];
    }

    /** `numberOfRowsInSection`: the number of stored tasks. */
    method NumberOfRows() returns (n: nat)
      ensures n == |tasks|
    {
      n := |tasks|;
    }

    /** `cellForRowAt`: the cell shows exactly the stored element of its row;
        a row outside [0, count) traps. */
    method CellForRowAt(row: int) returns (cell: Cell<T>)
      ensures cell.Content? <==> 0 <= row < |tasks|
      ensures cell.Content? ==> cell.text == tasks[row]
    {
      if 0 <= row < |tasks| {
        cell := Content(tasks[row]);
      } else {
        cell := Trap;
      }
    }

    /** `didCreate(task:)`: appends the task and reports the insertion index,
        which is the count before the append and the new task's row. */
    method DidCreate(task: T) returns (index: nat)
      modifies this
      ensures tasks == Created(old(tasks), task)
      ensures index == |old(tasks)| && index < |tasks| && tasks[index] == task
    {
      index := |tasks|;
      tasks := tasks + [task];
    }
  }
}
