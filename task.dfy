/** The to-do item of the TaskList app (TaskList/Models/Task.swift).

    Every field of the Swift struct is a `let`, so a Task is a value: it never
    changes after construction, and an "edit" builds a new value with the
    datatype update syntax `t.(field := v)`. The type places no constraint
    between its fields: the title may be empty, the note and the due date are
    absent or present independently, and nothing orders the due date against
    the creation date.
 */
module TaskModel {

  /** Swift's `Optional`. */
  datatype Option<+T> = None | Some(value: T)

  /** A `UUID`: only equality is ever used, so a natural number stands for it. */
  type Uuid = nat

  /** A Foundation `Date`: an abstract point in time. The core only copies
      dates, never computes with them, so an integer stands for one. */
  type Date = int

  datatype Task = Task(
    id: Uuid,
    title: string,
    note: Option<string>,
    creationDate: Date,
    dueDate: Option<Date>,
    isComplete: bool
  )

  /** Two tasks are the same item when their ids agree. */
  predicate SameItem(a: Task, b: Task) {
    a.id == b.id
  }

  /** Sets the completion flag; the result is a new value that keeps the
      identity and every other field of `t`. */
  function WithCompletion(t: Task, done: bool): (r: Task)
    ensures SameItem(r, t) && r.isComplete == done
    ensures r.title == t.title && r.note == t.note
    ensures r.creationDate == t.creationDate && r.dueDate == t.dueDate
    ensures r.isComplete == t.isComplete ==> r == t
  {
    t.(isComplete := done)
  }

  /** The type admits every combination of field values: none of the fields
      constrains another. For example, a task may have an empty title, no
      note, and a due date that lies before its creation date. */
  lemma {:induction false} FieldsAreUnconstrained(
    id: Uuid, title: string, note: Option<string>, created: Date, due: Option<Date>, done: bool)
    ensures exists t: Task ::
      t.id == id && t.title == title && t.note == note
      && t.creationDate == created && t.dueDate == due && t.isComplete == done
    ensures exists t: Task ::
      t.id == id && t.title == "" && t.note == None
      && t.creationDate == created && t.dueDate.Some? && t.dueDate.value < created
  {
    var any := Task(id, title, note, created, due, done);
    assert any.id == id && any.title == title && any.note == note;
    var early := Task(id, "", None, created, Some(created - 1), false);
    assert early.dueDate.value < created;
  }
}
