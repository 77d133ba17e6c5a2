# TaskList: tasks, the task list and the task editor

A Dafny model of the state-management core of the TaskList iOS app. The app
shows a list of tasks. Its "+" button presents an editor that stages one draft
task. Saving the editor hands the draft to the list, which appends it as a new
row. Cancelling hands over nothing.

- `task.dfy`, module `TaskModel`: the `Task` record (Task.swift). It is an
  immutable datatype with the six fields `id`, `title`, `note`, `creationDate`,
  `dueDate` and `isComplete`. `Uuid` is a `nat` and `Date` an `int`: the core only
  compares ids and copies dates. The datatype puts no constraint between its
  fields. The title may be empty. The note and due date are optional
  independently. Nothing orders the due date against the creation date
  (`FieldsAreUnconstrained`). Any change is a new value built by a datatype
  update.
- `tasks_view_controller.dfy`, module `TaskListing`: the list screen
  (TasksViewController.swift) as the class `TasksViewController<T>`. Its
  `tasks: seq<T>` field starts empty. The class provides the row count, the
  cell lookup and the `didCreate` callback. The pure function `Created` gives
  the rows after one append. `CreatedAll` gives them after a series of appends.
- `task_editor.dfy`, module `TaskEditing`: the editor screen
  (TaskEditorViewController.swift). `Editor`, `Step` and `Run` form a pure state
  machine. Its phases are Open, Saved and Cancelled. Its state is the draft
  plus the log of tasks handed to the delegate. The class
  `TaskEditorViewController` runs each action in place. Each of its methods is
  proved to agree with `Step`. `Save` calls `didCreate` on its delegate, a
  `TasksViewController<Task>`. The lemmas follow a whole session, and then a
  series of sessions, into the list.

Decisions where the source contradicts itself:

- The editor assigns to fields of the draft (`task.title = …`,
  `task.isComplete = …`), but every field of `Task` is a `let`. Each assignment
  is modelled as a datatype update that replaces the draft, such as
  `draft.(title := …)`.
- The delegate protocol and the list store `String`, but the editor and the
  preview delegate pass a `Task`. The list class is therefore generic in its
  element type, and the editor uses it at `Task`. A cell shows exactly the
  stored element of its row.
- The date picker's value is written to `creationDate`, not to `dueDate`. No
  editor action ever sets `dueDate`, so every task the editor emits has none.
- The initial draft's note is `Some("")`, not absent. Save always sets the note
  to `Some(text ?? "")`.
- No validation happens: an empty or missing title is saved as `""`.
- The list only appends. It has no replace-by-id, no commit that reports
  whether a task is new, and no deletion.

Inputs from outside the core become parameters: the `UUID()` and `Date()`
calls of `setupTaskModel`, the text of the two text fields and the date
picker's date.

## Model

| member | source | states |
|---|---|---|
| TaskModel.FieldsAreUnconstrained | TaskList/Models/Task.swift:10-17 | for every choice of the six field values there is a task with exactly those fields; in particular a task may have an empty title, no note, and a due date before its creation date |
| TaskModel.WithCompletion | TaskList/ViewControllers/TaskEditorViewController.swift:131-142 | setting the completion flag yields a new value with the same id and all other fields unchanged; setting it to its current value changes nothing |
| TaskListing.Created | TaskList/ViewControllers/TasksViewController.swift:72-76 | after one append, every earlier row keeps its position, the list is one longer, and the new task is last |
| TaskListing.CreatedAllAppends | TaskList/ViewControllers/TasksViewController.swift:72-76 | any series of `didCreate` calls yields the old rows followed by the created tasks in call order; nothing is removed or reordered |
| TaskListing.CreatedAllIndices | TaskList/ViewControllers/TasksViewController.swift:73-75 | the k-th call of a series reports index count+k (the count before that call), and its task stays at that row |
| TaskListing.TasksViewController.constructor | TaskList/ViewControllers/TasksViewController.swift:17 | the list starts empty |
| TaskListing.TasksViewController.NumberOfRows | TaskList/ViewControllers/TasksViewController.swift:29-31 | the row count is the number of stored tasks |
| TaskListing.TasksViewController.CellForRowAt | TaskList/ViewControllers/TasksViewController.swift:33-40 | a cell has content exactly when 0 <= row < count, and that content is the stored element of the row; any other row traps |
| TaskListing.TasksViewController.DidCreate | TaskList/ViewControllers/TasksViewController.swift:72-76 | the new rows are the old rows followed by the task; the reported index is the old count, and the task is at that index |
| TaskEditing.SetupTaskModel | TaskList/ViewControllers/TaskEditorViewController.swift:58-61 | a fresh draft has the supplied id and creation date, title `""`, note `Some("")`, no due date, and is not complete |
| TaskEditing.NewEditor | TaskList/ViewControllers/TaskEditorViewController.swift:15 | a presented editor is open, has notified nobody, and holds a fresh draft |
| TaskEditing.OrEmpty | TaskList/ViewControllers/TaskEditorViewController.swift:123-124 | `text ?? ""`: present text is kept verbatim, and nil becomes `""` |
| TaskEditing.SavedDraft | TaskList/ViewControllers/TaskEditorViewController.swift:122-125 | the saved draft has the field texts verbatim as title and note, and the picker date as creation date; it keeps the id, due date and completion flag |
| TaskEditing.Step | TaskList/ViewControllers/TaskEditorViewController.swift:120-142 | on an open editor: a status tap sets only the completion flag; Save replaces the draft by the saved draft, hands exactly that task to the delegate and dismisses; Cancel dismisses and hands over nothing; no action changes the id or due date; a dismissed editor ignores all input |
| TaskEditing.StatusTapIsIdempotent | TaskList/ViewControllers/TaskEditorViewController.swift:131-142 | "In Progress" and "Completed" set only the completion flag, and tapping the same segment twice equals tapping it once |
| TaskEditing.SaveAcceptsEmptyTitle | TaskList/ViewControllers/TaskEditorViewController.swift:123 | saving with an empty or nil title hands over a task whose title is `""`; there is no emptiness check |
| TaskEditing.DismissedIsFinal | TaskList/ViewControllers/TaskEditorViewController.swift:120-130 | once saved or cancelled, the editor stays as it is whatever input follows |
| TaskEditing.RunKeepsIdAndDueDate | TaskList/ViewControllers/TaskEditorViewController.swift:119-143 | no sequence of editor actions changes the draft's id or due date |
| TaskEditing.RunNotifiesOnlyOnSave | TaskList/ViewControllers/TaskEditorViewController.swift:120-130 | every session keeps this invariant: the delegate has heard nothing unless the editor was saved, and a saved editor has handed over exactly its draft, once |
| TaskEditing.SessionNotifiesAtMostOnce | TaskList/ViewControllers/TaskEditorViewController.swift:120-130 | a session hands over exactly one task (its final draft) if and only if it ended by Save, and none if it was cancelled; that task has the id the draft was created with and no due date |
| TaskEditing.RunCompletionIsLastStatus | TaskList/ViewControllers/TaskEditorViewController.swift:131-142 | the draft's completion flag is the one set by the last status tap before dismissal |
| TaskEditing.SessionAppendsSavedTask | TaskList/ViewControllers/TaskEditorViewController.swift:127 | a saved session leaves the list one longer with the saved task last; any other session leaves it unchanged |
| TaskEditing.SessionsAppendInSaveOrder | TaskList/ViewControllers/TasksViewController.swift:81-84 | after any series of editor sessions, the list is the old list followed by the saved tasks in the order they were saved |
| TaskEditing.TwoSavedSessionsInOrder | TaskList/ViewControllers/TasksViewController.swift:81-84 | two saved sessions ("Buy milk", then "Walk dog" marked completed) leave two rows in that order, each with its own id, text and status |
| TaskEditing.TaskEditorViewController.constructor | TaskList/ViewControllers/TaskEditorViewController.swift:37-40 | the editor keeps the given delegate and starts open with a fresh draft and no notifications |
| TaskEditing.TaskEditorViewController.SetTaskInProgress | TaskList/ViewControllers/TaskEditorViewController.swift:131-136 | clears the completion flag; every other draft field, the phase and the notifications are unchanged |
| TaskEditing.TaskEditorViewController.SetTaskCompleted | TaskList/ViewControllers/TaskEditorViewController.swift:137-142 | sets the completion flag; every other draft field, the phase and the notifications are unchanged |
| TaskEditing.TaskEditorViewController.Save | TaskList/ViewControllers/TaskEditorViewController.swift:120-130 | copies the texts (nil as `""`) and the picker date into the draft, keeps the id and due date, notifies once with the updated draft, and appends exactly that task to the delegate's list before dismissing |
| TaskEditing.TaskEditorViewController.Cancel | TaskList/ViewControllers/TaskEditorViewController.swift:27-33 | dismisses without notifying; the draft and the delegate's list are unchanged |

## Left out

- Layout and styling are left out. This covers constraints, the text field,
  date picker and segmented control factories, the navigation bar,
  `viewDidLoad`, and the row-insertion animation. None of them holds state the
  core reads.
- `saveButtonActivate` is dead code: its only call is commented out. It is
  therefore not modelled, and it would not validate the title anyway.
- FilledButton.swift and SceneDelegate.swift are not part of this model. One
  wraps UIKit button configuration; the other wires the window and calls a
  persistence hook.
- The UUID generator, the clock and the UIKit controls are left out. Their
  values are passed in as parameters.
- The lazy initialisation of the draft is not modelled in time. The draft is
  built when the editor is constructed, from the supplied id and time. The
  source builds it on first access, which only changes when `Date()` is read.
- The `unowned` delegate reference and the `[weak self]` captures are memory
  management. The delegate is a plain constant field.
- TaskEditing.Step drops every action that reaches a saved or cancelled
  editor. The Swift save action has no such guard: a Save tap that lands
  during the dismissal animation, even after Cancel, would still call
  `didCreate`. `DismissedIsFinal` and the "at most one" part of
  `SessionNotifiesAtMostOnce` hold only under this choice.
- TaskEditing.TaskEditorViewController.Save and the other editor methods
  require an open editor. They do not model a second tap that lands while the
  dismissal animation runs. In that case the source would notify the delegate
  again.
- Replace-by-id, editing an existing task, and deletion are absent from the
  source, so they are not modelled. So is the validation error for an empty
  title.
