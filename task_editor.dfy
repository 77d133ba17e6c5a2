/** The editor screen (TaskList/ViewControllers/TaskEditorViewController.swift).

    An editor stages one draft Task. The status control sets its completion
    flag; Save copies the two text fields and the date picker into the draft,
    hands the draft to the delegate once, and dismisses; Cancel dismisses and
    hands over nothing. The Swift code assigns to the `let` fields of the
    draft; here each assignment is a datatype update that replaces the draft.

    The pure part (`Editor`, `Step`, `Run`) says what one action and a whole
    session do; the class `TaskEditorViewController` performs the actions in
    place and is proved against `Step`.
 */
module TaskEditing {
  import opened TaskModel
  import opened TaskListing

  /** Open while presented; Saved or Cancelled once dismissed. */
  datatype Phase = Open | Saved | Cancelled

  /** The user's input events. Save carries what the controls hold when it is
      tapped: the two text fields (`UITextField.text` may be nil) and the
      date picker's date. */
  datatype Action =
    | InProgressTapped
    | CompletedTapped
    | SaveTapped(titleText: Option<string>, noteText: Option<string>, pickerDate: Date)
    | CancelTapped

  /** An editor's observable state: the draft, the phase, and every task
      handed to the delegate so far. */
  datatype Editor = Editor(draft: Task, phase: Phase, notified: seq<Task>)

  /** `setupTaskModel`: a blank draft. The UUID and the current time are
      supplied by the caller. */
  function SetupTaskModel(id: Uuid, now: Date): (t: Task)
    ensures t.id == id && t.creationDate == now
    ensures t.title == "" && t.note == Some("")
    ensures t.dueDate == None && !t.isComplete
  {
    Task(id, "", Some(""), now, None, false)
  }

  /** A freshly presented editor: its draft is blank and nothing has been
      handed to the delegate. */
  function NewEditor(id: Uuid, now: Date): (e: Editor)
    ensures e.phase == Open && e.notified == [] && e.draft == SetupTaskModel(id, now)
  {
    Editor(SetupTaskModel(id, now), Open, [])
  }

  /** Swift's `text ?? ""`. */
  function OrEmpty(text: Option<string>): (s: string)
    ensures text.Some? ==> s == text.value
    ensures text.None? ==> s == ""
  {
    match text
    case Some(v) => v
    case None => ""
  }

  /** The draft that Save hands over: title and note are the field texts
      verbatim (nil becomes ""), the creation date is the picker's date, and
      id, due date and completion flag are those of the draft. */
  function SavedDraft(draft: Task, titleText: Option<string>, noteText: Option<string>, pickerDate: Date): (t: Task)
    ensures SameItem(t, draft) && t.dueDate == draft.dueDate && t.isComplete == draft.isComplete
    ensures t.title == OrEmpty(titleText) && t.note == Some(OrEmpty(noteText))
    ensures t.creationDate == pickerDate
  {
    draft.(title := OrEmpty(titleText), note := Some(OrEmpty(noteText)), creationDate := pickerDate)
  }

  /** One user action. A dismissed editor is off screen and receives no
      further input, so an action in a phase other than Open changes nothing.
      On an open editor a status tap sets only the completion flag, Save
      replaces the draft by the saved draft, hands exactly that to the
      delegate and dismisses, and Cancel dismisses and hands over nothing. */
  function Step(e: Editor, a: Action): (r: Editor)
    ensures e.phase != Open ==> r == e
    ensures r.draft.id == e.draft.id && r.draft.dueDate == e.draft.dueDate
    ensures e.phase == Open && (a.InProgressTapped? || a.CompletedTapped?) ==>
      && r.draft == e.draft.(isComplete := a.CompletedTapped?)
      && r.phase == Open && r.notified == e.notified
    ensures e.phase == Open && a.SaveTapped? ==>
      && r.draft == SavedDraft(e.draft, a.titleText, a.noteText, a.pickerDate)
      && r.phase == Saved && r.notified == e.notified + [r.draft]
    ensures e.phase == Open && a.CancelTapped? ==>
      && r.draft == e.draft && r.phase == Cancelled && r.notified == e.notified
  {
    if e.phase != Open then e
    else
      match a
      case InProgressTapped => e.(draft := WithCompletion(e.draft, false))
      case CompletedTapped => e.(draft := WithCompletion(e.draft, true))
      case SaveTapped(titleText, noteText, pickerDate) =>
        var t := SavedDraft(e.draft, titleText, noteText, pickerDate);
        Editor(t, Saved, e.notified + [t])
      case CancelTapped => e.(phase := Cancelled)
  }

  /** A whole session: the actions in order. */
  function Run(e: Editor, actions: seq<Action>): Editor
    decreases |actions|
  {
    if actions == [] then e else Run(Step(e, actions[0]), actions[1..])
  }

  /** The invariant of every editor: the delegate has heard nothing unless the
      editor was saved, and a saved editor has handed over exactly its draft,
      once. */
  predicate NotifiedOnlyOnSave(e: Editor) {
    if e.phase == Saved then e.notified == [e.draft] else e.notified == []
  }

  /** The status control changes only the completion flag, and tapping the
      same segment twice is the same as tapping it once. */
  lemma StatusTapIsIdempotent(e: Editor, done: bool)
    ensures var a := if done then CompletedTapped else InProgressTapped;
      && Step(Step(e, a), a) == Step(e, a)
      && (e.phase == Open ==> Step(e, a) == e.(draft := e.draft.(isComplete := done)))
  {
  }

  /** Save accepts an empty or missing title: no trimming and no emptiness
      check stand between the text field and the delegate. */
  lemma SaveAcceptsEmptyTitle(e: Editor, noteText: Option<string>, pickerDate: Date)
    requires e.phase == Open
    ensures Step(e, SaveTapped(None, noteText, pickerDate)).notified[|e.notified|].title == ""
    ensures Step(e, SaveTapped(Some(""), noteText, pickerDate)).notified[|e.notified|].title == ""
  {
  }

  /** Once dismissed, an editor stays as it is whatever input follows. */
  lemma {:induction false} DismissedIsFinal(e: Editor, actions: seq<Action>)
    requires e.phase != Open
    ensures Run(e, actions) == e
    decreases |actions|
  {
    if actions != [] {
      DismissedIsFinal(Step(e, actions[0]), actions[1..]);
    }
  }

  /** No action rewrites the draft's id or due date: the draft is created
      once per editor, and Save and the status control leave both alone. */
  lemma {:induction false} RunKeepsIdAndDueDate(e: Editor, actions: seq<Action>)
    ensures Run(e, actions).draft.id == e.draft.id
    ensures Run(e, actions).draft.dueDate == e.draft.dueDate
    decreases |actions|
  {
    if actions != [] {
      RunKeepsIdAndDueDate(Step(e, actions[0]), actions[1..]);
    }
  }

  /** Every session keeps the notification invariant. */
  lemma {:induction false} RunNotifiesOnlyOnSave(e: Editor, actions: seq<Action>)
    requires NotifiedOnlyOnSave(e)
    ensures NotifiedOnlyOnSave(Run(e, actions))
    decreases |actions|
  {
    if actions != [] {
      RunNotifiesOnlyOnSave(Step(e, actions[0]), actions[1..]);
    }
  }

  /** A session from a freshly presented editor hands at most one task to the
      delegate: exactly one, the final draft, if and only if it ended by Save;
      none if it was cancelled or is still open. That task keeps the id the
      draft was created with and has no due date. */
  lemma SessionNotifiesAtMostOnce(id: Uuid, now: Date, actions: seq<Action>)
    ensures var r := Run(NewEditor(id, now), actions);
      && |r.notified| <= 1
      && (|r.notified| == 1 <==> r.phase == Saved)
      && (r.phase == Saved ==> r.notified == [r.draft])
      && (r.phase == Cancelled ==> r.notified == [])
      && r.draft.id == id && r.draft.dueDate == None
  {
    RunNotifiesOnlyOnSave(NewEditor(id, now), actions);
    RunKeepsIdAndDueDate(NewEditor(id, now), actions);
  }

  /** The completion flag set by the last status tap that comes before the
      first Save or Cancel of `actions`, or `done` if there is none. */
  function LastStatus(done: bool, actions: seq<Action>): bool
    decreases |actions|
  {
    if actions == [] then done
    else match actions[0]
      case InProgressTapped => LastStatus(false, actions[1..])
      case CompletedTapped => LastStatus(true, actions[1..])
      case SaveTapped(_, _, _) => done
      case CancelTapped => done
  }

  /** The completion flag of the draft is that of the last status tap before
      dismissal, or its earlier value if there was none. */
  lemma {:induction false} RunCompletionIsLastStatus(e: Editor, actions: seq<Action>)
    requires e.phase == Open
    ensures Run(e, actions).draft.isComplete == LastStatus(e.draft.isComplete, actions)
    decreases |actions|
  {
    if actions != [] {
      var e' := Step(e, actions[0]);
      if e'.phase == Open {
        RunCompletionIsLastStatus(e', actions[1..]);
      } else {
        DismissedIsFinal(e', actions[1..]);
      }
    }
  }

  /** The list a session leaves behind: the delegate appends each task the
      session hands over. */
  function AfterSession(tasks: seq<Task>, id: Uuid, now: Date, actions: seq<Action>): seq<Task> {
    CreatedAll(tasks, Run(NewEditor(id, now), actions).notified)
  }

  /** A saved session makes the list one longer with the saved task last; any
      other session leaves the list as it was. */
  lemma SessionAppendsSavedTask(tasks: seq<Task>, id: Uuid, now: Date, actions: seq<Action>)
    ensures var r := Run(NewEditor(id, now), actions);
      && (r.phase == Saved ==> AfterSession(tasks, id, now, actions) == tasks + [r.draft])
      && (r.phase != Saved ==> AfterSession(tasks, id, now, actions) == tasks)
  {
    var r := Run(NewEditor(id, now), actions);
    SessionNotifiesAtMostOnce(id, now, actions);
    CreatedAllAppends(tasks, r.notified);
  }

  /** One press of the list's "+" button (`addTask`): a new editor with its
      own UUID and time, and the actions the user takes in it. */
  datatype Session = Session(id: Uuid, now: Date, actions: seq<Action>)

  /** The list after a series of sessions, each presented on top of the list
      the previous one left. */
  function AfterSessions(tasks: seq<Task>, sessions: seq<Session>): seq<Task>
    decreases |sessions|
  {
    if sessions == [] then tasks
    else
      var s := sessions[0];
      AfterSessions(AfterSession(tasks, s.id, s.now, s.actions), sessions[1..])
  }

  /** The tasks the saved sessions of a series hand over, in session order. */
  function SavedTasks(sessions: seq<Session>): seq<Task>
    decreases |sessions|
  {
    if sessions == [] then []
    else
      var s := sessions[0];
      var r := Run(NewEditor(s.id, s.now), s.actions);
      (if r.phase == Saved then [r.draft] else []) + SavedTasks(sessions[1..])
  }

  /** After any series of sessions the list is the old list followed by the
      saved tasks in the order their sessions were saved. */
  lemma {:induction false} SessionsAppendInSaveOrder(tasks: seq<Task>, sessions: seq<Session>)
    ensures AfterSessions(tasks, sessions) == tasks + SavedTasks(sessions)
    decreases |sessions|
  {
    if sessions != [] {
      var s := sessions[0];
      SessionAppendsSavedTask(tasks, s.id, s.now, s.actions);
      var mid := AfterSession(tasks, s.id, s.now, s.actions);
      SessionsAppendInSaveOrder(mid, sessions[1..]);
      var r := Run(NewEditor(s.id, s.now), s.actions);
      var head := if r.phase == Saved then [r.draft] else [];
      assert mid == tasks + head;
      assert SavedTasks(sessions) == head + SavedTasks(sessions[1..]);
    }
  }

  /** Two sessions, each typing a title and tapping Save, leave a list of two
      rows in the order of saving, each keeping its own id. */
  lemma TwoSavedSessionsInOrder(id1: Uuid, id2: Uuid, now: Date, day: Date)
    ensures var list := AfterSessions([], [
        Session(id1, now, [SaveTapped(Some("Buy milk"), None, day)]),
        Session(id2, now, [CompletedTapped, SaveTapped(Some("Walk dog"), Some("park"), day)])
      ]);
      && |list| == 2
      && list[0].id == id1 && list[0].title == "Buy milk" && list[0].note == Some("") && !list[0].isComplete
      && list[1].id == id2 && list[1].title == "Walk dog" && list[1].note == Some("park") && list[1].isComplete
  {
    var ss := [
      Session(id1, now, [SaveTapped(Some("Buy milk"), None, day)]),
      Session(id2, now, [CompletedTapped, SaveTapped(Some("Walk dog"), Some("park"), day)])
    ];
    var a1 := [SaveTapped(Some("Buy milk"), None, day)];
    var a2 := [CompletedTapped, SaveTapped(Some("Walk dog"), Some("park"), day)];
    var e1 := NewEditor(id1, now);
    var e2 := NewEditor(id2, now);
    var t1 := SavedDraft(e1.draft, Some("Buy milk"), None, day);
    var t2 := SavedDraft(WithCompletion(e2.draft, true), Some("Walk dog"), Some("park"), day);
    assert a1[1..] == [] && a2[1..] == [a2[1]] && a2[1..][1..] == [];
    assert Run(e1, a1) == Run(Step(e1, a1[0]), []) == Editor(t1, Saved, [t1]);
    assert Run(e2, a2) == Run(Step(e2, a2[0]), a2[1..]) == Run(Step(Step(e2, a2[0]), a2[1]), []);
    assert Run(e2, a2) == Editor(t2, Saved, [t2]);
    assert ss[1..][1..] == [];
    assert ss[0].actions == a1 && ss[1..][0].actions == a2;
    assert SavedTasks(ss[1..]) == [t2] + SavedTasks(ss[1..][1..]) == [t2];
    assert SavedTasks(ss) == [t1, t2];
    SessionsAppendInSaveOrder([], ss);
  }

  class TaskEditorViewController {
    /** The list that receives the saved task (`unowned var delegate`; it is
        set once by the initializer and never reassigned). */
    const delegate: TasksViewController<Task>
    /** `private lazy var task`: the draft. */
    var draft: Task
    var phase: Phase
    /** The tasks handed to `delegate.didCreate`, in order. */
    var notified: seq<Task>

    function State(): Editor
      reads this
    {
      Editor(draft, phase, notified)
    }

    /** `init(delegate:)` together with the first use of the lazy draft. */
    constructor (delegate: TasksViewController<Task>, id: Uuid, now: Date)
      ensures this.delegate == delegate
      ensures State() == NewEditor(id, now)
    {
      this.delegate := delegate;
      draft := SetupTaskModel(id, now);
      phase := Open;
      notified := [];
    }

    /** "In Progress": clears the completion flag and nothing else. */
    method SetTaskInProgress()
      requires phase == Open
      modifies this
      ensures State() == Step(old(State()), InProgressTapped)
      ensures draft == old(draft).(isComplete := false)
      ensures phase == old(phase) && notified == old(notified)
    {
      draft := WithCompletion(draft, false);
    }

    /** "Completed": sets the completion flag and nothing else. */
    method SetTaskCompleted()
      requires phase == Open
      modifies this
      ensures State() == Step(old(State()), CompletedTapped)
      ensures draft == old(draft).(isComplete := true)
      ensures phase == old(phase) && notified == old(notified)
    {
      draft := WithCompletion(draft, true);
    }

    /** `save()`: copies the controls into the draft, notifies the delegate
        once with the updated draft, and dismisses. */
    method Save(titleText: Option<string>, noteText: Option<string>, pickerDate: Date)
      requires phase == Open
      modifies this, delegate
      ensures State() == Step(old(State()), SaveTapped(titleText, noteText, pickerDate))
      ensures draft.id == old(draft.id) && draft.dueDate == old(draft.dueDate)
      ensures draft.title == OrEmpty(titleText) && draft.note == Some(OrEmpty(noteText))
      ensures draft.creationDate == pickerDate
      ensures phase == Saved && notified == old(notified) + [draft]
      ensures delegate.tasks == old(delegate.tasks) + [draft]
    {
      draft := draft.(title := OrEmpty(titleText));
      draft := draft.(note := Some(OrEmpty(noteText)));
      draft := draft.(creationDate := pickerDate);
      var _ := delegate.DidCreate(draft);
      notified := notified + [draft];
      phase := Saved;
    }

    /** The cancel button: dismisses without notifying the delegate. */
    method Cancel()
      requires phase == Open
      modifies this
      ensures State() == Step(old(State()), CancelTapped)
      ensures phase == Cancelled && draft == old(draft) && notified == old(notified)
      ensures unchanged(delegate)
    {
      phase := Cancelled;
    }
  }
}
