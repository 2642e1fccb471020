/** The task form of app/components/task-form.tsx: its state, seeded empty or from the task
    being edited, the subtask editor, and the submit step that trims the text fields and
    turns an empty due date into an unset one. */
module Form {
  import opened Text
  import opened Collections
  import opened TaskModel
  import opened TaskStore

  /** The `formData` state: a due date is text, "" when there is none. */
  datatype FormData = FormData(
    title: string,
    description: string,
    category: Category,
    priority: Level,
    urgency: Level,
    effort: int,
    status: Status,
    dueDate: string,
    subtasks: seq<Subtask>)

  /** The state of a fresh form. */
  const EmptyForm: FormData := FormData("", "", Personal, Medium, Medium, 3, Todo, "", [])

  /** The state the edit effect copies out of a task; a missing (or empty) due date becomes "". */
  function SeedFrom(t: Task): (f: FormData)
    ensures f.title == t.title && f.description == t.description && f.category == t.category
    ensures f.priority == t.priority && f.urgency == t.urgency && f.effort == t.effort
    ensures f.status == t.status && f.subtasks == t.subtasks
    ensures f.dueDate == "" <==> !Truthy(t.dueDate)
    ensures f.dueDate != "" ==> t.dueDate == Some(f.dueDate)
  {
    FormData(t.title, t.description, t.category, t.priority, t.urgency, t.effort, t.status,
             if Truthy(t.dueDate) then t.dueDate.value else "", t.subtasks)
  }

  /** The form's state once mounted: seeded from the task being edited, if there is one. */
  function InitialForm(task: Option<Task>): FormData {
    if task.Some? then SeedFrom(task.value) else EmptyForm
  }

  /** The object `handleSubmit` emits: the nine form keys, with the due date present but
      possibly `undefined`. */
  datatype Submission = Submission(
    title: string,
    description: string,
    category: Category,
    priority: Level,
    urgency: Level,
    effort: int,
    status: Status,
    dueDate: Option<string>,
    subtasks: seq<Subtask>)

  /** `handleSubmit`: nothing when the title is blank; otherwise the form with its title and
      description trimmed and an empty due date unset. */
  function Submit(f: FormData): (r: Option<Submission>)
    ensures r.None? <==> Blank(f.title)
    ensures r.Some? ==> var s := r.value;
      && s.title == Trim(f.title) && s.title != []
      && s.description == Trim(f.description)
      && (s.dueDate.None? <==> f.dueDate == "")
      && (s.dueDate.Some? ==> s.dueDate.value == f.dueDate)
      && s.category == f.category && s.priority == f.priority && s.urgency == f.urgency
      && s.effort == f.effort && s.status == f.status && s.subtasks == f.subtasks
  {
    if Trim(f.title) == [] then None
    else
      Some(Submission(Trim(f.title), Trim(f.description), f.category, f.priority, f.urgency,
                      f.effort, f.status, if f.dueDate == "" then None else Some(f.dueDate),
                      f.subtasks))
  }

  /** Submitting again what was submitted changes nothing: trimming is idempotent. */
  lemma SubmitStable(f: FormData)
    requires Submit(f).Some?
    ensures var s := Submit(f).value;
      Submit(FormData(s.title, s.description, s.category, s.priority, s.urgency, s.effort, s.status,
                      if s.dueDate.Some? then s.dueDate.value else "", s.subtasks)) == Some(s)
  {
    TrimIdempotent(f.title);
    TrimIdempotent(f.description);
  }

  /** `addTask(task)`: a new task from the submission, with no completion time, no AI marks
      and no owner of its own. */
  function AsDraft(s: Submission): (d: Draft)
    ensures d.title == s.title && d.dueDate == s.dueDate && d.subtasks == s.subtasks
    ensures d.description == s.description && d.category == s.category && d.priority == s.priority
    ensures d.urgency == s.urgency && d.effort == s.effort && d.status == s.status
    ensures d.completedAt.None? && d.aiEnhanced.None? && d.originalTitle.None? && d.userId.None?
  {
    Draft(s.title, s.description, s.category, s.priority, s.urgency, s.effort, s.status,
          s.dueDate, s.subtasks, None, None, None, None)
  }

  /** `updateTask(editingTask.id, task)`: all nine keys are present, an unset due date as
      `undefined`; the other keys are absent. */
  function EditPatch(s: Submission): (p: Patch)
    ensures p.dueDate == if s.dueDate.Some? then Put(s.dueDate.value) else Clear
    ensures p.title == Some(s.title) && p.description == Some(s.description)
    ensures p.category == Some(s.category) && p.priority == Some(s.priority)
    ensures p.urgency == Some(s.urgency) && p.effort == Some(s.effort)
    ensures p.status == Some(s.status) && p.subtasks == Some(s.subtasks)
    ensures p.completedAt.Keep? && p.aiEnhanced.Keep? && p.originalTitle.Keep?
  {
    Patch(Some(s.title), Some(s.description), Some(s.category), Some(s.priority), Some(s.urgency),
          Some(s.effort), Some(s.status),
          if s.dueDate.Some? then Put(s.dueDate.value) else Clear,
          Some(s.subtasks), Keep, Keep, Keep)
  }

  /** Opening a task in the form and saving it unchanged gives the task back, as long as its
      text fields carry no surrounding white space and its due date, if any, is not empty. */
  lemma EditRoundTrip(t: Task)
    requires Trim(t.title) == t.title != []
    requires Trim(t.description) == t.description
    requires t.dueDate.Some? ==> t.dueDate.value != ""
    ensures Submit(SeedFrom(t)).Some?
    ensures Merge(t, EditPatch(Submit(SeedFrom(t)).value)) == t
  {
    var f := SeedFrom(t);
    assert f.title == t.title && f.description == t.description;
    assert !Blank(f.title);
    var s := Submit(f).value;
    assert s.dueDate == t.dueDate;
    var p := EditPatch(s);
    assert p.dueDate == if t.dueDate.Some? then Put(t.dueDate.value) else Clear;
    assert PickSlot(p.dueDate, t.dueDate) == t.dueDate;
  }

  /** Clearing the due date in the form clears it locally but, as written, leaves it in the
      table: the payload drops the `undefined` key. */
  lemma EditClearingDueDateDrifts(t: Task, s: Submission)
    requires s.dueDate.None? && t.dueDate.Some?
    ensures Merge(t, EditPatch(s)).dueDate.None?
    ensures ApplyUpdate(t, UpdateDataOf(EditPatch(s))).dueDate == t.dueDate
  {
  }

  /** With the payload built as intended, the table follows the local edit. */
  lemma CorrectedEditClearsDueDate(t: Task, s: Submission)
    requires s.dueDate.None?
    ensures ApplyUpdate(t, CorrectedUpdateDataOf(EditPatch(s))).dueDate
         == Merge(t, EditPatch(s)).dueDate == None
  {
  }

  // ---------------------------------------------------------------- subtasks

  /** `subtasks.filter((st) => st.id !== id)`. */
  function WithoutSubtask(subtasks: seq<Subtask>, id: string): (r: seq<Subtask>)
    ensures |r| <= |subtasks|
    ensures forall i :: 0 <= i < |r| ==> r[i].id != id && r[i] in subtasks
    ensures forall i :: 0 <= i < |subtasks| ==> (subtasks[i] in r <==> subtasks[i].id != id)
  {
    Filter(subtasks, (st: Subtask) => st.id != id)
  }

  /** Removing a subtask that was just added, under an id no earlier subtask has, gives the
      earlier list back. */
  lemma {:induction false} RemoveUndoesAdd(subtasks: seq<Subtask>, added: Subtask)
    requires forall i :: 0 <= i < |subtasks| ==> subtasks[i].id != added.id
    ensures WithoutSubtask(subtasks + [added], added.id) == subtasks
  {
    FilterAppend(subtasks, [added], (st: Subtask) => st.id != added.id);
    FilterAllPass(subtasks, (st: Subtask) => st.id != added.id);
    FilterNonePass([added], (st: Subtask) => st.id != added.id);
  }

  /** The mounted form: its data and the text of the new-subtask input. */
  class TaskForm {
    var data: FormData
    var newSubtask: string

    constructor (task: Option<Task>)
      ensures data == InitialForm(task) && newSubtask == ""
    {
      data := InitialForm(task);
      newSubtask := "";
    }

    method SetTitle(v: string)
      modifies this
      ensures data == old(data).(title := v) && newSubtask == old(newSubtask)
    {
      data := data.(title := v);
    }

    method SetDescription(v: string)
      modifies this
      ensures data == old(data).(description := v) && newSubtask == old(newSubtask)
    {
      data := data.(description := v);
    }

    method SetCategory(v: Category)
      modifies this
      ensures data == old(data).(category := v) && newSubtask == old(newSubtask)
    {
      data := data.(category := v);
    }

    method SetStatus(v: Status)
      modifies this
      ensures data == old(data).(status := v) && newSubtask == old(newSubtask)
    {
      data := data.(status := v);
    }

    method SetPriority(v: Level)
      modifies this
      ensures data == old(data).(priority := v) && newSubtask == old(newSubtask)
    {
      data := data.(priority := v);
    }

    method SetUrgency(v: Level)
      modifies this
      ensures data == old(data).(urgency := v) && newSubtask == old(newSubtask)
    {
      data := data.(urgency := v);
    }

    /** The slider only produces the values 1 to 5. */
    method SetEffort(v: int)
      requires 1 <= v <= 5
      modifies this
      ensures data == old(data).(effort := v) && newSubtask == old(newSubtask)
    {
      data := data.(effort := v);
    }

    method SetDueDate(v: string)
      modifies this
      ensures data == old(data).(dueDate := v) && newSubtask == old(newSubtask)
    {
      data := data.(dueDate := v);
    }

    method SetNewSubtask(v: string)
      modifies this
      ensures data == old(data) && newSubtask == v
    {
      newSubtask := v;
    }

    /** `addSubtask`: nothing for blank text; otherwise one subtask with the trimmed text,
        not completed, goes at the end, and the input is emptied. `freshId` stands for
        `Date.now().toString()`. */
    method AddSubtask(freshId: string)
      modifies this
      ensures Blank(old(newSubtask)) ==> data == old(data) && newSubtask == old(newSubtask)
      ensures !Blank(old(newSubtask)) ==>
        && data == old(data).(subtasks := old(data.subtasks) + [Subtask(freshId, Trim(old(newSubtask)), false)])
        && newSubtask == ""
    {
      if Trim(newSubtask) == [] {
        return;
      }
      var subtask := Subtask(freshId, Trim(newSubtask), false);
      data := data.(subtasks := data.subtasks + [subtask]);
      newSubtask := "";
    }

    /** `removeSubtask`: the subtasks with other ids stay, in order; nothing else changes. */
    method RemoveSubtask(id: string)
      modifies this
      ensures data == old(data).(subtasks := WithoutSubtask(old(data.subtasks), id))
      ensures newSubtask == old(newSubtask)
    {
      data := data.(subtasks := WithoutSubtask(data.subtasks, id));
    }

    /** `handleSubmit`: what the form emits, if anything; the form itself does not change. */
    method HandleSubmit() returns (emitted: Option<Submission>)
      ensures emitted == Submit(data)
      ensures emitted.None? <==> Blank(data.title)
    {
      emitted := Submit(data);
    }
  }
}
