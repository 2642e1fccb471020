/** The task cards of app/components/task-list.tsx: the set of expanded cards, the subtask
    check box, the subtask progress bar and the overdue badge. */
module TaskList {
  import opened Collections
  import opened TaskModel

  /** A set with the membership of `id` flipped, as `toggleExpanded` leaves it. */
  function Toggled(s: set<string>, id: string): (r: set<string>)
    ensures id in r <==> id !in s
    ensures forall x :: x != id ==> (x in r <==> x in s)
  {
    if id in s then s - {id} else s + {id}
  }

  /** Expanding a card twice gives back the set of expanded cards. */
  lemma ToggledTwice(s: set<string>, id: string)
    ensures Toggled(Toggled(s, id), id) == s
  {
  }

  /** The card list's state: the ids of the expanded cards. */
  class TaskListView {
    var expanded: set<string>

    constructor ()
      ensures expanded == {}
    {
      expanded := {};
    }

    /** `toggleExpanded`: copies the set, then deletes or adds `id`. */
    method ToggleExpanded(id: string)
      modifies this
      ensures expanded == Toggled(old(expanded), id)
    {
      var next := expanded;
      if id in next {
        next := next - {id};
      } else {
        next := next + {id};
      }
      expanded := next;
    }
  }

  /** `task.subtasks.map(...)`: the subtasks with id `subtaskId` get their `completed` flag
      negated; ids, titles, the length and the order stay. */
  function FlipSubtask(subtasks: seq<Subtask>, subtaskId: string): (r: seq<Subtask>)
    ensures |r| == |subtasks|
    ensures forall i :: 0 <= i < |r| ==> r[i].id == subtasks[i].id && r[i].title == subtasks[i].title
    ensures forall i :: 0 <= i < |r| ==>
      r[i].completed == (if subtasks[i].id == subtaskId then !subtasks[i].completed else subtasks[i].completed)
  {
    seq(|subtasks|, i requires 0 <= i < |subtasks| =>
      if subtasks[i].id == subtaskId then subtasks[i].(completed := !subtasks[i].completed) else subtasks[i])
  }

  /** Ticking the same check box twice gives back the subtasks. */
  lemma FlipSubtaskTwice(subtasks: seq<Subtask>, subtaskId: string)
    ensures FlipSubtask(FlipSubtask(subtasks, subtaskId), subtaskId) == subtasks
  {
    var r := FlipSubtask(FlipSubtask(subtasks, subtaskId), subtaskId);
    assert forall i :: 0 <= i < |r| ==> r[i] == subtasks[i];
  }

  /** The patch that carries only new subtasks. */
  function SubtasksPatch(subtasks: seq<Subtask>): Patch {
    Patch(None, None, None, None, None, None, None, Keep, Some(subtasks), Keep, Keep, Keep)
  }

  /** `toggleSubtask`: nothing for an unknown task; otherwise the update of the first task
      with that id that carries its subtasks with one check box flipped. */
  function ToggleSubtask(tasks: seq<Task>, taskId: string, subtaskId: string): (r: Option<Patch>)
    ensures r.None? <==> forall i :: 0 <= i < |tasks| ==> tasks[i].id != taskId
    ensures r.Some? ==> var t := FindById(tasks, taskId).value;
      r.value == SubtasksPatch(FlipSubtask(t.subtasks, subtaskId))
  {
    match FindById(tasks, taskId)
    case None => None
    case Some(t) => Some(SubtasksPatch(FlipSubtask(t.subtasks, subtaskId)))
  }

  /** Applied to the task, the update changes its subtasks' check boxes and nothing else. */
  lemma ToggleSubtaskChangesOnlySubtasks(t: Task, subtaskId: string)
    ensures var r := Merge(t, SubtasksPatch(FlipSubtask(t.subtasks, subtaskId)));
      && r == t.(subtasks := r.subtasks)
      && |r.subtasks| == |t.subtasks|
      && forall i :: 0 <= i < |t.subtasks| ==>
           r.subtasks[i] == t.subtasks[i].(completed := r.subtasks[i].completed)
  {
  }

  predicate IsDone(st: Subtask) {
    st.completed
  }

  /** `getSubtaskProgress`: 0 for no subtasks, otherwise the completed share times 100; it is
      100 exactly when every subtask (of at least one) is completed, and 0 exactly when none
      is. */
  function SubtaskProgress(subtasks: seq<Subtask>): (r: real)
    ensures 0.0 <= r <= 100.0
    ensures subtasks == [] ==> r == 0.0
    ensures r == 100.0 <==> subtasks != [] && forall i :: 0 <= i < |subtasks| ==> subtasks[i].completed
    ensures r == 0.0 <==> forall i :: 0 <= i < |subtasks| ==> !subtasks[i].completed
  {
    CountAll(subtasks, IsDone);
    CountNone(subtasks, IsDone);
    Percent(Count(subtasks, IsDone), |subtasks|)
  }

  /** The card's overdue badge: a due date, before now, and not completed. */
  predicate IsOverdueCard(t: Task, clock: Clock) {
    Truthy(t.dueDate) && clock.instant(t.dueDate.value) < clock.now && t.status != Completed
  }

  /** The badge agrees with the overdue test of the analytics page and the planner. */
  lemma OverdueCardAgrees(t: Task, clock: Clock)
    ensures IsOverdueCard(t, clock) <==> IsOverdue(t, clock)
  {
  }
}
