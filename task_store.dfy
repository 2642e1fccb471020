/** The task store of app/page.tsx: the in-memory `tasks` list, kept in step with the
    remote `tasks` table by `loadTasks`, `addTask`, `updateTask`, `deleteTask` and
    `toggleTaskStatus`. The table and the sign-in session are outside the model: the
    signed-in user is a parameter, and so is each reply the table gives. */
module TaskStore {
  import opened Collections
  import opened TaskModel

  /** What a table call comes back with: an error (or a thrown exception), or data. */
  datatype Reply<T> = Failed | Ok(value: T)

  /** The outcome of a table call that returns no data. */
  datatype Outcome = Success | Failure

  /** A row of the `tasks` table, with its snake_case columns; nullable columns are options. */
  datatype Row = Row(
    id: string,
    title: string,
    description: Option<string>,
    category: Category,
    priority: Level,
    urgency: Level,
    effort: int,
    status: Status,
    due_date: Option<string>,
    subtasks: Option<seq<Subtask>>,
    created_at: string,
    completed_at: Option<string>,
    ai_enhanced: Option<bool>,
    original_title: Option<string>,
    user_id: Option<string>)

  /** The object `addTask` inserts. It has no `completed_at` column and always names the
      signed-in user. */
  datatype NewRow = NewRow(
    title: string,
    description: string,
    category: Category,
    priority: Level,
    urgency: Level,
    effort: int,
    status: Status,
    due_date: Option<string>,
    subtasks: seq<Subtask>,
    ai_enhanced: Option<bool>,
    original_title: Option<string>,
    user_id: string)

  /** The `updateData` object of `updateTask`. An absent key is `None`/`Keep`; a key whose
      value is `null` is `Clear`. */
  datatype UpdateData = UpdateData(
    title: Option<string>,
    description: Option<string>,
    category: Option<Category>,
    priority: Option<Level>,
    urgency: Option<Level>,
    effort: Option<int>,
    status: Option<Status>,
    due_date: Slot<string>,
    subtasks: Option<seq<Subtask>>,
    completed_at: Slot<string>,
    ai_enhanced: Slot<bool>,
    original_title: Slot<string>)

  // ---------------------------------------------------------------- rows and tasks

  /** The row-to-task mapping of `loadTasks` and `addTask`: a null description becomes "",
      null subtasks become [], every other column is copied to its camelCase field. */
  function RowToTask(row: Row): (t: Task)
    ensures t.id == row.id && t.title == row.title && t.createdAt == row.created_at
    ensures t.description == (if row.description.Some? then row.description.value else "")
    ensures t.subtasks == (if row.subtasks.Some? then row.subtasks.value else [])
    ensures t.category == row.category && t.priority == row.priority && t.urgency == row.urgency
    ensures t.effort == row.effort && t.status == row.status
    ensures t.dueDate == row.due_date && t.completedAt == row.completed_at
    ensures t.aiEnhanced == row.ai_enhanced && t.originalTitle == row.original_title
    ensures t.userId == row.user_id
  {
    Task(row.id, row.title,
         if row.description.Some? then row.description.value else "",
         row.category, row.priority, row.urgency, row.effort, row.status,
         row.due_date,
         if row.subtasks.Some? then row.subtasks.value else [],
         row.created_at, row.completed_at, row.ai_enhanced, row.original_title, row.user_id)
  }

  /** `data.map(...)` in `loadTasks`: one task per row, in the order the table returned them. */
  function RowsToTasks(rows: seq<Row>): (ts: seq<Task>)
    ensures |ts| == |rows|
    ensures forall i :: 0 <= i < |rows| ==> ts[i] == RowToTask(rows[i])
  {
    seq(|rows|, i requires 0 <= i < |rows| => RowToTask(rows[i]))
  }

  /** The object `addTask` sends for a draft: the draft's fields under their column names,
      with the signed-in user's id; the draft's `completedAt` and `userId` are not sent. */
  function InsertPayload(d: Draft, user: string): (n: NewRow)
    ensures n.user_id == user
    ensures n.title == d.title && n.description == d.description && n.category == d.category
    ensures n.priority == d.priority && n.urgency == d.urgency && n.effort == d.effort
    ensures n.status == d.status && n.due_date == d.dueDate && n.subtasks == d.subtasks
    ensures n.ai_enhanced == d.aiEnhanced && n.original_title == d.originalTitle
  {
    NewRow(d.title, d.description, d.category, d.priority, d.urgency, d.effort, d.status,
           d.dueDate, d.subtasks, d.aiEnhanced, d.originalTitle, user)
  }

  /** The row the table holds after inserting `n`: it fills in nothing but the generated id
      and creation time. */
  function Stored(n: NewRow, id: string, createdAt: string): Row {
    Row(id, n.title, Some(n.description), n.category, n.priority, n.urgency, n.effort, n.status,
        n.due_date, Some(n.subtasks), createdAt, None, n.ai_enhanced, n.original_title, Some(n.user_id))
  }

  /** Round trip of `addTask`: inserting a draft and mapping the stored row back gives a task
      with every field of the draft, the new id and creation time, no completion time, and
      the signed-in user as owner. */
  lemma InsertRoundTrip(d: Draft, user: string, id: string, createdAt: string)
    ensures RowToTask(Stored(InsertPayload(d, user), id, createdAt))
         == Task(id, d.title, d.description, d.category, d.priority, d.urgency, d.effort, d.status,
                 d.dueDate, d.subtasks, createdAt, None, d.aiEnhanced, d.originalTitle, Some(user))
  {
  }

  // ---------------------------------------------------------------- the update payload

  /** The slot a key gets in `updateData`: sent when its value is defined, absent otherwise. */
  function DefinedOnly<T>(s: Slot<T>): (r: Slot<T>)
    ensures r != Keep <==> s.Put?
    ensures r.Put? ==> r == s
  {
    if s.Put? then s else Keep
  }

  /** `updateData` as `updateTask` builds it: a key is present exactly when the patch's value
      for it is defined, so a key the patch sets to `undefined` is not sent at all. */
  function UpdateDataOf(p: Patch): (d: UpdateData)
    ensures d.title == p.title && d.description == p.description && d.category == p.category
    ensures d.priority == p.priority && d.urgency == p.urgency && d.effort == p.effort
    ensures d.status == p.status && d.subtasks == p.subtasks
    ensures d.due_date != Keep <==> p.dueDate.Put?
    ensures d.completed_at != Keep <==> p.completedAt.Put?
    ensures d.ai_enhanced != Keep <==> p.aiEnhanced.Put?
    ensures d.original_title != Keep <==> p.originalTitle.Put?
    ensures !d.due_date.Clear? && !d.completed_at.Clear? && !d.ai_enhanced.Clear? && !d.original_title.Clear?
  {
    UpdateData(p.title, p.description, p.category, p.priority, p.urgency, p.effort, p.status,
               DefinedOnly(p.dueDate), p.subtasks, DefinedOnly(p.completedAt),
               DefinedOnly(p.aiEnhanced), DefinedOnly(p.originalTitle))
  }

  /** A payload that sends `null` for a key the patch sets to `undefined`, so that the table
      clears the column as the local merge clears the field. */
  function CorrectedUpdateDataOf(p: Patch): (d: UpdateData)
    ensures d.completed_at == p.completedAt && d.due_date == p.dueDate
    ensures d.ai_enhanced == p.aiEnhanced && d.original_title == p.originalTitle
  {
    UpdateData(p.title, p.description, p.category, p.priority, p.urgency, p.effort, p.status,
               p.dueDate, p.subtasks, p.completedAt, p.aiEnhanced, p.originalTitle)
  }

  /** How the table applies an update to the stored task: each column present is written
      (`null` empties it); the others keep their value. */
  function ApplyUpdate(t: Task, d: UpdateData): Task {
    t.(title := Pick(d.title, t.title),
       description := Pick(d.description, t.description),
       category := Pick(d.category, t.category),
       priority := Pick(d.priority, t.priority),
       urgency := Pick(d.urgency, t.urgency),
       effort := Pick(d.effort, t.effort),
       status := Pick(d.status, t.status),
       dueDate := PickSlot(d.due_date, t.dueDate),
       subtasks := Pick(d.subtasks, t.subtasks),
       completedAt := PickSlot(d.completed_at, t.completedAt),
       aiEnhanced := PickSlot(d.ai_enhanced, t.aiEnhanced),
       originalTitle := PickSlot(d.original_title, t.originalTitle))
  }

  /** A patch that sets no key to `undefined`. */
  predicate NoClears(p: Patch) {
    !p.dueDate.Clear? && !p.completedAt.Clear? && !p.aiEnhanced.Clear? && !p.originalTitle.Clear?
  }

  /** Without `undefined` values, the table's copy and the local merge agree. */
  lemma UpdateAgreesWithoutClears(t: Task, p: Patch)
    requires NoClears(p)
    ensures ApplyUpdate(t, UpdateDataOf(p)) == Merge(t, p)
  {
  }

  /** As written, toggling a Completed task back to Todo drifts: the local copy loses its
      `completedAt`, but the table is not told, keeps `completed_at`, and so holds a Todo
      task with a completion time. */
  lemma ToggleBackLeavesStaleCompletedAt(t: Task, nowIso: string)
    requires t.status == Completed && t.completedAt.Some?
    ensures var p := TogglePatch(t, nowIso);
      var local := Merge(t, p);
      var server := ApplyUpdate(t, UpdateDataOf(p));
      && local.completedAt.None? && CompletionConsistent(local)
      && server.status == Todo && server.completedAt == t.completedAt
      && !CompletionConsistent(server)
  {
  }

  /** With the corrected payload the table's copy always equals the local merge, so the
      table keeps the completion link the toggle establishes. */
  lemma CorrectedUpdateAgrees(t: Task, p: Patch)
    ensures ApplyUpdate(t, CorrectedUpdateDataOf(p)) == Merge(t, p)
  {
  }

  lemma CorrectedToggleKeepsTableConsistent(t: Task, nowIso: string)
    ensures CompletionConsistent(ApplyUpdate(t, CorrectedUpdateDataOf(TogglePatch(t, nowIso))))
  {
    CorrectedUpdateAgrees(t, TogglePatch(t, nowIso));
    ToggleEstablishesConsistency(t, nowIso);
  }

  // ---------------------------------------------------------------- list transformations

  /** `prev.map((task) => task.id === taskId ? { ...task, ...updates } : task)`. */
  function ReplaceById(tasks: seq<Task>, id: string, p: Patch): (r: seq<Task>)
    ensures |r| == |tasks|
    ensures forall i :: 0 <= i < |tasks| ==> r[i] == if tasks[i].id == id then Merge(tasks[i], p) else tasks[i]
  {
    seq(|tasks|, i requires 0 <= i < |tasks| => if tasks[i].id == id then Merge(tasks[i], p) else tasks[i])
  }

  /** An update for an id that no task has changes nothing; repeating an update changes
      nothing more; and the ids, in order, never change. */
  lemma ReplaceByIdProperties(tasks: seq<Task>, id: string, p: Patch)
    ensures (forall i :: 0 <= i < |tasks| ==> tasks[i].id != id) ==> ReplaceById(tasks, id, p) == tasks
    ensures ReplaceById(ReplaceById(tasks, id, p), id, p) == ReplaceById(tasks, id, p)
    ensures forall i :: 0 <= i < |tasks| ==> ReplaceById(tasks, id, p)[i].id == tasks[i].id
  {
    var once := ReplaceById(tasks, id, p);
    forall i | 0 <= i < |tasks| ensures ReplaceById(once, id, p)[i] == once[i] {
      if tasks[i].id == id { MergeIdempotent(tasks[i], p); }
    }
  }

  predicate HasOtherId(id: string, t: Task) {
    t.id != id
  }

  /** `prev.filter((task) => task.id !== taskId)`. */
  function RemoveById(tasks: seq<Task>, id: string): (r: seq<Task>)
    ensures forall i :: 0 <= i < |r| ==> r[i].id != id
    ensures forall i :: 0 <= i < |tasks| ==> (tasks[i] in r <==> tasks[i].id != id)
  {
    Filter(tasks, t => HasOtherId(id, t))
  }

  /** Deleting keeps the relative order of what remains, removes exactly the tasks with the
      id, and deleting again changes nothing. */
  lemma {:induction false} RemoveByIdProperties(a: seq<Task>, b: seq<Task>, id: string)
    ensures RemoveById(a + b, id) == RemoveById(a, id) + RemoveById(b, id)
    ensures |RemoveById(a, id)| == |a| - Count(a, t => !HasOtherId(id, t))
    ensures RemoveById(RemoveById(a, id), id) == RemoveById(a, id)
  {
    FilterAppend(a, b, t => HasOtherId(id, t));
    CountSplit(a, t => HasOtherId(id, t), t => !HasOtherId(id, t));
    var r := RemoveById(a, id);
    FilterAllPass(r, t => HasOtherId(id, t));
  }

  // ---------------------------------------------------------------- the store

  /** The key-by-key construction of `updateData` in `updateTask`: a key is copied only when
    the patch's value for it is not `undefined`. */
  method BuildUpdateData(updates: Patch) returns (data: UpdateData)
    ensures data == UpdateDataOf(updates)
  {
    var title := if updates.title.Some? then updates.title else None;
    assert title == updates.title;
    var description := if updates.description.Some? then updates.description else None;
    assert description == updates.description;
    var category := if updates.category.Some? then updates.category else None;
    assert category == updates.category;
    var priority := if updates.priority.Some? then updates.priority else None;
    assert priority == updates.priority;
    var urgency := if updates.urgency.Some? then updates.urgency else None;
    assert urgency == updates.urgency;
    var effort := if updates.effort.Some? then updates.effort else None;
    assert effort == updates.effort;
    var status := if updates.status.Some? then updates.status else None;
    assert status == updates.status;
    var dueDate := if updates.dueDate.Put? then updates.dueDate else Keep;
    assert dueDate == DefinedOnly(updates.dueDate);
    var subtasks := if updates.subtasks.Some? then updates.subtasks else None;
    assert subtasks == updates.subtasks;
    var completedAt := if updates.completedAt.Put? then updates.completedAt else Keep;
    assert completedAt == DefinedOnly(updates.completedAt);
    var aiEnhanced := if updates.aiEnhanced.Put? then updates.aiEnhanced else Keep;
    assert aiEnhanced == DefinedOnly(updates.aiEnhanced);
    var originalTitle := if updates.originalTitle.Put? then updates.originalTitle else Keep;
    assert originalTitle == DefinedOnly(updates.originalTitle);
    data := UpdateData(title, description, category, priority, urgency, effort, status,
                       dueDate, subtasks, completedAt, aiEnhanced, originalTitle);
  }

  class Store {
    /** The `tasks` state of the page, newest first. */
    var tasks: seq<Task>

    constructor ()
      ensures tasks == []
    {
      tasks := [];
    }

    /** `loadTasks`: with a user and rows from the table, the list becomes those rows as
        tasks; with no user or an error it is left as it was. */
    method LoadTasks(user: Option<string>, reply: Reply<seq<Row>>)
      modifies this
      ensures tasks == if user.Some? && reply.Ok? then RowsToTasks(reply.value) else old(tasks)
    {
      if user.None? {
        return;
      }
      if reply.Failed? {
        return;
      }
      tasks := RowsToTasks(reply.value);
    }

    /** `addTask`: sends nothing without a user; otherwise inserts the draft and, when the
        table returns the stored row, puts that row's task in front of the list. */
    method AddTask(user: Option<string>, draft: Draft, reply: Reply<Row>) returns (sent: Option<NewRow>)
      modifies this
      ensures sent == if user.Some? then Some(InsertPayload(draft, user.value)) else None
      ensures tasks == if user.Some? && reply.Ok? then [RowToTask(reply.value)] + old(tasks) else old(tasks)
      ensures |tasks| == |old(tasks)| + (if user.Some? && reply.Ok? then 1 else 0)
    {
      sent := None;
      if user.None? {
        return;
      }
      sent := Some(InsertPayload(draft, user.value));
      if reply.Failed? {
        return;
      }
      tasks := [RowToTask(reply.value)] + tasks;
    }

    /** `updateTask`: without a user nothing is sent. Otherwise the update built key by key
        is sent: a key the patch sets to `undefined` is left out, so the table keeps that
        column, and the table's copy of a task follows the local merge only when the patch
        sets no key to `undefined`. When the table reports success the patch is merged into
        every task with the id; every other task, the length and the order stay as they
        were. */
    method UpdateTask(user: Option<string>, taskId: string, updates: Patch, reply: Outcome)
      returns (sent: Option<UpdateData>)
      modifies this
      ensures sent == if user.Some? then Some(UpdateDataOf(updates)) else None
      ensures sent.Some? && NoClears(updates) ==> forall t :: ApplyUpdate(t, sent.value) == Merge(t, updates)
      ensures tasks == if user.Some? && reply.Success? then ReplaceById(old(tasks), taskId, updates) else old(tasks)
    {
      sent := None;
      if user.None? {
        return;
      }
      var data := BuildUpdateData(updates);
      sent := Some(data);
      if NoClears(updates) {
        forall t ensures ApplyUpdate(t, data) == Merge(t, updates) {
          UpdateAgreesWithoutClears(t, updates);
        }
      }
      if reply.Failure? {
        return;
      }
      tasks := ReplaceById(tasks, taskId, updates);
    }

    /** `deleteTask`: on success exactly the tasks with the id are dropped, the rest keep
        their order; without a user or on an error nothing changes. */
    method DeleteTask(user: Option<string>, taskId: string, reply: Outcome) returns (called: bool)
      modifies this
      ensures called == user.Some?
      ensures tasks == if user.Some? && reply.Success? then RemoveById(old(tasks), taskId) else old(tasks)
    {
      called := false;
      if user.None? {
        return;
      }
      called := true;
      if reply.Failure? {
        return;
      }
      tasks := RemoveById(tasks, taskId);
    }

    /** `toggleTaskStatus`: an unknown id sends nothing; otherwise the toggle patch goes
        through `updateTask`. On success every task with the id ends with `completedAt`
        present exactly when it is Completed. The table's copy keeps that link when the task
        is completed, but a Completed task toggled back to Todo keeps its old
        `completed_at` in the table, since the `undefined` key is not sent. */
    method ToggleTaskStatus(user: Option<string>, taskId: string, nowIso: string, reply: Outcome)
      returns (sent: Option<UpdateData>)
      modifies this
      ensures FindById(old(tasks), taskId).None? ==> sent.None? && tasks == old(tasks)
      ensures FindById(old(tasks), taskId).Some? ==>
        var p := TogglePatch(FindById(old(tasks), taskId).value, nowIso);
        && sent == (if user.Some? then Some(UpdateDataOf(p)) else None)
        && tasks == (if user.Some? && reply.Success? then ReplaceById(old(tasks), taskId, p) else old(tasks))
      ensures user.Some? && reply.Success? ==>
        forall i :: 0 <= i < |tasks| && tasks[i].id == taskId ==> CompletionConsistent(tasks[i])
      ensures sent.Some? && FindById(old(tasks), taskId).value.status != Completed ==>
        CompletionConsistent(ApplyUpdate(FindById(old(tasks), taskId).value, sent.value))
      ensures sent.Some? && FindById(old(tasks), taskId).value.status == Completed ==>
        var stored := ApplyUpdate(FindById(old(tasks), taskId).value, sent.value);
        stored.status == Todo && stored.completedAt == FindById(old(tasks), taskId).value.completedAt
    {
      var found := FindById(tasks, taskId);
      if found.None? {
        sent := None;
        return;
      }
      var p := TogglePatch(found.value, nowIso);
      sent := UpdateTask(user, taskId, p, reply);
      if sent.Some? && found.value.status != Completed {
        UpdateAgreesWithoutClears(found.value, p);
        ToggleEstablishesConsistency(found.value, nowIso);
      }
      forall i | 0 <= i < |tasks| && tasks[i].id == taskId && user.Some? && reply.Success?
        ensures CompletionConsistent(tasks[i])
      {
        ToggleEstablishesConsistency(found.value, nowIso);
      }
    }
  }
}
