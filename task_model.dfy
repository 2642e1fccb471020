/** The `Task` and `Subtask` records of app/page.tsx and the predicates over them that
    several components share: the overdue test, the high-priority test, the effort label,
    the status toggle and the `{ ...task, ...updates }` merge. */
module TaskModel {
  import opened Text
  import opened Collections

  datatype Option<T> = None | Some(value: T)

  /** One optional key of a `Partial<Task>` patch: the key is absent, present but
      `undefined`, or present with a value. The spread merge tells the first two apart. */
  datatype Slot<T> = Keep | Clear | Put(value: T)

  datatype Category = Work | Personal | Health | Study | Communication | Errands
  datatype Level = Low | Medium | High | Critical
  datatype Status = Todo | InProgress | Completed

  /** The string each enumeration value has in the source (and in the filter selects). */
  function CategoryName(c: Category): string {
    match c
    case Work => "Work"
    case Personal => "Personal"
    case Health => "Health"
    case Study => "Study"
    case Communication => "Communication"
    case Errands => "Errands"
  }

  function LevelName(l: Level): string {
    match l
    case Low => "Low"
    case Medium => "Medium"
    case High => "High"
    case Critical => "Critical"
  }

  function StatusName(s: Status): string {
    match s
    case Todo => "Todo"
    case InProgress => "In Progress"
    case Completed => "Completed"
  }

  datatype Subtask = Subtask(id: string, title: string, completed: bool)

  /** Dates and times are the ISO strings the source stores; `Clock` reads them. */
  datatype Task = Task(
    id: string,
    title: string,
    description: string,
    category: Category,
    priority: Level,
    urgency: Level,
    effort: int,
    status: Status,
    dueDate: Option<string>,
    subtasks: seq<Subtask>,
    createdAt: string,
    completedAt: Option<string>,
    aiEnhanced: Option<bool>,
    originalTitle: Option<string>,
    userId: Option<string>)

  /** `Omit<Task, "id" | "createdAt">`: what the form and the assistant hand to the store. */
  datatype Draft = Draft(
    title: string,
    description: string,
    category: Category,
    priority: Level,
    urgency: Level,
    effort: int,
    status: Status,
    dueDate: Option<string>,
    subtasks: seq<Subtask>,
    completedAt: Option<string>,
    aiEnhanced: Option<bool>,
    originalTitle: Option<string>,
    userId: Option<string>)

  // ---------------------------------------------------------------- time

  const MsPerDay: int := 86400000

  /** The current instant (`new Date()`, in milliseconds) and how `new Date(text)` reads a
      date string. */
  datatype Clock = Clock(now: int, instant: string -> int)

  /** The calendar day of an instant, standing for `toDateString()`. */
  function Day(ts: int): int {
    ts / MsPerDay
  }

  /** `setDate(getDate() - 1)` lands on the previous calendar day. */
  lemma DayBefore(ts: int)
    ensures Day(ts - MsPerDay) == Day(ts) - 1
  {
  }

  /** JavaScript truthiness of an optional string: present and not empty. */
  predicate Truthy(o: Option<string>) {
    o.Some? && o.value != ""
  }

  // ---------------------------------------------------------------- shared predicates

  predicate IsCompleted(t: Task) {
    t.status == Completed
  }

  /** High or Critical priority and not yet completed. */
  predicate IsHighPending(t: Task) {
    (t.priority == High || t.priority == Critical) && t.status != Completed
  }

  /** The overdue test of app/components/analytics.tsx and daily-planner.tsx: a due date,
      not completed, and the due instant before now. */
  predicate IsOverdue(t: Task, clock: Clock) {
    if !Truthy(t.dueDate) || t.status == Completed then false
    else clock.instant(t.dueDate.value) < clock.now
  }

  /** The task's due date falls on calendar day `day`. */
  predicate DueOn(t: Task, clock: Clock, day: int) {
    Truthy(t.dueDate) && Day(clock.instant(t.dueDate.value)) == day
  }

  /** Due today and not completed: the dashboard's and the assistant summary's "due today". */
  predicate DueTodayPending(t: Task, clock: Clock) {
    DueOn(t, clock, Day(clock.now)) && t.status != Completed
  }

  /** The link the status toggle maintains: `completedAt` is present exactly when completed. */
  predicate CompletionConsistent(t: Task) {
    t.status == Completed <==> t.completedAt.Some?
  }

  const EffortLabels: seq<string> := ["", "Very Easy", "Easy", "Medium", "Hard", "Very Hard"]

  /** `labels[effort] || "Unknown"`: a label for the efforts 1 to 5, "Unknown" for every other
      value (0 indexes the empty label, which is falsy). */
  function EffortLabel(effort: int): (text: string)
    ensures text == "Unknown" <==> !(1 <= effort <= 5)
    ensures 1 <= effort <= 5 ==> text == EffortLabels[effort]
  {
    if 0 <= effort < |EffortLabels| && EffortLabels[effort] != "" then EffortLabels[effort] else "Unknown"
  }

  /** Different effort levels get different labels. */
  lemma EffortLabelInjective(a: int, b: int)
    requires 1 <= a <= 5 && 1 <= b <= 5
    requires EffortLabel(a) == EffortLabel(b)
    ensures a == b
  {
  }

  /** `(part / whole) * 100`, or 0 when there is nothing to measure. */
  function Percent(part: nat, whole: nat): (r: real)
    requires part <= whole
    ensures 0.0 <= r <= 100.0
    ensures whole == 0 ==> r == 0.0
    ensures r == 100.0 <==> whole > 0 && part == whole
    ensures r == 0.0 <==> part == 0
  {
    if whole > 0 then
      var w := whole as real;
      var q := part as real / w;
      assert q * w == part as real;
      assert (1.0 - q) * w == (whole - part) as real;
      assert q <= 1.0;
      assert q == 1.0 ==> part == whole by {
        if q == 1.0 {
          assert q * w == 1.0 * w;
        }
      }
      q * 100.0
    else 0.0
  }

  /** `tasks.filter((t) => t.status === "Completed").length`. */
  function CompletedCount(tasks: seq<Task>): (n: nat)
    ensures n <= |tasks|
  {
    Count(tasks, IsCompleted)
  }

  /** The completion rate of the dashboard and the analytics page: 0 for no tasks, otherwise
      the completed share times 100. It is 100 exactly when every task (of at least one) is
      completed, and 0 exactly when none is. */
  function CompletionRate(tasks: seq<Task>): (r: real)
    ensures 0.0 <= r <= 100.0
    ensures tasks == [] ==> r == 0.0
    ensures r == 100.0 <==> tasks != [] && forall i :: 0 <= i < |tasks| ==> tasks[i].status == Completed
    ensures r == 0.0 <==> forall i :: 0 <= i < |tasks| ==> tasks[i].status != Completed
  {
    CountAll(tasks, IsCompleted);
    CountNone(tasks, IsCompleted);
    Percent(CompletedCount(tasks), |tasks|)
  }

  // ---------------------------------------------------------------- patches

  /** A `Partial<Task>` patch over the keys `updateTask` forwards to the table. Required
      fields are absent or present; optional ones may also be present with `undefined`. */
  datatype Patch = Patch(
    title: Option<string>,
    description: Option<string>,
    category: Option<Category>,
    priority: Option<Level>,
    urgency: Option<Level>,
    effort: Option<int>,
    status: Option<Status>,
    dueDate: Slot<string>,
    subtasks: Option<seq<Subtask>>,
    completedAt: Slot<string>,
    aiEnhanced: Slot<bool>,
    originalTitle: Slot<string>)

  function Pick<T>(o: Option<T>, current: T): T {
    if o.Some? then o.value else current
  }

  function PickSlot<T>(s: Slot<T>, current: Option<T>): Option<T> {
    match s
    case Keep => current
    case Clear => None
    case Put(v) => Some(v)
  }

  /** `{ ...task, ...updates }`: every key present in the patch overrides the task's field
      (an `undefined` one clears it); every other field is kept. */
  function Merge(t: Task, p: Patch): (r: Task)
    ensures r.id == t.id && r.createdAt == t.createdAt && r.userId == t.userId
  {
    t.(title := Pick(p.title, t.title),
       description := Pick(p.description, t.description),
       category := Pick(p.category, t.category),
       priority := Pick(p.priority, t.priority),
       urgency := Pick(p.urgency, t.urgency),
       effort := Pick(p.effort, t.effort),
       status := Pick(p.status, t.status),
       dueDate := PickSlot(p.dueDate, t.dueDate),
       subtasks := Pick(p.subtasks, t.subtasks),
       completedAt := PickSlot(p.completedAt, t.completedAt),
       aiEnhanced := PickSlot(p.aiEnhanced, t.aiEnhanced),
       originalTitle := PickSlot(p.originalTitle, t.originalTitle))
  }

  /** Applying the same patch twice is applying it once. */
  lemma MergeIdempotent(t: Task, p: Patch)
    ensures Merge(Merge(t, p), p) == Merge(t, p)
  {
  }

  /** `tasks.find((t) => t.id === id)`: the first task with that id, if any. */
  function FindById(tasks: seq<Task>, id: string): (r: Option<Task>)
    ensures r.None? <==> forall i :: 0 <= i < |tasks| ==> tasks[i].id != id
    ensures r.Some? ==> r.value.id == id && r.value in tasks
    ensures r.Some? ==> exists i :: 0 <= i < |tasks| && tasks[i] == r.value
                                    && forall j :: 0 <= j < i ==> tasks[j].id != id
  {
    if tasks == [] then None
    else if tasks[0].id == id then Some(tasks[0])
    else
      var r := FindById(tasks[1..], id);
      assert r.Some? ==> exists i :: 1 <= i < |tasks| && tasks[i] == r.value
                                     && forall j :: 0 <= j < i ==> tasks[j].id != id by {
        if r.Some? {
          var i :| 0 <= i < |tasks[1..]| && tasks[1..][i] == r.value
                   && forall j :: 0 <= j < i ==> tasks[1..][j].id != id;
          assert tasks[i + 1] == r.value;
          forall j | 0 <= j < i + 1 ensures tasks[j].id != id {
            if j > 0 { assert tasks[j] == tasks[1..][j - 1]; }
          }
        }
      }
      r
  }

  /** The patch `toggleTaskStatus` sends: Completed goes back to Todo with `completedAt`
      set to `undefined`; any other status (In Progress included) becomes Completed with
      `completedAt` set to the current instant's ISO text. */
  function TogglePatch(t: Task, nowIso: string): (p: Patch)
    ensures p.status == Some(if t.status == Completed then Todo else Completed)
    ensures p.completedAt == if t.status == Completed then Clear else Put(nowIso)
    ensures p.title.None? && p.description.None? && p.category.None? && p.priority.None?
    ensures p.urgency.None? && p.effort.None? && p.subtasks.None?
    ensures p.dueDate.Keep? && p.aiEnhanced.Keep? && p.originalTitle.Keep?
  {
    var newStatus := if t.status == Completed then Todo else Completed;
    Patch(None, None, None, None, None, None, Some(newStatus), Keep, None,
          if newStatus == Completed then Put(nowIso) else Clear, Keep, Keep)
  }

  /** Merging the toggle patch into the task it was computed from always leaves the task
      with `completedAt` present exactly when it is Completed, and changes nothing else. */
  lemma ToggleEstablishesConsistency(t: Task, nowIso: string)
    ensures var r := Merge(t, TogglePatch(t, nowIso));
      && CompletionConsistent(r)
      && (r.status == Completed <==> t.status != Completed)
      && r == t.(status := r.status, completedAt := r.completedAt)
  {
  }

  /** Toggling twice gives back a Todo or Completed status (In Progress does not come back:
      it becomes Completed and then Todo). */
  lemma ToggleTwice(t: Task, now1: string, now2: string)
    ensures var once := Merge(t, TogglePatch(t, now1));
      var twice := Merge(once, TogglePatch(once, now2));
      && (t.status != InProgress ==> twice.status == t.status)
      && (t.status == InProgress ==> twice.status == Todo)
  {
  }

  /** `toggleTaskStatus` in app/page.tsx and daily-planner.tsx: nothing for an unknown id,
      otherwise the toggle patch of the first task with that id. */
  function ToggleUpdates(tasks: seq<Task>, id: string, nowIso: string): (r: Option<Patch>)
    ensures r.None? <==> forall i :: 0 <= i < |tasks| ==> tasks[i].id != id
    ensures r.Some? ==> exists i :: 0 <= i < |tasks| && tasks[i].id == id
                                    && r.value == TogglePatch(tasks[i], nowIso)
    ensures r.Some? ==> r.value == TogglePatch(FindById(tasks, id).value, nowIso)
  {
    match FindById(tasks, id)
    case None => None
    case Some(t) => Some(TogglePatch(t, nowIso))
  }
}
