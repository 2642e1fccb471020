/** The task filter of the Tasks tab and the four counters of the Dashboard tab in
    app/page.tsx. */
module Dashboard {
  import opened Collections
  import opened TaskModel

  /** The three select values; "all" (the initial value) or "" means no restriction. */
  datatype TaskFilter = TaskFilter(category: string, priority: string, status: string)

  const InitialFilter: TaskFilter := TaskFilter("all", "all", "all")

  /** What a select stores when the user picks `v`: "all" is stored as "". */
  function Stored(v: string): (r: string)
    ensures r == "" <==> v == "all" || v == ""
    ensures v != "all" ==> r == v
  {
    if v == "all" then "" else v
  }

  /** What a select shows for the stored value: `filter.category || "all"`. */
  function Shown(stored: string): (r: string)
    ensures r != ""
  {
    if stored == "" then "all" else stored
  }

  /** A pick shows up again in its select (every option of the source is non-empty). */
  lemma ShownStored(v: string)
    requires v != ""
    ensures Shown(Stored(v)) == v
  {
  }

  /** An axis restricts only when its value is neither empty nor "all". */
  predicate Restricts(axis: string) {
    axis != "" && axis != "all"
  }

  predicate Passes(f: TaskFilter, t: Task) {
    && (!Restricts(f.category) || CategoryName(t.category) == f.category)
    && (!Restricts(f.priority) || LevelName(t.priority) == f.priority)
    && (!Restricts(f.status) || StatusName(t.status) == f.status)
  }

  /** `filteredTasks`: the tasks that match every restricting axis, in their order. */
  function FilteredTasks(tasks: seq<Task>, f: TaskFilter): (r: seq<Task>)
    ensures |r| <= |tasks|
    ensures forall i :: 0 <= i < |r| ==> r[i] in tasks && Passes(f, r[i])
    ensures forall i :: 0 <= i < |tasks| ==> (tasks[i] in r <==> Passes(f, tasks[i]))
  {
    Filter(tasks, t => Passes(f, t))
  }

  /** A filter with no restricting axis, the initial one included, shows every task. */
  lemma {:induction false} UnrestrictedShowsAll(tasks: seq<Task>, f: TaskFilter)
    requires !Restricts(f.category) && !Restricts(f.priority) && !Restricts(f.status)
    ensures FilteredTasks(tasks, f) == tasks
  {
    FilterAllPass(tasks, t => Passes(f, t));
  }

  /** Picking a category (and "all" elsewhere) shows exactly the tasks of that category. */
  lemma {:induction false} CategoryFilterSelectsCategory(tasks: seq<Task>, c: Category)
    ensures var f := InitialFilter.(category := Stored(CategoryName(c)));
      FilteredTasks(tasks, f) == Filter(tasks, (t: Task) => t.category == c)
  {
    var f := InitialFilter.(category := Stored(CategoryName(c)));
    forall i | 0 <= i < |tasks| ensures Passes(f, tasks[i]) == (tasks[i].category == c) {
      CategoryNameInjective(tasks[i].category, c);
    }
    FilterSame(tasks, t => Passes(f, t), (t: Task) => t.category == c);
  }

  lemma CategoryNameInjective(a: Category, b: Category)
    ensures CategoryName(a) == CategoryName(b) <==> a == b
  {
  }

  /** A value that names no status (a stale or mistyped one) hides every task. */
  lemma {:induction false} UnknownStatusShowsNothing(tasks: seq<Task>, f: TaskFilter)
    requires Restricts(f.status)
    requires f.status != "Todo" && f.status != "In Progress" && f.status != "Completed"
    ensures FilteredTasks(tasks, f) == []
  {
    FilterNonePass(tasks, t => Passes(f, t));
  }

  /** The filter applies to each part of a list separately, so it keeps relative order. */
  lemma {:induction false} FilterKeepsOrder(a: seq<Task>, b: seq<Task>, f: TaskFilter)
    ensures FilteredTasks(a + b, f) == FilteredTasks(a, f) + FilteredTasks(b, f)
  {
    FilterAppend(a, b, t => Passes(f, t));
  }

  /** The filter state of the page, changed by the three selects. */
  class FilterState {
    var filter: TaskFilter

    constructor ()
      ensures filter == InitialFilter
    {
      filter := InitialFilter;
    }

    method SelectCategory(v: string)
      modifies this
      ensures filter == old(filter).(category := Stored(v))
    {
      filter := filter.(category := Stored(v));
    }

    method SelectPriority(v: string)
      modifies this
      ensures filter == old(filter).(priority := Stored(v))
    {
      filter := filter.(priority := Stored(v));
    }

    method SelectStatus(v: string)
      modifies this
      ensures filter == old(filter).(status := Stored(v))
    {
      filter := filter.(status := Stored(v));
    }
  }

  // ---------------------------------------------------------------- counters

  /** The four dashboard cards (and the summary counts of the assistant). */
  datatype Counters = Counters(total: nat, completed: nat, completionRate: real, highPriority: nat, dueToday: nat)

  /** The pending High or Critical tasks: never completed ones, so they and the completed
      tasks fit in the total; none exactly when no task is pending with such a priority. */
  function HighPriorityCount(tasks: seq<Task>): (n: nat)
    ensures n + CompletedCount(tasks) <= |tasks|
    ensures n == 0 <==> forall i :: 0 <= i < |tasks| ==> !IsHighPending(tasks[i])
  {
    CountDisjoint(tasks, IsHighPending, IsCompleted);
    CountNone(tasks, IsHighPending);
    Count(tasks, IsHighPending)
  }

  /** The pending tasks due today: never completed ones; none exactly when no pending task
      is due today. */
  function DueTodayCount(tasks: seq<Task>, clock: Clock): (n: nat)
    ensures n + CompletedCount(tasks) <= |tasks|
    ensures n == 0 <==> forall i :: 0 <= i < |tasks| ==> !DueTodayPending(tasks[i], clock)
  {
    CountDisjoint(tasks, t => DueTodayPending(t, clock), IsCompleted);
    CountNone(tasks, t => DueTodayPending(t, clock));
    Count(tasks, t => DueTodayPending(t, clock))
  }

  /** The counters: the pending counts only count tasks that are not completed, so each of
      them, added to the completed count, stays within the total. */
  function DashboardCounters(tasks: seq<Task>, clock: Clock): (c: Counters)
    ensures c.total == |tasks| && c.completed == CompletedCount(tasks)
    ensures c.completionRate == CompletionRate(tasks)
    ensures c.highPriority == HighPriorityCount(tasks) && c.dueToday == DueTodayCount(tasks, clock)
    ensures c.highPriority + c.completed <= c.total
    ensures c.dueToday + c.completed <= c.total
    ensures c.highPriority == 0 <==> forall i :: 0 <= i < |tasks| ==> !IsHighPending(tasks[i])
  {
    Counters(|tasks|, CompletedCount(tasks), CompletionRate(tasks), HighPriorityCount(tasks),
             DueTodayCount(tasks, clock))
  }

  /** `tasks.slice(0, 5)`: the recent tasks the dashboard and the assistant list. */
  function RecentTasks(tasks: seq<Task>): (r: seq<Task>)
    ensures |r| == if |tasks| < 5 then |tasks| else 5
    ensures r == tasks[..|r|]
  {
    Take(tasks, 5)
  }
}
