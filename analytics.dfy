/** The derived metrics of app/components/analytics.tsx: histograms by category, priority and
    effort, per-category completion, the average effort, the completion streak, overdue and
    weekly counts, the most productive category and the list of insights. */
module Analytics {
  import opened Collections
  import opened TaskModel

  function Categories(tasks: seq<Task>): (r: seq<Category>)
    ensures |r| == |tasks| && forall i :: 0 <= i < |tasks| ==> r[i] == tasks[i].category
  {
    seq(|tasks|, i requires 0 <= i < |tasks| => tasks[i].category)
  }

  function Priorities(tasks: seq<Task>): (r: seq<Level>)
    ensures |r| == |tasks| && forall i :: 0 <= i < |tasks| ==> r[i] == tasks[i].priority
  {
    seq(|tasks|, i requires 0 <= i < |tasks| => tasks[i].priority)
  }

  function Efforts(tasks: seq<Task>): (r: seq<int>)
    ensures |r| == |tasks| && forall i :: 0 <= i < |tasks| ==> r[i] == tasks[i].effort
  {
    seq(|tasks|, i requires 0 <= i < |tasks| => tasks[i].effort)
  }

  // ---------------------------------------------------------------- histograms

  /** `categoryStats`: each category that occurs maps to its number of tasks; the counts add
      up to the number of tasks. */
  method CategoryStats(tasks: seq<Task>) returns (counts: map<Category, nat>)
    ensures IsTally(counts, Categories(tasks))
  {
    counts := Tally(Categories(tasks));
  }

  /** `priorityStats`, likewise by priority. */
  method PriorityStats(tasks: seq<Task>) returns (counts: map<Level, nat>)
    ensures IsTally(counts, Priorities(tasks))
  {
    counts := Tally(Priorities(tasks));
  }

  /** `effortStats`, likewise by effort value (any value, not only 1 to 5). */
  method EffortStats(tasks: seq<Task>) returns (counts: map<int, nat>)
    ensures IsTally(counts, Efforts(tasks))
  {
    counts := Tally(Efforts(tasks));
  }

  // ---------------------------------------------------------------- completion by category

  datatype CategoryTally = CategoryTally(total: nat, completed: nat)

  /** The number of tasks of category `c`. */
  function TotalIn(tasks: seq<Task>, c: Category): nat {
    if tasks == [] then 0
    else TotalIn(tasks[..|tasks| - 1], c) + (if tasks[|tasks| - 1].category == c then 1 else 0)
  }

  /** The number of completed tasks of category `c`. */
  function CompletedIn(tasks: seq<Task>, c: Category): nat {
    if tasks == [] then 0
    else
      var t := tasks[|tasks| - 1];
      CompletedIn(tasks[..|tasks| - 1], c) + (if t.category == c && t.status == Completed then 1 else 0)
  }

  /** A category never has more completed tasks than tasks. */
  lemma {:induction false} CompletedWithinTotal(tasks: seq<Task>, c: Category)
    ensures CompletedIn(tasks, c) <= TotalIn(tasks, c)
  {
    if tasks != [] {
      CompletedWithinTotal(tasks[..|tasks| - 1], c);
    }
  }

  /** The per-category total agrees with the category histogram. */
  lemma {:induction false} TotalInIsOccurrences(tasks: seq<Task>, c: Category)
    ensures TotalIn(tasks, c) == Occurrences(Categories(tasks), c)
  {
    if tasks != [] {
      var init := tasks[..|tasks| - 1];
      TotalInIsOccurrences(init, c);
      assert Categories(tasks) == Categories(init) + [tasks[|tasks| - 1].category];
      OccurrencesAppend(Categories(init), tasks[|tasks| - 1].category, c);
    }
  }

  /** The key order after assigning key `c`: a new key goes at the end. */
  function NextOrder(order: seq<Category>, c: Category): seq<Category> {
    if c in order then order else order + [c]
  }

  /** The distinct values of `cats` in order of first occurrence: the key order of a record
      built by assigning keys in that order. */
  function FirstSeen(cats: seq<Category>): seq<Category> {
    if cats == [] then []
    else
      var init := FirstSeen(cats[..|cats| - 1]);
      if cats[|cats| - 1] in init then init else init + [cats[|cats| - 1]]
  }

  predicate NoRepeats(s: seq<Category>) {
    forall i, j :: 0 <= i < j < |s| ==> s[i] != s[j]
  }

  /** Each value of `cats` is listed once, and nothing else is. */
  lemma {:induction false} FirstSeenLists(cats: seq<Category>)
    ensures forall c :: c in FirstSeen(cats) <==> c in cats
    ensures NoRepeats(FirstSeen(cats))
  {
    if cats != [] {
      var prior := cats[..|cats| - 1];
      var x := cats[|cats| - 1];
      FirstSeenLists(prior);
      assert cats == prior + [x];
      var init := FirstSeen(prior);
      assert FirstSeen(cats) == if x in init then init else init + [x];
      if x !in init {
        var r := init + [x];
        forall i, j | 0 <= i < j < |r| ensures r[i] != r[j] {
          if j == |init| {
            assert r[i] == init[i] && r[i] in init && r[j] == x;
          } else {
            assert r[i] == init[i] && r[j] == init[j];
          }
        }
      }
    }
  }

  /** One step of the reduce: the task's category gets a zero entry if it has none, then its
      total, and for a completed task its completed count, go up by one. */
  function CountInto(stats: map<Category, CategoryTally>, t: Task): map<Category, CategoryTally> {
    var base := if t.category in stats then stats[t.category] else CategoryTally(0, 0);
    stats[t.category := CategoryTally(base.total + 1, base.completed + (if t.status == Completed then 1 else 0))]
  }

  /** Every entry counts at least one task and no more completed tasks than tasks. */
  predicate RatesDefined(stats: map<Category, CategoryTally>) {
    forall c :: c in stats ==> 0 < stats[c].total && stats[c].completed <= stats[c].total
  }

  /** The record the reduce builds over `tasks`: every entry counts at least one task and no
      more completed tasks than tasks, so each card's rate is well defined. */
  function StatsOf(tasks: seq<Task>): (r: map<Category, CategoryTally>)
    ensures RatesDefined(r)
  {
    if tasks == [] then map[] else CountInto(StatsOf(tasks[..|tasks| - 1]), tasks[|tasks| - 1])
  }

  /** The record holds a key for exactly the categories that occur, and each maps to its
      category's number of tasks and of completed tasks. */
  lemma {:induction false} StatsOfCounts(tasks: seq<Task>)
    ensures forall c :: c in StatsOf(tasks) <==> c in Categories(tasks)
    ensures forall c :: c in StatsOf(tasks) ==> StatsOf(tasks)[c] == CategoryTally(TotalIn(tasks, c), CompletedIn(tasks, c))
    ensures forall c :: c !in StatsOf(tasks) ==> TotalIn(tasks, c) == 0 && CompletedIn(tasks, c) == 0
  {
    if tasks != [] {
      var init := tasks[..|tasks| - 1];
      StatsOfCounts(init);
      assert Categories(tasks) == Categories(init) + [tasks[|tasks| - 1].category];
    }
  }

  /** `categoryCompletionStats`, built by the reduce loop: `order` is the key order of the
      record (first occurrence), and each key maps to its category's total and completed
      counts. */
  method CategoryCompletionStats(tasks: seq<Task>) returns (order: seq<Category>, stats: map<Category, CategoryTally>)
    ensures stats == StatsOf(tasks)
    ensures order == FirstSeen(Categories(tasks))
    ensures forall c :: c in stats <==> c in order
    ensures NoRepeats(order)
    ensures forall c :: c in stats ==> stats[c] == CategoryTally(TotalIn(tasks, c), CompletedIn(tasks, c))
  {
    order := [];
    stats := map[];
    var i := 0;
    while i < |tasks|
      invariant 0 <= i <= |tasks|
      invariant stats == StatsOf(tasks[..i])
      invariant order == FirstSeen(Categories(tasks[..i]))
    {
      var t := tasks[i];
      CountStep(tasks, i, stats, order);
      ghost var before, orderBefore := stats, order;
      var entry := CategoryTally(0, 0);
      if t.category in stats {
        entry := stats[t.category];
      } else {
        order := order + [t.category];
      }
      entry := entry.(total := entry.total + 1);
      if t.status == Completed {
        entry := entry.(completed := entry.completed + 1);
      }
      ghost var base := if t.category in before then before[t.category] else CategoryTally(0, 0);
      assert entry == CategoryTally(base.total + 1, base.completed + (if t.status == Completed then 1 else 0));
      stats := stats[t.category := entry];
      assert stats == CountInto(before, t);
      assert order == NextOrder(orderBefore, t.category);
      i := i + 1;
    }
    assert tasks[..i] == tasks;
    CategoryCardsListed(tasks);
  }

  /** The cards are listed once each, in first-seen order, and each carries its category's
      counts. */
  lemma CategoryCardsListed(tasks: seq<Task>)
    ensures forall c :: c in StatsOf(tasks) <==> c in FirstSeen(Categories(tasks))
    ensures NoRepeats(FirstSeen(Categories(tasks)))
    ensures forall c :: c in StatsOf(tasks) ==> StatsOf(tasks)[c] == CategoryTally(TotalIn(tasks, c), CompletedIn(tasks, c))
  {
    StatsOfCounts(tasks);
    FirstSeenLists(Categories(tasks));
  }

  /** Counting the task at `i` extends the record by `CountInto` and the key order by its
      category when that category is new. */
  lemma CountStep(tasks: seq<Task>, i: nat, stats: map<Category, CategoryTally>, order: seq<Category>)
    requires i < |tasks|
    requires stats == StatsOf(tasks[..i]) && order == FirstSeen(Categories(tasks[..i]))
    ensures StatsOf(tasks[..i + 1]) == CountInto(stats, tasks[i])
    ensures tasks[i].category in stats <==> tasks[i].category in order
    ensures FirstSeen(Categories(tasks[..i + 1])) == NextOrder(order, tasks[i].category)
  {
    assert tasks[..i + 1][..i] == tasks[..i];
    var cats := Categories(tasks[..i + 1]);
    assert cats[..|cats| - 1] == Categories(tasks[..i]);
    StatsOfCounts(tasks[..i]);
    FirstSeenLists(Categories(tasks[..i]));
  }

  /** The category cards agree with the category histogram: a card is shown for exactly the
      categories that occur, its total is the histogram's count, and its completed count never
      exceeds it. */
  lemma CategoryCardsAgree(tasks: seq<Task>, c: Category)
    ensures c in StatsOf(tasks) <==> Occurrences(Categories(tasks), c) > 0
    ensures c in StatsOf(tasks) ==>
      && StatsOf(tasks)[c].total == Occurrences(Categories(tasks), c)
      && StatsOf(tasks)[c].completed <= StatsOf(tasks)[c].total
  {
    StatsOfCounts(tasks);
    TotalInIsOccurrences(tasks, c);
    CompletedWithinTotal(tasks, c);
  }

  /** The completion percentage a category card shows. */
  function CategoryRate(s: CategoryTally): (r: real)
    requires s.completed <= s.total
    ensures 0.0 <= r <= 100.0
    ensures r == 100.0 <==> s.total > 0 && s.completed == s.total
  {
    Percent(s.completed, s.total)
  }

  // ---------------------------------------------------------------- most productive category

  /** `Object.entries(categoryCompletionStats)`: key text and counts, in key order. */
  function Entries(order: seq<Category>, stats: map<Category, CategoryTally>): (e: seq<(string, CategoryTally)>)
    requires forall i :: 0 <= i < |order| ==> order[i] in stats
    ensures |e| == |order|
    ensures forall i :: 0 <= i < |order| ==> e[i] == (CategoryName(order[i]), stats[order[i]])
  {
    seq(|order|, i requires 0 <= i < |order| => (CategoryName(order[i]), stats[order[i]]))
  }

  datatype Best = Best(category: string, stats: CategoryTally)

  /** The seed of the fold. */
  const NoBest: Best := Best("None", CategoryTally(0, 0))

  /** The completion ratio the fold compares (0 for an empty category). */
  function Ratio(s: CategoryTally): real {
    if s.total > 0 then s.completed as real / s.total as real else 0.0
  }

  function RatioAt(e: seq<(string, CategoryTally)>, i: int): real
    requires 0 <= i < |e|
  {
    Ratio(e[i].1)
  }

  /** One step of the reduce: an entry replaces the best so far only with a strictly higher
      ratio. */
  function Step(best: Best, entry: (string, CategoryTally)): Best {
    if Ratio(entry.1) > Ratio(best.stats) then Best(entry.0, entry.1) else best
  }

  /** The reduce over the entries, seeded with "None": no entry has a higher ratio than the
      result, which is the seed or an entry with a positive ratio. */
  function MostProductive(e: seq<(string, CategoryTally)>): (r: Best)
    ensures forall j :: 0 <= j < |e| ==> RatioAt(e, j) <= Ratio(r.stats)
    ensures r == NoBest || exists i :: 0 <= i < |e| && r == Best(e[i].0, e[i].1) && RatioAt(e, i) > 0.0
  {
    if e == [] then NoBest
    else
      var init := e[..|e| - 1];
      var r := Step(MostProductive(init), e[|e| - 1]);
      assert forall j :: 0 <= j < |init| ==> RatioAt(init, j) == RatioAt(e, j);
      r
  }

  /** The ratio of the best so far: the entry at `k`, or the seed's 0 when `k` is -1. */
  function BestRatio(e: seq<(string, CategoryTally)>, k: int): real
    requires -1 <= k < |e|
  {
    if k < 0 then 0.0 else RatioAt(e, k)
  }

  /** The position the fold ends on, -1 standing for the seed. */
  function BestIndex(e: seq<(string, CategoryTally)>): (k: int)
    ensures -1 <= k < |e|
  {
    if e == [] then -1
    else
      var k := BestIndex(e[..|e| - 1]);
      if RatioAt(e, |e| - 1) > BestRatio(e, k) then |e| - 1 else k
  }

  lemma {:induction false} MostProductiveAtBestIndex(e: seq<(string, CategoryTally)>)
    ensures var k := BestIndex(e);
      MostProductive(e) == if k < 0 then NoBest else Best(e[k].0, e[k].1)
  {
    if e != [] {
      var init := e[..|e| - 1];
      MostProductiveAtBestIndex(init);
      var k := BestIndex(init);
      if k >= 0 {
        assert init[k] == e[k];
      }
      assert Ratio(MostProductive(init).stats) == BestRatio(e, k);
    }
  }

  lemma {:induction false} BestIndexIsFirstMaximum(e: seq<(string, CategoryTally)>)
    ensures var k := BestIndex(e);
      && (forall j :: 0 <= j < |e| ==> RatioAt(e, j) <= BestRatio(e, k))
      && (k >= 0 ==> RatioAt(e, k) > 0.0 && forall j :: 0 <= j < k ==> RatioAt(e, j) < RatioAt(e, k))
  {
    if e != [] {
      var init := e[..|e| - 1];
      BestIndexIsFirstMaximum(init);
      assert forall j :: 0 <= j < |init| ==> RatioAt(init, j) == RatioAt(e, j);
    }
  }

  /** The fold gives "None" when no entry has a positive ratio; otherwise the first entry with
      the highest ratio. */
  lemma MostProductiveIsFirstMaximum(e: seq<(string, CategoryTally)>)
    ensures (forall j :: 0 <= j < |e| ==> RatioAt(e, j) <= 0.0) ==> MostProductive(e) == NoBest
    ensures (exists j :: 0 <= j < |e| && RatioAt(e, j) > 0.0) ==>
      exists i :: 0 <= i < |e| && MostProductive(e) == Best(e[i].0, e[i].1)
        && RatioAt(e, i) > 0.0
        && (forall j :: 0 <= j < |e| ==> RatioAt(e, j) <= RatioAt(e, i))
        && (forall j :: 0 <= j < i ==> RatioAt(e, j) < RatioAt(e, i))
  {
    MostProductiveAtBestIndex(e);
    BestIndexIsFirstMaximum(e);
  }

  // ---------------------------------------------------------------- average effort

  /** `tasks.reduce((sum, task) => sum + task.effort, 0)`. */
  function EffortSum(tasks: seq<Task>): int {
    if tasks == [] then 0 else EffortSum(tasks[..|tasks| - 1]) + tasks[|tasks| - 1].effort
  }

  predicate EffortsInScale(tasks: seq<Task>) {
    forall i :: 0 <= i < |tasks| ==> 1 <= tasks[i].effort <= 5
  }

  lemma {:induction false} EffortSumBounds(tasks: seq<Task>)
    requires EffortsInScale(tasks)
    ensures |tasks| <= EffortSum(tasks) <= 5 * |tasks|
  {
    if tasks != [] {
      EffortSumBounds(tasks[..|tasks| - 1]);
    }
  }

  lemma QuotientBounds(sum: real, n: real)
    requires n > 0.0 && n <= sum <= 5.0 * n
    ensures 1.0 <= sum / n <= 5.0
  {
    QuotientAtMost(n, sum, n);
    QuotientAtMost(sum, 5.0 * n, n);
    ScaledQuotient(1.0, n);
    ScaledQuotient(5.0, n);
    assert 1.0 * n == n;
  }

  lemma ScaledQuotient(k: real, n: real)
    requires n > 0.0
    ensures (k * n) / n == k
  {
  }

  lemma QuotientAtMost(a: real, b: real, n: real)
    requires n > 0.0 && a <= b
    ensures a / n <= b / n
  {
  }

  /** `averageEffort`: 0 for no tasks; with every effort on the 1 to 5 scale the average is on
      that scale too. */
  function AverageEffort(tasks: seq<Task>): (r: real)
    ensures tasks == [] ==> r == 0.0
    ensures tasks != [] && EffortsInScale(tasks) ==> 1.0 <= r <= 5.0
  {
    if |tasks| > 0 then
      var n := |tasks| as real;
      var avg := EffortSum(tasks) as real / n;
      assert EffortsInScale(tasks) ==> 1.0 <= avg <= 5.0 by {
        if EffortsInScale(tasks) {
          EffortSumBounds(tasks);
          QuotientBounds(EffortSum(tasks) as real, n);
        }
      }
      avg
    else 0.0
  }

  // ---------------------------------------------------------------- streak

  /** The task has a completion time on calendar day `day`. */
  predicate CompletedOnDay(t: Task, clock: Clock, day: int) {
    Truthy(t.completedAt) && Day(clock.instant(t.completedAt.value)) == day
  }

  /** `tasks.some(...)`: some task was completed on `day`. */
  predicate AnyCompletedOn(tasks: seq<Task>, clock: Clock, day: int) {
    exists i :: 0 <= i < |tasks| && CompletedOnDay(tasks[i], clock, day)
  }

  /** The day `k` days before today. */
  function DaysAgo(clock: Clock, k: int): int {
    Day(clock.now) - k
  }

  /** `getCompletionStreak`: walking back from today one day at a time, the number of
      consecutive days with a completion, capped at 30. Every day of the streak has a
      completion, and, below the cap, the day just before it has none; so the streak is 0
      exactly when nothing was completed today. */
  method CompletionStreak(tasks: seq<Task>, clock: Clock) returns (streak: nat)
    ensures streak <= 30
    ensures forall k :: 0 <= k < streak ==> AnyCompletedOn(tasks, clock, DaysAgo(clock, k))
    ensures streak < 30 ==> !AnyCompletedOn(tasks, clock, DaysAgo(clock, streak))
    ensures streak == 0 <==> !AnyCompletedOn(tasks, clock, Day(clock.now))
  {
    streak := 0;
    var current := clock.now;
    while streak < 30
      invariant streak <= 30
      invariant Day(current) == DaysAgo(clock, streak)
      invariant forall k :: 0 <= k < streak ==> AnyCompletedOn(tasks, clock, DaysAgo(clock, k))
    {
      var hasCompletedTask := AnyCompletedOn(tasks, clock, Day(current));
      if hasCompletedTask {
        streak := streak + 1;
        DayBefore(current);
        current := current - MsPerDay;
      } else {
        break;
      }
    }
  }

  // ---------------------------------------------------------------- overdue and weekly counts

  /** `overdueTasks`: overdue tasks are never completed, so they and the completed ones
      together stay within the total. */
  function OverdueCount(tasks: seq<Task>, clock: Clock): (n: nat)
    ensures n + CompletedCount(tasks) <= |tasks|
    ensures n == 0 <==> forall i :: 0 <= i < |tasks| ==> !IsOverdue(tasks[i], clock)
  {
    CountDisjoint(tasks, t => IsOverdue(t, clock), IsCompleted);
    CountNone(tasks, t => IsOverdue(t, clock));
    Count(tasks, t => IsOverdue(t, clock))
  }

  /** Seven days before now (`setDate(getDate() - 7)`). */
  function WeekAgo(clock: Clock): int {
    clock.now - 7 * MsPerDay
  }

  predicate CompletedSince(t: Task, clock: Clock, since: int) {
    Truthy(t.completedAt) && clock.instant(t.completedAt.value) >= since
  }

  predicate CreatedSince(t: Task, clock: Clock, since: int) {
    clock.instant(t.createdAt) >= since
  }

  datatype Weekly = Weekly(completed: nat, created: nat)

  /** `getWeeklyStats`: tasks completed and tasks created in the last seven days. The
      completed count reads only `completedAt`, so when every task keeps the completion link
      it counts completed tasks only. */
  function WeeklyStats(tasks: seq<Task>, clock: Clock): (w: Weekly)
    ensures w.completed <= |tasks| && w.created <= |tasks|
    ensures (forall i :: 0 <= i < |tasks| ==> CompletionConsistent(tasks[i])) ==> w.completed <= CompletedCount(tasks)
  {
    var since := WeekAgo(clock);
    assert (forall i :: 0 <= i < |tasks| ==> CompletionConsistent(tasks[i])) ==>
           Count(tasks, t => CompletedSince(t, clock, since)) <= CompletedCount(tasks) by {
      if forall i :: 0 <= i < |tasks| ==> CompletionConsistent(tasks[i]) {
        CountMonotone(tasks, t => CompletedSince(t, clock, since), IsCompleted);
      }
    }
    Weekly(Count(tasks, t => CompletedSince(t, clock, since)), Count(tasks, t => CreatedSince(t, clock, since)))
  }

  /** The two weekly counts are independent: adding a task created before the week but
      completed in it raises the completed count by one and leaves the created count. */
  lemma {:induction false} WeeklyCountsAreIndependent(tasks: seq<Task>, late: Task, clock: Clock)
    requires CompletedSince(late, clock, WeekAgo(clock)) && !CreatedSince(late, clock, WeekAgo(clock))
    ensures var w := WeeklyStats(tasks, clock);
      WeeklyStats(tasks + [late], clock) == Weekly(w.completed + 1, w.created)
  {
    var since := WeekAgo(clock);
    FilterAppend(tasks, [late], t => CompletedSince(t, clock, since));
    FilterAppend(tasks, [late], t => CreatedSince(t, clock, since));
  }

  // ---------------------------------------------------------------- insights

  datatype Insight = FocusOnCompleting | PrioritizeOverdue | BreakDownTasks | StartStreak | KeepStreak(days: nat)

  /** The place of a bullet in the insights card; both streak bullets take the last place. */
  function InsightRank(b: Insight): nat {
    match b
    case FocusOnCompleting => 0
    case PrioritizeOverdue => 1
    case BreakDownTasks => 2
    case StartStreak => 3
    case KeepStreak(_) => 3
  }

  /** The bullet list of the insights card, in its fixed order; it always ends with exactly
      one streak bullet. */
  function Insights(completionRate: real, overdue: nat, averageEffort: real, streak: nat): (r: seq<Insight>)
    ensures 1 <= |r| <= 4
    ensures FocusOnCompleting in r <==> completionRate < 50.0
    ensures PrioritizeOverdue in r <==> overdue > 0
    ensures BreakDownTasks in r <==> averageEffort > 4.0
    ensures r[|r| - 1] == if streak == 0 then StartStreak else KeepStreak(streak)
    ensures forall i :: 0 <= i < |r| - 1 ==> !r[i].StartStreak? && !r[i].KeepStreak?
    ensures forall i, j :: 0 <= i < j < |r| ==> InsightRank(r[i]) < InsightRank(r[j])
  {
    (if completionRate < 50.0 then [FocusOnCompleting] else [])
    + (if overdue > 0 then [PrioritizeOverdue] else [])
    + (if averageEffort > 4.0 then [BreakDownTasks] else [])
    + (if streak == 0 then [StartStreak] else [KeepStreak(streak)])
  }
}
