/** The planning rules of app/components/daily-planner.tsx: the tasks due on the selected
    day, the first three pending high-priority tasks, the overdue list, the best time of day
    for a task and the recommendation list. */
module Planner {
  import opened Text
  import opened Collections
  import opened TaskModel

  /** `todayTasks`: the tasks due on the selected day, whatever their status, in order. */
  function TasksOnDay(tasks: seq<Task>, clock: Clock, day: int): (r: seq<Task>)
    ensures |r| <= |tasks|
    ensures forall i :: 0 <= i < |r| ==> r[i] in tasks && DueOn(r[i], clock, day)
    ensures forall i :: 0 <= i < |tasks| ==> (tasks[i] in r <==> DueOn(tasks[i], clock, day))
  {
    Filter(tasks, t => DueOn(t, clock, day))
  }

  /** `highPriorityTasks`: the first three pending High or Critical tasks. */
  function FocusTasks(tasks: seq<Task>): (r: seq<Task>)
    ensures |r| <= 3 && |r| <= |Filter(tasks, IsHighPending)|
    ensures r == Filter(tasks, IsHighPending)[..|r|]
    ensures |r| == if Count(tasks, IsHighPending) < 3 then Count(tasks, IsHighPending) else 3
    ensures forall i :: 0 <= i < |r| ==> IsHighPending(r[i]) && r[i] in tasks
  {
    Take(Filter(tasks, IsHighPending), 3)
  }

  /** There is a focus task exactly when some task is pending with High or Critical priority. */
  lemma FocusTasksEmpty(tasks: seq<Task>)
    ensures FocusTasks(tasks) == [] <==> forall i :: 0 <= i < |tasks| ==> !IsHighPending(tasks[i])
  {
    CountNone(tasks, IsHighPending);
  }

  /** `overdueTasks`: the overdue tasks, in order; none of them is completed. */
  function OverdueTasks(tasks: seq<Task>, clock: Clock): (r: seq<Task>)
    ensures |r| <= |tasks|
    ensures forall i :: 0 <= i < |r| ==> r[i] in tasks && IsOverdue(r[i], clock) && r[i].status != Completed
    ensures forall i :: 0 <= i < |tasks| ==> (tasks[i] in r <==> IsOverdue(tasks[i], clock))
  {
    Filter(tasks, t => IsOverdue(t, clock))
  }

  // ---------------------------------------------------------------- best time of day

  /** `getTimeRecommendation`: keyword tests on the lower-cased category name, then effort.
      Only a task of effort 4 or more gets a high-energy slot; a work or study task, and a
      task of any other unmatched category, of lower effort gets a lighter one. */
  function TimeRecommendation(t: Task): (r: string)
    ensures r == "Morning (High Focus)" || r == "Morning/Afternoon" || r == "Business Hours"
         || r == "Morning/Evening" || r == "When Energy is High" || r == "Flexible"
    ensures r == "Morning (High Focus)" || r == "When Energy is High" ==> t.effort >= 4
    ensures r == "Morning/Afternoon" || r == "Flexible" ==> t.effort < 4
  {
    var category := Lower(CategoryName(t.category));
    if Contains(category, "work") || Contains(category, "study") then
      if t.effort >= 4 then "Morning (High Focus)" else "Morning/Afternoon"
    else if Contains(category, "communication") then
      "Business Hours"
    else if Contains(category, "health") || Contains(category, "exercise") then
      "Morning/Evening"
    else
      if t.effort >= 4 then "When Energy is High" else "Flexible"
  }

  /** The keyword tests amount to a table on the category: the "exercise" keyword never
      matches a category name. */
  lemma TimeRecommendationTable(t: Task)
    ensures TimeRecommendation(t) == match t.category
      case Work | Study => if t.effort >= 4 then "Morning (High Focus)" else "Morning/Afternoon"
      case Communication => "Business Hours"
      case Health => "Morning/Evening"
      case Personal | Errands => if t.effort >= 4 then "When Energy is High" else "Flexible"
  {
    CategoryKeywords(t.category);
  }

  /** Which keyword each lower-cased category name contains: its own, and no other. */
  lemma CategoryKeywords(c: Category)
    ensures var name := Lower(CategoryName(c));
      && (Contains(name, "work") <==> c == Work)
      && (Contains(name, "study") <==> c == Study)
      && (Contains(name, "communication") <==> c == Communication)
      && (Contains(name, "health") <==> c == Health)
      && !Contains(name, "exercise")
  {
    LowerCategoryNames();
    match c
    case Work => WorkKeywords();
    case Study => StudyKeywords();
    case Communication => CommunicationKeywords();
    case Health => HealthKeywords();
    case Personal => OtherKeywords("personal");
    case Errands => OtherKeywords("errands");
  }

  lemma WorkKeywords()
    ensures Contains("work", "work") && !Contains("work", "study") && !Contains("work", "communication")
      && !Contains("work", "health") && !Contains("work", "exercise")
  {
    ContainsSelf("work");
    NotContainsWithout("work", "study", 0);
    NotContainsWithout("work", "communication", 0);
    NotContainsWithout("work", "health", 1);
    NotContainsWithout("work", "exercise", 0);
  }

  lemma StudyKeywords()
    ensures !Contains("study", "work") && Contains("study", "study") && !Contains("study", "communication")
      && !Contains("study", "health") && !Contains("study", "exercise")
  {
    NotContainsWithout("study", "work", 0);
    ContainsSelf("study");
    NotContainsWithout("study", "communication", 0);
    NotContainsWithout("study", "health", 1);
    NotContainsWithout("study", "exercise", 0);
  }

  lemma CommunicationKeywords()
    ensures !Contains("communication", "work") && !Contains("communication", "study")
      && Contains("communication", "communication")
      && !Contains("communication", "health") && !Contains("communication", "exercise")
  {
    NotContainsWithout("communication", "work", 0);
    NotContainsWithout("communication", "study", 0);
    ContainsSelf("communication");
    NotContainsWithout("communication", "health", 1);
    NotContainsWithout("communication", "exercise", 0);
  }

  lemma HealthKeywords()
    ensures !Contains("health", "work") && !Contains("health", "study") && !Contains("health", "communication")
      && Contains("health", "health") && !Contains("health", "exercise")
  {
    NotContainsWithout("health", "work", 0);
    NotContainsWithout("health", "study", 0);
    NotContainsWithout("health", "communication", 0);
    ContainsSelf("health");
    NotContainsWithout("health", "exercise", 1);
  }

  /** "personal" and "errands" lack a 'w', a 't', a 'c' and an 'h' and an 'x'. */
  lemma OtherKeywords(name: string)
    requires name == "personal" || name == "errands"
    ensures !Contains(name, "work") && !Contains(name, "study") && !Contains(name, "communication")
      && !Contains(name, "health") && !Contains(name, "exercise")
  {
    NotContainsWithout(name, "work", 0);
    NotContainsWithout(name, "study", 1);
    NotContainsWithout(name, "communication", 0);
    NotContainsWithout(name, "health", 0);
    NotContainsWithout(name, "exercise", 1);
  }

  /** The lower-cased category names the keyword tests look at. */
  lemma LowerCategoryNames()
    ensures Lower(CategoryName(Work)) == "work"
    ensures Lower(CategoryName(Study)) == "study"
    ensures Lower(CategoryName(Communication)) == "communication"
    ensures Lower(CategoryName(Health)) == "health"
    ensures Lower(CategoryName(Personal)) == "personal"
    ensures Lower(CategoryName(Errands)) == "errands"
  {
  }

  // ---------------------------------------------------------------- recommendations

  datatype RecKind = Urgent | Workload | Priority | Energy | Positive

  /** A recommendation card, with the data its text quotes: the number of overdue tasks, or
      the title of the first focus task. */
  datatype Recommendation =
    | AddressOverdue(overdueCount: nat)
    | HeavyWorkload
    | FocusOn(focusTitle: string)
    | ScheduleDemandingEarly
    | WellBalanced
  {
    function Kind(): RecKind {
      match this
      case AddressOverdue(_) => Urgent
      case HeavyWorkload => Workload
      case FocusOn(_) => Priority
      case ScheduleDemandingEarly => Energy
      case WellBalanced => Positive
    }
  }

  /** The position of each kind in the list. */
  function Rank(k: RecKind): nat {
    match k
    case Urgent => 0
    case Workload => 1
    case Priority => 2
    case Energy => 3
    case Positive => 4
  }

  /** The kinds of a recommendation list, in order. */
  function Kinds(recs: seq<Recommendation>): (r: seq<RecKind>)
    ensures |r| == |recs| && forall i :: 0 <= i < |recs| ==> r[i] == recs[i].Kind()
  {
    seq(|recs|, i requires 0 <= i < |recs| => recs[i].Kind())
  }

  /** The kinds the four rules produce: one per rule that fires, in rule order, and the
      positive one alone when none fires. */
  function FiredKinds(urgent: bool, workload: bool, priority: bool, energy: bool): (r: seq<RecKind>)
    ensures 1 <= |r| <= 4
    ensures r[0] == Positive <==> !urgent && !workload && !priority && !energy
  {
    var fired := (if urgent then [Urgent] else []) + (if workload then [Workload] else [])
                 + (if priority then [Priority] else []) + (if energy then [Energy] else []);
    if fired == [] then [Positive] else fired
  }

  /** At least one and at most four entries, in strictly increasing rank (so no kind twice),
      each rule's kind present exactly when the rule fires, and the positive entry exactly
      when none fires, alone. */
  lemma FiredKindsProperties(urgent: bool, workload: bool, priority: bool, energy: bool)
    ensures var r := FiredKinds(urgent, workload, priority, energy);
      && 1 <= |r| <= 4
      && (forall i, j :: 0 <= i < j < |r| ==> Rank(r[i]) < Rank(r[j]))
      && (Urgent in r <==> urgent) && (Workload in r <==> workload)
      && (Priority in r <==> priority) && (Energy in r <==> energy)
      && (Positive in r <==> !urgent && !workload && !priority && !energy)
      && (Positive in r ==> r == [Positive])
  {
    FiredKindsSize(urgent, workload, priority, energy);
    FiredKindsOrdered(urgent, workload, priority, energy);
    FiredKindsFirstRules(urgent, workload, priority, energy);
    FiredKindsLastRules(urgent, workload, priority, energy);
    FiredKindsPositive(urgent, workload, priority, energy);
  }

  // The five parts of `FiredKindsProperties`, proved one at a time.

  lemma FiredKindsSize(urgent: bool, workload: bool, priority: bool, energy: bool)
    ensures 1 <= |FiredKinds(urgent, workload, priority, energy)| <= 4
  {
  }

  lemma FiredKindsOrdered(urgent: bool, workload: bool, priority: bool, energy: bool)
    ensures var r := FiredKinds(urgent, workload, priority, energy);
      forall i, j :: 0 <= i < j < |r| ==> Rank(r[i]) < Rank(r[j])
  {
  }

  lemma FiredKindsFirstRules(urgent: bool, workload: bool, priority: bool, energy: bool)
    ensures var r := FiredKinds(urgent, workload, priority, energy);
      (Urgent in r <==> urgent) && (Workload in r <==> workload)
  {
  }

  lemma FiredKindsLastRules(urgent: bool, workload: bool, priority: bool, energy: bool)
    ensures var r := FiredKinds(urgent, workload, priority, energy);
      (Priority in r <==> priority) && (Energy in r <==> energy)
  {
  }

  lemma FiredKindsPositive(urgent: bool, workload: bool, priority: bool, energy: bool)
    ensures var r := FiredKinds(urgent, workload, priority, energy);
      (Positive in r <==> !urgent && !workload && !priority && !energy) && (Positive in r ==> r == [Positive])
  {
  }


  predicate DemandingTask(t: Task) {
    t.effort >= 4
  }

  /** The title the priority card quotes: that of the first focus task, if any. */
  function FocusTitle(tasks: seq<Task>): string {
    var focus := FocusTasks(tasks);
    if focus == [] then "" else focus[0].title
  }

  /** The data the urgent and priority cards quote. */
  predicate Quotes(recs: seq<Recommendation>, overdueCount: nat, focusTitle: string) {
    forall i :: 0 <= i < |recs| ==>
      && (recs[i].AddressOverdue? ==> recs[i].overdueCount == overdueCount)
      && (recs[i].FocusOn? ==> recs[i].focusTitle == focusTitle)
  }

  /** `recommendations.push(r)`, seen through `Kinds` and `Quotes`. */
  lemma Pushed(recs: seq<Recommendation>, r: Recommendation, overdueCount: nat, focusTitle: string)
    requires Quotes(recs, overdueCount, focusTitle)
    requires r.AddressOverdue? ==> r.overdueCount == overdueCount
    requires r.FocusOn? ==> r.focusTitle == focusTitle
    ensures Kinds(recs + [r]) == Kinds(recs) + [r.Kind()]
    ensures Quotes(recs + [r], overdueCount, focusTitle)
  {
    assert forall i :: 0 <= i < |recs| ==> (recs + [r])[i] == recs[i];
  }

  /** `getAIRecommendations`: the cards follow the rules that fire (see `FiredKinds`); the
      urgent card counts the overdue tasks and the priority card quotes the first focus task. */
  method Recommendations(tasks: seq<Task>, clock: Clock, day: int) returns (recs: seq<Recommendation>)
    ensures Kinds(recs) == FiredKinds(|OverdueTasks(tasks, clock)| > 0, |TasksOnDay(tasks, clock, day)| > 5,
                                      FocusTasks(tasks) != [],
                                      Count(TasksOnDay(tasks, clock, day), DemandingTask) > 0)
    ensures Quotes(recs, |OverdueTasks(tasks, clock)|, FocusTitle(tasks))
  {
    var overdueTasks := OverdueTasks(tasks, clock);
    var todayTasks := TasksOnDay(tasks, clock, day);
    var highPriorityTasks := FocusTasks(tasks);
    var highEffortTasks := Filter(todayTasks, DemandingTask);
    ghost var title := FocusTitle(tasks);
    ghost var fired: seq<RecKind> := [];
    ghost var urgent, workload, priority, energy :=
      |overdueTasks| > 0, |todayTasks| > 5, |highPriorityTasks| > 0, |highEffortTasks| > 0;
    recs := [];
    if |overdueTasks| > 0 {
      Pushed(recs, AddressOverdue(|overdueTasks|), |overdueTasks|, title);
      recs := recs + [AddressOverdue(|overdueTasks|)];
      fired := fired + [Urgent];
    }
    assert fired == if urgent then [Urgent] else [];
    assert Kinds(recs) == fired && Quotes(recs, |overdueTasks|, title);
    if |todayTasks| > 5 {
      Pushed(recs, HeavyWorkload, |overdueTasks|, title);
      recs := recs + [HeavyWorkload];
      fired := fired + [Workload];
    }
    assert fired == (if urgent then [Urgent] else []) + (if workload then [Workload] else []);
    assert Kinds(recs) == fired && Quotes(recs, |overdueTasks|, title);
    if |highPriorityTasks| > 0 {
      Pushed(recs, FocusOn(highPriorityTasks[0].title), |overdueTasks|, title);
      recs := recs + [FocusOn(highPriorityTasks[0].title)];
      fired := fired + [Priority];
    }
    assert fired == (if urgent then [Urgent] else []) + (if workload then [Workload] else [])
                    + (if priority then [Priority] else []);
    assert Kinds(recs) == fired && Quotes(recs, |overdueTasks|, title);
    if |highEffortTasks| > 0 {
      Pushed(recs, ScheduleDemandingEarly, |overdueTasks|, title);
      recs := recs + [ScheduleDemandingEarly];
      fired := fired + [Energy];
    }
    assert fired == (if urgent then [Urgent] else []) + (if workload then [Workload] else [])
                    + (if priority then [Priority] else []) + (if energy then [Energy] else []);
    assert Kinds(recs) == fired && Quotes(recs, |overdueTasks|, title);
    if |recs| == 0 {
      Pushed(recs, WellBalanced, |overdueTasks|, title);
      recs := recs + [WellBalanced];
    }
  }
}
