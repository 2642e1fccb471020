/** The task builder of app/components/ai-assistant.tsx: the numbered lines of the
    assistant's answer become subtasks, and keywords of the user's text choose the category
    and the priority of the new task. Also the counts the daily summary quotes. */
module Assistant {
  import opened Text
  import opened Collections
  import opened TaskModel
  import opened Dashboard

  // ---------------------------------------------------------------- the numbered-line pattern

  predicate AllDigits(s: string) {
    forall i :: 0 <= i < |s| ==> IsDigit(s[i])
  }

  /** No character that the wildcard `.` refuses. */
  predicate NoTerminator(s: string) {
    forall i :: 0 <= i < |s| ==> !IsLineTerminator(s[i])
  }

  /** The length of the longest run of digits at the front of `s`. */
  function DigitRun(s: string): (n: nat)
    ensures n <= |s| && AllDigits(s[..n])
    ensures n < |s| ==> !IsDigit(s[n])
  {
    if s != [] && IsDigit(s[0]) then
      var n := 1 + DigitRun(s[1..]);
      assert s[..n] == [s[0]] + s[1..][..n - 1];
      n
    else 0
  }

  /** One way for `line` to match `^\d+\.\s+(.+)$`: `d` digits, a dot, `k` white-space
      characters, then at least one character up to the end, none a line terminator. */
  predicate ItemShape(line: string, d: nat, k: nat) {
    && 1 <= d && 1 <= k && d + 1 + k < |line|
    && AllDigits(line[..d]) && line[d] == '.'
    && Blank(line[d + 1..d + 1 + k])
    && NoTerminator(line[d + 1 + k..])
  }

  /** `line.match(/^\d+\.\s+(.+)$/)`, giving the captured group. The digits and white space
      are taken greedily; when white space runs to the end of the line, the pattern backs up
      one character so that the group gets the last one. */
  function NumberedItem(line: string): (r: Option<string>)
    ensures r.Some? ==> line != [] && IsDigit(line[0])
    ensures r.Some? ==> r.value != [] && NoTerminator(r.value) && |r.value| < |line|
    ensures r.Some? ==> r.value == line[|line| - |r.value|..]
  {
    var d := DigitRun(line);
    if d == 0 || d >= |line| || line[d] != '.' then None
    else
      var k := Lead(line[d + 1..]);
      var rest := line[d + 1 + k..];
      if k == 0 then None
      else if rest != [] then (if NoTerminator(rest) then Some(rest) else None)
      else if k >= 2 && !IsLineTerminator(line[|line| - 1]) then Some([line[|line| - 1]])
      else None
  }

  /** `NumberedItem` is the regular expression's greedy match: it finds an item exactly when
      some split of the line fits the pattern, and then captures what follows the longest
      white-space run that still leaves a fitting split. */
  lemma NumberedItemMatches(line: string)
    ensures NumberedItem(line).Some? <==> exists d, k :: ItemShape(line, d, k)
    ensures NumberedItem(line).Some? ==> exists d, k ::
      && ItemShape(line, d, k) && NumberedItem(line).value == line[d + 1 + k..]
      && forall k' :: ItemShape(line, d, k') ==> k' <= k
  {
    if NumberedItem(line).Some? {
      NumberedItemSound(line);
    }
    if exists d, k :: ItemShape(line, d, k) {
      var d, k :| ItemShape(line, d, k);
      NumberedItemComplete(line, d, k);
    }
  }

  /** What `NumberedItem` captures follows a fitting split, and no fitting split with the
      same digits takes more white space. */
  lemma NumberedItemSound(line: string)
    requires NumberedItem(line).Some?
    ensures exists d, k ::
      && ItemShape(line, d, k) && NumberedItem(line).value == line[d + 1 + k..]
      && forall k' :: ItemShape(line, d, k') ==> k' <= k
  {
    var d := DigitRun(line);
    var n := Lead(line[d + 1..]);
    var rest := line[d + 1 + n..];
    assert line[d + 1..][..n] == line[d + 1..d + 1 + n];
    var k := if rest != [] then n else n - 1;
    if rest == [] {
      assert line[d + 1..d + 1 + k] == line[d + 1..d + 1 + n][..k];
      assert line[d + 1 + k..] == [line[|line| - 1]];
    }
    assert ItemShape(line, d, k);
    forall k': nat | ItemShape(line, d, k') ensures k' <= k {
      ShapeSpaces(line, d, k');
    }
  }

  /** A line with a fitting split is an item. */
  lemma NumberedItemComplete(line: string, d: nat, k: nat)
    requires ItemShape(line, d, k)
    ensures NumberedItem(line).Some?
  {
    ShapeDigits(line, d, k);
    ShapeSpaces(line, d, k);
  }

  /** Any fitting split starts with the whole leading digit run. */
  lemma ShapeDigits(line: string, d: nat, k: nat)
    requires ItemShape(line, d, k)
    ensures d == DigitRun(line)
  {
  }

  /** Any fitting split takes no more white space than the leading run after the dot, and
      what it leaves is what that run leaves plus some of its white space. */
  lemma ShapeSpaces(line: string, d: nat, k: nat)
    requires ItemShape(line, d, k)
    ensures k <= Lead(line[d + 1..])
    ensures var n := Lead(line[d + 1..]);
      d + 1 + n < |line| ==> NoTerminator(line[d + 1 + n..])
    ensures var n := Lead(line[d + 1..]);
      d + 1 + n == |line| ==> 2 <= n && !IsLineTerminator(line[|line| - 1])
  {
    var tail := line[d + 1..];
    var n := Lead(tail);
    var after := line[d + 1 + k..];
    assert line[d + 1 + n..] == after[n - k..];
    if d + 1 + n == |line| {
      assert line[|line| - 1] == after[|after| - 1];
    }
  }

  // ---------------------------------------------------------------- subtasks from the answer

  predicate IsItem(line: string) {
    NumberedItem(line).Some?
  }

  /** The captured titles of the matching lines, in line order. */
  function Captures(lines: seq<string>): (r: seq<string>)
    ensures |r| <= |lines|
  {
    if lines == [] then []
    else
      var init := Captures(lines[..|lines| - 1]);
      match NumberedItem(lines[|lines| - 1])
      case Some(title) => init + [title]
      case None => init
  }

  /** One subtask per matching line, no more. */
  lemma {:induction false} CapturesCount(lines: seq<string>)
    ensures |Captures(lines)| == Count(lines, IsItem)
  {
    if lines != [] {
      var init := lines[..|lines| - 1];
      CapturesCount(init);
      assert lines == init + [lines[|lines| - 1]];
      FilterAppend(init, [lines[|lines| - 1]], IsItem);
    }
  }

  /** Reading one more line adds its capture, if any. */
  lemma CapturesStep(lines: seq<string>, i: nat)
    requires i < |lines|
    ensures Captures(lines[..i + 1]) == Captures(lines[..i]) + match NumberedItem(lines[i])
      case Some(title) => [title]
      case None => []
  {
    assert lines[..i + 1][..i] == lines[..i];
  }

  /** Lines are read in order: the captures of two blocks of lines are those of the first
      followed by those of the second. */
  lemma {:induction false} CapturesAppend(a: seq<string>, b: seq<string>)
    ensures Captures(a + b) == Captures(a) + Captures(b)
    decreases |b|
  {
    if b != [] {
      var init := b[..|b| - 1];
      assert (a + b)[..|a + b| - 1] == a + init;
      CapturesAppend(a, init);
    } else {
      assert a + b == a;
    }
  }

  /** The subtasks built from the captures; `freshId(i)` stands for the id
      `Date.now().toString() + Math.random()` of the `i`-th one. */
  function SubtasksFrom(titles: seq<string>, freshId: nat -> string): (r: seq<Subtask>)
    ensures |r| == |titles|
    ensures forall i :: 0 <= i < |r| ==> r[i] == Subtask(freshId(i), titles[i], false)
  {
    seq(|titles|, i requires 0 <= i < |titles| => Subtask(freshId(i), titles[i], false))
  }

  /** One more title adds one subtask, numbered after the others. */
  lemma SubtasksFromStep(titles: seq<string>, title: string, freshId: nat -> string)
    ensures SubtasksFrom(titles + [title], freshId)
         == SubtasksFrom(titles, freshId) + [Subtask(freshId(|titles|), title, false)]
  {
    var r := SubtasksFrom(titles + [title], freshId);
    assert forall i :: 0 <= i < |titles| ==> r[i] == SubtasksFrom(titles, freshId)[i];
  }

  /** The loop of `createTaskFromResponse` over the answer's lines: each numbered line adds a
      subtask with its captured text, not completed, in line order. */
  method SubtasksOfAnswer(lines: seq<string>, freshId: nat -> string) returns (subtasks: seq<Subtask>)
    ensures subtasks == SubtasksFrom(Captures(lines), freshId)
    ensures |subtasks| == Count(lines, IsItem)
  {
    subtasks := [];
    var i := 0;
    while i < |lines|
      invariant 0 <= i <= |lines|
      invariant subtasks == SubtasksFrom(Captures(lines[..i]), freshId)
    {
      ghost var titles := Captures(lines[..i]);
      CapturesStep(lines, i);
      var item := NumberedItem(lines[i]);
      if item.Some? {
        SubtasksFromStep(titles, item.value, freshId);
        subtasks := subtasks + [Subtask(freshId(|subtasks|), item.value, false)];
        assert subtasks == SubtasksFrom(titles + [item.value], freshId);
      } else {
        assert Captures(lines[..i + 1]) == titles;
      }
      i := i + 1;
    }
    assert lines[..i] == lines;
    CapturesCount(lines);
  }

  // ---------------------------------------------------------------- the new task

  /** The level the keyword "urgent" selects, for both priority and urgency. */
  function UrgencyOf(input: string): (l: Level)
    ensures l == High <==> Contains(Lower(input), "urgent")
    ensures l == High || l == Medium
  {
    if Contains(Lower(input), "urgent") then High else Medium
  }

  function CategoryOf(input: string): (c: Category)
    ensures c == Work <==> Contains(Lower(input), "work")
    ensures c == Work || c == Personal
  {
    if Contains(Lower(input), "work") then Work else Personal
  }

  /** The task `createTaskFromResponse` hands to `addTask`. */
  function AiDraft(input: string, subtasks: seq<Subtask>): (d: Draft)
    ensures d.title == input && d.originalTitle == Some(input)
    ensures d.category == CategoryOf(input)
    ensures d.priority == d.urgency == UrgencyOf(input)
    ensures d.effort == 3 && d.status == Todo && d.aiEnhanced == Some(true)
    ensures d.subtasks == subtasks && d.dueDate.None? && d.completedAt.None? && d.userId.None?
  {
    var level := UrgencyOf(input);
    Draft(input, "AI-enhanced task with suggested improvements", CategoryOf(input), level, level, 3,
          Todo, None, subtasks, None, Some(true), Some(input), None)
  }

  /** The keyword tests ignore letter case: lower-casing the text first gives the same
      category and level. */
  lemma ClassificationIgnoresCase(input: string)
    ensures CategoryOf(Lower(input)) == CategoryOf(input)
    ensures UrgencyOf(Lower(input)) == UrgencyOf(input)
  {
    LowerIdempotent(input);
  }

  /** The assistant panel's state: the user's text and the assistant's last answer. */
  class AssistantPanel {
    var input: string
    var response: string

    constructor ()
      ensures input == "" && response == ""
    {
      input := "";
      response := "";
    }

    /** `createTaskFromResponse`: nothing for blank text; otherwise the new task, with a
        subtask per numbered line of the answer, is emitted, and both texts are cleared. */
    method CreateTaskFromResponse(freshId: nat -> string) returns (emitted: Option<Draft>)
      modifies this
      ensures Blank(old(input)) ==> emitted.None? && input == old(input) && response == old(response)
      ensures !Blank(old(input)) ==>
        && emitted == Some(AiDraft(old(input), SubtasksFrom(Captures(Split(old(response), '\n')), freshId)))
        && input == "" && response == ""
    {
      var text, answer := input, response;
      if Trim(text) == [] {
        return None;
      }
      var subtasks := SubtasksOfAnswer(Split(answer, '\n'), freshId);
      emitted := Some(AiDraft(text, subtasks));
      input := "";
      response := "";
    }
  }

  // ---------------------------------------------------------------- the daily summary

  /** The counts and recent tasks `loadDailyInsights` puts into its summary. */
  datatype Summary = Summary(counters: Counters, recent: seq<string>)

  /** `${t.title} (${t.category}, ${t.priority})`. */
  function RecentLine(t: Task): string {
    t.title + " (" + CategoryName(t.category) + ", " + LevelName(t.priority) + ")"
  }

  /** The summary: the dashboard's counts (so completed and high-priority pending are within
      the total) and one line for each of the first five tasks at most. */
  function TaskSummary(tasks: seq<Task>, clock: Clock): (s: Summary)
    ensures s.counters == DashboardCounters(tasks, clock)
    ensures s.counters.completed <= s.counters.total && s.counters.highPriority <= s.counters.total
    ensures |s.recent| == if |tasks| < 5 then |tasks| else 5
    ensures forall i :: 0 <= i < |s.recent| ==> s.recent[i] == RecentLine(tasks[i])
  {
    var recent := RecentTasks(tasks);
    Summary(DashboardCounters(tasks, clock), seq(|recent|, i requires 0 <= i < |recent| => RecentLine(recent[i])))
  }
}
