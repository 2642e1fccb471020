# SmartTaskAI task rules in Dafny

A model of the task-collection layer of SmartTaskAI, a React task manager whose storage
(Supabase) and text generation (Gemini) are external services. The model covers:

- the `Task`/`Subtask` records;
- the page's task store (`loadTasks`, `addTask`, `updateTask`, `deleteTask`,
  `toggleTaskStatus`), its three-select filter and its dashboard counters;
- the analytics page's metrics: histograms, per-category completion, average effort,
  completion streak, overdue and weekly counts, most productive category, insights;
- the daily planner's rules: tasks of the selected day, focus tasks, overdue tasks, time of
  day, recommendation list;
- the assistant's task builder (numbered-line extraction, keyword classification, the new
  task's defaults) and its summary counts;
- the task form (seeding, submit, subtask editor) and the task list's card logic
  (expanded set, subtask check boxes, progress, overdue badge).

Modules, one per source file plus shared ones:

| module | file | models |
|---|---|---|
| `Text` | text.dfy | JavaScript `trim`, `split`, `toLowerCase`, `includes`, and `\s`, `\d`, `.` |
| `Collections` | collections.dfy | `filter`, `length` of a filter, `slice(0, n)`, counting `reduce` |
| `TaskModel` | task_model.dfy | records, shared predicates, effort label, percentages, spread merge, status toggle |
| `TaskStore` | task_store.dfy | the page's `tasks` state and the table rows it is kept in step with |
| `Dashboard` | dashboard.dfy | filter selects and dashboard counters |
| `Analytics` | analytics.dfy | app/components/analytics.tsx |
| `Planner` | planner.dfy | app/components/daily-planner.tsx |
| `Assistant` | assistant.dfy | app/components/ai-assistant.tsx |
| `Form` | form.dfy | app/components/task-form.tsx |
| `TaskList` | task_list.dfy | app/components/task-list.tsx |

How the outside world appears in the model:

- Time is a `Clock`: the current instant and a function that reads a date string as an
  instant. `toDateString()` becomes `Day(ts) = ts / 86400000`.
- The signed-in user (`Option<string>`) and each table reply (`Reply`/`Outcome`) are
  parameters of the store's methods.
- Fresh ids (`Date.now()`, `Math.random()`) are parameters.
- Percentages are exact reals.
- A `Partial<Task>` patch is a `Patch`. Each required key is absent or present (`Option`).
  Each optional key is absent (`Keep`), present but `undefined` (`Clear`), or present with a
  value (`Put`). The spread merge tells these apart.
- State that the components change in place is held in classes:
  - `Store.tasks`, `FilterState.filter`;
  - `TaskForm.data`/`newSubtask`;
  - `TaskListView.expanded`;
  - `AssistantPanel.input`/`response`.
- Loops and push sequences are methods:
  - the counting reduces: `Tally`, `CategoryCompletionStats`;
  - the streak loop;
  - the recommendation pushes;
  - the line loop of the assistant;
  - the key-by-key update payload.

Behaviours of the code that the model shows as written:

- A line ending in `\r` (an answer with CRLF line ends) is never a numbered item: the
  wildcard `.` does not match `\r`.
- Saving a task in the edit form with status Completed does not set `completedAt`. Only the
  status toggle sets it.
- `Store.UpdateTask` and `Store.ToggleTaskStatus` send the payload as the code builds it,
  leaving out keys set to `undefined`. The table therefore drifts from the local list when a
  key is cleared (see "## Findings"). The corrected payload and its properties are stated
  separately (`CorrectedUpdateDataOf`).

## Model

| member | source | states |
|---|---|---|
| Text.Trim | app/components/task-form.tsx:54-59 | the result is the slice of the text between its leading and trailing white space; it is empty exactly when the text is blank, and otherwise starts and ends with a non-space character |
| Text.TrimIdempotent | app/components/task-form.tsx:58-59 | trimming a trimmed text changes nothing |
| Text.Lower | app/components/ai-assistant.tsx:176-178 | same length, each character lower-cased (ASCII letters) |
| Text.LowerIdempotent | app/components/ai-assistant.tsx:176-178 | lower-casing twice is lower-casing once |
| Text.SearchContains | app/components/daily-planner.tsx:55-59 | the left-to-right search of `includes` succeeds exactly when the pattern occurs at some index |
| Text.Split | app/components/ai-assistant.tsx:161 | at least one piece, no piece contains the separator, and joining the pieces with it gives the text back |
| Text.SplitJoin | app/components/ai-assistant.tsx:161 | splitting undoes joining separator-free pieces |
| Collections.Tally | app/components/analytics.tsx:19-25 | the reduce loop builds the histogram: keys are exactly the values that occur, each maps to its number of occurrences, and the counts add up to the length |
| TaskModel.EffortLabel | app/components/analytics.tsx:124-127 | "Unknown" exactly for efforts outside 1 to 5 (0 included); the matching label for 1 to 5 |
| TaskModel.EffortLabelInjective | app/components/task-form.tsx:87-90 | different efforts on the scale get different labels |
| TaskModel.DayBefore | app/components/analytics.tsx:77 | stepping back one day lands on the previous calendar day |
| TaskModel.Percent | app/page.tsx:283 | in [0,100], 0 for an empty whole, 100 exactly when the part is the whole, 0 exactly when the part is 0 |
| TaskModel.CompletedCount | app/page.tsx:281 | never more than the number of tasks |
| TaskModel.CompletionRate | app/components/analytics.tsx:14-16 | 0 for no tasks, in [0,100], 100 exactly when every task is completed, 0 exactly when none is |
| TaskModel.Merge | app/page.tsx:234 | the spread merge keeps the id, creation time and owner |
| TaskModel.MergeIdempotent | app/page.tsx:234 | merging the same updates twice is merging them once |
| TaskModel.FindById | app/page.tsx:258 | nothing exactly when no task has the id; otherwise the first task with the id |
| TaskModel.TogglePatch | app/page.tsx:261-265 | Completed goes to Todo with `completedAt` undefined; any other status (In Progress included) goes to Completed with `completedAt` set to now; no other key |
| TaskModel.ToggleEstablishesConsistency | app/page.tsx:257-268 | the toggled task has `completedAt` exactly when Completed, flips completion, and nothing else changes |
| TaskModel.ToggleTwice | app/page.tsx:261 | two toggles give back Todo or Completed; In Progress comes back as Todo |
| TaskModel.ToggleUpdates | app/components/daily-planner.tsx:40-49 | nothing for an unknown id; otherwise the toggle patch of the first task with that id |
| TaskStore.RowToTask | app/page.tsx:134-150 | every column copied to its field (id, title, category, priority, urgency, effort, status, dates, AI flags, owner); a null description becomes "", null subtasks become [] |
| TaskStore.RowsToTasks | app/page.tsx:134-152 | one task per row, in row order |
| TaskStore.InsertPayload | app/page.tsx:162-175 | each of the draft's twelve fields under its column name, owned by the signed-in user |
| TaskStore.InsertRoundTrip | app/page.tsx:185-201 | inserting a draft and mapping the stored row back gives the draft's fields with the new id and time, no completion time and the user as owner |
| TaskStore.UpdateDataOf | app/page.tsx:212-224 | a key is sent exactly when the patch defines it; an `undefined` key is never sent |
| TaskStore.BuildUpdateData | app/page.tsx:212-224 | the key-by-key construction yields `UpdateDataOf` |
| TaskStore.UpdateAgreesWithoutClears | app/page.tsx:212-234 | for a patch with no `undefined` key, the table's copy equals the local merge |
| TaskStore.ToggleBackLeavesStaleCompletedAt | app/page.tsx:261-264 | toggling a Completed task back, the local task loses `completedAt` but the table keeps it, holding a Todo task with a completion time |
| TaskStore.CorrectedUpdateDataOf | app/page.tsx:222 | every patch key is sent, an `undefined` one as null |
| TaskStore.CorrectedUpdateAgrees | app/page.tsx:212-234 | with the corrected payload, the table's copy always equals the local merge |
| TaskStore.CorrectedToggleKeepsTableConsistent | app/page.tsx:257-268 | with the corrected payload, the table's copy of a toggled task has `completedAt` exactly when Completed |
| TaskStore.ReplaceById | app/page.tsx:234 | same length; each task with the id is merged with the updates, every other task is unchanged |
| TaskStore.ReplaceByIdProperties | app/page.tsx:234 | an unknown id changes nothing, repeating an update changes nothing more, ids keep their order |
| TaskStore.RemoveById | app/page.tsx:251 | no task with the id remains; a task remains exactly when its id differs |
| TaskStore.RemoveByIdProperties | app/page.tsx:251 | order-preserving (removal distributes over concatenation), removes exactly the tasks with the id, and a second removal changes nothing |
| TaskStore.Store.constructor | app/page.tsx:78 | the list starts empty |
| TaskStore.Store.LoadTasks | app/page.tsx:117-157 | with a user and rows the list becomes the mapped rows; otherwise it is unchanged |
| TaskStore.Store.AddTask | app/page.tsx:159-207 | nothing is sent without a user; on success the stored task is put in front of the old list (length + 1), otherwise the list is unchanged |
| TaskStore.Store.UpdateTask | app/page.tsx:209-238 | nothing is sent without a user; otherwise the key-by-key payload `UpdateDataOf` is sent, and the table's copy follows the local merge when no key is `undefined`; on success the list is `ReplaceById`, otherwise unchanged |
| TaskStore.Store.DeleteTask | app/page.tsx:240-255 | the table is called only with a user; on success the list is `RemoveById`, otherwise unchanged |
| TaskStore.Store.ToggleTaskStatus | app/page.tsx:257-268 | an unknown id sends nothing and changes nothing; otherwise the payload of the toggle patch is sent, and on success every task with the id has `completedAt` exactly when Completed; the table's copy keeps that link when the task is completed, but a Completed task toggled back is a Todo task in the table that keeps its old `completed_at` |
| Dashboard.Stored | app/page.tsx:464 | "all" is stored as "", any other pick as itself |
| Dashboard.Shown | app/page.tsx:463 | a select never shows an empty value |
| Dashboard.ShownStored | app/page.tsx:462-464 | a pick shows up again in its select |
| Dashboard.FilteredTasks | app/page.tsx:274-279 | never longer than the list, every task kept comes from it; a task is kept exactly when it matches every axis that is neither "" nor "all" |
| Dashboard.UnrestrictedShowsAll | app/page.tsx:274-279 | with no restricting axis (the initial filter included) every task is shown, unchanged |
| Dashboard.CategoryFilterSelectsCategory | app/page.tsx:275 | picking a category shows exactly that category's tasks |
| Dashboard.CategoryNameInjective | app/page.tsx:36 | distinct categories have distinct names |
| Dashboard.UnknownStatusShowsNothing | app/page.tsx:277 | a status that names no status hides every task |
| Dashboard.FilterKeepsOrder | app/page.tsx:274 | filtering a concatenation is concatenating the filtered parts, so order is kept |
| Dashboard.FilterState.constructor | app/page.tsx:82-86 | every axis starts at "all" |
| Dashboard.FilterState.SelectCategory | app/page.tsx:464 | only the category axis changes, to the stored pick |
| Dashboard.FilterState.SelectPriority | app/page.tsx:482 | only the priority axis changes, to the stored pick |
| Dashboard.FilterState.SelectStatus | app/page.tsx:498 | only the status axis changes, to the stored pick |
| Dashboard.HighPriorityCount | app/page.tsx:285-287 | the pending High or Critical tasks: with the completed tasks they fit in the total; 0 exactly when no task is pending with such a priority |
| Dashboard.DueTodayCount | app/page.tsx:289-294 | the pending tasks due today: with the completed tasks they fit in the total; 0 exactly when no pending task is due today |
| Dashboard.DashboardCounters | app/page.tsx:281-294 | total and completed count, the completion rate, and pending high-priority and due-today counts that each, added to the completed count, stay within the total; the pending counts are `HighPriorityCount` and `DueTodayCount`; high priority is 0 exactly when no task is pending with High or Critical |
| Dashboard.RecentTasks | app/page.tsx:415 | the first min(n, 5) tasks |
| Analytics.CategoryStats | app/components/analytics.tsx:19-25 | the category histogram, counts adding up to the number of tasks |
| Analytics.PriorityStats | app/components/analytics.tsx:42-48 | the priority histogram, counts adding up to the number of tasks |
| Analytics.EffortStats | app/components/analytics.tsx:51-58 | the effort histogram over any effort value, counts adding up to the number of tasks |
| Analytics.CompletedWithinTotal | app/components/analytics.tsx:32-35 | a category never has more completed tasks than tasks |
| Analytics.TotalInIsOccurrences | app/components/analytics.tsx:19-39 | a category's total in the completion record equals its count in the category histogram |
| Analytics.FirstSeenLists | app/components/analytics.tsx:29-31 | the record's key order lists each occurring category once, in first-seen order |
| Analytics.StatsOfCounts | app/components/analytics.tsx:27-39 | the record has a key exactly for the occurring categories, each mapped to its total and completed counts |
| Analytics.StatsOf | app/components/analytics.tsx:27-39 | the record the reduce builds: every entry counts at least one task and no more completed tasks than tasks, so each card's rate is defined |
| Analytics.CategoryCompletionStats | app/components/analytics.tsx:27-39 | the reduce loop builds that record and its key order; keys and order agree, no repeats, each key carries its counts |
| Analytics.CategoryCardsListed | app/components/analytics.tsx:27-39 | the key order lists exactly the record's keys, once each, and every key carries its category's counts |
| Analytics.CountStep | app/components/analytics.tsx:28-36 | one task extends the record by one count and the key order by its category when new |
| Analytics.CategoryCardsAgree | app/components/analytics.tsx:190-192 | a card has completion data exactly when its category occurs; its total equals the histogram count and its completed count stays within it |
| Analytics.CategoryRate | app/components/analytics.tsx:192 | in [0,100], 100 exactly when every task of the category is completed |
| Analytics.Entries | app/components/analytics.tsx:287 | one (name, counts) entry per key, in key order |
| Analytics.MostProductive | app/components/analytics.tsx:287-294 | the reduce's result: no entry has a higher ratio than it, and it is the seed "None" or an entry with a positive ratio |
| Analytics.MostProductiveAtBestIndex | app/components/analytics.tsx:287-294 | the fold ends on the seed "None" or on the entry at the best index |
| Analytics.BestIndexIsFirstMaximum | app/components/analytics.tsx:287-294 | the best index has a positive, maximal ratio that every earlier entry falls strictly below |
| Analytics.MostProductiveIsFirstMaximum | app/components/analytics.tsx:287-294 | "None" when no ratio is positive; otherwise the first entry with the maximal ratio (ties go to the earliest) |
| Analytics.EffortSumBounds | app/components/analytics.tsx:60 | with efforts in 1 to 5, the sum lies between the count and five times it |
| Analytics.AverageEffort | app/components/analytics.tsx:60 | 0 for no tasks; in [1,5] when every effort is |
| Analytics.CompletionStreak | app/components/analytics.tsx:63-84 | at most 30; each of the streak's days back from today has a completion, and below 30 the next day back has none; 0 exactly when nothing was completed today |
| Analytics.OverdueCount | app/components/analytics.tsx:89-92 | overdue and completed tasks together stay within the total; 0 exactly when no task is overdue |
| Analytics.WeeklyStats | app/components/analytics.tsx:95-104 | both counts within the total; with consistent completion data, the completed count within the completed tasks |
| Analytics.WeeklyCountsAreIndependent | app/components/analytics.tsx:99-101 | adding a task created before the week but completed in it raises the completed count by one and leaves the created count as it was |
| Analytics.Insights | app/components/analytics.tsx:314-318 | one to four bullets; each conditional bullet present exactly when its condition holds; exactly one streak bullet, the last; the bullets appear in the card's fixed order (completing, overdue, break down, streak) |
| Planner.TasksOnDay | app/components/daily-planner.tsx:24-27 | never longer than the list, every task kept comes from it; a task is kept exactly when it is due on the selected day, whatever its status |
| Planner.FocusTasks | app/components/daily-planner.tsx:30-32 | a prefix of the pending High/Critical tasks, of length min(count, 3) |
| Planner.FocusTasksEmpty | app/components/daily-planner.tsx:30-32 | empty exactly when no task is pending with High or Critical priority |
| Planner.OverdueTasks | app/components/daily-planner.tsx:35-38 | never longer than the list; a task is kept exactly when it has a due date before now and is not completed |
| Planner.TimeRecommendation | app/components/daily-planner.tsx:51-64 | one of the six time slots; a high-energy slot only for effort 4 or more, a lighter work or flexible slot only below 4 |
| Planner.TimeRecommendationTable | app/components/daily-planner.tsx:51-64 | the keyword tests amount to a table on category and effort |
| Planner.CategoryKeywords | app/components/daily-planner.tsx:52-59 | each keyword occurs in a lower-cased category name exactly for its own category; "exercise" in none |
| Planner.FiredKinds | app/components/daily-planner.tsx:66-116 | one to four kinds, the first the positive one exactly when no rule fires |
| Planner.FiredKindsProperties | app/components/daily-planner.tsx:66-116 | one to four kinds in strictly increasing rule order, each present exactly when its rule fires, the positive one exactly when none fires, and then alone |
| Planner.Recommendations | app/components/daily-planner.tsx:66-116 | the push sequence yields the kinds of the rules that fire, with the overdue count and the first focus task's title quoted |
| Form.SeedFrom | app/components/task-form.tsx:36-49 | every editable field copied from the task; a missing or empty due date becomes "", a present one is copied |
| Form.Submit | app/components/task-form.tsx:52-62 | nothing exactly when the title is blank; otherwise trimmed non-empty title and trimmed description, a due date unset exactly when "", every other field unchanged |
| Form.SubmitStable | app/components/task-form.tsx:58-60 | submitting a submission again gives it back |
| Form.AsDraft | app/page.tsx:554-559 | a created task carries every submitted field and has no completion time, AI marks or owner of its own |
| Form.EditPatch | app/page.tsx:556 | the edit sends all nine form keys with the form's values, an unset due date as `undefined`, and leaves the other keys alone |
| Form.EditRoundTrip | app/components/task-form.tsx:36-61 | opening a task in the form and saving it unchanged gives the task back |
| Form.EditClearingDueDateDrifts | app/page.tsx:220 | clearing a due date in the form clears it locally but the payload leaves it in the table |
| Form.CorrectedEditClearsDueDate | app/page.tsx:220 | with the corrected payload, the table clears the due date too |
| Form.WithoutSubtask | app/components/task-form.tsx:83 | a subtask remains exactly when its id differs |
| Form.RemoveUndoesAdd | app/components/task-form.tsx:64-85 | removing a subtask just added under a new id gives the earlier list back |
| Form.TaskForm.constructor | app/components/task-form.tsx:22-50 | the form starts empty, or seeded from the task being edited; the input is empty |
| Form.TaskForm.SetTitle | app/components/task-form.tsx:99 | only the title changes |
| Form.TaskForm.SetDescription | app/components/task-form.tsx:110 | only the description changes |
| Form.TaskForm.SetCategory | app/components/task-form.tsx:121 | only the category changes |
| Form.TaskForm.SetStatus | app/components/task-form.tsx:141 | only the status changes |
| Form.TaskForm.SetPriority | app/components/task-form.tsx:160 | only the priority changes |
| Form.TaskForm.SetUrgency | app/components/task-form.tsx:178 | only the urgency changes |
| Form.TaskForm.SetEffort | app/components/task-form.tsx:195-200 | only the effort changes, to a slider value in 1 to 5 |
| Form.TaskForm.SetDueDate | app/components/task-form.tsx:215 | only the due date changes |
| Form.TaskForm.SetNewSubtask | app/components/task-form.tsx:224 | only the input changes |
| Form.TaskForm.AddSubtask | app/components/task-form.tsx:64-78 | blank text changes nothing; otherwise one new, uncompleted subtask with the trimmed text goes at the end and the input is emptied |
| Form.TaskForm.RemoveSubtask | app/components/task-form.tsx:80-85 | only the subtasks change, to those with other ids |
| Form.TaskForm.HandleSubmit | app/components/task-form.tsx:52-62 | emits `Submit` of the form, nothing exactly when the title is blank |
| TaskList.Toggled | app/components/task-list.tsx:46-56 | the id's membership flips; every other id's stays |
| TaskList.ToggledTwice | app/components/task-list.tsx:46-56 | toggling twice gives the set back |
| TaskList.TaskListView.constructor | app/components/task-list.tsx:44 | no card starts expanded |
| TaskList.TaskListView.ToggleExpanded | app/components/task-list.tsx:46-56 | the expanded set becomes `Toggled` of the old one |
| TaskList.FlipSubtask | app/components/task-list.tsx:62-64 | same length, ids and titles; `completed` negated exactly for the matching id |
| TaskList.FlipSubtaskTwice | app/components/task-list.tsx:62-64 | flipping twice gives the subtasks back |
| TaskList.ToggleSubtask | app/components/task-list.tsx:58-67 | nothing for an unknown task; otherwise an update carrying only the flipped subtasks |
| TaskList.ToggleSubtaskChangesOnlySubtasks | app/components/task-list.tsx:58-67 | merged into the task, the update changes only check boxes |
| TaskList.SubtaskProgress | app/components/task-list.tsx:74-78 | 0 for none, in [0,100], 100 exactly when all are completed, 0 exactly when none is |
| TaskList.OverdueCardAgrees | app/components/task-list.tsx:97 | the badge test agrees with the overdue test of the analytics page and the planner |
| Assistant.NumberedItem | app/components/ai-assistant.tsx:163 | a capture only for a line that starts with a digit; the capture is a non-empty, terminator-free proper suffix of the line |
| Assistant.NumberedItemMatches | app/components/ai-assistant.tsx:163 | a line matches exactly when some split fits digits, ".", white space, then at least one non-terminator; the capture follows the longest fitting white-space run |
| Assistant.Captures | app/components/ai-assistant.tsx:161-171 | no more captures than lines |
| Assistant.CapturesCount | app/components/ai-assistant.tsx:162-171 | one capture per matching line, none for other lines |
| Assistant.CapturesAppend | app/components/ai-assistant.tsx:162 | captures follow line order |
| Assistant.SubtasksFrom | app/components/ai-assistant.tsx:165-169 | one uncompleted subtask per capture, titled with it, in order |
| Assistant.SubtasksOfAnswer | app/components/ai-assistant.tsx:158-171 | the line loop builds the subtasks of the captures, as many as matching lines |
| Assistant.UrgencyOf | app/components/ai-assistant.tsx:177-178 | High exactly when the lower-cased input contains "urgent", otherwise Medium |
| Assistant.CategoryOf | app/components/ai-assistant.tsx:176 | Work exactly when the lower-cased input contains "work", otherwise Personal |
| Assistant.AiDraft | app/components/ai-assistant.tsx:173-184 | title and original title are the untrimmed input; priority equals urgency; effort 3, Todo, AI-enhanced, no due date |
| Assistant.ClassificationIgnoresCase | app/components/ai-assistant.tsx:176-178 | lower-casing the input first changes neither category nor level |
| Assistant.AssistantPanel.constructor | app/components/ai-assistant.tsx:19-21 | input and answer start empty |
| Assistant.AssistantPanel.CreateTaskFromResponse | app/components/ai-assistant.tsx:155-189 | blank input emits nothing and changes nothing; otherwise emits the new task with the answer's subtasks and empties both texts |
| Assistant.TaskSummary | app/components/ai-assistant.tsx:200-211 | the dashboard counts (completed and high priority within the total) and one line for each of the first min(n, 5) tasks |

## Left out

- Supabase and Gemini calls, the session subscription, and the prompt and apology texts are
  not modelled. A table reply is a parameter; the table's own filtering by user and its
  ordering by creation time are not modelled.
- `LoadTasks` does not model the reply that carries neither an error nor data (`if (data)`);
  a reply is an error or a row list.
- `new Date`, `toDateString`, `toISOString` and `setDate` are not modelled: time zones,
  daylight saving and unreadable dates are not captured; a day is 86400000 ms.
- JSX rendering, icons, colours, `toFixed` and the comma-joined text of the summary's recent
  lines are not modelled.
- The recommendation and insight texts are not modelled word for word: a
  recommendation is its kind plus the data it quotes.
- Text.Lower: lower-cases ASCII letters only, because full Unicode case mapping is not
  modelled. This changes results: JavaScript's `toLowerCase` also maps non-ASCII letters
  onto ASCII ones (U+212A KELVIN SIGN becomes "k"), so an input such as "WOR\u212A" is Work
  in the program but Personal in Assistant.CategoryOf. Only U+212A (to "k") and U+0130 (to
  "i" and a combining dot) lower-case to ASCII letters; "urgent" holds neither letter, so
  Assistant.UrgencyOf agrees with the program on every input. Category names are ASCII, so
  Planner.TimeRecommendation is not affected.
- Assistant.CategoryOf: tests for "work" after the ASCII-only Text.Lower, so an input whose
  "k" is a non-ASCII letter that lower-cases to it is Personal here but Work in the program.
- Races between overlapping updates are not modelled, nor id collisions of `Date.now()`.
- The `id`, `createdAt` and `userId` keys of a `Partial<Task>` are not modelled; no caller
  sends them.
- TaskStore.Stored: assumes the table fills in only the generated id and creation time
  (no column defaults or triggers), because the table's schema is not part of this model.
- Form.TaskForm.SetEffort: requires 1 to 5, because the slider only produces those values.

## Findings

| source | as written | input that shows it | evidently intended | confidence | as-written member | corrected member |
|---|---|---|---|---|---|---|
| app/page.tsx:222 | `updateTask` sends only the keys whose value is defined, while the local merge also applies keys set to `undefined` | toggle a Completed task with `completedAt` set: locally it becomes Todo with no `completedAt`; the table keeps `completed_at`, so after a reload the streak and weekly counts still see a completion | an `undefined` key clears the column, as it clears the local field | not executed | TaskStore.ToggleBackLeavesStaleCompletedAt | TaskStore.CorrectedToggleKeepsTableConsistent |
| app/page.tsx:220 | the same payload rule drops a due date that the edit form clears | edit a task with a due date, empty the date field, save: locally the due date is gone; the table keeps `due_date` | the table clears the due date | not executed | Form.EditClearingDueDateDrifts | Form.CorrectedEditClearsDueDate |
