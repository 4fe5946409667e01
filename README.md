# AP study planner: task-planning core

This project models the planning core of the AP (応用情報技術者) study planner
in `app.js`. The application keeps a `state` object with four parts: the
settings (exam date, daily target minutes), the task list, the study log and
the running study session. The model covers the actions that change that
state and the figures shown from it:

- **Plan generation** (`generateAutoPlan`, `createTask`). The generator
  throws away every task and walks the days from tomorrow up to the exam, at
  most 181 of them. A Sunday gets one 45-minute afternoon written-exam task.
  Any other day gets an input-study task and, when the daily target leaves
  room, a 15-minute morning past-exam drill. The chapter changes weekly and
  cycles through the twelve chapters of `AP_CHAPTERS`.
- **Rollover at startup** (`rolloverTasks`). Overdue unfinished tasks move
  to today, and the mark `[繰越] ` is put in front of their title once. A
  store that is empty at startup gets a generated plan instead.
- **Bring tomorrow forward** (`populateToday`). Tomorrow's tasks are
  re-dated to today. When tomorrow has none, the action reports that
  instead.
- **Task edits.** This covers the status check mark (`toggleTaskStatus`),
  the task form's save (create or `Object.assign` edit, with the empty-title
  refusal) and the confirmed delete.
- **The study timer.** Start, pause and resume (`startTimer`,
  `toggleTimer`), the elapsed-seconds display, and the stop handler. The stop
  handler logs the rounded-up minutes, shrinks the task's target or,
  with the user's confirmation, completes it, and ends the session.
- **Statistics.** Total and today's minutes, and the per-category chart.
  The chart's fallback bucket is `その他`, used for logs whose task is gone.

Files:

- `tasks.dfy` (module `Tasks`) holds the records and the pure store queries.
- `generator.dfy` (module `Generator`) holds the schedule as functions and
  the plan properties.
- `carry.dfy` (module `Carry`) holds rollover and bring-forward as
  functions with their properties.
- `timer.dfy` (module `Timer`) holds the session arithmetic.
- `stats.dfy` (module `Stats`) holds the statistics.
- `planner.dfy` (module `Planner`) holds the mutable `state`. It is the
  class `Planner.Planner`, whose methods perform the actions in place with
  the source's own loops. Each method is proved against the functions of the
  other modules.
- `wrappers.dfy` holds `Option`.

The class invariant `Valid()` says three things: task ids are unique, every
log has positive minutes, and a session is paused exactly when it records a
pause instant. Every action preserves it except `GenerateAutoPlan`, which
neither needs nor ensures it; its callers re-establish it.

## Model

| member | source | states |
|---|---|---|
| Tasks.NewTask | app.js:154-157 | a created task has the given id, status `todo`, and exactly the six given fields |
| Tasks.Assign | app.js:546-548 | `Object.assign` of the form data replaces the six form fields and keeps the id and the status |
| Tasks.FindIndex | app.js:385 | `find` by id returns the first position holding the id; it finds nothing exactly when no task has the id |
| Tasks.TasksOn | app.js:141 | the filter keeps exactly the tasks dated `d` and is no longer than the store |
| Tasks.TasksOnCounts | app.js:141 | the filter keeps each task dated `d` as many times as the store holds it, and no other task |
| Tasks.RemoveId | app.js:562 | the filter keeps exactly the tasks whose id differs, so none with the deleted id is left |
| Tasks.RemoveIdRemovesOne | app.js:561-562 | with unique ids, deleting removes one task when the id is present and none otherwise, and ids stay unique |
| Tasks.ToggleStatus | app.js:384-391 | toggling keeps length, ids and form fields; every other task is unchanged; the task with the id flips its status |
| Tasks.ToggleTwiceRestores | app.js:384-391 | toggling the same id twice gives back the original store |
| Generator.DayOfWeek | app.js:105 | the weekday is a number from 0 to 6 |
| Generator.DayOfWeekAnchors | app.js:105 | weekdays repeat every seven days, and day 0 (1970-01-01) is a Thursday |
| Generator.WeekChapter | app.js:107-108 | defines the chapter of loop day `i`, the `(i / 7) mod |chapters|`-th; no contract of its own; `Generator.WeeklyCadence` and `Generator.ChaptersCycle` state its properties |
| Generator.DayPlan | app.js:105-119 | defines the tasks one loop day creates; no contract of its own; `Generator.DayPlanRule` and `Generator.DayPlanDated` state its properties |
| Generator.DayPlanDated | app.js:110-119 | each loop day creates one or two tasks, all dated that day |
| Generator.DayPlans | app.js:103-123 | defines the day plans of the first `n` loop days, and has exactly `n` of them |
| Generator.PlanUpTo | app.js:103-122 | defines the tasks of the first `n` loop days in creation order; no contract of its own; `Generator.PlanUpToStep` states its step |
| Generator.Plan | app.js:88-124 | defines the whole plan, the tasks of all the loop's days; no contract of its own; `Generator.PlanBounds` and `Generator.PlanOnDay` state its properties |
| Generator.PlanDays | app.js:100-103 | the loop walks no days when the exam is not after tomorrow; otherwise it walks the days up to the exam, capped at 181 |
| Generator.DayPlansAt | app.js:103-122 | the i-th loop day, dated `tomorrow + i`, is planned with index `i` |
| Generator.PlanUpToStep | app.js:103-122 | one more loop iteration appends exactly that day's tasks |
| Generator.PlanIsPlanUpTo | app.js:103-123 | a loop that stops at the exam or after the day with index 180 has created exactly the plan |
| Generator.PlanBounds | app.js:100-123 | every planned task is dated after today, before the exam and within 181 days; the tasks come in date order; there are at most 362 |
| Generator.PlanOnDay | app.js:103-123 | the tasks dated `d` are that loop day's tasks when `d` is one of the loop's days, and none otherwise |
| Generator.DayPlanRule | app.js:107-119 | a Sunday gets one 45-minute high-priority past-exam task on the week's chapter; another day gets a medium input task of 30 or 15 minutes, then a low 15-minute drill exactly when the target leaves 15 minutes |
| Generator.WeeklyCadence | app.js:107-108 | the chapter is fixed within a 7-day block, advances by one chapter per block with wrap-around, and repeats every `7 * chapters` days |
| Generator.ChaptersCycle | app.js:11-24 | the syllabus has twelve chapters, so the chapter sequence repeats every 84 days |
| Generator.Target45Weekday | app.js:113-118 | with the default 45-minute target a weekday's two tasks fill exactly 45 minutes |
| Generator.Target20Weekday | app.js:113-118 | with a 20-minute target a weekday gets one 15-minute input task and no drill |
| Carry.RolloverEffect | app.js:162-168 | rollover moves exactly the unfinished tasks dated before today to today and marks the title unless it already starts with `[繰越]`; every other task and every other field is unchanged |
| Carry.RolloverLeavesNothingOverdue | app.js:162-168 | after rollover no unfinished task is dated before today |
| Carry.RolloverIdempotent | app.js:159-170 | rolling over twice on the same day equals rolling over once |
| Carry.CarryMarkAddedOnce | app.js:165 | a rolled title starts with the mark, and a later rollover never prefixes it again |
| Carry.RolloverKeepsIds | app.js:162-168 | rollover keeps every id in place, so ids stay unique |
| Carry.RollTask | app.js:163-166 | defines one task under rollover; no contract of its own; `Carry.RolloverEffect` states it |
| Carry.Rollover | app.js:159-168 | defines the store after rollover, task by task; no contract of its own; the rollover lemmas state its properties |
| Carry.BringTask | app.js:148 | defines one task under bring-forward; no contract of its own |
| Carry.BringForward | app.js:141-148 | defines the store after tomorrow's tasks are re-dated, task by task; no contract of its own; `Carry.BringForwardContents` and `Carry.BringForwardMovesTomorrow` state its properties |
| Carry.BringForwardMovesTomorrow | app.js:141-148 | after bringing forward no task is dated tomorrow, and today's task count is its own count plus tomorrow's |
| Carry.BringForwardContents | app.js:141-148 | exactly tomorrow's tasks are re-dated: today then holds its own tasks and tomorrow's tasks with the date changed to today, and every other date keeps exactly its tasks |
| Carry.BringForwardKeepsIds | app.js:148 | bringing forward keeps every id in place, so ids stay unique |
| Timer.Start | app.js:409-416 | a new session belongs to the given task, is running, starts at `now`, has no paused time and no pause instant |
| Timer.Toggle | app.js:433-455 | toggling flips paused and running and keeps task and start; a resume adds the pause's length `now - pauseStart` to the paused total and clears the pause instant; a pause records `now` as the pause instant and keeps the paused total |
| Timer.EffectiveNow | app.js:398-401 | defines the instant elapsed time is measured to, the pause instant while paused; no contract of its own |
| Timer.EffectiveMs | app.js:591-595 | defines the studied milliseconds; no contract of its own; `Timer.ElapsedSeconds`, `Timer.StopMinutes` and the pause lemmas state its properties |
| Timer.FloorDiv | app.js:403 | `Math.floor` of the quotient: the largest `q` with `q * b <= a` |
| Timer.CeilDiv | app.js:596 | `Math.ceil` of the quotient: the smallest `q` with `a <= q * b` |
| Timer.ElapsedSeconds | app.js:398-403 | the display value is never negative; it is the whole seconds of studied time, or 0 when that is negative |
| Timer.StopMinutes | app.js:591-596 | the minutes a stop records are the studied milliseconds rounded up to whole minutes; they are positive exactly when the studied time is |
| Timer.ElapsedFrozenWhilePaused | app.js:399-401 | while paused, the displayed seconds and the minutes a stop would record do not change with the clock |
| Timer.ElapsedMonotoneWhileRunning | app.js:398-403 | while running, the displayed seconds and the stop minutes never decrease as the clock advances |
| Timer.PauseFreezes | app.js:446-453 | after a pause the display shows the value it had at the pause instant |
| Timer.ResumeSkipsPause | app.js:437-442 | after a pause and a resume the studied time is the running time less the length of the pause |
| Timer.StopAfterOnePause | app.js:591-596 | a session started at t0, paused once and stopped at t1 records `ceil((t1 - t0 - pause) / 60000)` minutes |
| Stats.CategoryOf | app.js:330-331 | a log whose task id matches no task falls in `その他`; otherwise its category is that of a task with the log's task id |
| Stats.TotalMinutes | app.js:301 | defines the total minutes as a left fold; no contract of its own; `Stats.TotalMinutesAppend` and `Stats.LogAddsMinutes` state its properties |
| Stats.TodayMinutes | app.js:302-303 | defines today's minutes; no contract of its own; `Stats.LogAddsMinutes` and `Stats.TodayWithinTotal` state its properties |
| Stats.LogsOn | app.js:303 | the filter keeps exactly the logs dated `d` |
| Stats.LogsOnCounts | app.js:303 | the filter keeps each log dated `d` as many times as the log holds it, and no other log |
| Stats.LogsIn | app.js:329-332 | the logs shown under a category are exactly those whose category is that one |
| Stats.LogsInCounts | app.js:329-332 | the logs shown under a category are each log of that category, as many times as the log holds it |
| Stats.AddMinutes | app.js:332 | defines one `catData[cat] = (catData[cat] or 0) + dur` step; no contract of its own; `Stats.AddMinutesSum` states its effect on the sum |
| Stats.AddMinutesSum | app.js:332 | adding minutes to a well-formed chart adds exactly them to the sum of its values |
| Stats.CategoryChart | app.js:328-333 | defines the chart after the `forEach` over the logs; no contract of its own; `Stats.ChartSumsToTotal`, `Stats.ChartPerCategory` and `Stats.ChartKeysDistinct` state its properties |
| Stats.TotalMinutesAppend | app.js:301 | the total of a concatenation is the sum of the totals |
| Stats.LogAddsMinutes | app.js:301-303 | appending a log adds its minutes to the total, and to today's minutes exactly when it is dated today |
| Stats.TodayWithinTotal | app.js:301-303 | with positive logs, today's minutes lie between 0 and the total |
| Stats.AggregateByCategory | app.js:328-333 | the loop over the logs builds the chart the fold specifies |
| Stats.ChartKeysDistinct | app.js:328-333 | the chart's labels are distinct and are exactly the categories that hold minutes |
| Stats.ChartSumsToTotal | app.js:301-333 | the chart's values add up to the total minutes |
| Stats.ChartPerCategory | app.js:328-333 | each category holds exactly the minutes of its logs, and a category without logs is absent |
| Planner.DefaultExamDateIsSunday | app.js:31 | the default exam date 2026-04-19 is a Sunday |
| Planner.StopPartialSession | app.js:598-621 | a 30-minute task stopped after 20 minutes reports 20 done and 10 left, and its target becomes 10 |
| Planner.StopLogs | app.js:603-609 | defines the logs after a stop; no contract of its own; `Planner.StopLogsMinutes` states its properties |
| Planner.Remaining | app.js:598-600 | defines the target minutes left, a missing task counting as a target of 0; no contract of its own |
| Planner.StopTasks | app.js:611-621 | defines the tasks after a stop; no contract of its own; `Planner.StopTouchesOnlyItsTask` and `Planner.StopOutcomeMeaning` state its properties |
| Planner.StopOutcomeOf | app.js:603-621 | defines what a stop reports; no contract of its own; `Planner.StopOutcomeMeaning` states its properties |
| Planner.StopLogsMinutes | app.js:603-609 | a stop logs exactly its positive rounded-up minutes, adds them to the total and to today's minutes, and keeps logs positive |
| Planner.StopTouchesOnlyItsTask | app.js:598-621 | stopping changes only the session's own task and keeps every id |
| Planner.StopOutcomeMeaning | app.js:598-622 | a stop with a session never reports `NoSession`; with positive minutes it reports progress exactly when minutes remain; with no positive minutes nothing changes; a reported remainder is the task's new positive duration and the old duration less the minutes; a reached goal completes the task exactly when the user confirms and the task exists |
| Planner.Materialize | app.js:154-157 | the created tasks are as many as the planned ones |
| Planner.MaterializeElements | app.js:154-157 | the k-th created task is the k-th planned one, made with the k-th id |
| Planner.MaterializeUnique | app.js:155 | tasks made with distinct ids have unique ids |
| Planner.MaterializeSnoc | app.js:156 | one more `createTask` appends one task with the next id |
| Planner.MaterializeFresh | app.js:155 | the next id of the supply is not yet taken |
| Planner.Planner.constructor | app.js:29-40 | the initial state has the default settings, no tasks, no logs, no session, and the `AP_CHAPTERS` syllabus |
| Planner.Planner.CreateTask | app.js:154-157 | a new `todo` task is appended and nothing else changes |
| Planner.Planner.GenerateAutoPlan | app.js:88-124 | the tasks are replaced by the whole plan from tomorrow to the exam, the k-th task taking the k-th fresh id; nothing else changes |
| Planner.Planner.EmitPlanDay | app.js:103-122 | one loop iteration extends the tasks of the first days by the next day's tasks |
| Planner.Planner.EmitDay | app.js:105-119 | the loop body appends exactly that day's plan |
| Planner.Planner.EmitPlanned | app.js:111-117 | one `createTask` call appends the next planned task with the next id |
| Planner.Planner.SaveSettings | app.js:494-497 | saving stores the exam date and the daily target and regenerates the plan from them |
| Planner.Planner.RolloverTasks | app.js:159-170 | the tasks become their rollover; the modified flag is set exactly when some task was overdue |
| Planner.Planner.Startup | app.js:43-46 | an empty store gets the generated plan; otherwise the tasks roll over |
| Planner.Planner.PopulateToday | app.js:130-152 | with no task dated tomorrow nothing changes and that is reported; otherwise tomorrow's tasks move to today and their number is reported |
| Planner.Planner.ToggleTaskStatus | app.js:384-391 | the tasks become their toggle by id, and nothing else changes |
| Planner.Planner.SaveTask | app.js:533-551 | an empty title changes nothing; with no task being edited a new task is appended; with one being edited its form fields are replaced, or nothing changes if the id is unknown |
| Planner.Planner.DeleteTask | app.js:560-563 | with a task being edited and the user's confirmation, that task is removed; otherwise nothing changes |
| Planner.Planner.StartTimer | app.js:409-416 | a new running session for the task replaces any previous one |
| Planner.Planner.ToggleTimer | app.js:433-455 | a session is paused or resumed as `Toggle` says; without a session nothing happens |
| Planner.Planner.StopTimer | app.js:586-624 | without a session nothing happens; otherwise the tasks, the logs and the report follow the stop rule, and the session ends |

## Left out

- The DOM, rendering, modal dialogs, `alert`, and Chart.js drawing are not modelled. The chart is modelled as its data: the labels in insertion order and the values.
- `confirm` is not modelled as a dialog. The user's answer is a boolean parameter of the delete and stop actions.
- Persistence is not modelled. This covers `saveData`, `loadData` and `localStorage`; the model's state is the in-memory `state`.
- `setInterval`/`clearInterval` and the once-a-second display refresh are not modelled. The display value is the function `Timer.ElapsedSeconds` of the session and the clock.
- `Date.now()` is an integer millisecond parameter `now`.
- Calendar dates are whole day numbers counted from 1970-01-01. The model ignores time zones: in the source, `toISOString` yields the UTC date while `getDay` and `setHours` work in local time, so away from UTC a task's date string can differ from the local day the loop is on. The model takes both to be the same day. String comparison of ISO dates is modelled as comparison of day numbers.
- `Math.random` ids are not modelled. They are a supply of pairwise distinct ids passed to the actions that create tasks, and the form's new task takes an id that is not yet in use. The source does not guarantee distinct ids; the model assumes it.
- `parseInt` of form fields and the `<input type=date>` value are not modelled. The form arrives as already-typed fields.
- The minutes division is modelled as exact integer arithmetic: `Math.ceil(ms / 1000 / 60)` is computed as a ceiling division by 60000. Floating-point rounding of the two divisions is not modelled.
- `startTimer` with an id that has no task is modelled as setting the session anyway. The source sets `state.activeTimer` and then throws a TypeError while filling in the modal; the throw itself is not modelled.
- Editing a task whose id has vanished is modelled as changing nothing and reporting `UnknownTask`. In the source `Object.assign(undefined, …)` throws before anything changes.
- `Object.keys` lists integer-like keys before the others; the model keeps pure insertion order. Category names are never integer-like in the source's category lists.
- The generator's syllabus and the wording of its tasks (the title prefixes, the drill title, the past-exam and input kinds) are held in a `Curriculum` value. The planner fixes it to the source's constants (`Generator.ApSyllabus`). The lemmas are proved for any syllabus with at least one chapter; `Generator.DayPlanRule` states the source's literal strings.
- The generator walks up to 181 days (loop day indices 0 to 180). The loop breaks only after the day with index 180 has been created, so 181 days, not 180, is the modelled cap.
- The count in `PopulateOutcome.BroughtForward` is the model's own addition; the source's success message does not show a number.
- `settings.studyDaysPerWeek` and `settings.startDate` are stored but unused by the core, and are kept as inert fields.
- Planner.Planner.GenerateAutoPlan: does not itself ensure the class invariant, because the source's generator does not depend on it. Its callers (`SaveSettings`, `Startup`) re-establish unique ids with `Planner.MaterializeUnique`.
- The other views (dashboard lists, task tabs, `getTodayStr` formatting) only read the state, and are not modelled.
