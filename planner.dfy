/**
 * The planner's application state (`state` in the source) and the actions
 * that change it: plan generation, rollover, bringing tomorrow forward, task
 * edits, and the study-session timer.
 */
module Planner {
  import opened Wrappers
  import opened Tasks
  import opened Generator
  import opened Carry
  import opened Timer
  import opened Stats

  /** The user's settings; `studyDaysPerWeek` and `startDate` are stored but not used by the generator. */
  datatype Settings = Settings(examDate: Day, dailyTargetMinutes: int, studyDaysPerWeek: int, startDate: Day)

  /** 2026-04-19, the default exam date. */
  const DefaultExamDate: Day := 20562

  /** The default exam date, 2026-04-19, is a Sunday. */
  lemma DefaultExamDateIsSunday()
    ensures DayOfWeek(DefaultExamDate) == 0
  {
  }

  /** What "bring tomorrow forward" reports. */
  datatype PopulateOutcome = NoPlanForTomorrow | BroughtForward(count: nat)

  /** What saving the task form reports. */
  datatype SaveOutcome = TitleRequired | Created | Updated | UnknownTask

  /** What stopping the timer reports. */
  datatype StopOutcome =
    | NoSession
    | NothingRecorded
    | GoalReached(minutes: int, completed: bool)
    | Progress(minutes: int, remaining: int)

  /** The logs after stopping session `s` at `now`: the rounded-up minutes are logged when positive. */
  function StopLogs(logs: seq<LogEntry>, s: Session, now: int, today: Day): seq<LogEntry> {
    var dur := StopMinutes(s, now);
    if dur > 0 then logs + [LogEntry(now, s.taskId, dur, today)] else logs
  }

  /** The session task's target minutes left after the session; a missing task has a target of 0. */
  function Remaining(ts: seq<Task>, s: Session, now: int): int {
    var found := FindIndex(ts, s.taskId);
    (if found.Some? then ts[found.value].dur else 0) - StopMinutes(s, now)
  }

  /**
   * The tasks after stopping: with positive minutes, the session's task
   * shrinks to what remains, or, once nothing remains, is completed when the
   * user confirms.
   */
  function StopTasks(ts: seq<Task>, s: Session, now: int, confirmed: bool): seq<Task> {
    var found := FindIndex(ts, s.taskId);
    if StopMinutes(s, now) <= 0 || found.None? then ts
    else
      var i := found.value;
      var remaining := ts[i].dur - StopMinutes(s, now);
      if remaining > 0 then ts[i := ts[i].(dur := remaining)]
      else if confirmed then ts[i := ts[i].(status := Completed)]
      else ts
  }

  /** What stopping reports. */
  function StopOutcomeOf(ts: seq<Task>, s: Session, now: int, confirmed: bool): StopOutcome {
    var dur := StopMinutes(s, now);
    if dur <= 0 then NothingRecorded
    else if Remaining(ts, s, now) > 0 then Progress(dur, Remaining(ts, s, now))
    else GoalReached(dur, confirmed && FindIndex(ts, s.taskId).Some?)
  }

  /** Stop arithmetic: the logged minutes grow by exactly the session's positive rounded-up minutes. */
  lemma StopLogsMinutes(logs: seq<LogEntry>, s: Session, now: int, today: Day)
    requires PositiveLogs(logs)
    ensures var r := StopLogs(logs, s, now, today);
      var dur := StopMinutes(s, now);
      && PositiveLogs(r)
      && TotalMinutes(r) == TotalMinutes(logs) + (if dur > 0 then dur else 0)
      && TodayMinutes(r, today) == TodayMinutes(logs, today) + (if dur > 0 then dur else 0)
  {
    var dur := StopMinutes(s, now);
    if dur > 0 {
      LogAddsMinutes(logs, LogEntry(now, s.taskId, dur, today), today);
    }
  }

  /** Stopping changes only the session's own task, and keeps every id. */
  lemma StopTouchesOnlyItsTask(ts: seq<Task>, s: Session, now: int, confirmed: bool)
    requires UniqueIds(ts)
    ensures var r := StopTasks(ts, s, now, confirmed);
      && UniqueIds(r)
      && |r| == |ts|
      && (forall k :: 0 <= k < |ts| ==> r[k].id == ts[k].id)
      && (forall k :: 0 <= k < |ts| && ts[k].id != s.taskId ==> r[k] == ts[k])
  {
    var r := StopTasks(ts, s, now, confirmed);
    var found := FindIndex(ts, s.taskId);
    if found.Some? {
      ReplaceKeepsUnique(ts, found.value, r[found.value]);
    }
  }

  /**
   * A reported remainder is the positive new duration of the session's task;
   * a reached goal completes the task exactly when the user confirms and the
   * task exists.
   */
  lemma StopOutcomeMeaning(ts: seq<Task>, s: Session, now: int, confirmed: bool)
    requires UniqueIds(ts)
    ensures var out := StopOutcomeOf(ts, s, now, confirmed);
      var r := StopTasks(ts, s, now, confirmed);
      && !out.NoSession?
      && (out.NothingRecorded? <==> StopMinutes(s, now) <= 0)
      && (StopMinutes(s, now) > 0 ==> (out.Progress? <==> Remaining(ts, s, now) > 0))
      && (out.NothingRecorded? ==> r == ts)
      && (out.Progress? ==>
            && out.minutes == StopMinutes(s, now)
            && exists k :: 0 <= k < |ts| && ts[k].id == s.taskId
                 && ts[k].dur == out.minutes + out.remaining
                 && r[k] == ts[k].(dur := out.remaining) && out.remaining > 0)
      && (out.GoalReached? ==>
            && out.minutes == StopMinutes(s, now) > 0
            && (out.completed <==> confirmed && !FreshId(ts, s.taskId))
            && (forall k :: 0 <= k < |ts| && ts[k].id == s.taskId ==>
                  ts[k].dur <= out.minutes
                  && r[k] == if confirmed then ts[k].(status := Completed) else ts[k]))
  {
    var found := FindIndex(ts, s.taskId);
    if found.Some? {
      var i := found.value;
      forall k | 0 <= k < |ts| && ts[k].id == s.taskId
        ensures k == i
      {
      }
    }
  }

  /** A 30-minute task studied for 20 minutes reports 20 minutes done and 10 left, and its target becomes 10. */
  lemma StopPartialSession()
    ensures var ts := [Task("a", "t", "c", "k", 0, 30, Low, Todo)];
      var s := Session("a", 0, 0, false, None);
      && StopOutcomeOf(ts, s, 1200000, false) == Progress(20, 10)
      && StopTasks(ts, s, 1200000, false) == [ts[0].(dur := 10)]
  {
  }

  /** Pairwise distinct ids, as a supply of fresh random ids. */
  ghost predicate Distinct(ids: seq<Id>) {
    forall i, j :: 0 <= i < j < |ids| ==> ids[i] != ids[j]
  }

  /** The tasks `createTask` makes from planned fields, the k-th taking the k-th id. */
  function Materialize(planned: seq<TaskData>, ids: seq<Id>): (ts: seq<Task>)
    requires |planned| <= |ids|
    ensures |ts| == |planned|
  {
    if planned == [] then []
    else
      var n := |planned| - 1;
      Materialize(planned[..n], ids) + [NewTask(ids[n], planned[n])]
  }

  /** The k-th materialized task is the k-th planned one, as a new task with the k-th id. */
  lemma {:induction false} MaterializeElements(planned: seq<TaskData>, ids: seq<Id>)
    requires |planned| <= |ids|
    ensures forall k {:trigger Materialize(planned, ids)[k]} :: 0 <= k < |planned| ==>
      Materialize(planned, ids)[k] == NewTask(ids[k], planned[k])
  {
    if planned != [] {
      var n := |planned| - 1;
      MaterializeElements(planned[..n], ids);
    }
  }

  /** Tasks made with distinct ids have unique ids. */
  lemma MaterializeUnique(ts: seq<Task>, planned: seq<TaskData>, ids: seq<Id>)
    requires |planned| <= |ids| && Distinct(ids) && ts == Materialize(planned, ids)
    ensures UniqueIds(ts)
  {
    MaterializeElements(planned, ids);
  }

  /** Materializing one more planned task appends it with the next id. */
  lemma MaterializeSnoc(planned: seq<TaskData>, t: TaskData, ids: seq<Id>)
    requires |planned| < |ids|
    ensures Materialize(planned + [t], ids) == Materialize(planned, ids) + [NewTask(ids[|planned|], t)]
  {
    assert (planned + [t])[..|planned|] == planned;
  }

  /** The next id of a distinct supply is not yet taken. */
  lemma MaterializeFresh(planned: seq<TaskData>, ids: seq<Id>)
    requires |planned| < |ids| && Distinct(ids)
    ensures FreshId(Materialize(planned, ids), ids[|planned|])
  {
    MaterializeElements(planned, ids);
  }

  class Planner {
    /** `AP_CHAPTERS`, the syllabus the generator cycles through; fixed when the planner is made. */
    const syllabus: Syllabus
    var settings: Settings
    var tasks: seq<Task>
    var logs: seq<LogEntry>
    var activeTimer: Option<Session>

    /** Task ids are unique, every log has positive minutes, and the session is well formed. */
    ghost predicate Valid()
      reads this
    {
      && UniqueIds(tasks)
      && PositiveLogs(logs)
      && (activeTimer.Some? ==> WellFormed(activeTimer.value))
    }

    /** The tasks are those of the first `n` plan days from `first`, made with the ids of `ids` in order. */
    ghost predicate Filled(first: Day, n: nat, dailyMins: int, ids: seq<Id>)
      reads this
    {
      |PlanUpTo(syllabus, first, n, dailyMins)| <= |ids| && tasks == Materialize(PlanUpTo(syllabus, first, n, dailyMins), ids)
    }

    /** The initial `state`: default settings started on `today`, no tasks, no logs, no session. */
    constructor (today: Day)
      ensures Valid()
      ensures syllabus == ApSyllabus
      ensures settings == Settings(DefaultExamDate, 45, 7, today)
      ensures tasks == [] && logs == [] && activeTimer == None
    {
      syllabus := ApSyllabus;
      settings := Settings(DefaultExamDate, 45, 7, today);
      tasks := [];
      logs := [];
      activeTimer := None;
    }

    /** `createTask`: appends a `todo` task with the fresh id `id`. */
    method CreateTask(id: Id, d: TaskData)
      requires FreshId(tasks, id)
      modifies this
      ensures old(Valid()) ==> Valid()
      ensures tasks == old(tasks) + [NewTask(id, d)]
      ensures settings == old(settings) && logs == old(logs) && activeTimer == old(activeTimer)
    {
      tasks := tasks + [NewTask(id, d)];
    }

    /**
     * `generateAutoPlan`: replaces every task by the plan from tomorrow to the
     * exam, the k-th planned task taking the k-th fresh id.
     */
    method GenerateAutoPlan(today: Day, ids: seq<Id>)
      requires Distinct(ids) && |ids| >= |Plan(syllabus, today, settings.examDate, settings.dailyTargetMinutes)|
      modifies this
      ensures settings == old(settings) && logs == old(logs) && activeTimer == old(activeTimer)
      ensures tasks == Materialize(Plan(syllabus, today, settings.examDate, settings.dailyTargetMinutes), ids)
    {
      var exam := settings.examDate;
      var dailyMins := settings.dailyTargetMinutes;
      tasks := [];
      ghost var days := PlanDays(today, exam);
      PlanUpToZero(syllabus, today + 1, dailyMins);

      var current := today + 1;
      var dayCount := 0;
      while current < exam
        invariant 0 <= dayCount <= LastDayIndex && dayCount <= days
        invariant current == today + 1 + dayCount
        invariant Filled(today + 1, dayCount, dailyMins, ids)
        invariant settings == old(settings) && logs == old(logs) && activeTimer == old(activeTimer)
        decreases exam - current
      {
        EmitPlanDay(today + 1, dayCount, days, dailyMins, ids);

        current := current + 1;
        dayCount := dayCount + 1;
        if dayCount > LastDayIndex {
          break;
        }
      }
      PlanIsPlanUpTo(syllabus, today, exam, dailyMins, dayCount);
    }

    /** The tasks of the first `dayCount` plan days grow by those of the next day. */
    method EmitPlanDay(first: Day, dayCount: nat, ghost days: nat, dailyMins: int, ids: seq<Id>)
      requires Distinct(ids) && dayCount < days && |PlanUpTo(syllabus, first, days, dailyMins)| <= |ids|
      requires Filled(first, dayCount, dailyMins, ids)
      modifies this
      ensures Filled(first, dayCount + 1, dailyMins, ids)
      ensures settings == old(settings) && logs == old(logs) && activeTimer == old(activeTimer)
    {
      PlanUpToStep(syllabus, first, dayCount, dailyMins);
      PlanUpToGrows(syllabus, first, dayCount + 1, days, dailyMins);
      EmitDay(PlanUpTo(syllabus, first, dayCount, dailyMins), first + dayCount, dayCount, dailyMins, ids);
    }

    /**
     * The loop body of `generateAutoPlan` for the day `current`, the `dayCount`-th
     * of the plan: the tasks already made from `before` get that day's plan appended.
     */
    method EmitDay(ghost before: seq<TaskData>, current: Day, dayCount: nat, dailyMins: int, ids: seq<Id>)
      requires Distinct(ids) && |before| + |DayPlan(syllabus, current, dayCount, dailyMins)| <= |ids|
      requires tasks == Materialize(before, ids)
      modifies this
      ensures tasks == Materialize(before + DayPlan(syllabus, current, dayCount, dailyMins), ids)
      ensures settings == old(settings) && logs == old(logs) && activeTimer == old(activeTimer)
    {
      var chapter := WeekChapter(syllabus, dayCount);
      if DayOfWeek(current) == 0 {
        EmitPlanned(before, SundayTask(syllabus, current, chapter), ids);
      } else {
        var inputDur := if dailyMins >= 45 then 30 else 15;
        EmitPlanned(before, InputTask(syllabus, current, chapter, inputDur), ids);
        if dailyMins - inputDur >= 15 {
          EmitPlanned(before + [InputTask(syllabus, current, chapter, inputDur)], DrillTask(syllabus, current), ids);
          assert before + [InputTask(syllabus, current, chapter, inputDur)] + [DrillTask(syllabus, current)] == before + DayPlan(syllabus, current, dayCount, dailyMins);
        }
      }
    }

    /** One `createTask` call of the generator: the next planned task takes the next fresh id. */
    method EmitPlanned(ghost planned: seq<TaskData>, t: TaskData, ids: seq<Id>)
      requires Distinct(ids) && |planned| < |ids|
      requires tasks == Materialize(planned, ids)
      modifies this
      ensures tasks == Materialize(planned + [t], ids)
      ensures settings == old(settings) && logs == old(logs) && activeTimer == old(activeTimer)
    {
      MaterializeFresh(planned, ids);
      CreateTask(ids[|tasks|], t);
      MaterializeSnoc(planned, t, ids);
    }

    /** The settings form's save: stores the exam date and daily target, then regenerates the plan. */
    method SaveSettings(examDate: Day, dailyMins: int, today: Day, ids: seq<Id>)
      requires Valid()
      requires Distinct(ids) && |ids| >= |Plan(syllabus, today, examDate, dailyMins)|
      modifies this
      ensures Valid()
      ensures settings == old(settings).(examDate := examDate, dailyTargetMinutes := dailyMins)
      ensures tasks == Materialize(Plan(syllabus, today, examDate, dailyMins), ids)
      ensures logs == old(logs) && activeTimer == old(activeTimer)
    {
      settings := settings.(examDate := examDate, dailyTargetMinutes := dailyMins);
      GenerateAutoPlan(today, ids);
      MaterializeUnique(tasks, Plan(syllabus, today, examDate, dailyMins), ids);
    }

    /** `rolloverTasks`: moves overdue unfinished tasks to today; reports whether anything changed. */
    method RolloverTasks(today: Day) returns (modified: bool)
      requires Valid()
      modifies this
      ensures Valid()
      ensures tasks == Rollover(old(tasks), today)
      ensures modified <==> exists i :: 0 <= i < |old(tasks)| && Overdue(old(tasks)[i], today)
      ensures settings == old(settings) && logs == old(logs) && activeTimer == old(activeTimer)
    {
      RolloverKeepsIds(tasks, today);
      modified := false;
      var i := 0;
      while i < |tasks|
        invariant 0 <= i <= |tasks| == |old(tasks)|
        invariant forall k :: 0 <= k < i ==> tasks[k] == RollTask(old(tasks)[k], today)
        invariant forall k :: i <= k < |tasks| ==> tasks[k] == old(tasks)[k]
        invariant modified <==> exists k :: 0 <= k < i && Overdue(old(tasks)[k], today)
        invariant settings == old(settings) && logs == old(logs) && activeTimer == old(activeTimer)
      {
        var t := tasks[i];
        if t.status != Completed && t.date < today {
          var title := if StartsWith(t.title, CarryMark) then t.title else CarryPrefix + t.title;
          tasks := tasks[i := t.(date := today, title := title)];
          modified := true;
        }
        i := i + 1;
      }
    }

    /** Startup: an empty store gets a generated plan, otherwise overdue tasks roll over. */
    method Startup(today: Day, ids: seq<Id>)
      requires Valid()
      requires Distinct(ids) && |ids| >= |Plan(syllabus, today, settings.examDate, settings.dailyTargetMinutes)|
      modifies this
      ensures settings == old(settings) && logs == old(logs) && activeTimer == old(activeTimer)
      ensures Valid()
      ensures |old(tasks)| == 0 ==> tasks == Materialize(Plan(syllabus, today, settings.examDate, settings.dailyTargetMinutes), ids)
      ensures |old(tasks)| != 0 ==> tasks == Rollover(old(tasks), today)
    {
      if |tasks| == 0 {
        GenerateAutoPlan(today, ids);
        MaterializeUnique(tasks, Plan(syllabus, today, settings.examDate, settings.dailyTargetMinutes), ids);
      } else {
        var _ := RolloverTasks(today);
      }
    }

    /** `populateToday`: re-dates tomorrow's tasks to today, or reports that there are none. */
    method PopulateToday(today: Day) returns (outcome: PopulateOutcome)
      requires Valid()
      modifies this
      ensures Valid()
      ensures TasksOn(old(tasks), today + 1) == [] ==> outcome == NoPlanForTomorrow && tasks == old(tasks)
      ensures TasksOn(old(tasks), today + 1) != [] ==>
        outcome == BroughtForward(|TasksOn(old(tasks), today + 1)|) && tasks == BringForward(old(tasks), today)
      ensures settings == old(settings) && logs == old(logs) && activeTimer == old(activeTimer)
    {
      var candidates := TasksOn(tasks, today + 1);
      if |candidates| == 0 {
        return NoPlanForTomorrow;
      }
      BringForwardKeepsIds(tasks, today);
      var i := 0;
      while i < |tasks|
        invariant 0 <= i <= |tasks| == |old(tasks)|
        invariant forall k :: 0 <= k < i ==> tasks[k] == BringTask(old(tasks)[k], today)
        invariant forall k :: i <= k < |tasks| ==> tasks[k] == old(tasks)[k]
        invariant settings == old(settings) && logs == old(logs) && activeTimer == old(activeTimer)
      {
        if tasks[i].date == today + 1 {
          tasks := tasks[i := tasks[i].(date := today)];
        }
        i := i + 1;
      }
      outcome := BroughtForward(|candidates|);
    }

    /** `toggleTaskStatus`: flips the status of the task with id `id`, if there is one. */
    method ToggleTaskStatus(id: Id)
      requires Valid()
      modifies this
      ensures Valid()
      ensures tasks == ToggleStatus(old(tasks), id)
      ensures settings == old(settings) && logs == old(logs) && activeTimer == old(activeTimer)
    {
      var found := FindIndex(tasks, id);
      if found.Some? {
        var i := found.value;
        tasks := tasks[i := tasks[i].(status := if tasks[i].status == Completed then Todo else Completed)];
      }
    }

    /**
     * The task form's save: an empty title is refused; with an id being edited
     * the task's form fields are replaced; without one a new task is created.
     */
    method SaveTask(editingId: Option<Id>, form: TaskData, freshId: Id) returns (outcome: SaveOutcome)
      requires Valid() && FreshId(tasks, freshId)
      modifies this
      ensures Valid()
      ensures form.title == [] ==> outcome == TitleRequired && tasks == old(tasks)
      ensures form.title != [] && editingId.None? ==> outcome == Created && tasks == old(tasks) + [NewTask(freshId, form)]
      ensures form.title != [] && editingId.Some? ==>
        match FindIndex(old(tasks), editingId.value)
        case Some(i) => outcome == Updated && tasks == old(tasks)[i := Assign(old(tasks)[i], form)]
        case None => outcome == UnknownTask && tasks == old(tasks)
      ensures settings == old(settings) && logs == old(logs) && activeTimer == old(activeTimer)
    {
      if form.title == [] {
        return TitleRequired;
      }
      if editingId.Some? {
        var found := FindIndex(tasks, editingId.value);
        if found.Some? {
          var i := found.value;
          tasks := tasks[i := Assign(tasks[i], form)];
          outcome := Updated;
        } else {
          outcome := UnknownTask;
        }
      } else {
        CreateTask(freshId, form);
        outcome := Created;
      }
    }

    /** The delete button: with an id being edited and the user's confirmation, removes that task. */
    method DeleteTask(editingId: Option<Id>, confirmed: bool)
      requires Valid()
      modifies this
      ensures Valid()
      ensures editingId.Some? && confirmed ==> tasks == RemoveId(old(tasks), editingId.value)
      ensures !(editingId.Some? && confirmed) ==> tasks == old(tasks)
      ensures settings == old(settings) && logs == old(logs) && activeTimer == old(activeTimer)
    {
      if editingId.Some? && confirmed {
        RemoveIdRemovesOne(tasks, editingId.value);
        tasks := RemoveId(tasks, editingId.value);
      }
    }

    /** `startTimer`: a new running session for `taskId` replaces any previous one. */
    method StartTimer(taskId: Id, now: int)
      requires Valid()
      modifies this
      ensures Valid()
      ensures activeTimer == Some(Start(taskId, now))
      ensures settings == old(settings) && tasks == old(tasks) && logs == old(logs)
    {
      activeTimer := Some(Session(taskId, now, 0, false, None));
    }

    /** `toggleTimer`: pauses a running session or resumes a paused one; without a session nothing happens. */
    method ToggleTimer(now: int)
      requires Valid()
      modifies this
      ensures Valid()
      ensures old(activeTimer).None? ==> activeTimer == None
      ensures old(activeTimer).Some? ==> activeTimer == Some(Toggle(old(activeTimer).value, now))
      ensures settings == old(settings) && tasks == old(tasks) && logs == old(logs)
    {
      if activeTimer.None? {
        return;
      }
      var s := activeTimer.value;
      if s.isPaused {
        var pausedDuration := now - s.pauseStart.GetOr(0);
        s := s.(totalPaused := s.totalPaused + pausedDuration, isPaused := false, pauseStart := None);
      } else {
        s := s.(isPaused := true, pauseStart := Some(now));
      }
      activeTimer := Some(s);
    }

    /** The stop button: applies `StopOutcomeOf`, `StopTasks` and `StopLogs` to the session, if there is one, and ends it. */
    method StopTimer(now: int, today: Day, confirmed: bool) returns (outcome: StopOutcome)
      requires Valid()
      modifies this
      ensures Valid()
      ensures old(activeTimer).None? ==>
        outcome == NoSession && tasks == old(tasks) && logs == old(logs)
      ensures old(activeTimer).Some? ==>
        && outcome == StopOutcomeOf(old(tasks), old(activeTimer).value, now, confirmed)
        && tasks == StopTasks(old(tasks), old(activeTimer).value, now, confirmed)
        && logs == StopLogs(old(logs), old(activeTimer).value, now, today)
      ensures activeTimer == None
      ensures settings == old(settings)
    {
      if activeTimer.None? {
        return NoSession;
      }
      var s := activeTimer.value;
      var endTime := if s.isPaused then s.pauseStart.GetOr(0) else now;
      var effectiveMs := endTime - s.start - s.totalPaused;
      var dur := CeilDiv(effectiveMs, 60000);
      assert dur == StopMinutes(s, now);

      var found := FindIndex(tasks, s.taskId);
      var targetDur := if found.Some? then tasks[found.value].dur else 0;
      var remaining := targetDur - dur;

      if dur > 0 {
        logs := logs + [LogEntry(now, s.taskId, dur, today)];
        if remaining <= 0 {
          if confirmed && found.Some? {
            tasks := tasks[found.value := tasks[found.value].(status := Completed)];
          }
          outcome := GoalReached(dur, confirmed && found.Some?);
        } else {
          tasks := tasks[found.value := tasks[found.value].(dur := remaining)];
          outcome := Progress(dur, remaining);
        }
      } else {
        outcome := NothingRecorded;
      }
      activeTimer := None;
    }
  }
}
