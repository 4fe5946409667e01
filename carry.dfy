/**
 * Moving tasks onto today: the startup rollover of overdue unfinished tasks
 * and the "bring tomorrow's plan forward" action.
 */
module Carry {
  import opened Tasks

  /** A title already carrying this mark is not marked again. */
  const CarryMark: string := "[繰越]"

  /** What rollover puts in front of a title. */
  const CarryPrefix: string := "[繰越] "

  predicate StartsWith(s: string, p: string) {
    |p| <= |s| && s[..|p|] == p
  }

  /** A task rollover moves: not completed and dated before today. */
  predicate Overdue(t: Task, today: Day) {
    t.status != Completed && t.date < today
  }

  /** One task under rollover. */
  function RollTask(t: Task, today: Day): Task {
    if Overdue(t, today) then
      t.(date := today, title := if StartsWith(t.title, CarryMark) then t.title else CarryPrefix + t.title)
    else t
  }

  /** The store after `rolloverTasks` on `today`. */
  function Rollover(ts: seq<Task>, today: Day): seq<Task> {
    seq(|ts|, i requires 0 <= i < |ts| => RollTask(ts[i], today))
  }

  /**
   * Rollover moves exactly the overdue tasks to today and marks their title
   * once; every other task is unchanged; ids and everything else are kept.
   */
  lemma RolloverEffect(ts: seq<Task>, today: Day, i: nat)
    requires i < |ts|
    ensures |Rollover(ts, today)| == |ts|
    ensures var t, r := ts[i], Rollover(ts, today)[i];
      && r.id == t.id && r.cat == t.cat && r.kind == t.kind && r.dur == t.dur && r.prio == t.prio && r.status == t.status
      && (Overdue(t, today) ==>
            && r.date == today && StartsWith(r.title, CarryMark)
            && r.title == (if StartsWith(t.title, CarryMark) then t.title else CarryPrefix + t.title))
      && (!Overdue(t, today) ==> r == t)
  {
    assert CarryPrefix[..|CarryMark|] == CarryMark;
    assert (CarryPrefix + ts[i].title)[..|CarryMark|] == CarryPrefix[..|CarryMark|];
  }

  /** After rollover nothing is overdue. */
  lemma RolloverLeavesNothingOverdue(ts: seq<Task>, today: Day)
    ensures forall t :: t in Rollover(ts, today) ==> !Overdue(t, today)
  {
  }

  /** Rollover run twice on the same day is rollover run once. */
  lemma RolloverIdempotent(ts: seq<Task>, today: Day)
    ensures Rollover(Rollover(ts, today), today) == Rollover(ts, today)
  {
  }

  /** The mark is added at most once: a title that carries it is never prefixed again, on any later day. */
  lemma CarryMarkAddedOnce(t: Task, day1: Day, day2: Day)
    requires Overdue(t, day1)
    ensures StartsWith(RollTask(t, day1).title, CarryMark)
    ensures RollTask(RollTask(t, day1), day2).title == RollTask(t, day1).title
  {
    assert CarryPrefix[..|CarryMark|] == CarryMark;
    assert (CarryPrefix + t.title)[..|CarryMark|] == CarryPrefix[..|CarryMark|];
  }

  /** Rollover keeps ids position by position, hence keeps them unique. */
  lemma RolloverKeepsIds(ts: seq<Task>, today: Day)
    ensures |Rollover(ts, today)| == |ts|
    ensures forall i :: 0 <= i < |ts| ==> Rollover(ts, today)[i].id == ts[i].id
    ensures UniqueIds(ts) ==> UniqueIds(Rollover(ts, today))
  {
  }

  /** One task under "bring tomorrow forward". */
  function BringTask(t: Task, today: Day): Task {
    if t.date == today + 1 then t.(date := today) else t
  }

  /** The store after the tasks dated tomorrow are re-dated to today. */
  function BringForward(ts: seq<Task>, today: Day): seq<Task> {
    seq(|ts|, i requires 0 <= i < |ts| => BringTask(ts[i], today))
  }

  /**
   * After bringing tomorrow forward nothing is left on tomorrow, and today
   * holds its own tasks plus every task that was on tomorrow.
   */
  lemma {:induction false} BringForwardMovesTomorrow(ts: seq<Task>, today: Day)
    ensures TasksOn(BringForward(ts, today), today + 1) == []
    ensures |TasksOn(BringForward(ts, today), today)| == |TasksOn(ts, today)| + |TasksOn(ts, today + 1)|
  {
    if ts != [] {
      BringForwardMovesTomorrow(ts[1..], today);
      assert BringForward(ts, today)[1..] == BringForward(ts[1..], today);
    }
  }

  /**
   * Exactly tomorrow's tasks are re-dated: today then holds its own tasks and
   * tomorrow's tasks moved to today, and every other date keeps its tasks.
   */
  lemma {:induction false} BringForwardContents(ts: seq<Task>, today: Day)
    ensures forall t :: t in TasksOn(BringForward(ts, today), today) <==>
      t in TasksOn(ts, today) || exists u :: u in TasksOn(ts, today + 1) && t == u.(date := today)
    ensures forall d :: d != today && d != today + 1 ==> TasksOn(BringForward(ts, today), d) == TasksOn(ts, d)
  {
    if ts != [] {
      BringForwardContents(ts[1..], today);
      assert BringForward(ts, today)[1..] == BringForward(ts[1..], today);
    }
  }

  /** Bringing forward keeps ids position by position, hence keeps them unique. */
  lemma BringForwardKeepsIds(ts: seq<Task>, today: Day)
    ensures |BringForward(ts, today)| == |ts|
    ensures forall i :: 0 <= i < |ts| ==> BringForward(ts, today)[i].id == ts[i].id
    ensures UniqueIds(ts) ==> UniqueIds(BringForward(ts, today))
  {
  }
}
