/**
 * The auto-plan generator's schedule: the twelve-chapter syllabus, the rule
 * for what one day gets, and the whole plan from tomorrow to the exam.
 */
module Generator {
  import opened Tasks

  /** A syllabus chapter and the category its tasks are filed under. */
  datatype Chapter = Chapter(name: string, cat: string)

  const Technology: string := "テクノロジ"
  const Management: string := "マネジメント"
  const Strategy: string := "ストラテジ"

  /**
   * What the generator draws on: the chapters it cycles through, one per week,
   * and the wording of the tasks it creates. `pastExam` is both the category
   * and the kind (the `type` field) of past-exam tasks; `inputKind` is the
   * kind of study tasks.
   */
  datatype Curriculum = Curriculum(
    chapters: seq<Chapter>,
    sundayPrefix: string,
    inputPrefix: string,
    drillTitle: string,
    pastExam: string,
    inputKind: string)

  /** A curriculum with at least one chapter. */
  type Syllabus = c: Curriculum | |c.chapters| > 0 witness Curriculum([Chapter("", "")], "", "", "", "", "")

  /** The chapters of `AP_CHAPTERS`, numbered as in the syllabus. */
  const Ch1: Chapter := Chapter("1. 基礎理論（離散数学・応用数学）", Technology)
  const Ch2: Chapter := Chapter("2. アルゴリズムとプログラミング", Technology)
  const Ch3: Chapter := Chapter("3. コンピュータ構成要素", Technology)
  const Ch4: Chapter := Chapter("4. システム構成要素", Technology)
  const Ch5: Chapter := Chapter("5. ソフトウェアとOS", Technology)
  const Ch6: Chapter := Chapter("6. データベース", Technology)
  const Ch7: Chapter := Chapter("7. ネットワーク", Technology)
  const Ch8: Chapter := Chapter("8. セキュリティ", Technology)
  const Ch9: Chapter := Chapter("9. システム開発技術", Technology)
  const Ch10: Chapter := Chapter("10. プロジェクトマネジメント・サービス", Management)
  const Ch11: Chapter := Chapter("11. 経営・システム戦略", Strategy)
  const Ch12: Chapter := Chapter("12. 企業と法務", Strategy)

  /** `AP_CHAPTERS`: the twelve chapters in study order; the two fundamentals chapters come last. */
  const Chapters: seq<Chapter> := [Ch3, Ch4, Ch5, Ch6, Ch7, Ch8, Ch9, Ch10, Ch11, Ch12, Ch1, Ch2]

  /** The curriculum of `generateAutoPlan`: `AP_CHAPTERS` and the wording of its three `createTask` calls. */
  const ApSyllabus: Syllabus := Curriculum(Chapters, "午後記述式: ", "【学習】", "【演習】午前過去問 10道場", "過去問", "インプット")

  /** The loop stops after the day whose index is this one. */
  const LastDayIndex: nat := 180

  function SundayTitle(syl: Syllabus, ch: Chapter): string { syl.sundayPrefix + ch.name }

  function InputTitle(syl: Syllabus, ch: Chapter): string { syl.inputPrefix + ch.name }

  /** `Date.getDay()`: 0 is Sunday; day 0 (1970-01-01) was a Thursday. */
  function DayOfWeek(d: Day): (w: nat)
    ensures w < 7
  {
    (d + 4) % 7
  }

  /** Weekdays repeat every seven days, and 1970-01-01 (day 0) was a Thursday. */
  lemma DayOfWeekAnchors(d: Day)
    ensures DayOfWeek(d + 7) == DayOfWeek(d)
    ensures DayOfWeek(0) == 4
  {
  }

  /** The chapter of the loop day with index `dayIndex`: one chapter per 7-day block, cycling. */
  function WeekChapter(syl: Syllabus, dayIndex: nat): Chapter {
    syl.chapters[(dayIndex / 7) % |syl.chapters|]
  }

  /** Minutes of the day's input task. */
  function InputMinutes(dailyMins: int): int {
    if dailyMins >= 45 then 30 else 15
  }

  /** Whether the daily budget leaves room for the 15-minute drill. */
  predicate HasDrill(dailyMins: int) {
    dailyMins - InputMinutes(dailyMins) >= 15
  }

  /** A Sunday's one task: the afternoon written-answer exam for the week's chapter. */
  function SundayTask(syl: Syllabus, d: Day, ch: Chapter): TaskData {
    TaskData(d, SundayTitle(syl, ch), ch.cat, syl.pastExam, 45, High)
  }

  /** A weekday's input task: study of the week's chapter for `inputDur` minutes. */
  function InputTask(syl: Syllabus, d: Day, ch: Chapter, inputDur: int): TaskData {
    TaskData(d, InputTitle(syl, ch), ch.cat, syl.inputKind, inputDur, Medium)
  }

  /** A weekday's 15-minute morning past-exam drill. */
  function DrillTask(syl: Syllabus, d: Day): TaskData {
    TaskData(d, syl.drillTitle, syl.pastExam, syl.pastExam, 15, Low)
  }

  /** The tasks the loop body creates for date `d`, loop day index `dayIndex`. */
  function DayPlan(syl: Syllabus, d: Day, dayIndex: nat, dailyMins: int): seq<TaskData> {
    var ch := WeekChapter(syl, dayIndex);
    if DayOfWeek(d) == 0 then
      [SundayTask(syl, d, ch)]
    else
      [InputTask(syl, d, ch, InputMinutes(dailyMins))] + (if HasDrill(dailyMins) then [DrillTask(syl, d)] else [])
  }

  /** How many days the loop walks: from tomorrow while before the exam, at most LastDayIndex + 1. */
  function PlanDays(today: Day, exam: Day): (n: nat)
    ensures n <= LastDayIndex + 1
    ensures n <= exam - today - 1 || n == 0
    ensures n == 0 <==> exam <= today + 1
    ensures n < LastDayIndex + 1 ==> n == exam - today - 1 || n == 0
  {
    if exam - today - 1 <= 0 then 0
    else if exam - today - 1 <= LastDayIndex + 1 then exam - today - 1
    else LastDayIndex + 1
  }

  /** The day plans of the first `n` loop days starting at `first`. */
  function DayPlans(syl: Syllabus, first: Day, n: nat, dailyMins: int): (days: seq<seq<TaskData>>)
    ensures |days| == n
  {
    if n == 0 then [] else DayPlans(syl, first, n - 1, dailyMins) + [DayPlan(syl, first + (n - 1), n - 1, dailyMins)]
  }

  /** Day `i` of the run is the plan of loop day `i`. */
  lemma {:induction false} DayPlansAt(syl: Syllabus, first: Day, n: nat, dailyMins: int, i: nat)
    requires i < n
    ensures DayPlans(syl, first, n, dailyMins)[i] == DayPlan(syl, first + i, i, dailyMins)
  {
    if i < n - 1 {
      DayPlansAt(syl, first, n - 1, dailyMins, i);
    }
  }

  /** The run of the first `n` days is a prefix of every longer run. */
  lemma {:induction false} DayPlansPrefix(syl: Syllabus, first: Day, n: nat, m: nat, dailyMins: int)
    requires n <= m
    ensures DayPlans(syl, first, m, dailyMins)[..n] == DayPlans(syl, first, n, dailyMins)
  {
    if n < m {
      DayPlansPrefix(syl, first, n, m - 1, dailyMins);
      assert DayPlans(syl, first, m, dailyMins)[..m - 1] == DayPlans(syl, first, m - 1, dailyMins);
    } else {
      assert DayPlans(syl, first, m, dailyMins)[..n] == DayPlans(syl, first, m, dailyMins);
    }
  }

  /** The tasks of a run of days, in creation order. */
  function Flatten(days: seq<seq<TaskData>>): seq<TaskData> {
    if days == [] then [] else Flatten(days[..|days| - 1]) + days[|days| - 1]
  }

  /** The tasks of the first `n` loop days starting at `first`, in creation order. */
  function PlanUpTo(syl: Syllabus, first: Day, n: nat, dailyMins: int): seq<TaskData> {
    Flatten(DayPlans(syl, first, n, dailyMins))
  }

  /** The plan `generateAutoPlan` creates when run on `today`. */
  function Plan(syl: Syllabus, today: Day, exam: Day, dailyMins: int): seq<TaskData> {
    PlanUpTo(syl, today + 1, PlanDays(today, exam), dailyMins)
  }

  /** `DraftsOn(ps, d)` keeps the planned tasks dated `d`, in order. */
  function DraftsOn(ps: seq<TaskData>, d: Day): (r: seq<TaskData>)
    ensures |r| <= |ps|
  {
    if ps == [] then []
    else (if ps[0].date == d then [ps[0]] else []) + DraftsOn(ps[1..], d)
  }

  lemma {:induction false} DraftsOnAppend(a: seq<TaskData>, b: seq<TaskData>, d: Day)
    ensures DraftsOn(a + b, d) == DraftsOn(a, d) + DraftsOn(b, d)
  {
    if a != [] {
      assert (a + b)[0] == a[0];
      assert (a + b)[1..] == a[1..] + b;
      DraftsOnAppend(a[1..], b, d);
    } else {
      assert a + b == b;
    }
  }

  /** Every task of `ps` is dated in [lo, hi). */
  ghost predicate DatedWithin(ps: seq<TaskData>, lo: Day, hi: Day) {
    forall k :: 0 <= k < |ps| ==> lo <= ps[k].date < hi
  }

  /** The tasks of `ps` come in date order. */
  ghost predicate DateOrdered(ps: seq<TaskData>) {
    forall j, k :: 0 <= j < k < |ps| ==> ps[j].date <= ps[k].date
  }

  /** Day `i` of `days` holds at most two tasks, all dated `first + i`. */
  ghost predicate ConsecutiveDays(days: seq<seq<TaskData>>, first: Day) {
    forall i :: 0 <= i < |days| ==> |days[i]| <= 2 && DatedWithin(days[i], first + i, first + i + 1)
  }

  /** Each loop day creates one or two tasks, all dated that day. */
  lemma DayPlanDated(syl: Syllabus, d: Day, dayIndex: nat, dailyMins: int)
    ensures 1 <= |DayPlan(syl, d, dayIndex, dailyMins)| <= 2
    ensures DatedWithin(DayPlan(syl, d, dayIndex, dailyMins), d, d + 1)
  {
  }

  lemma DayPlansConsecutive(syl: Syllabus, first: Day, n: nat, dailyMins: int)
    ensures ConsecutiveDays(DayPlans(syl, first, n, dailyMins), first)
  {
    var days := DayPlans(syl, first, n, dailyMins);
    forall i | 0 <= i < n
      ensures |days[i]| <= 2 && DatedWithin(days[i], first + i, first + i + 1)
    {
      DayPlansAt(syl, first, n, dailyMins, i);
      DayPlanDated(syl, first + i, i, dailyMins);
    }
  }

  lemma {:induction false} AppendDatedWithin(p: seq<TaskData>, q: seq<TaskData>, lo: Day, mid: Day, hi: Day)
    requires lo <= mid <= hi
    requires DatedWithin(p, lo, mid) && DatedWithin(q, mid, hi)
    ensures DatedWithin(p + q, lo, hi)
  {
    forall k | 0 <= k < |p + q|
      ensures lo <= (p + q)[k].date < hi
    {
      if k < |p| {
        assert (p + q)[k] == p[k];
      } else {
        assert (p + q)[k] == q[k - |p|];
      }
    }
  }

  lemma {:induction false} AppendDateOrdered(p: seq<TaskData>, q: seq<TaskData>, lo: Day, mid: Day)
    requires DateOrdered(p) && DatedWithin(p, lo, mid) && DatedWithin(q, mid, mid + 1)
    ensures DateOrdered(p + q)
  {
    forall j, k | 0 <= j < k < |p + q|
      ensures (p + q)[j].date <= (p + q)[k].date
    {
      if k < |p| {
        assert (p + q)[j] == p[j] && (p + q)[k] == p[k];
      } else if j < |p| {
        assert (p + q)[j] == p[j] && (p + q)[k] == q[k - |p|];
        assert p[j].date < mid <= q[k - |p|].date;
      } else {
        assert (p + q)[j] == q[j - |p|] && (p + q)[k] == q[k - |p|];
        assert q[j - |p|].date == mid == q[k - |p|].date;
      }
    }
  }

  /** No task of `ps` is dated `d` when `d` lies outside the dates of `ps`. */
  lemma {:induction false} DraftsOnOutside(ps: seq<TaskData>, lo: Day, hi: Day, d: Day)
    requires DatedWithin(ps, lo, hi) && !(lo <= d < hi)
    ensures DraftsOn(ps, d) == []
  {
    if ps != [] {
      assert ps[0].date != d;
      DraftsOnOutside(ps[1..], lo, hi, d);
    }
  }

  /** Every task of `ps` is kept when all are dated `d`. */
  lemma {:induction false} DraftsOnAll(ps: seq<TaskData>, d: Day)
    requires DatedWithin(ps, d, d + 1)
    ensures DraftsOn(ps, d) == ps
  {
    if ps != [] {
      assert ps[0].date == d;
      DraftsOnAll(ps[1..], d);
      assert [ps[0]] + ps[1..] == ps;
    }
  }

  /** Appending one day's tasks to earlier ones: that day keeps exactly its own tasks, other days are unaffected. */
  lemma DraftsOnStep(p: seq<TaskData>, q: seq<TaskData>, lo: Day, mid: Day, d: Day)
    requires DatedWithin(p, lo, mid) && DatedWithin(q, mid, mid + 1)
    ensures DraftsOn(p + q, d) == if d == mid then q else DraftsOn(p, d)
  {
    DraftsOnAppend(p, q, d);
    if d == mid {
      DraftsOnOutside(p, lo, mid, d);
      DraftsOnAll(q, d);
    } else {
      DraftsOnOutside(q, mid, mid + 1, d);
    }
  }

  lemma {:induction false} FlattenLength(days: seq<seq<TaskData>>, first: Day)
    requires ConsecutiveDays(days, first)
    ensures |Flatten(days)| <= 2 * |days|
  {
    if days != [] {
      FlattenLength(days[..|days| - 1], first);
    }
  }

  lemma {:induction false} FlattenDates(days: seq<seq<TaskData>>, first: Day)
    requires ConsecutiveDays(days, first)
    ensures DatedWithin(Flatten(days), first, first + |days|)
  {
    if days != [] {
      var n := |days| - 1;
      FlattenDates(days[..n], first);
      AppendDatedWithin(Flatten(days[..n]), days[n], first, first + n, first + n + 1);
    }
  }

  lemma {:induction false} FlattenOrdered(days: seq<seq<TaskData>>, first: Day)
    requires ConsecutiveDays(days, first)
    ensures DateOrdered(Flatten(days))
  {
    if days != [] {
      var n := |days| - 1;
      FlattenOrdered(days[..n], first);
      FlattenDates(days[..n], first);
      AppendDateOrdered(Flatten(days[..n]), days[n], first, first + n);
    }
  }

  lemma {:induction false} FlattenOnDay(days: seq<seq<TaskData>>, first: Day, d: Day)
    requires ConsecutiveDays(days, first)
    ensures DraftsOn(Flatten(days), d) == if first <= d < first + |days| then days[d - first] else []
  {
    if days != [] {
      var n := |days| - 1;
      FlattenDates(days[..n], first);
      DraftsOnStep(Flatten(days[..n]), days[n], first, first + n, d);
      if d != first + n {
        FlattenOnDay(days[..n], first, d);
      }
    }
  }

  lemma {:induction false} FlattenPrefix(days: seq<seq<TaskData>>, m: nat)
    requires m <= |days|
    ensures Flatten(days[..m]) <= Flatten(days)
    decreases |days|
  {
    if m < |days| {
      var n := |days| - 1;
      assert days[..n][..m] == days[..m];
      FlattenPrefix(days[..n], m);
    } else {
      assert days[..m] == days;
    }
  }

  /** No loop days, no tasks. */
  lemma PlanUpToZero(syl: Syllabus, first: Day, dailyMins: int)
    ensures PlanUpTo(syl, first, 0, dailyMins) == []
  {
  }

  /** One more loop day appends that day's tasks. */
  lemma PlanUpToStep(syl: Syllabus, first: Day, n: nat, dailyMins: int)
    ensures PlanUpTo(syl, first, n + 1, dailyMins) == PlanUpTo(syl, first, n, dailyMins) + DayPlan(syl, first + n, n, dailyMins)
  {
    var days := DayPlans(syl, first, n + 1, dailyMins);
    assert days[..n] == DayPlans(syl, first, n, dailyMins);
    assert days[n] == DayPlan(syl, first + n, n, dailyMins);
  }

  /** A plan prefix is no longer than a longer prefix. */
  lemma PlanUpToGrows(syl: Syllabus, first: Day, n: nat, m: nat, dailyMins: int)
    requires n <= m
    ensures |PlanUpTo(syl, first, n, dailyMins)| <= |PlanUpTo(syl, first, m, dailyMins)|
  {
    DayPlansPrefix(syl, first, n, m, dailyMins);
    FlattenPrefix(DayPlans(syl, first, m, dailyMins), n);
  }

  /** When the loop stops, before the exam or after its last day, it has walked exactly the plan's days. */
  lemma PlanIsPlanUpTo(syl: Syllabus, today: Day, exam: Day, dailyMins: int, n: nat)
    requires n <= PlanDays(today, exam)
    requires today + 1 + n >= exam || n > LastDayIndex
    ensures Plan(syl, today, exam, dailyMins) == PlanUpTo(syl, today + 1, n, dailyMins)
  {
  }

  /**
   * Plan bounds: every task lies strictly after today and strictly before the
   * exam, within the first 181 days, in date order; at most two tasks a day.
   */
  lemma PlanBounds(syl: Syllabus, today: Day, exam: Day, dailyMins: int)
    ensures |Plan(syl, today, exam, dailyMins)| <= 2 * (LastDayIndex + 1)
    ensures forall k :: 0 <= k < |Plan(syl, today, exam, dailyMins)| ==>
      today < Plan(syl, today, exam, dailyMins)[k].date < exam &&
      Plan(syl, today, exam, dailyMins)[k].date <= today + LastDayIndex + 1
    ensures forall j, k :: 0 <= j < k < |Plan(syl, today, exam, dailyMins)| ==>
      Plan(syl, today, exam, dailyMins)[j].date <= Plan(syl, today, exam, dailyMins)[k].date
  {
    var days := DayPlans(syl, today + 1, PlanDays(today, exam), dailyMins);
    DayPlansConsecutive(syl, today + 1, PlanDays(today, exam), dailyMins);
    FlattenDates(days, today + 1);
    FlattenOrdered(days, today + 1);
    FlattenLength(days, today + 1);
  }

  /** The tasks the plan dates `d` are the plan of loop day `d - today - 1` when that is one of the loop's days, and none otherwise. */
  lemma PlanSelectsDay(syl: Syllabus, today: Day, exam: Day, dailyMins: int, d: Day)
    ensures var days := DayPlans(syl, today + 1, PlanDays(today, exam), dailyMins);
      DraftsOn(Plan(syl, today, exam, dailyMins), d) == if today + 1 <= d < today + 1 + |days| then days[d - (today + 1)] else []
  {
    var days := DayPlans(syl, today + 1, PlanDays(today, exam), dailyMins);
    assert Plan(syl, today, exam, dailyMins) == Flatten(days);
    DayPlansConsecutive(syl, today + 1, PlanDays(today, exam), dailyMins);
    FlattenOnDay(days, today + 1, d);
  }

  /** The tasks the plan dates `d` are that day's plan when `d` is one of the loop's days, and none otherwise. */
  lemma PlanOnDay(syl: Syllabus, today: Day, exam: Day, dailyMins: int, d: Day)
    ensures DraftsOn(Plan(syl, today, exam, dailyMins), d) ==
      if today < d < exam && d <= today + LastDayIndex + 1 then DayPlan(syl, d, d - today - 1, dailyMins) else []
  {
    PlanSelectsDay(syl, today, exam, dailyMins, d);
    var n := PlanDays(today, exam);
    var days := DayPlans(syl, today + 1, n, dailyMins);
    if today < d < exam && d <= today + LastDayIndex + 1 {
      assert d - (today + 1) < n;
      DayPlansAt(syl, today + 1, n, dailyMins, d - (today + 1));
      assert DraftsOn(Plan(syl, today, exam, dailyMins), d) == days[d - (today + 1)];
    } else {
      assert !(today + 1 <= d < today + 1 + n);
    }
  }

  /**
   * The daily emission rule and the weekly chapter: a Sunday gets exactly one
   * 45-minute high-priority past-exam task on the week's chapter; any other
   * day gets a medium input task on the week's chapter, of 30 minutes when the
   * daily target is at least 45 and of 15 otherwise, followed by a low
   * 15-minute past-exam drill exactly when the target leaves 15 minutes after
   * the input task.
   */
  lemma DayPlanRule(d: Day, dayIndex: nat, dailyMins: int)
    ensures var ts := DayPlan(ApSyllabus, d, dayIndex, dailyMins);
      var ch := Chapters[(dayIndex / 7) % 12];
      if DayOfWeek(d) == 0 then
        ts == [TaskData(d, "午後記述式: " + ch.name, ch.cat, "過去問", 45, High)]
      else
        && |ts| == (if dailyMins - (if dailyMins >= 45 then 30 else 15) >= 15 then 2 else 1)
        && ts[0] == TaskData(d, "【学習】" + ch.name, ch.cat, "インプット", if dailyMins >= 45 then 30 else 15, Medium)
        && (|ts| == 2 ==> ts[1] == TaskData(d, "【演習】午前過去問 10道場", "過去問", "過去問", 15, Low))
  {
  }

  /**
   * Weekly cadence: the chapter is constant within a 7-day block, advances by
   * one chapter, wrapping, from one block to the next, and the whole syllabus
   * repeats every `7 * |syl.chapters|` days.
   */
  lemma WeeklyCadence(syl: Syllabus, i: nat, j: nat)
    ensures i / 7 == j / 7 ==> WeekChapter(syl, i) == WeekChapter(syl, j)
    ensures WeekChapter(syl, i + 7) == syl.chapters[(i / 7 + 1) % |syl.chapters|]
    ensures WeekChapter(syl, i + 7 * |syl.chapters|) == WeekChapter(syl, i)
  {
    var n := |syl.chapters|;
    DivBySeven(i + 7, i / 7 + 1, i % 7);
    DivBySeven(i + 7 * n, i / 7 + n, i % 7);
    ModPeriod(i / 7 + n, i / 7, n);
  }

  /** Adding the modulus leaves the remainder unchanged. */
  lemma ModPeriod(a: int, b: int, m: int)
    requires m > 0 && a == b + m
    ensures a % m == b % m
  {
    var q, r := b / m, b % m;
    assert a == m * (q + 1) + r;
    ModUnique(a, m, q + 1, r);
  }

  /** The remainder is the only `r` in [0, m) with `a == m * q + r`. */
  lemma ModUnique(a: int, m: int, q: int, r: int)
    requires m > 0 && a == m * q + r && 0 <= r < m
    ensures a % m == r
  {
    var q', r' := a / m, a % m;
    Distribute(m, q, q');
    if q > q' {
      MulAtLeast(m, q - q');
    } else if q < q' {
      Distribute(m, q', q);
      MulAtLeast(m, q' - q);
    }
  }

  lemma Distribute(m: int, x: int, y: int)
    ensures m * (x - y) == m * x - m * y
  {
  }

  lemma {:induction false} MulAtLeast(m: int, k: int)
    requires m > 0 && k >= 1
    ensures m * k >= m
    decreases k
  {
    if k > 1 {
      MulAtLeast(m, k - 1);
      Distribute(m, k, 1);
    }
  }

  lemma DivBySeven(a: int, q: int, r: int)
    requires a == 7 * q + r && 0 <= r < 7
    ensures a / 7 == q
  {
  }

  /** The syllabus of the planner has twelve chapters, so its chapters repeat every 84 days. */
  lemma ChaptersCycle(i: nat)
    ensures |ApSyllabus.chapters| == 12
    ensures WeekChapter(ApSyllabus, i + 84) == WeekChapter(ApSyllabus, i)
  {
    WeeklyCadence(ApSyllabus, i, i);
  }

  /** With a 45-minute target a weekday gets a 30-minute input task and a 15-minute drill. */
  lemma Target45Weekday(syl: Syllabus, d: Day, dayIndex: nat)
    requires DayOfWeek(d) != 0
    ensures |DayPlan(syl, d, dayIndex, 45)| == 2
    ensures DayPlan(syl, d, dayIndex, 45)[0].dur + DayPlan(syl, d, dayIndex, 45)[1].dur == 45
  {
  }

  /** With a 20-minute target a weekday gets one 15-minute input task only. */
  lemma Target20Weekday(syl: Syllabus, d: Day, dayIndex: nat)
    requires DayOfWeek(d) != 0
    ensures |DayPlan(syl, d, dayIndex, 20)| == 1 && DayPlan(syl, d, dayIndex, 20)[0].dur == 15
  {
  }
}
