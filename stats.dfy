/**
 * The statistics view: total minutes, today's minutes and the minutes per
 * category shown in the doughnut chart.
 */
module Stats {
  import opened Wrappers
  import opened Tasks

  /** The bucket of a log whose task no longer exists. */
  const Uncategorised: string := "その他"

  /** `logs.reduce((acc, l) => acc + l.dur, 0)`: a fold from the left. */
  function TotalMinutes(logs: seq<LogEntry>): int {
    if logs == [] then 0 else TotalMinutes(logs[..|logs| - 1]) + logs[|logs| - 1].dur
  }

  /** `logs.filter(l => l.date === d)`. */
  function LogsOn(logs: seq<LogEntry>, d: Day): (r: seq<LogEntry>)
    ensures forall l :: l in r <==> l in logs && l.date == d
  {
    if logs == [] then []
    else LogsOn(logs[..|logs| - 1], d) + (if logs[|logs| - 1].date == d then [logs[|logs| - 1]] else [])
  }

  /** The filter keeps each log dated `d` as many times as the log holds it, and no other log. */
  lemma {:induction false} LogsOnCounts(logs: seq<LogEntry>, d: Day)
    ensures forall l :: multiset(LogsOn(logs, d))[l] == if l.date == d then multiset(logs)[l] else 0
  {
    if logs != [] {
      LogsOnCounts(logs[..|logs| - 1], d);
      assert logs == logs[..|logs| - 1] + [logs[|logs| - 1]];
    }
  }

  /** Minutes logged on `today`. */
  function TodayMinutes(logs: seq<LogEntry>, today: Day): int {
    TotalMinutes(LogsOn(logs, today))
  }

  /** Total minutes add up over concatenation. */
  lemma {:induction false} TotalMinutesAppend(a: seq<LogEntry>, b: seq<LogEntry>)
    ensures TotalMinutes(a + b) == TotalMinutes(a) + TotalMinutes(b)
    decreases |b|
  {
    if b == [] {
      assert a + b == a;
    } else {
      var n := |b| - 1;
      assert (a + b)[..|a + b| - 1] == a + b[..n];
      TotalMinutesAppend(a, b[..n]);
    }
  }

  /** Appending a log adds exactly its minutes to the total, and to today's minutes when it is dated today. */
  lemma LogAddsMinutes(logs: seq<LogEntry>, e: LogEntry, today: Day)
    ensures TotalMinutes(logs + [e]) == TotalMinutes(logs) + e.dur
    ensures TodayMinutes(logs + [e], today) == TodayMinutes(logs, today) + (if e.date == today then e.dur else 0)
  {
    assert (logs + [e])[..|logs|] == logs;
    if e.date == today {
      TotalMinutesAppend(LogsOn(logs, today), [e]);
    } else {
      assert LogsOn(logs + [e], today) == LogsOn(logs, today);
    }
  }

  /** Every log the planner writes has positive minutes. */
  ghost predicate PositiveLogs(logs: seq<LogEntry>) {
    forall i :: 0 <= i < |logs| ==> logs[i].dur > 0
  }

  /** With positive logs, today's minutes lie between 0 and the total. */
  lemma {:induction false} TodayWithinTotal(logs: seq<LogEntry>, today: Day)
    requires PositiveLogs(logs)
    ensures 0 <= TodayMinutes(logs, today) <= TotalMinutes(logs)
  {
    if logs != [] {
      var init := logs[..|logs| - 1];
      TodayWithinTotal(init, today);
      assert logs == init + [logs[|logs| - 1]];
      LogAddsMinutes(init, logs[|logs| - 1], today);
    }
  }

  /** The category a log's minutes are shown under: its task's, or the fallback bucket. */
  function CategoryOf(tasks: seq<Task>, l: LogEntry): (c: string)
    ensures FreshId(tasks, l.taskId) ==> c == Uncategorised
    ensures !FreshId(tasks, l.taskId) ==> exists i :: 0 <= i < |tasks| && tasks[i].id == l.taskId && tasks[i].cat == c
  {
    match FindIndex(tasks, l.taskId)
    case Some(i) => tasks[i].cat
    case None => Uncategorised
  }

  /** The `catData` object: its keys in insertion order and its values. */
  datatype Chart = Chart(keys: seq<string>, mins: map<string, int>)

  /** `catData[cat] = (catData[cat] || 0) + dur`. */
  function AddMinutes(c: Chart, cat: string, dur: int): Chart {
    if cat in c.mins then c.(mins := c.mins[cat := c.mins[cat] + dur])
    else Chart(c.keys + [cat], c.mins[cat := dur])
  }

  /** The chart after the `forEach` over `logs`. */
  function CategoryChart(tasks: seq<Task>, logs: seq<LogEntry>): Chart {
    if logs == [] then Chart([], map[])
    else AddMinutes(CategoryChart(tasks, logs[..|logs| - 1]), CategoryOf(tasks, logs[|logs| - 1]), logs[|logs| - 1].dur)
  }

  /** The renderer's per-category pass, as the loop it is. */
  method AggregateByCategory(tasks: seq<Task>, logs: seq<LogEntry>) returns (chart: Chart)
    ensures chart == CategoryChart(tasks, logs)
  {
    chart := Chart([], map[]);
    var i := 0;
    while i < |logs|
      invariant 0 <= i <= |logs|
      invariant chart == CategoryChart(tasks, logs[..i])
    {
      var l := logs[i];
      var cat := CategoryOf(tasks, l);
      chart := AddMinutes(chart, cat, l.dur);
      i := i + 1;
      assert logs[..i][..i - 1] == logs[..i - 1];
    }
    assert logs[..i] == logs;
  }

  /** The logs whose minutes are shown under `cat`. */
  function LogsIn(tasks: seq<Task>, logs: seq<LogEntry>, cat: string): (r: seq<LogEntry>)
    ensures forall l :: l in r <==> l in logs && CategoryOf(tasks, l) == cat
  {
    if logs == [] then []
    else
      var l := logs[|logs| - 1];
      LogsIn(tasks, logs[..|logs| - 1], cat) + (if CategoryOf(tasks, l) == cat then [l] else [])
  }

  /** The logs shown under `cat` are each log of that category, as many times as the log holds it. */
  lemma {:induction false} LogsInCounts(tasks: seq<Task>, logs: seq<LogEntry>, cat: string)
    ensures forall l :: multiset(LogsIn(tasks, logs, cat))[l] == if CategoryOf(tasks, l) == cat then multiset(logs)[l] else 0
  {
    if logs != [] {
      LogsInCounts(tasks, logs[..|logs| - 1], cat);
      assert logs == logs[..|logs| - 1] + [logs[|logs| - 1]];
    }
  }

  /** Sum of the chart's values, key by key. */
  function SumOver(keys: seq<string>, m: map<string, int>): int {
    if keys == [] then 0
    else SumOver(keys[..|keys| - 1], m) + (if keys[|keys| - 1] in m then m[keys[|keys| - 1]] else 0)
  }

  /** The keys are distinct and are exactly the keys of the map. */
  ghost predicate ChartWellFormed(c: Chart) {
    && (forall i, j :: 0 <= i < j < |c.keys| ==> c.keys[i] != c.keys[j])
    && (forall k :: k in c.mins <==> k in c.keys)
  }

  lemma {:induction false} SumOverIgnores(keys: seq<string>, m: map<string, int>, k: string, v: int)
    requires k !in keys
    ensures SumOver(keys, m[k := v]) == SumOver(keys, m)
  {
    if keys != [] {
      SumOverIgnores(keys[..|keys| - 1], m, k, v);
    }
  }

  lemma {:induction false} SumOverBump(keys: seq<string>, m: map<string, int>, k: string, d: int)
    requires k in m
    requires forall i, j :: 0 <= i < j < |keys| ==> keys[i] != keys[j]
    ensures SumOver(keys, m[k := m[k] + d]) == SumOver(keys, m) + (if k in keys then d else 0)
  {
    if keys != [] {
      var init := keys[..|keys| - 1];
      SumOverBump(init, m, k, d);
      if keys[|keys| - 1] == k {
        assert k !in init;
      }
    }
  }

  /** The chart's keys are distinct and are exactly the categories it holds minutes for. */
  lemma {:induction false} ChartKeysDistinct(tasks: seq<Task>, logs: seq<LogEntry>)
    ensures ChartWellFormed(CategoryChart(tasks, logs))
  {
    if logs != [] {
      ChartKeysDistinct(tasks, logs[..|logs| - 1]);
    }
  }

  /** Adding minutes to a well-formed chart adds them to the sum of its values. */
  lemma AddMinutesSum(c: Chart, cat: string, dur: int)
    requires ChartWellFormed(c)
    ensures SumOver(AddMinutes(c, cat, dur).keys, AddMinutes(c, cat, dur).mins) == SumOver(c.keys, c.mins) + dur
  {
    if cat in c.mins {
      SumOverBump(c.keys, c.mins, cat, dur);
    } else {
      SumOverIgnores(c.keys, c.mins, cat, dur);
      assert (c.keys + [cat])[..|c.keys|] == c.keys;
    }
  }

  /** The chart's values sum to the total minutes: no minute is lost or counted twice. */
  lemma {:induction false} ChartSumsToTotal(tasks: seq<Task>, logs: seq<LogEntry>)
    ensures SumOver(CategoryChart(tasks, logs).keys, CategoryChart(tasks, logs).mins) == TotalMinutes(logs)
  {
    if logs != [] {
      var init, l := logs[..|logs| - 1], logs[|logs| - 1];
      ChartSumsToTotal(tasks, init);
      ChartKeysDistinct(tasks, init);
      AddMinutesSum(CategoryChart(tasks, init), CategoryOf(tasks, l), l.dur);
    }
  }

  /** Each category holds exactly the minutes of the logs shown under it; a category with no logs is absent. */
  lemma {:induction false} ChartPerCategory(tasks: seq<Task>, logs: seq<LogEntry>, cat: string)
    ensures cat in CategoryChart(tasks, logs).mins ==>
      CategoryChart(tasks, logs).mins[cat] == TotalMinutes(LogsIn(tasks, logs, cat))
    ensures cat !in CategoryChart(tasks, logs).mins <==> LogsIn(tasks, logs, cat) == []
  {
    if logs != [] {
      var init, l := logs[..|logs| - 1], logs[|logs| - 1];
      ChartPerCategory(tasks, init, cat);
      assert CategoryChart(tasks, logs) == AddMinutes(CategoryChart(tasks, init), CategoryOf(tasks, l), l.dur);
      if CategoryOf(tasks, l) == cat {
        assert LogsIn(tasks, logs, cat) == LogsIn(tasks, init, cat) + [l];
        TotalMinutesAppend(LogsIn(tasks, init, cat), [l]);
        assert [l][..0] == [];
      } else {
        assert LogsIn(tasks, logs, cat) == LogsIn(tasks, init, cat);
      }
    }
  }
}
