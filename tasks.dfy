/**
 * The task store of the study planner: tasks, log entries and the pure
 * queries over them (find by id, filter by date, remove by id, toggle status).
 */
module Tasks {
  import opened Wrappers

  /** A calendar date, as a count of days since 1970-01-01. */
  type Day = int

  /** The opaque random identifier `createTask` gives a task. */
  type Id = string

  datatype Priority = Low | Medium | High

  datatype Status = Todo | Completed

  /** The six fields `createTask` receives, which are also the fields the task form submits. */
  datatype TaskData = TaskData(date: Day, title: string, cat: string, kind: string, dur: int, prio: Priority)

  /** A stored task; `kind` is the source's `type` field. */
  datatype Task = Task(id: Id, title: string, cat: string, kind: string, date: Day, dur: int, prio: Priority, status: Status)

  /** One timed study session; `id` is the stop instant in milliseconds. */
  datatype LogEntry = LogEntry(id: int, taskId: Id, dur: int, date: Day)

  /** The form fields of a task. */
  function DataOf(t: Task): TaskData {
    TaskData(t.date, t.title, t.cat, t.kind, t.dur, t.prio)
  }

  /** The task `createTask` pushes: the given fields, the given id, and status `todo`. */
  function NewTask(id: Id, d: TaskData): (t: Task)
    ensures t.id == id && t.status == Todo && DataOf(t) == d
  {
    Task(id, d.title, d.cat, d.kind, d.date, d.dur, d.prio, Todo)
  }

  /** `Object.assign(t, data)`: the form fields are replaced, id and status are kept. */
  function Assign(t: Task, d: TaskData): (r: Task)
    ensures r.id == t.id && r.status == t.status && DataOf(r) == d
  {
    t.(title := d.title, cat := d.cat, kind := d.kind, dur := d.dur, date := d.date, prio := d.prio)
  }

  /** No two tasks of the store share an id. */
  ghost predicate UniqueIds(ts: seq<Task>) {
    forall i, j :: 0 <= i < j < |ts| ==> ts[i].id != ts[j].id
  }

  /** Replacing a task by one with the same id keeps the ids unique. */
  lemma ReplaceKeepsUnique(ts: seq<Task>, i: nat, t: Task)
    requires UniqueIds(ts) && i < |ts| && t.id == ts[i].id
    ensures UniqueIds(ts[i := t])
  {
    var us := ts[i := t];
    forall j, k | 0 <= j < k < |us|
      ensures us[j].id != us[k].id
    {
      assert us[j].id == ts[j].id && us[k].id == ts[k].id;
    }
  }

  /** No task of the store has id `id`. */
  ghost predicate FreshId(ts: seq<Task>, id: Id) {
    forall i :: 0 <= i < |ts| ==> ts[i].id != id
  }

  /** `tasks.find(t => t.id === id)`, as the position of the first match. */
  function FindIndex(ts: seq<Task>, id: Id): (r: Option<nat>)
    ensures r.Some? ==> r.value < |ts| && ts[r.value].id == id
    ensures r.Some? ==> forall j :: 0 <= j < r.value ==> ts[j].id != id
    ensures r.None? <==> FreshId(ts, id)
  {
    if ts == [] then None
    else if ts[0].id == id then Some(0)
    else match FindIndex(ts[1..], id)
      case Some(k) => Some(k + 1)
      case None => None
  }

  /** A lookup depends on the ids of the store only, position by position. */
  lemma {:induction false} FindIndexSameIds(ts: seq<Task>, us: seq<Task>, id: Id)
    requires |ts| == |us|
    requires forall i :: 0 <= i < |ts| ==> ts[i].id == us[i].id
    ensures FindIndex(ts, id) == FindIndex(us, id)
  {
    if ts != [] {
      FindIndexSameIds(ts[1..], us[1..], id);
    }
  }

  /** `tasks.filter(t => t.date === d)`. */
  function TasksOn(ts: seq<Task>, d: Day): (r: seq<Task>)
    ensures |r| <= |ts|
    ensures forall t :: t in r <==> t in ts && t.date == d
  {
    if ts == [] then []
    else (if ts[0].date == d then [ts[0]] else []) + TasksOn(ts[1..], d)
  }

  /** The filter keeps each task dated `d` as many times as the store holds it, and no other task. */
  lemma {:induction false} TasksOnCounts(ts: seq<Task>, d: Day)
    ensures forall t :: multiset(TasksOn(ts, d))[t] == if t.date == d then multiset(ts)[t] else 0
  {
    if ts != [] {
      TasksOnCounts(ts[1..], d);
      assert ts == [ts[0]] + ts[1..];
    }
  }

  /** `tasks.filter(t => t.id !== id)`: the delete handler's new store. */
  function RemoveId(ts: seq<Task>, id: Id): (r: seq<Task>)
    ensures forall t :: t in r <==> t in ts && t.id != id
    ensures FreshId(r, id)
  {
    if ts == [] then []
    else (if ts[0].id != id then [ts[0]] else []) + RemoveId(ts[1..], id)
  }

  /** Removing tasks keeps an id fresh. */
  lemma {:induction false} RemoveIdKeepsFresh(ts: seq<Task>, id: Id, x: Id)
    requires FreshId(ts, x)
    ensures FreshId(RemoveId(ts, id), x)
  {
    if ts != [] {
      RemoveIdKeepsFresh(ts[1..], id, x);
    }
  }

  /** A task in front of tasks that do not share its id keeps the ids unique. */
  lemma ConsUnique(t: Task, ts: seq<Task>)
    requires UniqueIds(ts) && FreshId(ts, t.id)
    ensures UniqueIds([t] + ts)
  {
    var us := [t] + ts;
    forall i, j | 0 <= i < j < |us|
      ensures us[i].id != us[j].id
    {
      assert us[j] == ts[j - 1];
      if i > 0 {
        assert us[i] == ts[i - 1];
      }
    }
  }

  /** Removing a present id from a store of unique ids removes exactly one task and keeps the ids unique. */
  lemma {:induction false} RemoveIdRemovesOne(ts: seq<Task>, id: Id)
    requires UniqueIds(ts)
    ensures UniqueIds(RemoveId(ts, id))
    ensures |RemoveId(ts, id)| == if FreshId(ts, id) then |ts| else |ts| - 1
  {
    if ts != [] {
      var rest := RemoveId(ts[1..], id);
      assert UniqueIds(ts[1..]);
      RemoveIdRemovesOne(ts[1..], id);
      if ts[0].id != id {
        assert FreshId(ts[1..], ts[0].id);
        RemoveIdKeepsFresh(ts[1..], id, ts[0].id);
        ConsUnique(ts[0], rest);
        assert RemoveId(ts, id) == [ts[0]] + rest;
      } else {
        assert FreshId(ts[1..], id);
        assert RemoveId(ts, id) == rest;
      }
    }
  }

  /** The status the check mark flips to. */
  function Flip(s: Status): Status {
    if s == Completed then Todo else Completed
  }

  /** `toggleTaskStatus`: the first task with id `id` flips between `todo` and `completed`. */
  function ToggleStatus(ts: seq<Task>, id: Id): (r: seq<Task>)
    ensures |r| == |ts|
    ensures forall i :: 0 <= i < |ts| ==> r[i].id == ts[i].id && DataOf(r[i]) == DataOf(ts[i])
    ensures forall i :: 0 <= i < |ts| && ts[i].id != id ==> r[i] == ts[i]
    ensures forall i :: 0 <= i < |ts| && ts[i].id == id && UniqueIds(ts) ==> r[i].status != ts[i].status
  {
    match FindIndex(ts, id)
    case None => ts
    case Some(i) => ts[i := ts[i].(status := Flip(ts[i].status))]
  }

  /** Toggling the same task twice restores the store. */
  lemma ToggleTwiceRestores(ts: seq<Task>, id: Id)
    ensures ToggleStatus(ToggleStatus(ts, id), id) == ts
  {
    FindIndexSameIds(ts, ToggleStatus(ts, id), id);
  }
}
