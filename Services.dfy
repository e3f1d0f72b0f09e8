/**
 * The in-memory task store behind the task routes (src/services/task.service.ts).
 * Tasks are addressed by their position in the list, never by an `id` field, and a
 * stored task holds exactly the own properties its request body had.
 */
module Services {
  import opened Wrappers
  import opened Js

  /** A stored task: its own properties. */
  type Task = map<string, Json>

  const TaskNotFound := "Task not found"

  /** A body createTask can take: an object whose `title` and `color` are strings (possibly empty). */
  predicate IsNewTask(data: Json) {
    && data.Object?
    && "title" in data.fields && data.fields["title"].String?
    && "color" in data.fields && data.fields["color"].String?
  }

  /** `this.tasks[id]` names a task: `id` is a position of the list. */
  predicate InRange(tasks: seq<Task>, id: int) {
    0 <= id < |tasks|
  }

  /**
   * The record createTask stores, `{...taskData, completed: taskData.completed ?? false}`:
   * every field of the input, and `completed` defaulted only when absent or null.
   */
  function Created(taskData: Task): (t: Task)
    ensures t.Keys == taskData.Keys + {"completed"}
    ensures forall k :: k in taskData && k != "completed" ==> t[k] == taskData[k]
    ensures "completed" !in taskData || taskData["completed"] == Null ==> t["completed"] == Bool(false)
    ensures "completed" in taskData && taskData["completed"] != Null ==> t["completed"] == taskData["completed"]
  {
    var given := if "completed" in taskData then Some(taskData["completed"]) else None;
    taskData["completed" := Coalesce(given, Bool(false))]
  }

  /** `{...task, ...updates}`: the fields of `updates` win, every other field keeps its value. */
  function Merged(task: Task, updates: Task): (t: Task)
    ensures t.Keys == task.Keys + updates.Keys
    ensures forall k :: k in updates ==> t[k] == updates[k]
    ensures forall k :: k in task && k !in updates ==> t[k] == task[k]
  {
    task + updates
  }

  /** The list after updateTask: only position `id` changes, and only when it names a task. */
  function AfterUpdate(tasks: seq<Task>, id: int, updates: Task): (r: seq<Task>)
    ensures |r| == |tasks|
    ensures !InRange(tasks, id) ==> r == tasks
    ensures InRange(tasks, id) ==> r[id] == Merged(tasks[id], updates)
    ensures forall j :: 0 <= j < |tasks| && j != id ==> r[j] == tasks[j]
  {
    if InRange(tasks, id) then tasks[id := Merged(tasks[id], updates)] else tasks
  }

  /** The list after deleteTask: position `id` is cut out and every later task moves down one. */
  function AfterDelete(tasks: seq<Task>, id: int): (r: seq<Task>)
    ensures !InRange(tasks, id) ==> r == tasks
    ensures InRange(tasks, id) ==> |r| == |tasks| - 1
    ensures InRange(tasks, id) ==> forall j :: 0 <= j < id ==> r[j] == tasks[j]
    ensures InRange(tasks, id) ==> forall j :: id <= j < |r| ==> r[j] == tasks[j + 1]
  {
    if InRange(tasks, id) then tasks[..id] + tasks[id + 1..] else tasks
  }

  class TaskService {
    var tasks: seq<Task>

    constructor ()
      ensures tasks == []
    {
      tasks := [];
    }

    /** getAll: the tasks in position order. */
    method GetAll() returns (all: seq<Task>)
      ensures all == tasks
    {
      all := tasks;
    }

    /** createTask: appends the created record and returns it. */
    method CreateTask(taskData: Task) returns (t: Task)
      modifies this
      ensures t == Created(taskData)
      ensures tasks == old(tasks) + [t]
    {
      t := Created(taskData);
      tasks := tasks + [t];
    }

    /** updateTask: merges `updates` into the task at position `id`, or throws "Task not found". */
    method UpdateTask(id: int, updates: Task) returns (r: Result<Task>)
      modifies this
      ensures tasks == AfterUpdate(old(tasks), id, updates)
      ensures r == if InRange(old(tasks), id) then Ok(tasks[id]) else Err(TaskNotFound)
    {
      if !(0 <= id < |tasks|) {
        return Err(TaskNotFound);
      }
      var task := tasks[id];
      tasks := tasks[id := Merged(task, updates)];
      r := Ok(tasks[id]);
    }

    /** deleteTask: splices out the task at position `id`, or throws "Task not found". */
    method DeleteTask(id: int) returns (r: Result<()>)
      modifies this
      ensures tasks == AfterDelete(old(tasks), id)
      ensures r == if InRange(old(tasks), id) then Ok(()) else Err(TaskNotFound)
    {
      if !(0 <= id < |tasks|) {
        return Err(TaskNotFound);
      }
      tasks := tasks[..id] + tasks[id + 1..];
      r := Ok(());
    }
  }

  // ---------------------------------------------------------------- properties

  /** Merging the same updates a second time changes nothing. */
  lemma MergedIdempotent(task: Task, updates: Task)
    ensures Merged(Merged(task, updates), updates) == Merged(task, updates)
  {
    var once := Merged(task, updates);
    var twice := Merged(once, updates);
    assert twice.Keys == once.Keys;
    assert forall k :: k in twice ==> twice[k] == once[k];
  }

  /** Applying the same update twice at the same position leaves the same list as applying it once. */
  lemma UpdateIdempotent(tasks: seq<Task>, id: int, updates: Task)
    ensures AfterUpdate(AfterUpdate(tasks, id, updates), id, updates) == AfterUpdate(tasks, id, updates)
  {
    if InRange(tasks, id) {
      MergedIdempotent(tasks[id], updates);
    }
  }

  /**
   * An update leaves the title and color of a task alone unless it names them:
   * changing only `completed` is a partial update.
   */
  lemma UpdateKeepsUnnamedFields(tasks: seq<Task>, id: int, updates: Task, key: string)
    requires InRange(tasks, id) && key in tasks[id] && key !in updates
    ensures key in AfterUpdate(tasks, id, updates)[id]
    ensures AfterUpdate(tasks, id, updates)[id][key] == tasks[id][key]
  {
  }

  /**
   * Deleting position `id` twice: the first delete succeeds whenever `id` names a task,
   * and the second succeeds too exactly when a later task has shifted into position `id`,
   * so a repeated delete of the same id is not rejected while tasks remain after it.
   */
  lemma DeleteTwice(tasks: seq<Task>, id: int)
    requires InRange(tasks, id)
    ensures InRange(AfterDelete(tasks, id), id) <==> id + 1 < |tasks|
    ensures id + 1 < |tasks| ==> AfterDelete(tasks, id)[id] == tasks[id + 1]
  {
  }
}
