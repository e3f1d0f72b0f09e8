/**
 * The task routes (src/controllers/task.controller.ts): the two body validators, the
 * `parseInt`/`isNaN` guard on the `:id` path parameter, and the four handlers, each of
 * which calls the controller's own TaskService and answers with a status and a body.
 */
module Controllers {
  import opened Wrappers
  import opened Js
  import opened Http
  import opened Services
  import Utils

  const NoData := "No Data was given for the new task"
  const TitleRequired := "Tasks require a title"
  const ColorRequired := "Tasks require a color"
  const InvalidTaskId := "Invalid task ID"

  /**
   * validateNewTaskInput: the body must be an object, then have a string `title`, then a
   * string `color`; an accepted body is returned as it is.
   */
  function ValidateNewTaskInput(data: Json): (r: Result<Json>)
    ensures r.Ok? <==> IsNewTask(data)
    ensures r.Ok? ==> r.value == data
    ensures !IsObject(data) ==> r == Err(NoData)
    ensures data.Array? ==> r == Err(TitleRequired)
    ensures data.Object? && ("title" !in data.fields || !data.fields["title"].String?) ==> r == Err(TitleRequired)
    ensures (data.Object? && "title" in data.fields && data.fields["title"].String?
             && ("color" !in data.fields || !data.fields["color"].String?)) ==> r == Err(ColorRequired)
  {
    if !IsObject(data) then Err(NoData)
    else if !HasString(data, "title") then Err(TitleRequired)
    else if !HasString(data, "color") then Err(ColorRequired)
    else Ok(data)
  }

  /** `key`, where the spread of `data` has it, holds a string. */
  predicate StringIfPresent(data: Json, key: string) {
    key in Props(data) ==> Props(data)[key].String?
  }

  /** A body updateTask can take: an object or array whose `title` and `color`, where present, are strings. */
  predicate IsTaskUpdate(data: Json) {
    IsObject(data) && StringIfPresent(data, "title") && StringIfPresent(data, "color")
  }

  /**
   * validateUpdateTaskInput: the body must be an object (an array is one), and a `title`
   * or `color` it has must be a string; nothing else, `completed` included, is looked at.
   */
  function ValidateUpdateTaskInput(data: Json): (r: Result<Json>)
    ensures r.Ok? <==> IsTaskUpdate(data)
    ensures r.Ok? ==> r.value == data
    ensures !IsObject(data) ==> r == Err(NoData)
    ensures data.Array? ==> r == Ok(data)
    ensures data.Object? && "title" in data.fields && !data.fields["title"].String? ==> r == Err(TitleRequired)
    ensures (data.Object? && ("title" !in data.fields || data.fields["title"].String?)
             && "color" in data.fields && !data.fields["color"].String?) ==> r == Err(ColorRequired)
  {
    if !IsObject(data) then Err(NoData)
    else if HasNonString(data, "title") then Err(TitleRequired)
    else if HasNonString(data, "color") then Err(ColorRequired)
    else
      assert data.Array? ==> "title" !in Props(data) && "color" !in Props(data) by {
        if data.Array? {
          assert !IsDigit("title"[0]) && !IsDigit("color"[0]);
        }
      }
      Ok(data)
  }

  /** Whether an update body passes does not depend on its `completed` field. */
  lemma CompletedNotInspected(fields: map<string, Json>, completed: Json)
    ensures ValidateUpdateTaskInput(Object(fields["completed" := completed])).Ok?
        == ValidateUpdateTaskInput(Object(fields)).Ok?
  {
  }

  /** The controller's validator and utils' validateNewTask accept and reject the same bodies, with the same messages. */
  lemma ValidatorsAgree(data: Json)
    ensures Utils.ValidateNewTask(data) == ValidateNewTaskInput(data)
  {
  }

  /** A task as the routes store it: string `title` and `color`, and a `completed` field. */
  predicate IsStoredTask(t: Task) {
    "title" in t && t["title"].String? && "color" in t && t["color"].String? && "completed" in t
  }

  /** What createTask stores for an accepted body is a stored task. */
  lemma CreatedIsStored(data: Json)
    requires ValidateNewTaskInput(data).Ok?
    ensures IsStoredTask(Created(Props(data)))
  {
  }

  /** Merging an accepted update body into a stored task keeps it a stored task. */
  lemma MergedIsStored(t: Task, data: Json)
    requires IsStoredTask(t) && ValidateUpdateTaskInput(data).Ok?
    ensures IsStoredTask(Merged(t, Props(data)))
  {
  }

  /** The JSON array `res.json` sends for the list of tasks. */
  function TasksJson(tasks: seq<Task>): (r: seq<Json>)
    ensures |r| == |tasks| && forall i :: 0 <= i < |tasks| ==> r[i] == Object(tasks[i])
  {
    seq(|tasks|, i requires 0 <= i < |tasks| => Object(tasks[i]))
  }

  class TaskController {
    const service: TaskService

    /** Every task the routes have stored has string `title` and `color` and a `completed` field. */
    ghost predicate Valid()
      reads this, service
    {
      forall i :: 0 <= i < |service.tasks| ==> IsStoredTask(service.tasks[i])
    }

    constructor ()
      ensures Valid() && fresh(service) && service.tasks == []
    {
      service := new TaskService();
    }

    /** GET /tasks: 200 with `{success: true, data}`, the tasks in position order. */
    method GetAllTasks() returns (reply: Reply)
      ensures reply == Reply(200, Payload(Success(Array(TasksJson(service.tasks)))))
    {
      var tasks := service.GetAll();
      reply := Reply(200, Payload(Success(Array(TasksJson(tasks)))));
    }

    /**
     * POST /tasks: a rejected body is 400 `{success: false, error}` and stores nothing;
     * an accepted one is stored at the end and answered 201 `{success: true, data}`.
     */
    method CreateTask(body: Json) returns (reply: Reply)
      requires Valid()
      modifies service
      ensures Valid()
      ensures !IsNewTask(body) ==>
        && reply == Reply(400, ErrorReply(true, ValidateNewTaskInput(body).error))
        && service.tasks == old(service.tasks)
      ensures IsNewTask(body) ==>
        && reply == Reply(201, Payload(Success(Object(Created(body.fields)))))
        && service.tasks == old(service.tasks) + [Created(body.fields)]
    {
      var validated := ValidateNewTaskInput(body);
      if validated.Err? {
        return Reply(400, ErrorReply(true, validated.error));
      }
      var task := service.CreateTask(Props(validated.value));
      CreatedIsStored(body);
      reply := Reply(201, Payload(Success(Object(task))));
    }

    /**
     * PUT /tasks/:id: an id with no leading digits is 400 "Invalid task ID"; a rejected
     * body or a position outside the list is 400 `{error}`; otherwise the body's own
     * properties are merged into the task at that position and the bare merged task is
     * answered 200.  Only a successful merge changes the store.
     */
    method UpdateTask(idText: string, body: Json) returns (reply: Reply)
      requires Valid()
      modifies service
      ensures Valid()
      ensures ParseInt(idText).None? ==>
        reply == Reply(400, Payload(Field("message", InvalidTaskId))) && service.tasks == old(service.tasks)
      ensures ParseInt(idText).Some? && !IsTaskUpdate(body) ==>
        && reply == Reply(400, ErrorReply(false, ValidateUpdateTaskInput(body).error))
        && service.tasks == old(service.tasks)
      ensures ParseInt(idText).Some? && IsTaskUpdate(body) ==>
        var id := ParseInt(idText).value;
        && service.tasks == AfterUpdate(old(service.tasks), id, Props(body))
        && reply == if InRange(old(service.tasks), id)
                    then Reply(200, Payload(Object(service.tasks[id])))
                    else Reply(400, ErrorReply(false, TaskNotFound))
    {
      var taskId := ParseInt(idText);
      if taskId.None? {
        return Reply(400, Payload(Field("message", InvalidTaskId)));
      }
      var updates := ValidateUpdateTaskInput(body);
      if updates.Err? {
        return Reply(400, ErrorReply(false, updates.error));
      }
      ghost var before := service.tasks;
      var updated := service.UpdateTask(taskId.value, Props(updates.value));
      if updated.Err? {
        return Reply(400, ErrorReply(false, updated.error));
      }
      MergedIsStored(before[taskId.value], body);
      reply := Reply(200, Payload(Object(updated.value)));
    }

    /**
     * DELETE /tasks/:id: an id with no leading digits is 400 "Invalid task ID"; a position
     * outside the list is 404 `{error}`; otherwise the task is cut out, later tasks move
     * down one position, and the answer is 204 with no body.
     */
    method DeleteTask(idText: string) returns (reply: Reply)
      requires Valid()
      modifies service
      ensures Valid()
      ensures ParseInt(idText).None? ==>
        reply == Reply(400, Payload(Field("message", InvalidTaskId))) && service.tasks == old(service.tasks)
      ensures ParseInt(idText).Some? ==>
        var id := ParseInt(idText).value;
        && service.tasks == AfterDelete(old(service.tasks), id)
        && reply == if InRange(old(service.tasks), id)
                    then Reply(204, NoContent)
                    else Reply(404, ErrorReply(false, TaskNotFound))
    {
      var taskId := ParseInt(idText);
      if taskId.None? {
        return Reply(400, Payload(Field("message", InvalidTaskId)));
      }
      var deleted := service.DeleteTask(taskId.value);
      if deleted.Err? {
        return Reply(404, ErrorReply(false, deleted.error));
      }
      reply := Reply(204, NoContent);
    }
  }
}
