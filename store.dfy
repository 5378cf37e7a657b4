/**
 * The server's task and comment tables with the route handlers of
 * backend/app/routes/tasks.py and backend/app/routes/comments.py as methods.
 * Each handler is one atomic step: it either commits all of its changes or none.
 */
module Store {
  import opened Base
  import opened Json
  import opened Text
  import TM = TaskModel
  import CM = CommentModel
  import Query

  const TaskNotFound := "Task not found"
  const CommentNotFound := "Comment not found"
  const NoDataProvided := "No data provided"
  const InvalidDueDate := "Invalid due_date format. Use ISO format."
  const ValidationFailed := "Validation failed"

  /** An HTTP reply: the status code with the payload, or with the error and any validation messages. */
  datatype Response<T> =
    | Ok(code: int, value: T)
    | Fail(code: int, error: string, validationErrors: seq<string>)

  /** A list reply: the entries and their `count`. */
  datatype Listing<T> = Listing(items: seq<T>, count: nat)

  /** `GET /tasks/<id>`: the task with its comments inlined. */
  datatype TaskDetail = TaskDetail(task: TM.TaskDict, comments: seq<CM.CommentDict>)

  datatype Stats = Stats(
    total: nat,
    pending: nat, inProgress: nat, completed: nat,
    high: nat, medium: nat, low: nat)

  // ---------------------------------------------------------------------------
  // Pure pieces of the handlers

  /** `if status:`: a filter applies exactly when the query argument is truthy. */
  predicate FilterActive(arg: Option<string>)
    ensures FilterActive(arg) <==> arg.Some? && Truthy(Str(arg.value))
  {
    arg.Some? && arg.value != ""
  }

  /**
   * The two `filter_by` calls: a listed task has every requested value, and
   * with no filter every task is listed.
   */
  predicate Matches(t: TM.Task, status: Option<string>, priority: Option<string>)
    ensures !FilterActive(status) && !FilterActive(priority) ==> Matches(t, status, priority)
    ensures FilterActive(status) && Matches(t, status, priority) ==> t.status == status
    ensures FilterActive(priority) && Matches(t, status, priority) ==> t.priority == priority
  {
    (FilterActive(status) ==> t.status == status) && (FilterActive(priority) ==> t.priority == priority)
  }

  /** What the `due_date` key asks for: clear it, set it, or a string the ISO parser rejects. */
  datatype DueField = Clear | SetTo(at: Time) | Unparsable

  function DueTime(due: DueField): Option<Time>
  {
    if due.SetTo? then Some(due.at) else None
  }

  /**
   * Reading `due_date`: a missing key or a falsy value means no due date; anything
   * else goes through `replace('Z', '+00:00')` and the ISO parser `parseIso`.
   */
  function DueOf(data: Object, parseIso: string -> Option<Time>): (r: DueField)
    ensures "due_date" !in data || !Truthy(data["due_date"]) ==> r == Clear
    ensures "due_date" in data && Truthy(data["due_date"]) ==>
      var parsed := parseIso(ReplaceAll(data["due_date"].s, 'Z', "+00:00"));
      (r == Unparsable <==> parsed.None?) && (parsed.Some? ==> r == SetTo(parsed.value))
  {
    if "due_date" !in data || !Truthy(data["due_date"]) then Clear
    else match parseIso(ReplaceAll(data["due_date"].s, 'Z', "+00:00"))
      case None => Unparsable
      case Some(at) => SetTo(at)
  }

  /** The task `create_task` builds: defaults for the keys the payload leaves out. */
  function TaskDraft(data: Object, id: int, now: Time): (t: TM.Task)
    ensures t.id == id && t.title == Get(data, "title")
    ensures "description" !in data ==> t.description == Some("")
    ensures "status" !in data ==> t.status == Some(TM.DefaultStatus)
    ensures "priority" !in data ==> t.priority == Some(TM.DefaultPriority)
    ensures "description" in data ==> t.description == Get(data, "description")
    ensures "status" in data ==> t.status == Get(data, "status")
    ensures "priority" in data ==> t.priority == Get(data, "priority")
    ensures t.dueDate == None && t.createdAt == now && t.updatedAt == now
  {
    TM.Task(id, Get(data, "title"), GetOr(data, "description", ""),
            GetOr(data, "status", TM.DefaultStatus), GetOr(data, "priority", TM.DefaultPriority),
            None, now, now)
  }

  /** `update_task`'s field-by-field merge: a field changes only when its key is present. */
  function MergeTask(t: TM.Task, data: Object, due: DueField): (r: TM.Task)
    ensures r.id == t.id && r.createdAt == t.createdAt && r.updatedAt == t.updatedAt
    ensures r.title == (if "title" in data then Get(data, "title") else t.title)
    ensures r.description == (if "description" in data then Get(data, "description") else t.description)
    ensures r.status == (if "status" in data then Get(data, "status") else t.status)
    ensures r.priority == (if "priority" in data then Get(data, "priority") else t.priority)
    ensures r.dueDate == (if "due_date" in data then DueTime(due) else t.dueDate)
  {
    t.(title := if "title" in data then Get(data, "title") else t.title,
       description := if "description" in data then Get(data, "description") else t.description,
       status := if "status" in data then Get(data, "status") else t.status,
       priority := if "priority" in data then Get(data, "priority") else t.priority,
       dueDate := if "due_date" in data then DueTime(due) else t.dueDate)
  }

  /**
   * The assignments `update_task` makes for the keys present in the payload, in
   * order; None when `due_date` does not parse.
   */
  method AssignTaskFields(t: TM.Task, data: Object, parseIso: string -> Option<Time>)
    returns (r: Option<TM.Task>)
    ensures r.None? <==> DueOf(data, parseIso) == Unparsable
    ensures r.Some? ==> r.value == MergeTask(t, data, DueOf(data, parseIso))
  {
    var task := t;
    if "title" in data {
      task := task.(title := Get(data, "title"));
    }
    if "description" in data {
      task := task.(description := Get(data, "description"));
    }
    if "status" in data {
      task := task.(status := Get(data, "status"));
    }
    if "priority" in data {
      task := task.(priority := Get(data, "priority"));
    }
    if "due_date" in data {
      var due := DueOf(data, parseIso);
      if due == Unparsable {
        return None;
      }
      task := task.(dueDate := DueTime(due));
    }
    return Some(task);
  }

  /** Applying the same update twice is the same as applying it once. */
  lemma MergeTaskIdempotent(t: TM.Task, data: Object, due: DueField)
    ensures MergeTask(MergeTask(t, data, due), data, due) == MergeTask(t, data, due)
  {
  }

  /** The comment `create_comment` builds: the route's task id, 'Anonymous' only when `author` is absent. */
  function CommentDraft(data: Object, id: int, taskId: int, now: Time): (c: CM.Comment)
    ensures c.id == id && c.taskId == taskId && c.content == Get(data, "content")
    ensures "author" !in data ==> c.author == Some(CM.DefaultAuthor)
    ensures "author" in data ==> c.author == Get(data, "author")
    ensures c.createdAt == now && c.updatedAt == now
  {
    CM.Comment(id, Get(data, "content"), GetOr(data, "author", CM.DefaultAuthor), taskId, now, now)
  }

  /** `update_comment`'s merge: only `content` and `author` can change. */
  function MergeComment(c: CM.Comment, data: Object): (r: CM.Comment)
    ensures r.id == c.id && r.taskId == c.taskId && r.createdAt == c.createdAt && r.updatedAt == c.updatedAt
    ensures r.content == (if "content" in data then Get(data, "content") else c.content)
    ensures r.author == (if "author" in data then Get(data, "author") else c.author)
  {
    c.(content := if "content" in data then Get(data, "content") else c.content,
       author := if "author" in data then Get(data, "author") else c.author)
  }

  /** Ids of the tasks whose `field` column holds `v`. */
  function WithStatus(tasks: map<int, TM.Task>, v: string): set<int>
  {
    set id | id in tasks && tasks[id].status == Some(v)
  }

  function WithPriority(tasks: map<int, TM.Task>, v: string): set<int>
  {
    set id | id in tasks && tasks[id].priority == Some(v)
  }

  /** Three disjoint sets that cover `all` add up to it. */
  lemma PartitionSize(all: set<int>, a: set<int>, b: set<int>, c: set<int>)
    requires a + b + c == all
    requires a !! b && a !! c && b !! c
    ensures |a| + |b| + |c| == |all|
  {
    assert (a + b) !! c;
  }

  /** A list of distinct ids is as long as the set it enumerates. */
  lemma {:induction false} DistinctLength(ids: seq<int>, s: set<int>)
    requires Query.NoDup(ids)
    requires forall x :: x in ids <==> x in s
    ensures |ids| == |s|
  {
    if ids != [] {
      var x := ids[0];
      assert Query.NoDup(ids[1..]);
      forall y
        ensures y in ids[1..] <==> y in s - {x}
      {
        if y in ids[1..] {
          var j :| 0 <= j < |ids[1..]| && ids[1..][j] == y;
          assert ids[j + 1] == y;
        }
        if y in s - {x} {
          assert y in ids;
          var j :| 0 <= j < |ids| && ids[j] == y;
          assert j != 0;
          assert ids[1..][j - 1] == y;
        }
      }
      DistinctLength(ids[1..], s - {x});
    } else {
      assert forall x :: x !in s;
      assert s == {};
    }
  }

  /** `items` lists exactly the comments of task `taskId`, each once. */
  ghost predicate ListsCommentsOf(items: seq<CM.CommentDict>, comments: map<int, CM.Comment>, taskId: int)
  {
    && (forall i :: 0 <= i < |items| ==>
          items[i].id in comments && comments[items[i].id].taskId == taskId
          && items[i] == CM.ToDict(comments[items[i].id]))
    && (forall cid :: cid in comments && comments[cid].taskId == taskId ==>
          exists i :: 0 <= i < |items| && items[i].id == cid)
    && (forall i, j :: 0 <= i < j < |items| ==> items[i].id != items[j].id)
  }

  /** `items` lists exactly the tasks that pass the filters, each once. */
  ghost predicate ListsTasks(items: seq<TM.TaskDict>, tasks: map<int, TM.Task>, comments: map<int, CM.Comment>,
                             status: Option<string>, priority: Option<string>)
  {
    && (forall i :: 0 <= i < |items| ==>
          items[i].id in tasks && Matches(tasks[items[i].id], status, priority)
          && items[i] == TM.ToDict(tasks[items[i].id], comments))
    && (forall id :: id in tasks && Matches(tasks[id], status, priority) ==>
          exists i :: 0 <= i < |items| && items[i].id == id)
    && (forall i, j :: 0 <= i < j < |items| ==> items[i].id != items[j].id)
  }

  /** The dictionaries of a selection of distinct ids list exactly the selected tasks. */
  lemma TaskRows(ids: seq<int>, ts: map<int, TM.Task>, cs: map<int, CM.Comment>,
                 status: Option<string>, priority: Option<string>, items: seq<TM.TaskDict>)
    requires Query.NoDup(ids)
    requires forall i :: 0 <= i < |ids| ==> ids[i] in ts && Matches(ts[ids[i]], status, priority)
    requires forall id :: id in ts && Matches(ts[id], status, priority) ==> id in ids
    requires forall id :: id in ts ==> ts[id].id == id
    requires |items| == |ids|
    requires forall i :: 0 <= i < |ids| ==> items[i] == TM.ToDict(ts[ids[i]], cs)
    ensures ListsTasks(items, ts, cs, status, priority)
  {
    forall id | id in ts && Matches(ts[id], status, priority)
      ensures exists i :: 0 <= i < |items| && items[i].id == id
    {
      var i :| 0 <= i < |ids| && ids[i] == id;
      assert items[i].id == id;
    }
  }

  class Store {
    var tasks: map<int, TM.Task>
    var comments: map<int, CM.Comment>

    /**
     * Every row is filed under its own positive id; every comment belongs to a stored task (the foreign key with cascading delete);
     * every stored row passed `validate` (nothing is committed otherwise).
     */
    ghost predicate Valid()
      reads this
    {
      && (forall id :: id in tasks ==>
            tasks[id].id == id && 0 < id && TM.IsValid(tasks[id]))
      && (forall id :: id in comments ==>
            comments[id].id == id && 0 < id
            && comments[id].taskId in tasks && CM.IsValid(comments[id]))
    }

    constructor ()
      ensures Valid()
      ensures tasks == map[] && comments == map[]
    {
      tasks := map[];
      comments := map[];
    }

    // -------------------------------------------------------------------------
    // backend/app/routes/tasks.py

    /** `GET /tasks?status=&priority=` */
    method GetTasks(status: Option<string>, priority: Option<string>)
      returns (resp: Response<Listing<TM.TaskDict>>)
      requires Valid()
      ensures resp.Ok? && resp.code == 200 && resp.value.count == |resp.value.items|
      ensures ListsTasks(resp.value.items, tasks, comments, status, priority)
      ensures var items := resp.value.items;
        forall i, j :: 0 <= i < j < |items| ==> items[i].createdAt >= items[j].createdAt
      ensures var items := resp.value.items;
        forall i :: 0 <= i < |items| ==> TM.StatusOk(items[i].status) && TM.PriorityOk(items[i].priority)
    {
      var ts, cs := tasks, comments;
      var rank := (id: int) => if id in ts then ts[id].createdAt else 0;
      var ids := Query.SelectDesc(ts, (t: TM.Task) => Matches(t, status, priority), rank);
      var items := seq(|ids|, i requires 0 <= i < |ids| && ids[i] in ts => TM.ToDict(ts[ids[i]], cs));
      TaskRows(ids, ts, cs, status, priority, items);
      assert forall i :: 0 <= i < |ids| ==> items[i].createdAt == rank(ids[i]);
      resp := Ok(200, Listing(items, |items|));
    }

    /**
     * `POST /tasks`. The database chooses the new row's id: `newId` is any
     * positive id no stored task has.
     */
    method CreateTask(body: Option<Object>, newId: int, now: Time, parseIso: string -> Option<Time>)
      returns (resp: Response<TM.TaskDict>)
      requires Valid()
      requires 0 < newId && newId !in tasks
      modifies this
      ensures Valid()
      ensures NoData(body) ==> resp == Fail(400, NoDataProvided, [])
      ensures !NoData(body) && DueOf(body.value, parseIso) == Unparsable ==> resp == Fail(400, InvalidDueDate, [])
      ensures comments == old(comments)
      ensures resp.Fail? ==> tasks == old(tasks)
      ensures !NoData(body) && DueOf(body.value, parseIso) != Unparsable ==>
        var t := TaskDraft(body.value, newId, now).(dueDate := DueTime(DueOf(body.value, parseIso)));
        && (resp.Ok? <==> TM.IsValid(t))
        && (resp.Fail? ==> resp.code == 400 && resp.error == ValidationFailed
                           && resp.validationErrors != [] && TM.Explains(resp.validationErrors, t))
        && (resp.Ok? ==>
              && resp.code == 201 && tasks == old(tasks)[newId := t]
              && resp.value == TM.ToDict(t, comments) && resp.value.commentsCount == 0)
    {
      if NoData(body) {
        return Fail(400, NoDataProvided, []);
      }
      var data := body.value;
      var task := TaskDraft(data, newId, now);
      var due := DueOf(data, parseIso);
      if due == Unparsable {
        return Fail(400, InvalidDueDate, []);
      }
      if due.SetTo? {
        task := task.(dueDate := Some(due.at));
      }
      var errors := TM.Validate(task);
      if errors != [] {
        return Fail(400, ValidationFailed, errors);
      }
      TM.NoCommentsCountZero(task, comments);
      tasks := tasks[task.id := task];
      resp := Ok(201, TM.ToDict(task, comments));
    }

    /** `GET /tasks/<id>` */
    method GetTask(id: int) returns (resp: Response<TaskDetail>)
      requires Valid()
      ensures id !in tasks ==> resp == Fail(404, TaskNotFound, [])
      ensures id in tasks ==>
        && resp.Ok? && resp.code == 200
        && resp.value.task == TM.ToDict(tasks[id], comments)
        && ListsCommentsOf(resp.value.comments, comments, id)
        && |resp.value.comments| == resp.value.task.commentsCount
    {
      if id !in tasks {
        return Fail(404, TaskNotFound, []);
      }
      var items := CommentsFor(id);
      resp := Ok(200, TaskDetail(TM.ToDict(tasks[id], comments), items));
    }

    /** `PUT /tasks/<id>` */
    method UpdateTask(id: int, body: Option<Object>, now: Time, parseIso: string -> Option<Time>)
      returns (resp: Response<TM.TaskDict>)
      requires Valid()
      modifies this
      ensures Valid()
      ensures comments == old(comments)
      ensures id !in old(tasks) ==> resp == Fail(404, TaskNotFound, [])
      ensures id in old(tasks) && NoData(body) ==> resp == Fail(400, NoDataProvided, [])
      ensures id in old(tasks) && !NoData(body) && DueOf(body.value, parseIso) == Unparsable ==>
        resp == Fail(400, InvalidDueDate, [])
      ensures resp.Fail? ==> tasks == old(tasks)
      ensures id in old(tasks) && !NoData(body) && DueOf(body.value, parseIso) != Unparsable ==>
        var t := MergeTask(old(tasks)[id], body.value, DueOf(body.value, parseIso));
        && (resp.Ok? <==> TM.IsValid(t))
        && (resp.Fail? ==> resp.code == 400 && resp.error == ValidationFailed
                           && resp.validationErrors != [] && TM.Explains(resp.validationErrors, t))
        && (resp.Ok? ==>
              && resp.code == 200 && tasks == old(tasks)[id := t.(updatedAt := now)]
              && resp.value == TM.ToDict(tasks[id], comments))
    {
      if id !in tasks {
        return Fail(404, TaskNotFound, []);
      }
      if NoData(body) {
        return Fail(400, NoDataProvided, []);
      }
      var merged := AssignTaskFields(tasks[id], body.value, parseIso);
      if merged.None? {
        return Fail(400, InvalidDueDate, []);
      }
      var task := merged.value;
      var errors := TM.Validate(task);
      if errors != [] {
        return Fail(400, ValidationFailed, errors);
      }
      task := task.(updatedAt := now);
      tasks := tasks[id := task];
      resp := Ok(200, TM.ToDict(task, comments));
    }

    /** `DELETE /tasks/<id>`: the task goes, and with it every comment attached to it. */
    method DeleteTask(id: int) returns (resp: Response<()>)
      requires Valid()
      modifies this
      ensures Valid()
      ensures id !in old(tasks) ==>
        resp == Fail(404, TaskNotFound, []) && tasks == old(tasks) && comments == old(comments)
      ensures id in old(tasks) ==>
        && resp == Ok(200, ())
        && tasks == old(tasks) - {id}
        && comments.Keys == old(comments).Keys - TM.CommentsOf(old(comments), id)
        && (forall cid :: cid in comments ==> comments[cid] == old(comments)[cid])
    {
      if id !in tasks {
        return Fail(404, TaskNotFound, []);
      }
      tasks := tasks - {id};
      comments := map cid | cid in comments && comments[cid].taskId != id :: comments[cid];
      resp := Ok(200, ());
    }

    /** `GET /tasks/stats` */
    method GetTaskStats() returns (resp: Response<Stats>)
      requires Valid()
      ensures resp.Ok? && resp.code == 200
      ensures var s := resp.value; s.total == |tasks|
      ensures var s := resp.value; s.pending == |WithStatus(tasks, "pending")|
      ensures var s := resp.value; s.inProgress == |WithStatus(tasks, "in_progress")|
      ensures var s := resp.value; s.completed == |WithStatus(tasks, "completed")|
      ensures var s := resp.value; s.high == |WithPriority(tasks, "high")|
      ensures var s := resp.value; s.medium == |WithPriority(tasks, "medium")|
      ensures var s := resp.value; s.low == |WithPriority(tasks, "low")|
      ensures var s := resp.value; s.pending + s.inProgress + s.completed == s.total
      ensures var s := resp.value; s.high + s.medium + s.low == s.total
    {
      var p, ip, c := WithStatus(tasks, "pending"), WithStatus(tasks, "in_progress"), WithStatus(tasks, "completed");
      forall id | id in tasks
        ensures id in p + ip + c
      {
        assert tasks[id].status.value in TM.ValidStatuses;
      }
      assert p + ip + c == tasks.Keys;
      PartitionSize(tasks.Keys, p, ip, c);
      var h, m, l := WithPriority(tasks, "high"), WithPriority(tasks, "medium"), WithPriority(tasks, "low");
      forall id | id in tasks
        ensures id in h + m + l
      {
        assert tasks[id].priority.value in TM.ValidPriorities;
      }
      assert h + m + l == tasks.Keys;
      PartitionSize(tasks.Keys, h, m, l);
      resp := Ok(200, Stats(|tasks|, |p|, |ip|, |c|, |h|, |m|, |l|));
    }

    // -------------------------------------------------------------------------
    // backend/app/routes/comments.py

    /** The comments of one task, newest first. */
    method CommentsFor(taskId: int) returns (items: seq<CM.CommentDict>)
      requires Valid()
      ensures ListsCommentsOf(items, comments, taskId)
      ensures forall i, j :: 0 <= i < j < |items| ==> items[i].createdAt >= items[j].createdAt
      ensures |items| == |TM.CommentsOf(comments, taskId)|
    {
      var cs := comments;
      var ids := Query.SelectDesc(cs, (c: CM.Comment) => c.taskId == taskId,
                                  (id: int) => if id in cs then cs[id].createdAt else 0);
      items := seq(|ids|, i requires 0 <= i < |ids| && ids[i] in cs => CM.ToDict(cs[ids[i]]));
      forall cid | cid in cs && cs[cid].taskId == taskId
        ensures exists i :: 0 <= i < |items| && items[i].id == cid
      {
        var i :| 0 <= i < |ids| && ids[i] == cid;
        assert items[i].id == cid;
      }
      DistinctLength(ids, TM.CommentsOf(cs, taskId));
    }

    /** `GET /tasks/<task_id>/comments` */
    method GetTaskComments(taskId: int) returns (resp: Response<Listing<CM.CommentDict>>)
      requires Valid()
      ensures taskId !in tasks ==> resp == Fail(404, TaskNotFound, [])
      ensures taskId in tasks ==>
        && resp.Ok? && resp.code == 200
        && ListsCommentsOf(resp.value.items, comments, taskId)
        && resp.value.count == |resp.value.items|
        && resp.value.count == TM.ToDict(tasks[taskId], comments).commentsCount
      ensures resp.Ok? ==> var items := resp.value.items;
        forall i, j :: 0 <= i < j < |items| ==> items[i].createdAt >= items[j].createdAt
    {
      if taskId !in tasks {
        return Fail(404, TaskNotFound, []);
      }
      var items := CommentsFor(taskId);
      resp := Ok(200, Listing(items, |items|));
    }

    /**
     * `POST /tasks/<task_id>/comments`. The database chooses the new row's id:
     * `newId` is any positive id no stored comment has.
     */
    method CreateComment(taskId: int, body: Option<Object>, newId: int, now: Time)
      returns (resp: Response<CM.CommentDict>)
      requires Valid()
      requires 0 < newId && newId !in comments
      modifies this
      ensures Valid()
      ensures tasks == old(tasks)
      ensures taskId !in old(tasks) ==> resp == Fail(404, TaskNotFound, [])
      ensures taskId in old(tasks) && NoData(body) ==> resp == Fail(400, NoDataProvided, [])
      ensures resp.Fail? ==> comments == old(comments)
      ensures taskId in old(tasks) && !NoData(body) ==>
        var c := CommentDraft(body.value, newId, taskId, now);
        && (resp.Ok? <==> CM.IsValid(c))
        && (resp.Fail? ==> resp.code == 400 && resp.error == ValidationFailed
                           && resp.validationErrors != [] && CM.Explains(resp.validationErrors, c))
        && (resp.Ok? ==>
              && resp.code == 201 && comments == old(comments)[newId := CM.WithColumnDefaults(c)]
              && resp.value == CM.ToDict(CM.WithColumnDefaults(c))
              && |TM.CommentsOf(comments, taskId)| == |TM.CommentsOf(old(comments), taskId)| + 1)
    {
      if taskId !in tasks {
        return Fail(404, TaskNotFound, []);
      }
      if NoData(body) {
        return Fail(400, NoDataProvided, []);
      }
      var comment := CommentDraft(body.value, newId, taskId, now);
      var errors := CM.Validate(comment);
      if errors != [] {
        return Fail(400, ValidationFailed, errors);
      }
      var stored := CM.WithColumnDefaults(comment);
      ghost var before := TM.CommentsOf(comments, taskId);
      comments := comments[stored.id := stored];
      assert TM.CommentsOf(comments, taskId) == before + {stored.id};
      resp := Ok(201, CM.ToDict(stored));
    }

    /** `GET /comments/<id>` */
    method GetComment(id: int) returns (resp: Response<CM.CommentDict>)
      requires Valid()
      ensures id !in comments ==> resp == Fail(404, CommentNotFound, [])
      ensures id in comments ==> resp == Ok(200, CM.ToDict(comments[id])) && resp.value.id == id
    {
      if id !in comments {
        return Fail(404, CommentNotFound, []);
      }
      resp := Ok(200, CM.ToDict(comments[id]));
    }

    /** `PUT /comments/<id>` */
    method UpdateComment(id: int, body: Option<Object>, now: Time) returns (resp: Response<CM.CommentDict>)
      requires Valid()
      modifies this
      ensures Valid()
      ensures tasks == old(tasks)
      ensures id !in old(comments) ==> resp == Fail(404, CommentNotFound, [])
      ensures id in old(comments) && NoData(body) ==> resp == Fail(400, NoDataProvided, [])
      ensures resp.Fail? ==> comments == old(comments)
      ensures id in old(comments) && !NoData(body) ==>
        var c := MergeComment(old(comments)[id], body.value);
        && (resp.Ok? <==> CM.IsValid(c))
        && (resp.Fail? ==> resp.code == 400 && resp.error == ValidationFailed
                           && resp.validationErrors != [] && CM.Explains(resp.validationErrors, c))
        && (resp.Ok? ==>
              && resp.code == 200 && comments == old(comments)[id := c.(updatedAt := now)]
              && comments[id].taskId == old(comments)[id].taskId
              && resp.value == CM.ToDict(comments[id]))
    {
      if id !in comments {
        return Fail(404, CommentNotFound, []);
      }
      if NoData(body) {
        return Fail(400, NoDataProvided, []);
      }
      var data := body.value;
      var comment := comments[id];
      if "content" in data {
        comment := comment.(content := Get(data, "content"));
      }
      if "author" in data {
        comment := comment.(author := Get(data, "author"));
      }
      var errors := CM.Validate(comment);
      if errors != [] {
        return Fail(400, ValidationFailed, errors);
      }
      comment := comment.(updatedAt := now);
      comments := comments[id := comment];
      resp := Ok(200, CM.ToDict(comment));
    }

    /** `DELETE /comments/<id>`: removes that comment and nothing else. */
    method DeleteComment(id: int) returns (resp: Response<()>)
      requires Valid()
      modifies this
      ensures Valid()
      ensures tasks == old(tasks)
      ensures id !in old(comments) ==> resp == Fail(404, CommentNotFound, []) && comments == old(comments)
      ensures id in old(comments) ==> resp == Ok(200, ()) && comments == old(comments) - {id}
    {
      if id !in comments {
        return Fail(404, CommentNotFound, []);
      }
      comments := comments - {id};
      resp := Ok(200, ());
    }
  }
}
