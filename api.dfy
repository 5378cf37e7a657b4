/**
 * The client's request builders of frontend/src/services/api.js: each returns the
 * method, path, query parameters and JSON body it hands to the HTTP client.
 */
module Api {
  import opened Base
  import opened Json
  import opened Text
  import opened Routes

  datatype Call = Call(verb: Verb, path: string, params: map<string, string>, body: Option<Object>)

  /** How the promise a call returns settles: with the response data, or rejected with an error message. */
  datatype Reply<T> = Resolved(value: T) | Rejected(message: string)

  /** `x && x !== 'all'`: a filter the server is asked to apply. */
  predicate Active(filter: Option<string>)
  {
    filter.Some? && filter.value != "" && filter.value != "all"
  }

  /** `getTasks`'s query parameters: one guarded key per filter. */
  function TaskParams(status: Option<string>, priority: Option<string>): (params: map<string, string>)
    ensures params.Keys <= {"status", "priority"}
    ensures "status" in params <==> Active(status)
    ensures "priority" in params <==> Active(priority)
    ensures "status" in params ==> params["status"] == status.value
    ensures "priority" in params ==> params["priority"] == priority.value
  {
    var withStatus := if Active(status) then map["status" := status.value] else map[];
    if Active(priority) then withStatus["priority" := priority.value] else withStatus
  }

  /** Neither filter affects the other's key. */
  lemma FiltersIndependent(s1: Option<string>, s2: Option<string>, p1: Option<string>, p2: Option<string>)
    ensures ("priority" in TaskParams(s1, p1)) == ("priority" in TaskParams(s2, p1))
    ensures "priority" in TaskParams(s1, p1) ==> TaskParams(s1, p1)["priority"] == TaskParams(s2, p1)["priority"]
    ensures ("status" in TaskParams(s1, p1)) == ("status" in TaskParams(s1, p2))
    ensures "status" in TaskParams(s1, p1) ==> TaskParams(s1, p1)["status"] == TaskParams(s1, p2)["status"]
  {
  }

  /** The "all" choices and the default nulls ask for no filtering. */
  lemma NoFilterNoParams()
    ensures TaskParams(Some("all"), Some("all")) == map[]
    ensures TaskParams(None, None) == map[]
    ensures TaskParams(Some(""), Some("")) == map[]
  {
  }

  function TaskPath(id: int): string
  {
    "/tasks/" + IntToString(id)
  }

  function TaskCommentsPath(taskId: int): string
  {
    "/tasks/" + IntToString(taskId) + "/comments"
  }

  function CommentPath(commentId: int): string
  {
    "/comments/" + IntToString(commentId)
  }

  /**
   * `/tasks/{id}` reaches the handlers of task `id` and no other; a negative id
   * matches no rule, as the `<int:...>` converter takes no sign.
   */
  lemma TaskPathRoutes(id: int)
    ensures Route(Get, TaskPath(id)) == (if id >= 0 then ShowTask(id) else NoRoute)
    ensures Route(Put, TaskPath(id)) == (if id >= 0 then Endpoint.UpdateTask(id) else NoRoute)
    ensures Route(Delete, TaskPath(id)) == (if id >= 0 then Endpoint.DeleteTask(id) else NoRoute)
  {
    var p := TaskPath(id);
    if id >= 0 {
      RouteIdRoundTrip("/tasks/", id, "");
      assert p == "/tasks/" + NatToString(id) + "";
      assert p != "/tasks/stats" by {
        assert IsDigit(p[7]) && !IsDigit("/tasks/stats"[7]);
      }
    } else {
      NegativeTaskPath(id);
    }
  }

  /** `/tasks/-n` matches none of the rules. */
  lemma NegativeTaskPath(id: int)
    requires id < 0
    ensures var p := TaskPath(id);
      && p != "/tasks" && p != "/tasks/stats"
      && TaskIdOf(p) == None && TaskCommentsIdOf(p) == None && CommentIdOf(p) == None
  {
    var p := TaskPath(id);
    assert p[7] == '-' && p[1] == 't' && |p| > 8;
    assert p != "/tasks/stats" by {
      assert "/tasks/stats"[7] == 's';
    }
    SignedIdNotMatched(p, "/tasks/", "");
    SignedIdNotMatched(p, "/tasks/", "/comments");
    assert CommentIdOf(p) == None by {
      assert |p| >= 10 ==> p[..10][1] != "/comments/"[1];
    }
  }

  /** Which rules `/tasks/{taskId}/comments` matches: the comment-list rule alone, for a non-negative id. */
  lemma TaskCommentsPathRules(taskId: int)
    ensures var p := TaskCommentsPath(taskId);
      && p != "/tasks" && p != "/tasks/stats"
      && TaskIdOf(p) == None && CommentIdOf(p) == None
      && TaskCommentsIdOf(p) == (if taskId >= 0 then Some(taskId) else None)
  {
    var p := TaskCommentsPath(taskId);
    assert p == "/tasks/" + IntToString(taskId) + "/comments";
    assert p[1] == 't' && p[|p| - 1] == 's' && |p| > 12;
    assert TaskIdOf(p) == None by {
      var arg := p[7..|p| - |""|];
      assert arg[|arg| - 1] == 's';
    }
    assert CommentIdOf(p) == None by {
      assert p[..10][1] != "/comments/"[1];
    }
    if taskId >= 0 {
      RouteIdRoundTrip("/tasks/", taskId, "/comments");
    } else {
      assert p[7] == '-';
      SignedIdNotMatched(p, "/tasks/", "/comments");
    }
  }

  /** `/tasks/{taskId}/comments` reaches the comment-list handlers of that task, for a non-negative id. */
  lemma TaskCommentsPathRoutes(taskId: int)
    ensures Route(Get, TaskCommentsPath(taskId)) == (if taskId >= 0 then ListComments(taskId) else NoRoute)
    ensures Route(Post, TaskCommentsPath(taskId)) == (if taskId >= 0 then Endpoint.CreateComment(taskId) else NoRoute)
  {
    TaskCommentsPathRules(taskId);
  }

  /** Which rules `/comments/{commentId}` matches: the comment rule alone, for a non-negative id. */
  lemma CommentPathRules(commentId: int)
    ensures var p := CommentPath(commentId);
      && p != "/tasks" && p != "/tasks/stats"
      && TaskIdOf(p) == None && TaskCommentsIdOf(p) == None
      && CommentIdOf(p) == (if commentId >= 0 then Some(commentId) else None)
  {
    var p := CommentPath(commentId);
    assert p[1] == 'c';
    OutsideTasks(p);
    if commentId >= 0 {
      RouteIdRoundTrip("/comments/", commentId, "");
      assert p == "/comments/" + NatToString(commentId) + "";
    } else {
      assert p[10] == '-';
      SignedIdNotMatched(p, "/comments/", "");
    }
  }

  /** `/comments/{commentId}` reaches the handlers of that comment, for a non-negative id. */
  lemma CommentPathRoutes(commentId: int)
    ensures Route(Get, CommentPath(commentId)) == (if commentId >= 0 then ShowComment(commentId) else NoRoute)
    ensures Route(Put, CommentPath(commentId)) == (if commentId >= 0 then Endpoint.UpdateComment(commentId) else NoRoute)
    ensures Route(Delete, CommentPath(commentId)) == (if commentId >= 0 then Endpoint.DeleteComment(commentId) else NoRoute)
  {
    CommentPathRules(commentId);
  }

  /** `getTasks`: the list handler, with the active filters as query parameters. */
  function GetTasks(status: Option<string>, priority: Option<string>): (c: Call)
    ensures Route(c.verb, c.path) == ListTasks
    ensures c.params == TaskParams(status, priority) && c.body == None
  {
    Call(Get, "/tasks", TaskParams(status, priority), None)
  }

  /** `getTask`: the handler of task `id`. */
  function GetTask(id: int): (c: Call)
    ensures Route(c.verb, c.path) == (if id >= 0 then ShowTask(id) else NoRoute)
    ensures c.params == map[] && c.body == None
  {
    TaskPathRoutes(id);
    Call(Get, TaskPath(id), map[], None)
  }

  /** `createTask`: the create handler, with the task data as body. */
  function CreateTask(taskData: Object): (c: Call)
    ensures Route(c.verb, c.path) == Endpoint.CreateTask
    ensures c.params == map[] && c.body == Some(taskData)
  {
    Call(Post, "/tasks", map[], Some(taskData))
  }

  /** `updateTask`: the update handler of task `id`, with the changes as body. */
  function UpdateTask(id: int, taskData: Object): (c: Call)
    ensures Route(c.verb, c.path) == (if id >= 0 then Endpoint.UpdateTask(id) else NoRoute)
    ensures c.params == map[] && c.body == Some(taskData)
  {
    TaskPathRoutes(id);
    Call(Put, TaskPath(id), map[], Some(taskData))
  }

  /** `deleteTask`: the delete handler of task `id`. */
  function DeleteTask(id: int): (c: Call)
    ensures Route(c.verb, c.path) == (if id >= 0 then Endpoint.DeleteTask(id) else NoRoute)
    ensures c.params == map[] && c.body == None
  {
    TaskPathRoutes(id);
    Call(Delete, TaskPath(id), map[], None)
  }

  /** `getTaskStats`: the stats handler, not the handler of a task called `stats`. */
  function GetTaskStats(): (c: Call)
    ensures Route(c.verb, c.path) == TaskStats
    ensures c.params == map[] && c.body == None
  {
    StatsIsNotATaskId();
    Call(Get, "/tasks/stats", map[], None)
  }

  /** `getTaskComments`: the comment list of task `taskId`. */
  function GetTaskComments(taskId: int): (c: Call)
    ensures Route(c.verb, c.path) == (if taskId >= 0 then ListComments(taskId) else NoRoute)
    ensures c.params == map[] && c.body == None
  {
    TaskCommentsPathRoutes(taskId);
    Call(Get, TaskCommentsPath(taskId), map[], None)
  }

  /** `createComment`: a new comment on task `taskId`, with the comment data as body. */
  function CreateComment(taskId: int, commentData: Object): (c: Call)
    ensures Route(c.verb, c.path) == (if taskId >= 0 then Endpoint.CreateComment(taskId) else NoRoute)
    ensures c.params == map[] && c.body == Some(commentData)
  {
    TaskCommentsPathRoutes(taskId);
    Call(Post, TaskCommentsPath(taskId), map[], Some(commentData))
  }

  /** `getComment`: the handler of comment `commentId`. */
  function GetComment(commentId: int): (c: Call)
    ensures Route(c.verb, c.path) == (if commentId >= 0 then ShowComment(commentId) else NoRoute)
    ensures c.params == map[] && c.body == None
  {
    CommentPathRoutes(commentId);
    Call(Get, CommentPath(commentId), map[], None)
  }

  /** `updateComment`: the update handler of comment `commentId`, with the changes as body. */
  function UpdateComment(commentId: int, commentData: Object): (c: Call)
    ensures Route(c.verb, c.path) == (if commentId >= 0 then Endpoint.UpdateComment(commentId) else NoRoute)
    ensures c.params == map[] && c.body == Some(commentData)
  {
    CommentPathRoutes(commentId);
    Call(Put, CommentPath(commentId), map[], Some(commentData))
  }

  /** `deleteComment`: the delete handler of comment `commentId`. */
  function DeleteComment(commentId: int): (c: Call)
    ensures Route(c.verb, c.path) == (if commentId >= 0 then Endpoint.DeleteComment(commentId) else NoRoute)
    ensures c.params == map[] && c.body == None
  {
    CommentPathRoutes(commentId);
    Call(Delete, CommentPath(commentId), map[], None)
  }

  /** A path whose second character is not `t` matches none of the `/tasks` rules. */
  lemma OutsideTasks(p: string)
    requires |p| >= 2 && p[1] != 't'
    ensures p != "/tasks" && p != "/tasks/stats"
    ensures TaskIdOf(p) == None && TaskCommentsIdOf(p) == None
  {
    assert |p| >= 7 ==> p[..7] != "/tasks/" by {
      if |p| >= 7 {
        assert p[..7][1] != "/tasks/"[1];
      }
    }
  }

  /** Distinct task ids, negative ones included, give distinct paths. */
  lemma TaskPathInjective(a: int, b: int)
    requires TaskPath(a) == TaskPath(b)
    ensures a == b
  {
    assert IntToString(a) == TaskPath(a)[7..];
    IntToStringInjective(a, b);
  }

  /** Distinct comment ids give distinct paths. */
  lemma CommentPathInjective(a: int, b: int)
    requires CommentPath(a) == CommentPath(b)
    ensures a == b
  {
    assert IntToString(a) == CommentPath(a)[10..];
    IntToStringInjective(a, b);
  }
}
