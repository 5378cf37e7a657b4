/**
 * The server's URL map: the `@route` rules of backend/app/routes/tasks.py and
 * backend/app/routes/comments.py, which pick a handler from a method and a path.
 */
module Routes {
  import opened Base
  import opened Text

  datatype Verb = Get | Post | Put | Delete

  /** The handler a request reaches. */
  datatype Endpoint =
    | ListTasks
    | CreateTask
    | ShowTask(taskId: nat)
    | UpdateTask(taskId: nat)
    | DeleteTask(taskId: nat)
    | TaskStats
    | ListComments(taskId: nat)
    | CreateComment(taskId: nat)
    | ShowComment(commentId: nat)
    | UpdateComment(commentId: nat)
    | DeleteComment(commentId: nat)
    | NoRoute

  /** A `<int:...>` segment between a fixed prefix and suffix. */
  function RouteId(path: string, prefix: string, suffix: string): Option<nat>
  {
    if |path| >= |prefix| + |suffix| && path[..|prefix|] == prefix && path[|path| - |suffix|..] == suffix
    then ParseNat(path[|prefix|..|path| - |suffix|])
    else None
  }

  function TaskIdOf(path: string): Option<nat>
  {
    RouteId(path, "/tasks/", "")
  }

  function TaskCommentsIdOf(path: string): Option<nat>
  {
    RouteId(path, "/tasks/", "/comments")
  }

  function CommentIdOf(path: string): Option<nat>
  {
    RouteId(path, "/comments/", "")
  }

  /**
   * The handler a method and a path reach. The list, create and stats handlers
   * are reached by their fixed paths and verbs alone (`RouteReadsIds` covers the
   * rules with an id).
   */
  function Route(verb: Verb, path: string): (r: Endpoint)
    ensures r == ListTasks <==> verb == Get && path == "/tasks"
    ensures r == CreateTask <==> verb == Post && path == "/tasks"
    ensures r == TaskStats <==> verb == Get && path == "/tasks/stats"
  {
    if path == "/tasks" then
      match verb
      case Get => ListTasks
      case Post => CreateTask
      case _ => NoRoute
    else if path == "/tasks/stats" then
      if verb == Get then TaskStats else NoRoute
    else if TaskIdOf(path).Some? then
      var id := TaskIdOf(path).value;
      match verb
      case Get => ShowTask(id)
      case Put => UpdateTask(id)
      case Delete => DeleteTask(id)
      case Post => NoRoute
    else if TaskCommentsIdOf(path).Some? then
      var id := TaskCommentsIdOf(path).value;
      match verb
      case Get => ListComments(id)
      case Post => CreateComment(id)
      case _ => NoRoute
    else if CommentIdOf(path).Some? then
      var id := CommentIdOf(path).value;
      match verb
      case Get => ShowComment(id)
      case Put => UpdateComment(id)
      case Delete => DeleteComment(id)
      case Post => NoRoute
    else NoRoute
  }

  /**
   * A task or comment handler is reached only by its own verb, and only with the
   * id its `<int:...>` segment reads; a path no rule matches reaches nothing.
   */
  lemma RouteReadsIds(verb: Verb, path: string)
    ensures var r := Route(verb, path);
      && (r.ShowTask? ==> verb == Get && TaskIdOf(path) == Some(r.taskId))
      && (r.UpdateTask? ==> verb == Put && TaskIdOf(path) == Some(r.taskId))
      && (r.DeleteTask? ==> verb == Delete && TaskIdOf(path) == Some(r.taskId))
      && (r.ListComments? ==> verb == Get && TaskCommentsIdOf(path) == Some(r.taskId))
      && (r.CreateComment? ==> verb == Post && TaskCommentsIdOf(path) == Some(r.taskId))
      && (r.ShowComment? ==> verb == Get && CommentIdOf(path) == Some(r.commentId))
      && (r.UpdateComment? ==> verb == Put && CommentIdOf(path) == Some(r.commentId))
      && (r.DeleteComment? ==> verb == Delete && CommentIdOf(path) == Some(r.commentId))
    ensures (&& path != "/tasks" && path != "/tasks/stats"
             && TaskIdOf(path).None? && TaskCommentsIdOf(path).None? && CommentIdOf(path).None?)
            ==> Route(verb, path) == NoRoute
  {
  }

  /** The segment a path was built around is the one the rule reads back. */
  lemma RouteIdRoundTrip(prefix: string, n: nat, suffix: string)
    ensures RouteId(prefix + NatToString(n) + suffix, prefix, suffix) == Some(n)
  {
    var s := NatToString(n);
    var p := prefix + s + suffix;
    assert p[..|prefix|] == prefix;
    assert p[|p| - |suffix|..] == suffix;
    assert p[|prefix|..|p| - |suffix|] == s;
    ParseNatToString(n);
  }

  /** A segment that starts with a minus sign never matches `<int:...>`, which takes no sign. */
  lemma SignedIdNotMatched(path: string, prefix: string, suffix: string)
    requires |path| > |prefix| && path[|prefix|] == '-'
    ensures RouteId(path, prefix, suffix) == None
  {
    if |path| >= |prefix| + |suffix| {
      var arg := path[|prefix|..|path| - |suffix|];
      assert arg != [] ==> arg[0] == '-';
    }
  }

  /** `/tasks/stats` is its own rule: `stats` is not a task id. */
  lemma StatsIsNotATaskId()
    ensures TaskIdOf("/tasks/stats") == None
    ensures Route(Get, "/tasks/stats") == TaskStats
  {
    assert !IsDigit("/tasks/stats"[11]);
  }
}
