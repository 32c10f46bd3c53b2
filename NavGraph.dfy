/**
 * The route strings of the navigation graph
 * (presentation/navigation/NavGraph.kt): the `Screen` constants, the
 * destination patterns the graph registers, and the `createRoute` helpers.
 * `Uri.encode` is a parameter.
 */
module NavGraph {
  import opened Text

  const WelcomeRoute := "welcome"
  const SignInRoute := "sign_in"
  const SignUpRoute := "sign_up"
  const BoardsRoute := "boards"
  const NotificationsRoute := "notifications"
  const ProfileRoute := "profile"
  const CreateBoardRoute := "create_board"
  /*
   * The parameterised routes are written as their key, "/{", and the rest of
   * the pattern: "tasks/{boardId}/{boardTitle}", "create_task/{boardId}" and
   * "taskDetails/{taskId}?taskTitle={taskTitle}".
   */
  /** `Screen.Tasks.route`, also the pattern the graph registers for a board's task list. */
  const TasksRoute := "tasks" + "/{" + "boardId}/{boardTitle}"
  /** `Screen.CreateTask.route`, also the pattern the graph registers for the create-task form. */
  const CreateTaskRoute := "create_task" + "/{" + "boardId}"
  /** `Screen.TaskDetail.route`; the graph registers the details screen under `TaskDetailsPattern` instead. */
  const TaskDetailRoute := "taskDetails"
  const TaskDetailsPattern := "taskDetails" + "/{" + "taskId}?taskTitle={taskTitle}"

  /** The routes of the `Screen` objects, in declaration order. */
  const ScreenRoutes: seq<string> := [
    WelcomeRoute, SignInRoute, SignUpRoute, BoardsRoute, NotificationsRoute,
    ProfileRoute, CreateBoardRoute, TasksRoute, CreateTaskRoute, TaskDetailRoute]

  /** The destinations the graph registers: what the back stack reports as the current route. */
  const Destinations: seq<string> := [
    WelcomeRoute, SignInRoute, SignUpRoute, BoardsRoute, NotificationsRoute,
    ProfileRoute, CreateBoardRoute, TasksRoute, CreateTaskRoute, TaskDetailsPattern]

  /** No two screens share a route, and no two destinations share a pattern. */
  lemma RoutesDistinct()
    ensures forall i, j :: 0 <= i < j < |ScreenRoutes| ==> ScreenRoutes[i] != ScreenRoutes[j]
    ensures forall i, j :: 0 <= i < j < |Destinations| ==> Destinations[i] != Destinations[j]
  {
  }

  /** The first `c` in `s` splits it: what comes before, and what comes after (empty when there is no `c`). */
  function SplitAtFirst(s: string, c: char): (r: (string, string))
    ensures c !in r.0
    ensures c in s ==> s == r.0 + [c] + r.1
    ensures c !in s ==> r == (s, "")
    decreases |s|
  {
    if s == [] then ("", "")
    else if s[0] == c then
      assert s == [] + [c] + s[1..];
      ("", s[1..])
    else
      var (a, b) := SplitAtFirst(s[1..], c);
      assert s == [s[0]] + s[1..];
      ([s[0]] + a, b)
  }

  /** Splitting `p + [c] + q` at its first `c` gives back `p` and `q` when `p` holds no `c`. */
  lemma {:induction false} SplitAtFirstJoin(p: string, c: char, q: string)
    requires c !in p
    ensures SplitAtFirst(p + [c] + q, c) == (p, q)
    decreases |p|
  {
    if p == [] {
      assert (p + [c] + q)[1..] == q;
    } else {
      assert (p + [c] + q)[0] == p[0] != c;
      assert (p + [c] + q)[1..] == p[1..] + [c] + q;
      SplitAtFirstJoin(p[1..], c, q);
      assert [p[0]] + p[1..] == p;
    }
  }

  /** `Screen.Tasks.createRoute(boardId, title)`: "tasks/", the id, "/", the encoded title. */
  function TasksCreateRoute(boardId: string, title: string, encode: string -> string): (r: string)
    ensures StartsWith(r, "tasks/")
  {
    "tasks/" + boardId + "/" + encode(title)
  }

  /** `Screen.CreateTask.createRoute(boardId)`. */
  function CreateTaskCreateRoute(boardId: string): (r: string)
    ensures StartsWith(r, "create_task/")
  {
    "create_task/" + boardId
  }

  /** `Screen.TaskDetail.createRoute(taskId, taskTitle)`: the id as a path segment, the encoded title as a query argument. */
  function TaskDetailCreateRoute(taskId: string, taskTitle: string, encode: string -> string): (r: string)
    ensures StartsWith(r, "taskDetails/")
  {
    "taskDetails/" + taskId + "?taskTitle=" + encode(taskTitle)
  }

  /**
   * The arguments can be read back from a built tasks route: after "tasks/",
   * the text up to the next '/' is the board id and the rest is the encoded
   * title, provided the id holds no '/'.
   */
  lemma TasksRouteArguments(boardId: string, title: string, encode: string -> string)
    requires '/' !in boardId
    ensures var r := TasksCreateRoute(boardId, title, encode);
      SplitAtFirst(r[|"tasks/"|..], '/') == (boardId, encode(title))
  {
    var r := TasksCreateRoute(boardId, title, encode);
    assert r[|"tasks/"|..] == boardId + ['/'] + encode(title);
    SplitAtFirstJoin(boardId, '/', encode(title));
  }

  /** The board id can be read back from a built create-task route. */
  lemma CreateTaskRouteArgument(boardId: string)
    ensures CreateTaskCreateRoute(boardId)[|"create_task/"|..] == boardId
  {
  }

  /**
   * The arguments can be read back from a built task-details route: up to
   * the first '?' is the task id, and after "taskTitle=" the encoded title,
   * provided the id holds no '?'.
   */
  lemma TaskDetailRouteArguments(taskId: string, taskTitle: string, encode: string -> string)
    requires '?' !in taskId
    ensures var r := TaskDetailCreateRoute(taskId, taskTitle, encode);
      var (id, query) := SplitAtFirst(r[|"taskDetails/"|..], '?');
      id == taskId && StartsWith(query, "taskTitle=") && query[|"taskTitle="|..] == encode(taskTitle)
  {
    var r := TaskDetailCreateRoute(taskId, taskTitle, encode);
    assert r[|"taskDetails/"|..] == taskId + ['?'] + ("taskTitle=" + encode(taskTitle));
    SplitAtFirstJoin(taskId, '?', "taskTitle=" + encode(taskTitle));
  }

  /** Cutting the task-list pattern at "/{" gives the key the top bar and the floating button dispatch on. */
  lemma TasksRouteKey()
    ensures SubstringBefore(TasksRoute, "/{") == "tasks"
  {
    assert TasksRoute == "tasks" + "/{" + "boardId}/{boardTitle}";
    SubstringBeforeSlashBrace("tasks", "boardId}/{boardTitle}");
  }

  /** Cutting the create-task pattern at "/{" gives "create_task". */
  lemma CreateTaskRouteKey()
    ensures SubstringBefore(CreateTaskRoute, "/{") == "create_task"
  {
    assert CreateTaskRoute == "create_task" + "/{" + "boardId}";
    SubstringBeforeSlashBrace("create_task", "boardId}");
  }

  /** Cutting the task-details pattern at "/{" gives "taskDetails", which no bar or button dispatches on. */
  lemma TaskDetailsRouteKey()
    ensures SubstringBefore(TaskDetailsPattern, "/{") == "taskDetails"
  {
    assert TaskDetailsPattern == "taskDetails" + "/{" + "taskId}?taskTitle={taskTitle}";
    SubstringBeforeSlashBrace("taskDetails", "taskId}?taskTitle={taskTitle}");
  }
}
