/**
 * The top bar per route (presentation/components/DynamicTopBar.kt): the
 * route is cut at its first "/{" and the key picks the bar. The task list's
 * `boardTitle` argument and `Uri.decode` are parameters.
 */
module DynamicTopBar {
  import opened Wrappers
  import opened Text
  import opened NavGraph
  import CreateTask

  const TasksDefaultTitle := "Tasks"

  datatype TopBar =
    | BoardsBar                  // "Boards"
    | TasksBar(title: string)    // the board's title, with back and search buttons
    | CreateTaskBar              // "Create Task", with close and Save
    | NewBoardBar                // "New Board", with close
    | GenericBar                 // "TasksAimer"
    | NoBar

  /** `currentRoute?.substringBefore("/{")`. */
  function RouteKey(route: Option<string>): (k: Option<string>)
    ensures k.Some? <==> route.Some?
    ensures k.Some? ==> StartsWith(route.value, k.value)
  {
    match route
    case None => None
    case Some(r) => SubstringBeforePrefix(r, "/{"); Some(SubstringBefore(r, "/{"))
  }

  /** The bar for a route, by its key; only a route that is exactly a sign-in screen gets no bar. */
  function TopBarFor(route: Option<string>, boardTitleArg: Option<string>, decode: string -> string): (b: TopBar)
    ensures b.BoardsBar? <==> RouteKey(route) == Some(BoardsRoute)
    ensures b.TasksBar? <==> RouteKey(route) == Some("tasks")
    ensures b.TasksBar? ==> b.title == (if boardTitleArg.Some? then decode(boardTitleArg.value) else TasksDefaultTitle)
    ensures b.CreateTaskBar? <==> RouteKey(route) == Some("create_task")
    ensures b.NewBoardBar? <==> RouteKey(route) == Some(CreateBoardRoute)
    ensures b.NoBar? <==>
      RouteKey(route) !in {Some(BoardsRoute), Some("tasks"), Some("create_task"), Some(CreateBoardRoute)}
      && route.Some? && route.value in [WelcomeRoute, SignInRoute, SignUpRoute]
  {
    var key := RouteKey(route);
    if key == Some(BoardsRoute) then BoardsBar
    else if key == Some("tasks") then
      TasksBar(if boardTitleArg.Some? then decode(boardTitleArg.value) else TasksDefaultTitle)
    else if key == Some("create_task") then CreateTaskBar
    else if key == Some(CreateBoardRoute) then NewBoardBar
    else if route.None? || route.value !in [WelcomeRoute, SignInRoute, SignUpRoute] then GenericBar
    else NoBar
  }

  /** The board list gets the Boards bar. */
  lemma BoardListBar(boardTitleArg: Option<string>, decode: string -> string)
    ensures TopBarFor(Some(BoardsRoute), boardTitleArg, decode) == BoardsBar
  {
    NoBraceKey(BoardsRoute);
  }

  /** The create-task form gets the Create Task bar. */
  lemma CreateTaskFormBar(boardTitleArg: Option<string>, decode: string -> string)
    ensures TopBarFor(Some(CreateTaskRoute), boardTitleArg, decode) == CreateTaskBar
  {
    CreateTaskRouteKey();
  }

  /** The create-board form gets the New Board bar. */
  lemma CreateBoardFormBar(boardTitleArg: Option<string>, decode: string -> string)
    ensures TopBarFor(Some(CreateBoardRoute), boardTitleArg, decode) == NewBoardBar
  {
    NoBraceKey(CreateBoardRoute);
  }

  /** The keys with a bar of their own. */
  const OwnBarKeys: seq<string> := [BoardsRoute, "tasks", "create_task", CreateBoardRoute]

  /** A route without parameters that is neither a key with its own bar nor a sign-in screen gets the generic bar. */
  lemma PlainRouteGetsGenericBar(r: string, boardTitleArg: Option<string>, decode: string -> string)
    requires '{' !in r
    requires r !in OwnBarKeys && r !in [WelcomeRoute, SignInRoute, SignUpRoute]
    ensures TopBarFor(Some(r), boardTitleArg, decode) == GenericBar
  {
    NoBraceKey(r);
  }

  /** A route `p/{…}` whose prefix `p` is not a key with its own bar gets the generic bar. */
  lemma ParameterisedRouteGetsGenericBar(p: string, rest: string, boardTitleArg: Option<string>, decode: string -> string)
    requires '/' !in p && p !in OwnBarKeys
    requires p + "/{" + rest !in [WelcomeRoute, SignInRoute, SignUpRoute]
    ensures TopBarFor(Some(p + "/{" + rest), boardTitleArg, decode) == GenericBar
  {
    SubstringBeforeSlashBrace(p, rest);
  }

  /** The task-details screen, whose key "taskDetails" has no bar of its own, gets the generic bar; so does an unknown route. */
  lemma DetailsScreenBar(boardTitleArg: Option<string>, decode: string -> string)
    ensures TopBarFor(Some(TaskDetailsPattern), boardTitleArg, decode) == GenericBar
    ensures TopBarFor(None, boardTitleArg, decode) == GenericBar
  {
    assert TaskDetailsPattern == "taskDetails" + "/{" + "taskId}?taskTitle={taskTitle}";
    ParameterisedRouteGetsGenericBar("taskDetails", "taskId}?taskTitle={taskTitle}", boardTitleArg, decode);
  }

  /** The notifications and profile screens get the generic bar. */
  lemma TabScreensBar(boardTitleArg: Option<string>, decode: string -> string)
    ensures TopBarFor(Some(NotificationsRoute), boardTitleArg, decode) == GenericBar
    ensures TopBarFor(Some(ProfileRoute), boardTitleArg, decode) == GenericBar
  {
    PlainRouteGetsGenericBar(NotificationsRoute, boardTitleArg, decode);
    PlainRouteGetsGenericBar(ProfileRoute, boardTitleArg, decode);
  }

  /** The sign-in screens get no bar. */
  lemma SignInScreensHaveNoBar(boardTitleArg: Option<string>, decode: string -> string)
    ensures TopBarFor(Some(WelcomeRoute), boardTitleArg, decode) == NoBar
    ensures TopBarFor(Some(SignInRoute), boardTitleArg, decode) == NoBar
    ensures TopBarFor(Some(SignUpRoute), boardTitleArg, decode) == NoBar
  {
    assert TopBarFor(Some(WelcomeRoute), boardTitleArg, decode) == NoBar by { NoBraceKey(WelcomeRoute); }
    assert TopBarFor(Some(SignInRoute), boardTitleArg, decode) == NoBar by { NoBraceKey(SignInRoute); }
    assert TopBarFor(Some(SignUpRoute), boardTitleArg, decode) == NoBar by { NoBraceKey(SignUpRoute); }
  }

  /**
   * A task list opened with `Screen.Tasks.createRoute(boardId, title)` is
   * titled with that title, when decoding undoes encoding; without the
   * argument it reads "Tasks".
   */
  lemma TasksBarShowsBoardTitle(title: string, encode: string -> string, decode: string -> string)
    requires decode(encode(title)) == title
    ensures TopBarFor(Some(TasksRoute), Some(encode(title)), decode) == TasksBar(title)
    ensures TopBarFor(Some(TasksRoute), None, decode) == TasksBar(TasksDefaultTitle)
  {
    TasksRouteKey();
  }

  /**
   * The Create Task bar's Save: `SaveTask` goes to the form, then the screen
   * is popped whatever the form did. The result is the form's new state and
   * whether the screen was closed; `stored` is the save's outcome.
   */
  function SaveAndClose(s: CreateTask.CreateTaskState, parses: string -> bool, stored: bool): (r: (CreateTask.CreateTaskState, bool))
    ensures r.1
    ensures r.0 == CreateTask.Reduce(s, CreateTask.SaveTask, parses, stored)
  {
    (CreateTask.Reduce(s, CreateTask.SaveTask, parses, stored), true)
  }

  /**
   * Save closes the form either way. Only an enabled form whose save returns
   * is finished; a disabled one is dropped unsaved and unchanged, and an
   * enabled one whose save throws is left Loading.
   */
  lemma SaveClosesEvenWhenDisabled(s: CreateTask.CreateTaskState, parses: string -> bool, stored: bool)
    requires s.Creation?
    ensures SaveAndClose(s, parses, stored).1
    ensures SaveAndClose(s, parses, stored).0 == CreateTask.Finished <==> CreateTask.IsSaveEnabled(s) && stored
    ensures !CreateTask.IsSaveEnabled(s) ==> SaveAndClose(s, parses, stored).0 == s
    ensures CreateTask.IsSaveEnabled(s) && !stored ==> SaveAndClose(s, parses, stored).0 == CreateTask.Loading
  {
  }
}
