/**
 * The floating action button per route (presentation/components/DynamicFab.kt):
 * the route is cut at its first "/{"; the board list offers a new board, a
 * task list with a known board offers a new task on that board, and every
 * other route has no button. The back stack's `boardId` argument is a
 * parameter.
 */
module DynamicFab {
  import opened Wrappers
  import opened Text
  import opened NavGraph
  import BottomBar
  import DynamicTopBar

  datatype Fab = NoFab | Fab(description: string, target: string)

  /** The button for a route, and the route it navigates to. */
  function FabFor(route: Option<string>, boardIdArg: Option<string>): (f: Fab)
    ensures f.Fab? && f.description == "Create board" <==> DynamicTopBar.RouteKey(route) == Some(BoardsRoute)
    ensures f.Fab? && f.description == "Create task" <==> DynamicTopBar.RouteKey(route) == Some("tasks") && boardIdArg.Some?
    ensures f.Fab? && f.description == "Create board" ==> f.target == CreateBoardRoute
    ensures f.Fab? && f.description == "Create task" ==> f.target == CreateTaskCreateRoute(boardIdArg.value)
  {
    var key := DynamicTopBar.RouteKey(route);
    if key == Some(BoardsRoute) then Fab("Create board", CreateBoardRoute)
    else if key == Some("tasks") && boardIdArg.Some? then Fab("Create task", "create_task/" + boardIdArg.value)
    else NoFab
  }

  /** The board list's button opens the board form. */
  lemma BoardListFab(boardIdArg: Option<string>)
    ensures FabFor(Some(BoardsRoute), boardIdArg) == Fab("Create board", CreateBoardRoute)
  {
    NoBraceKey(BoardsRoute);
  }

  /** Any route whose key is "tasks" gets the task button exactly when the board argument is present. */
  lemma TasksKeyFab(r: string, boardIdArg: Option<string>)
    requires SubstringBefore(r, "/{") == "tasks"
    ensures FabFor(Some(r), boardIdArg) ==
      if boardIdArg.Some? then Fab("Create task", CreateTaskCreateRoute(boardIdArg.value)) else NoFab
  {
  }

  /**
   * A task list's button opens the task form for the list's board; without
   * the board argument there is no button. Before the graph reports a route
   * there is none either.
   */
  lemma TaskListFab(boardIdArg: Option<string>)
    ensures boardIdArg.Some? ==> FabFor(Some(TasksRoute), boardIdArg) == Fab("Create task", CreateTaskCreateRoute(boardIdArg.value))
    ensures boardIdArg.None? ==> FabFor(Some(TasksRoute), boardIdArg) == NoFab
    ensures FabFor(None, boardIdArg) == NoFab
  {
    TasksRouteKey();
    TasksKeyFab(TasksRoute, boardIdArg);
  }

  /** A route `p/{…}` whose prefix is neither "boards" nor "tasks" has no button, whatever the arguments. */
  lemma ParameterisedRouteHasNoFab(p: string, rest: string, boardIdArg: Option<string>)
    requires '/' !in p && p != BoardsRoute && p != "tasks"
    ensures FabFor(Some(p + "/{" + rest), boardIdArg) == NoFab
  {
    SubstringBeforeSlashBrace(p, rest);
  }

  /** A route without parameters other than "boards" (and "tasks", which is not a destination) has no button. */
  lemma PlainRouteHasNoFab(r: string, boardIdArg: Option<string>)
    requires '{' !in r && r != BoardsRoute && r != "tasks"
    ensures FabFor(Some(r), boardIdArg) == NoFab
  {
    NoBraceKey(r);
  }

  /**
   * Where a button leads stays in the Boards section: its target selects the
   * Boards tab, and the board id can be read back from a task-form target.
   */
  lemma FabTargetsStayInBoards(route: Option<string>, boardIdArg: Option<string>)
    requires FabFor(route, boardIdArg).Fab?
    ensures BottomBar.IsSelected(BottomBar.BoardsTab, Some(FabFor(route, boardIdArg).target))
    ensures FabFor(route, boardIdArg).description == "Create task" ==>
      FabFor(route, boardIdArg).target[|"create_task/"|..] == boardIdArg.value
  {
    var f := FabFor(route, boardIdArg);
    if f.description == "Create task" {
      BottomBar.CreatedRoutesSelectBoards(boardIdArg.value, "", s => s);
      CreateTaskRouteArgument(boardIdArg.value);
    } else {
      assert StartsWith(CreateBoardRoute, "create_board");
    }
  }
}
