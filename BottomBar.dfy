/**
 * The bottom navigation bar
 * (presentation/components/NavigationTasksAimerBottomBar.kt): whether it is
 * shown for the current route, which of its three tabs is selected, and
 * whether a tab click navigates. The current route is the destination
 * pattern the back stack reports, or None before the graph is ready.
 */
module BottomBar {
  import opened Wrappers
  import opened Text
  import opened NavGraph

  datatype Tab = BoardsTab | NotificationsTab | ProfileTab

  /** The tabs in the order the bar draws them. */
  const Tabs: seq<Tab> := [BoardsTab, NotificationsTab, ProfileTab]

  /** The route a tab navigates to: a parameterless destination that shows the bar. */
  function TabRoute(tab: Tab): (r: string)
    ensures ShowBottomBar(Some(r)) && '/' !in r
  {
    match tab
    case BoardsTab => BoardsRoute
    case NotificationsTab => NotificationsRoute
    case ProfileTab => ProfileRoute
  }

  /**
   * `showBottomBar`: a route is known and it is not one of the three sign-in
   * screens. Every destination with arguments shows the bar.
   */
  function ShowBottomBar(route: Option<string>): (b: bool)
    ensures route.None? ==> !b
    ensures route.Some? && '/' in route.value ==> b
  {
    route.Some? && route.value !in [WelcomeRoute, SignInRoute, SignUpRoute]
  }

  /** The Boards tab covers the board list and every screen opened from a board. */
  predicate InBoardsSection(r: string) {
    r == BoardsRoute || StartsWith(r, "tasks/") || StartsWith(r, "create_task/")
    || StartsWith(r, "taskDetails/") || StartsWith(r, "create_board")
  }

  /** The Boards section's routes all show the bar: none of them is a sign-in screen. */
  lemma BoardsSectionShowsBar(r: string)
    ensures InBoardsSection(r) ==> ShowBottomBar(Some(r))
  {
    if StartsWith(r, "tasks/") {
      assert r[0] == 't';
    }
    if StartsWith(r, "create_task/") || StartsWith(r, "create_board") {
      assert r[0] == 'c';
    }
  }

  /** `isSelected` for one tab: a selected tab implies a visible bar, and a tab's own route selects it. */
  function IsSelected(tab: Tab, route: Option<string>): (b: bool)
    ensures b ==> ShowBottomBar(route)
    ensures route == Some(TabRoute(tab)) ==> b
  {
    route.Some? &&
    (BoardsSectionShowsBar(route.value);
     match tab
     case BoardsTab => InBoardsSection(route.value)
     case ProfileTab => route.value == ProfileRoute
     case NotificationsTab => route.value == NotificationsRoute)
  }

  /**
   * A tab click navigates only away from a different route: an unselected tab
   * always navigates, a selected Profile or Notifications tab never does, and
   * the Boards tab still navigates from a screen opened from a board.
   */
  function ShouldNavigate(tab: Tab, route: Option<string>): (b: bool)
    ensures !IsSelected(tab, route) ==> b
    ensures !tab.BoardsTab? && IsSelected(tab, route) ==> !b
    ensures tab.BoardsTab? && route.Some? && '/' in route.value ==> b
  {
    route != Some(TabRoute(tab))
  }

  /** No route selects two tabs. */
  lemma AtMostOneTab(route: Option<string>, t1: Tab, t2: Tab)
    requires IsSelected(t1, route) && IsSelected(t2, route)
    ensures t1 == t2
  {
    var r := route.value;
    if StartsWith(r, "tasks/") {
      assert r[0] == 't';
    }
    if StartsWith(r, "create_task/") || StartsWith(r, "create_board") {
      assert r[0] == 'c';
    }
  }

  /** A tab's own route selects it, so clicking the selected Profile or Notifications tab stays put, and clicking any other tab moves. */
  lemma ClickNavigatesAwayOnly(tab: Tab, route: Option<string>)
    ensures IsSelected(tab, Some(TabRoute(tab)))
    ensures tab != BoardsTab ==> (ShouldNavigate(tab, route) <==> !IsSelected(tab, route))
    ensures route.Some? && route.value != TabRoute(tab) ==> ShouldNavigate(tab, route)
  {
  }

  /**
   * On each destination the graph registers: the sign-in screens hide the
   * bar, every other destination shows it with exactly the tab of its
   * section selected.
   */
  lemma DestinationTabs()
    ensures forall d :: d in [WelcomeRoute, SignInRoute, SignUpRoute] ==> !ShowBottomBar(Some(d))
    ensures forall d :: d in [BoardsRoute, CreateBoardRoute, TasksRoute, CreateTaskRoute, TaskDetailsPattern] ==>
      ShowBottomBar(Some(d)) && IsSelected(BoardsTab, Some(d))
    ensures ShowBottomBar(Some(NotificationsRoute)) && IsSelected(NotificationsTab, Some(NotificationsRoute))
    ensures ShowBottomBar(Some(ProfileRoute)) && IsSelected(ProfileTab, Some(ProfileRoute))
    ensures !ShowBottomBar(None) && forall t :: !IsSelected(t, None)
  {
    assert StartsWith(TasksRoute, "tasks/");
    assert StartsWith(CreateTaskRoute, "create_task/");
    assert StartsWith(TaskDetailsPattern, "taskDetails/");
    assert StartsWith(CreateBoardRoute, "create_board");
  }

  /** Every route the `createRoute` helpers build lies in the Boards section, so the Boards tab stays selected on it. */
  lemma CreatedRoutesSelectBoards(id: string, title: string, encode: string -> string)
    ensures IsSelected(BoardsTab, Some(TasksCreateRoute(id, title, encode)))
    ensures IsSelected(BoardsTab, Some(CreateTaskCreateRoute(id)))
    ensures IsSelected(BoardsTab, Some(TaskDetailCreateRoute(id, title, encode)))
  {
  }
}
