/**
 * The list and display logic of the profile screen
 * (presentation/screen/profile/ProfileScreen.kt): the header's defaults, the
 * contact names, the board cards, and the add-contact popup's candidates and
 * search. The popup filters with the same test as the create-task screen's.
 */
module ProfileScreen {
  import opened Wrappers
  import opened Text
  import opened Entities
  import CreateTaskScreen
  import NavGraph
  import BottomBar

  const NoName := "No name"
  const NoEmail := "No email"
  const ActiveTasksSuffix := " active tasks"

  /** The header: the signed-in user's first name and email, each with its default. */
  function Header(currentUser: Option<User>): (r: (string, string))
    ensures currentUser.None? ==> r == (NoName, NoEmail)
    ensures currentUser.Some? ==> r.1 == currentUser.value.email
    ensures currentUser.Some? && currentUser.value.firstName.Some? ==> r.0 == currentUser.value.firstName.value
    ensures currentUser.Some? && currentUser.value.firstName.None? ==> r.0 == NoName
  {
    match currentUser
    case None => (NoName, NoEmail)
    case Some(u) => (u.firstName.GetOr(NoName), u.email)
  }

  /** `contacts.map { it.firstName ?: "No name" }`: one line per contact, in order. */
  function ContactNames(contacts: seq<User>): (r: seq<string>)
    ensures |r| == |contacts|
    ensures forall i :: 0 <= i < |contacts| && contacts[i].firstName.Some? ==> r[i] == contacts[i].firstName.value
    ensures forall i :: 0 <= i < |contacts| && contacts[i].firstName.None? ==> r[i] == NoName
    decreases |contacts|
  {
    if contacts == [] then []
    else [contacts[0].firstName.GetOr(NoName)] + ContactNames(contacts[1..])
  }

  /** The subtitle of a board card: the task count followed by " active tasks". */
  function BoardSubtitle(b: Board): (r: string)
    ensures |r| > |ActiveTasksSuffix|
    ensures r[|r| - |ActiveTasksSuffix|..] == ActiveTasksSuffix
  {
    IntToString(b.tasksCount) + ActiveTasksSuffix
  }

  /** A non-negative count can be read back from the subtitle: the part before the suffix is its decimal digits. */
  lemma BoardSubtitleReadsBack(b: Board)
    requires b.tasksCount >= 0
    ensures var r := BoardSubtitle(b);
      var n := r[..|r| - |ActiveTasksSuffix|];
      AllDigits(n) && ParseDigits(n) == b.tasksCount
  {
    var r := BoardSubtitle(b);
    assert r[..|r| - |ActiveTasksSuffix|] == NatToString(b.tasksCount);
    ParseNatToString(b.tasksCount);
  }

  /** What clicking a board card passes on: the board's id and title. */
  function OpenBoardArgs(b: Board): (r: (string, string))
    ensures r.0 == b.id && r.1 == b.title
  {
    (b.id, b.title)
  }

  /**
   * The graph opens the clicked board's task list with
   * `Screen.Tasks.createRoute(id, title)`: the route stays in the Boards
   * section, and the board id and encoded title can be read back from it
   * when the id holds no '/'.
   */
  lemma OpenBoardRouteCarriesBoard(b: Board, encode: string -> string)
    requires '/' !in b.id
    ensures var (id, title) := OpenBoardArgs(b);
      var r := NavGraph.TasksCreateRoute(id, title, encode);
      && BottomBar.IsSelected(BottomBar.BoardsTab, Some(r))
      && NavGraph.SplitAtFirst(r[|"tasks/"|..], '/') == (b.id, encode(b.title))
  {
    NavGraph.TasksRouteArguments(b.id, b.title, encode);
  }

  /**
   * `allUsers.filter { it.id != currentUserId }`: everyone but the signed-in
   * user. Without a known id (a null `currentUserId`) no user is equal to it,
   * so everyone is offered.
   */
  function AddContactCandidates(allUsers: seq<User>, currentUserId: Option<string>): (r: seq<User>)
    ensures |r| <= |allUsers|
    ensures forall u :: u in r <==> u in allUsers && (currentUserId.None? || u.id != currentUserId.value)
    decreases |allUsers|
  {
    if allUsers == [] then []
    else
      var rest := AddContactCandidates(allUsers[1..], currentUserId);
      if currentUserId.Some? && allUsers[0].id == currentUserId.value then rest else [allUsers[0]] + rest
  }

  /** The filter works user by user: `a + b` keeps what `a` keeps followed by what `b` keeps. */
  lemma {:induction false} AddContactCandidatesAppend(a: seq<User>, b: seq<User>, currentUserId: Option<string>)
    ensures AddContactCandidates(a + b, currentUserId) == AddContactCandidates(a, currentUserId) + AddContactCandidates(b, currentUserId)
    decreases |a|
  {
    if a == [] {
      assert a + b == b;
    } else {
      assert (a + b)[0] == a[0] && (a + b)[1..] == a[1..] + b;
      AddContactCandidatesAppend(a[1..], b, currentUserId);
    }
  }

  /** A single user is offered exactly when it is not the signed-in user. */
  lemma AddContactCandidatesOne(u: User, currentUserId: Option<string>)
    ensures AddContactCandidates([u], currentUserId) ==
      if currentUserId.Some? && u.id == currentUserId.value then [] else [u]
  {
  }

  /** Without a known id the candidate list is the whole user list, in order. */
  lemma {:induction false} NoIdOffersEveryone(allUsers: seq<User>)
    ensures AddContactCandidates(allUsers, None) == allUsers
    decreases |allUsers|
  {
    if allUsers != [] {
      NoIdOffersEveryone(allUsers[1..]);
    }
  }

  /**
   * The add-contact popup never offers the signed-in user, whatever the
   * search text, and with an empty search it offers every candidate.
   */
  lemma PopupNeverOffersSelf(allUsers: seq<User>, currentUserId: string, query: string)
    ensures forall u :: u in CreateTaskScreen.SearchUsers(AddContactCandidates(allUsers, Some(currentUserId)), query) ==>
      u.id != currentUserId
    ensures CreateTaskScreen.SearchUsers(AddContactCandidates(allUsers, Some(currentUserId)), "") ==
      AddContactCandidates(allUsers, Some(currentUserId))
  {
    CreateTaskScreen.EmptySearchKeepsAll(AddContactCandidates(allUsers, Some(currentUserId)));
  }
}
