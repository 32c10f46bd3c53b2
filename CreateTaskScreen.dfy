/**
 * The list logic of the create-task screen
 * (presentation/screen/createtask/CreateTaskScreen.kt): which contacts show
 * as assigned, how the assignee id list grows and shrinks, which contacts the
 * selection popup offers, the popup's search, and the Create button.
 */
module CreateTaskScreen {
  import opened Wrappers
  import opened Text
  import opened Entities
  import CreateTask

  /** `myContacts.filter { it.id in assignedTo }`: the assigned contacts, in contact order. */
  function AssignedUsers(contacts: seq<User>, assignedTo: seq<string>): (r: seq<User>)
    ensures forall u :: u in r <==> u in contacts && u.id in assignedTo
    ensures |r| <= |contacts|
    decreases |contacts|
  {
    if contacts == [] then []
    else
      var rest := AssignedUsers(contacts[1..], assignedTo);
      if contacts[0].id in assignedTo then [contacts[0]] + rest else rest
  }

  /**
   * The filter works contact by contact: the assigned contacts of `a + b` are
   * those of `a` followed by those of `b`. With `AssignedUsersOne` this fixes
   * the result's order and how often each contact appears.
   */
  lemma {:induction false} AssignedUsersAppend(a: seq<User>, b: seq<User>, assignedTo: seq<string>)
    ensures AssignedUsers(a + b, assignedTo) == AssignedUsers(a, assignedTo) + AssignedUsers(b, assignedTo)
    decreases |a|
  {
    if a == [] {
      assert a + b == b;
    } else {
      assert (a + b)[0] == a[0] && (a + b)[1..] == a[1..] + b;
      AssignedUsersAppend(a[1..], b, assignedTo);
    }
  }

  /** A single contact is kept exactly when its id is assigned. */
  lemma AssignedUsersOne(c: User, assignedTo: seq<string>)
    ensures AssignedUsers([c], assignedTo) == if c.id in assignedTo then [c] else []
  {
  }

  /** An assigned contact appears in the result as often as among the contacts; any other contact not at all. */
  lemma {:induction false} AssignedUsersCount(contacts: seq<User>, assignedTo: seq<string>, u: User)
    ensures multiset(AssignedUsers(contacts, assignedTo))[u] == if u.id in assignedTo then multiset(contacts)[u] else 0
    decreases |contacts|
  {
    if contacts != [] {
      assert contacts == [contacts[0]] + contacts[1..];
      AssignedUsersCount(contacts[1..], assignedTo, u);
    }
  }

  /** `onAddUser`: `assignedTo + user.id`, appended at the end. */
  function AddAssignee(assignedTo: seq<string>, id: string): (r: seq<string>)
    ensures |r| == |assignedTo| + 1 && r[..|assignedTo|] == assignedTo && r[|assignedTo|] == id
  {
    assignedTo + [id]
  }

  /** `onRemoveUser`: Kotlin's `list - element`, which drops only the first occurrence. */
  function RemoveFirst(list: seq<string>, x: string): (r: seq<string>)
    ensures x !in list ==> r == list
    ensures x in list ==> |r| == |list| - 1
    decreases |list|
  {
    if list == [] then []
    else if list[0] == x then list[1..]
    else [list[0]] + RemoveFirst(list[1..], x)
  }

  /** Exactly one occurrence of `x` goes, when there is one, and every other element stays. */
  lemma {:induction false} RemoveFirstMultiset(list: seq<string>, x: string)
    ensures multiset(RemoveFirst(list, x)) == multiset(list) - multiset{x}
    decreases |list|
  {
    if list != [] {
      assert list == [list[0]] + list[1..];
      if list[0] != x {
        RemoveFirstMultiset(list[1..], x);
      }
    }
  }

  /** `list.indexOf(x)` for an element of the list: the position of its first occurrence. */
  function IndexOf(list: seq<string>, x: string): (i: nat)
    requires x in list
    ensures i < |list| && list[i] == x && x !in list[..i]
    decreases |list|
  {
    if list[0] == x then 0
    else
      var j := IndexOf(list[1..], x);
      assert list[..j + 1] == [list[0]] + list[1..][..j];
      j + 1
  }

  /** Putting the head back in front of a tail cut at `i` cuts the whole list at `i + 1`. */
  lemma ConsCut(list: seq<string>, i: nat)
    requires i + 1 < |list|
    ensures [list[0]] + (list[1..][..i] + list[1..][i + 1..]) == list[..i + 1] + list[i + 2..]
  {
    assert [list[0]] + list[1..][..i] == list[..i + 1];
    assert list[1..][i + 1..] == list[i + 2..];
  }

  /** The removal cuts the list at the first occurrence and keeps everything else in order. */
  lemma {:induction false} RemoveFirstKeepsOrder(list: seq<string>, x: string)
    requires x in list
    ensures RemoveFirst(list, x) == list[..IndexOf(list, x)] + list[IndexOf(list, x) + 1..]
    decreases |list|
  {
    if list[0] != x {
      var t := list[1..];
      var i := IndexOf(t, x);
      RemoveFirstKeepsOrder(t, x);
      assert RemoveFirst(list, x) == [list[0]] + (t[..i] + t[i + 1..]);
      ConsCut(list, i);
    }
  }

  /** Removing an id that was just added, and was not there before, gives back the previous list. */
  lemma {:induction false} RemoveUndoesAdd(list: seq<string>, id: string)
    requires id !in list
    ensures RemoveFirst(AddAssignee(list, id), id) == list
    decreases |list|
  {
    if list != [] {
      assert AddAssignee(list, id)[1..] == AddAssignee(list[1..], id);
      RemoveUndoesAdd(list[1..], id);
    }
  }

  /** `allMyContactUsers.filter { candidate -> candidate !in assignedUsers }`, comparing whole users. */
  function Candidates(contacts: seq<User>, assignedTo: seq<string>): (r: seq<User>)
    ensures |r| <= |contacts|
    ensures forall u :: u in r ==> u in contacts && u !in AssignedUsers(contacts, assignedTo)
  {
    var chosen := AssignedUsers(contacts, assignedTo);
    ExcludeUsers(contacts, chosen)
  }

  /** The users of `users` that are not in `excluded`, in order. */
  function ExcludeUsers(users: seq<User>, excluded: seq<User>): (r: seq<User>)
    ensures |r| <= |users|
    ensures forall u :: u in r <==> u in users && u !in excluded
    decreases |users|
  {
    if users == [] then []
    else
      var rest := ExcludeUsers(users[1..], excluded);
      if users[0] in excluded then rest else [users[0]] + rest
  }

  /** Exclusion works user by user: `a + b` keeps what `a` keeps followed by what `b` keeps. */
  lemma {:induction false} ExcludeUsersAppend(a: seq<User>, b: seq<User>, excluded: seq<User>)
    ensures ExcludeUsers(a + b, excluded) == ExcludeUsers(a, excluded) + ExcludeUsers(b, excluded)
    decreases |a|
  {
    if a == [] {
      assert a + b == b;
    } else {
      assert (a + b)[0] == a[0] && (a + b)[1..] == a[1..] + b;
      ExcludeUsersAppend(a[1..], b, excluded);
    }
  }

  /** A single user is kept exactly when it is not excluded. */
  lemma ExcludeUsersOne(u: User, excluded: seq<User>)
    ensures ExcludeUsers([u], excluded) == if u in excluded then [] else [u]
  {
  }

  /** An excluded user does not appear in the result; any other appears as often as in the input. */
  lemma {:induction false} ExcludeUsersCount(users: seq<User>, excluded: seq<User>, u: User)
    ensures multiset(ExcludeUsers(users, excluded))[u] == if u in excluded then 0 else multiset(users)[u]
    decreases |users|
  {
    if users != [] {
      assert users == [users[0]] + users[1..];
      ExcludeUsersCount(users[1..], excluded, u);
    }
  }

  /**
   * The popup compares whole users, but this is the same as comparing ids:
   * a contact is offered exactly when its id is not yet assigned.
   */
  lemma CandidatesByID(contacts: seq<User>, assignedTo: seq<string>)
    ensures forall u :: u in Candidates(contacts, assignedTo) <==> u in contacts && u.id !in assignedTo
  {
    var chosen := AssignedUsers(contacts, assignedTo);
    assert forall u :: u in Candidates(contacts, assignedTo) <==> u in contacts && u !in chosen;
  }

  /**
   * Every contact is shown either as assigned or as a candidate, never both,
   * and the two lists together show it as often as it appears among the
   * contacts: exactly once for a contact listed once.
   */
  lemma ContactsPartitioned(contacts: seq<User>, assignedTo: seq<string>, u: User)
    requires u in contacts
    ensures u in AssignedUsers(contacts, assignedTo) <==> u !in Candidates(contacts, assignedTo)
    ensures multiset(AssignedUsers(contacts, assignedTo))[u] + multiset(Candidates(contacts, assignedTo))[u]
      == multiset(contacts)[u]
    ensures multiset(contacts)[u] == 1 ==>
      multiset(AssignedUsers(contacts, assignedTo))[u] + multiset(Candidates(contacts, assignedTo))[u] == 1
  {
    CandidatesByID(contacts, assignedTo);
    var chosen := AssignedUsers(contacts, assignedTo);
    AssignedUsersCount(contacts, assignedTo, u);
    ExcludeUsersCount(contacts, chosen, u);
  }

  predicate NoDuplicates(s: seq<string>) {
    forall i, j :: 0 <= i < j < |s| ==> s[i] != s[j]
  }

  /** Adding through the popup keeps the assignee list free of duplicates. */
  lemma AddCandidateKeepsNoDuplicates(contacts: seq<User>, assignedTo: seq<string>, u: User)
    requires NoDuplicates(assignedTo)
    requires u in Candidates(contacts, assignedTo)
    ensures NoDuplicates(AddAssignee(assignedTo, u.id))
  {
    CandidatesByID(contacts, assignedTo);
    var r := AddAssignee(assignedTo, u.id);
    forall i, j | 0 <= i < j < |r|
      ensures r[i] != r[j]
    {
      if j == |assignedTo| {
        assert r[i] == assignedTo[i];
      }
    }
  }

  /**
   * The popup's search test: the first name or the email contains the query,
   * ignoring case. The empty query matches everyone, and a match needs the
   * query to fit inside the name or the email.
   */
  function MatchesSearch(u: User, query: string): (b: bool)
    ensures query == "" ==> b
    ensures b ==> |query| <= |u.email| || (u.firstName.Some? && |query| <= |u.firstName.value|)
  {
    EmptyQueryMatches(u.email);
    if u.firstName.Some? && ContainsIgnoreCase(u.firstName.value, query) then
      ContainsIgnoreCaseLength(u.firstName.value, query);
      true
    else if ContainsIgnoreCase(u.email, query) then
      ContainsIgnoreCaseLength(u.email, query);
      true
    else
      false
  }

  /**
   * `SelectUserPopup`'s `users.filter { … }`: the users that match the query,
   * in order. The add-contact popup of the profile screen filters the same way.
   */
  function SearchUsers(users: seq<User>, query: string): (r: seq<User>)
    ensures forall u :: u in r <==> u in users && MatchesSearch(u, query)
    ensures |r| <= |users|
    decreases |users|
  {
    if users == [] then []
    else
      var rest := SearchUsers(users[1..], query);
      if MatchesSearch(users[0], query) then [users[0]] + rest else rest
  }

  /** The search works user by user: searching `a + b` gives the matches of `a` followed by those of `b`. */
  lemma {:induction false} SearchUsersAppend(a: seq<User>, b: seq<User>, query: string)
    ensures SearchUsers(a + b, query) == SearchUsers(a, query) + SearchUsers(b, query)
    decreases |a|
  {
    if a == [] {
      assert a + b == b;
    } else {
      assert (a + b)[0] == a[0] && (a + b)[1..] == a[1..] + b;
      SearchUsersAppend(a[1..], b, query);
    }
  }

  /** A single user is kept exactly when it matches. */
  lemma SearchUsersOne(u: User, query: string)
    ensures SearchUsers([u], query) == if MatchesSearch(u, query) then [u] else []
  {
  }

  /** An empty search shows every user, since every email contains the empty string. */
  lemma {:induction false} EmptySearchKeepsAll(users: seq<User>)
    ensures SearchUsers(users, "") == users
    decreases |users|
  {
    if users != [] {
      EmptyQueryMatches(users[0].email);
      EmptySearchKeepsAll(users[1..]);
    }
  }

  /** The search does not depend on the case of the query. */
  lemma {:induction false} SearchIgnoresQueryCase(users: seq<User>, query: string)
    ensures SearchUsers(users, query) == SearchUsers(users, LowerString(query))
    decreases |users|
  {
    if users != [] {
      var u := users[0];
      ContainsIgnoreCaseLowerQuery(u.email, query);
      if u.firstName.Some? {
        ContainsIgnoreCaseLowerQuery(u.firstName.value, query);
      }
      SearchIgnoresQueryCase(users[1..], query);
    }
  }

  /**
   * The Create button is enabled by the state's `isSaveEnabled`: a click
   * finishes the form exactly when it is enabled and the save returns, and
   * leaves it Loading exactly when it is enabled and the save throws.
   */
  lemma CreateButtonSaves(s: CreateTask.CreateTaskState, parses: string -> bool)
    requires s.Creation?
    ensures CreateTask.IsSaveEnabled(s) <==> CreateTask.Reduce(s, CreateTask.SaveTask, parses, true) == CreateTask.Finished
    ensures CreateTask.IsSaveEnabled(s) <==> CreateTask.Reduce(s, CreateTask.SaveTask, parses, false) == CreateTask.Loading
  {
  }
}
