/**
 * The display logic of the tasks screen
 * (presentation/screen/tasks/TasksScreen.kt): the due-date text, the avatar
 * colours, the status labels, and the filter row's index-to-status map.
 */
module TasksScreen {
  import opened Wrappers
  import opened Text
  import opened Entities
  import DateInputInteractor
  import TaskDueTimeTextField

  const NoDueDate := "No due date"

  /** `formatDueDateTime`. */
  function FormatDueDateTime(dueDate: Option<string>, dueTime: Option<string>): (r: string)
    ensures dueDate.None? && dueTime.None? ==> r == NoDueDate
    ensures dueDate.None? && dueTime.Some? ==> r == dueTime.value
    ensures dueDate.Some? && dueTime.None? ==> r == dueDate.value
    ensures dueDate.Some? && dueTime.Some? ==> r == dueDate.value + ", " + dueTime.value
  {
    if dueDate.None? && dueTime.None? then NoDueDate
    else if dueDate.None? then dueTime.GetOr("")
    else if dueTime.None? then dueDate.value
    else dueDate.value + ", " + dueTime.value
  }

  /**
   * With dates and times typed through the date and time masks, the text can
   * be read back: "No due date" only when both are missing, and with both
   * present the date, ", " and the time, none of which the masks can produce
   * a comma in.
   */
  lemma DueDateTimeReadsBack(rawDate: Option<string>, rawTime: Option<string>)
    ensures var d := if rawDate.Some? then Some(DateInputInteractor.FormatUserInput(rawDate.value)) else None;
      var t := if rawTime.Some? then Some(TaskDueTimeTextField.MaskTime(rawTime.value)) else None;
      var r := FormatDueDateTime(d, t);
      && (r == NoDueDate <==> d.None? && t.None?)
      && (d.Some? && t.Some? ==> r[..|d.value|] == d.value && r[|d.value|..|d.value| + 2] == ", " && r[|d.value| + 2..] == t.value)
      && (d.Some? ==> ',' !in d.value)
      && (t.Some? ==> ',' !in t.value)
  {
    var t := if rawTime.Some? then Some(TaskDueTimeTextField.MaskTime(rawTime.value)) else None;
    if t.Some? {
      assert |t.value| <= 5 < |NoDueDate|;
      assert forall i :: 0 <= i < |t.value| ==> t.value[i] != ',';
    }
    if rawDate.Some? {
      var d := DateInputInteractor.FormatUserInput(rawDate.value);
      var r := FormatDueDateTime(Some(d), t);
      assert forall i :: 0 <= i < |d| ==> d[i] != ',' && d[i] != 'N';
      if d != [] {
        assert r[0] == d[0];
      } else if t.Some? {
        assert r[0] == ',';
      }
      assert r == [] || r[0] != NoDueDate[0];
    }
  }

  /**
   * Kotlin's `%` on `Int`: the remainder takes the sign of the dividend. It
   * agrees with the Euclidean remainder up to one multiple of the divisor.
   */
  function KotlinRem(a: int, b: int): (r: int)
    requires b > 0
    ensures a >= 0 ==> 0 <= r < b
    ensures a < 0 ==> -b < r <= 0
    ensures a % b == (if r < 0 then r + b else r)
  {
    if a >= 0 then a % b
    else
      var q, m := (-a) / b, (-a) % b;
      assert a == b * (-q) - m;
      if m == 0 then
        assert a == b * (-q);
        EuclideanUnique(a, b, -q, 0);
        -m
      else
        assert a == b * (-q - 1) + (b - m);
        EuclideanUnique(a, b, -q - 1, b - m);
        -m
  }

  /** The Euclidean quotient and remainder are unique. */
  lemma EuclideanUnique(a: int, b: int, q: int, m: int)
    requires b > 0 && 0 <= m < b && a == b * q + m
    ensures a % b == m
  {
    var q0, m0 := a / b, a % b;
    assert b * (q - q0) == m0 - m;
    if q > q0 {
      MultipleAtLeast(b, q - q0);
    } else if q < q0 {
      MultipleAtLeast(b, q0 - q);
    }
  }

  /** A positive multiple of a positive number is at least that number. */
  lemma {:induction false} MultipleAtLeast(b: int, k: int)
    requires b > 0 && k >= 1
    ensures b * k >= b
    decreases k
  {
    if k > 1 {
      MultipleAtLeast(b, k - 1);
      assert b * k == b * (k - 1) + b;
    }
  }

  /** The avatar palette of `randomColor`, as ARGB values. */
  const AvatarColors: seq<int> := [0xFF6C5CE7, 0xFFA29BFE, 0xFF74B9FF, 0xFF00B894, 0xFF55E6C1]

  /**
   * `randomColor(seed)`: `colors[seed % 5]`, or None where Kotlin's negative
   * remainder makes the index fail.
   */
  function RandomColor(seed: int): (r: Option<int>)
    ensures r.Some? <==> seed >= 0 || seed % 5 == 0
    ensures r.Some? ==> r.value in AvatarColors
  {
    var i := KotlinRem(seed, |AvatarColors|);
    if 0 <= i then Some(AvatarColors[i]) else None
  }

  /** How many avatars a task card draws: `assignedTo.take(2)`. */
  function AvatarCount(assignedTo: seq<string>): (n: nat)
    ensures n <= 2 && n <= |assignedTo|
    ensures n == 2 || n == |assignedTo|
  {
    if |assignedTo| <= 2 then |assignedTo| else |assignedTo[..2]|
  }

  /** The card calls `randomColor` with the avatar's index only, so every avatar gets a colour, and the two get different ones. */
  lemma AvatarColorsDefined(assignedTo: seq<string>)
    ensures forall i :: 0 <= i < AvatarCount(assignedTo) ==> RandomColor(i).Some?
    ensures AvatarCount(assignedTo) == 2 ==> RandomColor(0) != RandomColor(1)
  {
  }

  /** The label on a task card per status: one of the filter row's status buttons, never "All". */
  function StatusLabel(s: Status): (r: string)
    ensures r in FilterLabels[1..] && r != FilterLabels[0]
  {
    match s
    case TODO => "To Do"
    case IN_PROGRESS => "In Progress"
    case DONE => "Done"
  }

  /** The label colour on a task card per status, as an opaque ARGB value. */
  function StatusColor(s: Status): (c: int)
    ensures 0xFF00_0000 <= c <= 0xFFFF_FFFF
  {
    match s
    case TODO => 0xFFBDBDBD
    case IN_PROGRESS => 0xFFFFB74D
    case DONE => 0xFF4CAF50
  }

  /** Different statuses get different labels and different colours on the cards. */
  lemma StatusStylesDistinct(a: Status, b: Status)
    ensures StatusLabel(a) == StatusLabel(b) ==> a == b
    ensures StatusColor(a) == StatusColor(b) ==> a == b
  {
  }

  /** The filter row's buttons, in order. */
  const FilterLabels: seq<string> := ["All", "To Do", "In Progress", "Done"]

  /** `statusForIndex[index]`: no status for "All" and for any index the map lacks. */
  function FilterStatus(index: int): (r: Option<Status>)
    ensures r.Some? <==> 1 <= index <= 3
  {
    if index == 1 then Some(TODO)
    else if index == 2 then Some(IN_PROGRESS)
    else if index == 3 then Some(DONE)
    else None
  }

  /** The status string the filter sends: `status?.name ?: ""`. */
  function FilterStatusName(index: int): (r: string)
    ensures r == "" <==> FilterStatus(index).None?
    ensures r != "" ==> StatusValueOf(r) == FilterStatus(index)
  {
    match FilterStatus(index)
    case None => ""
    case Some(s) => StatusName(s)
  }

  /**
   * The filter row agrees with the cards: each status button carries the same
   * label the cards show for the status it selects, every status has a
   * button, and different buttons select different statuses.
   */
  lemma FilterMatchesCards(s: Status, i: int, j: int)
    ensures exists k :: 1 <= k <= 3 && FilterStatus(k) == Some(s)
    ensures 1 <= i <= 3 ==> FilterLabels[i] == StatusLabel(FilterStatus(i).value)
    ensures 0 <= i <= 3 && 0 <= j <= 3 && i != j ==> FilterStatusName(i) != FilterStatusName(j)
  {
    match s
    case TODO => assert FilterStatus(1) == Some(s);
    case IN_PROGRESS => assert FilterStatus(2) == Some(s);
    case DONE => assert FilterStatus(3) == Some(s);
  }
}
