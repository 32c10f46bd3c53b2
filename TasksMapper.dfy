/**
 * The task mapper (data/mapper/TasksMapper.kt) between the Firestore record
 * `TaskDTO` and the domain `Task`. The current time and the signed-in user's
 * uid, which the mapper reads from the system and from Firebase Auth, are
 * parameters.
 */
module TasksMapper {
  import opened Wrappers
  import opened Text
  import opened Entities

  /** The Firestore task record, with every field the mapper reads. */
  datatype TaskDto = TaskDto(
    id: Option<string>,
    boardId: Option<string>,
    title: Option<string>,
    description: Option<string>,
    dueDate: Option<string>,
    dueTime: Option<string>,
    priority: Option<string>,
    status: Option<string>,
    assignedTo: seq<string>,
    createdAt: Option<int>,
    ownerId: Option<string>,
    updatedAt: Option<int>)

  const NullIdMessage := "Task ID cannot be null when mapping to Domain."
  const NullBoardIdMessage := "Task BoardID cannot be null when mapping to Domain."
  const DefaultTitle := "Untitled Task"

  /** `Priority.valueOf(priority ?: "MEDIUM")`, with MEDIUM where `valueOf` throws. */
  function PriorityOrDefault(name: Option<string>): (r: Priority)
    ensures forall p: Priority :: name == Some(PriorityName(p)) ==> r == p
    ensures (name.None? || PriorityValueOf(name.value).None?) ==> r == MEDIUM
  {
    PriorityValueOf(name.GetOr(PriorityName(MEDIUM))).GetOr(MEDIUM)
  }

  /** `Status.valueOf(status ?: "TODO")`, with TODO where `valueOf` throws. */
  function StatusOrDefault(name: Option<string>): (r: Status)
    ensures forall s: Status :: name == Some(StatusName(s)) ==> r == s
    ensures (name.None? || StatusValueOf(name.value).None?) ==> r == TODO
  {
    StatusValueOf(name.GetOr(StatusName(TODO))).GetOr(TODO)
  }

  /**
   * `TaskDTO.toDomain()`: fails on a null id or board id, fills the other gaps
   * with defaults. The two time fallbacks are separate clock readings.
   */
  function ToDomain(dto: TaskDto, createdNow: int, updatedNow: int, authUid: Option<string>): (r: Result<Task>)
    ensures dto.id.None? ==> r == Err(NullIdMessage)
    ensures dto.id.Some? && dto.boardId.None? ==> r == Err(NullBoardIdMessage)
    ensures r.Ok? <==> dto.id.Some? && dto.boardId.Some?
    ensures r.Ok? ==> r.value.title == (if dto.title.Some? then dto.title.value else DefaultTitle)
    ensures r.Ok? ==> r.value.ownerId == (if dto.ownerId.Some? then dto.ownerId.value else authUid.GetOr(""))
    ensures r.Ok? ==> r.value.createdAt == (if dto.createdAt.Some? then dto.createdAt.value else createdNow)
    ensures r.Ok? ==> r.value.updatedAt == (if dto.updatedAt.Some? then dto.updatedAt.value else updatedNow)
  {
    if dto.id.None? then Err(NullIdMessage)
    else if dto.boardId.None? then Err(NullBoardIdMessage)
    else Ok(Task(
      id := Some(dto.id.value),
      boardId := dto.boardId.value,
      title := dto.title.GetOr(DefaultTitle),
      description := dto.description,
      dueDate := dto.dueDate,
      dueTime := dto.dueTime,
      priority := PriorityOrDefault(dto.priority),
      status := StatusOrDefault(dto.status),
      assignedTo := dto.assignedTo,
      createdAt := dto.createdAt.GetOr(createdNow),
      ownerId := dto.ownerId.GetOr(authUid.GetOr("")),
      updatedAt := dto.updatedAt.GetOr(updatedNow)))
  }

  /** `Task.toDto()`: a null or blank id is sent as null; enums are written by name; owner and update time are not written. */
  function ToDto(t: Task): (r: TaskDto)
    ensures r.id.None? <==> t.id.None? || IsBlank(t.id.value)
    ensures r.id.Some? ==> r.id == t.id
    ensures r.ownerId.None? && r.updatedAt.None?
    ensures r.priority.Some? && PriorityValueOf(r.priority.value) == Some(t.priority)
    ensures r.status.Some? && StatusValueOf(r.status.value) == Some(t.status)
  {
    TaskDto(
      id := if t.id.None? || IsBlank(t.id.value) then None else t.id,
      boardId := Some(t.boardId),
      title := Some(t.title),
      description := t.description,
      dueDate := t.dueDate,
      dueTime := t.dueTime,
      priority := Some(PriorityName(t.priority)),
      status := Some(StatusName(t.status)),
      assignedTo := t.assignedTo,
      createdAt := Some(t.createdAt),
      ownerId := None,
      updatedAt := None)
  }

  /**
   * Near-exact round trip: a task with a non-blank id comes back with every
   * field intact except the owner and the update time, which `toDto` does not
   * write and `toDomain` therefore takes from its fallbacks.
   */
  lemma TaskRoundTrip(t: Task, createdNow: int, updatedNow: int, authUid: Option<string>)
    requires t.id.Some? && !IsBlank(t.id.value)
    ensures ToDomain(ToDto(t), createdNow, updatedNow, authUid) == Ok(t.(ownerId := authUid.GetOr(""), updatedAt := updatedNow))
  {
  }

  /** A task without an id, or with a blank one, cannot come back: its record has a null id. */
  lemma TaskBlankIdFails(t: Task, createdNow: int, updatedNow: int, authUid: Option<string>)
    requires t.id.None? || IsBlank(t.id.value)
    ensures ToDomain(ToDto(t), createdNow, updatedNow, authUid) == Err(NullIdMessage)
  {
  }

  /**
   * The other direction: a complete record (non-blank id, every required field
   * present, recognised enum names) survives `toDomain` then `toDto`, except
   * for the owner and update time that `toDto` never writes.
   */
  lemma TaskDtoRoundTrip(dto: TaskDto, createdNow: int, updatedNow: int, authUid: Option<string>)
    requires dto.id.Some? && !IsBlank(dto.id.value)
    requires dto.boardId.Some? && dto.title.Some? && dto.createdAt.Some?
    requires dto.priority.Some? && PriorityValueOf(dto.priority.value).Some?
    requires dto.status.Some? && StatusValueOf(dto.status.value).Some?
    ensures ToDomain(dto, createdNow, updatedNow, authUid).Ok?
    ensures ToDto(ToDomain(dto, createdNow, updatedNow, authUid).value) == dto.(ownerId := None, updatedAt := None)
  {
  }
}
