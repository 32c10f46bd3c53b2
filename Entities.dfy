/**
 * The domain records of the app (domain/entity and domain/entiity): tasks,
 * boards, users, notifications, and the enums they carry, with Kotlin's
 * enum `name` and `valueOf`.
 */
module Entities {
  import opened Wrappers

  /** Task priority. Its declaration is not part of this model; the names LOW, MEDIUM and HIGH are assumed. */
  datatype Priority = LOW | MEDIUM | HIGH

  datatype Status = TODO | IN_PROGRESS | DONE

  datatype NotificationType = TASK_ASSIGNED | STATUS_CHANGED | DEADLINE_CHANGED | MENTIONED | NEW_COMMENT

  /** `Priority.name`. */
  function PriorityName(p: Priority): string {
    match p
    case LOW => "LOW"
    case MEDIUM => "MEDIUM"
    case HIGH => "HIGH"
  }

  /** `Priority.valueOf(name)`: the constant with exactly that name, or None where Kotlin throws. */
  function PriorityValueOf(name: string): (r: Option<Priority>)
    ensures r.Some? ==> PriorityName(r.value) == name
    ensures r.None? ==> forall p: Priority :: PriorityName(p) != name
  {
    if name == "LOW" then Some(LOW)
    else if name == "MEDIUM" then Some(MEDIUM)
    else if name == "HIGH" then Some(HIGH)
    else None
  }

  /** `Status.name`. */
  function StatusName(s: Status): string {
    match s
    case TODO => "TODO"
    case IN_PROGRESS => "IN_PROGRESS"
    case DONE => "DONE"
  }

  /** `Status.valueOf(name)`: the constant with exactly that name, or None where Kotlin throws. */
  function StatusValueOf(name: string): (r: Option<Status>)
    ensures r.Some? ==> StatusName(r.value) == name
    ensures r.None? ==> forall s: Status :: StatusName(s) != name
  {
    if name == "TODO" then Some(TODO)
    else if name == "IN_PROGRESS" then Some(IN_PROGRESS)
    else if name == "DONE" then Some(DONE)
    else None
  }

  /** A task. `createdAt` and `updatedAt` are milliseconds since the epoch. */
  datatype Task = Task(
    id: Option<string>,
    boardId: string,
    title: string,
    description: Option<string>,
    dueDate: Option<string>,
    dueTime: Option<string>,
    priority: Priority,
    status: Status,
    assignedTo: seq<string>,
    ownerId: string,
    createdAt: int,
    updatedAt: int)

  datatype Board = Board(
    id: string,
    title: string,
    description: Option<string>,
    imageUrl: Option<string>,
    tasksCount: int,
    dueDate: Option<string>,
    ownerId: string,
    members: seq<string>,
    createdAt: int)

  datatype User = User(id: string, firstName: Option<string>, lastName: Option<string>, email: string)

  /** A notification; `timestamp` is the server time in milliseconds, None until the server sets it. */
  datatype Notification = Notification(
    id: string,
    kind: NotificationType,
    title: string,
    message: string,
    taskId: Option<string>,
    boardId: Option<string>,
    boardTitle: Option<string>,
    fromUserId: Option<string>,
    timestamp: Option<int>,
    isRead: bool)
}
