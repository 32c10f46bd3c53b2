/**
 * The create-task screen's view model
 * (presentation/screen/createtask/CreateTaskViewModel.kt): a state that the
 * screen's commands update, and a save that goes Loading then Finished.
 * `SimpleDateFormat` validity and the clock are parameters; `addTaskUseCase`
 * is modelled by recording the task it is handed, and whether it returned
 * or threw is the argument `stored`.
 */
module CreateTask {
  import opened Wrappers
  import opened Text
  import opened Entities
  import opened DateFormatter
  import opened DateInputInteractor
  import TasksMapper

  datatype CreateTaskState =
    | Creation(
        boardId: string,
        title: string,
        description: Option<string>,
        dueDate: Option<string>,
        dueDateError: Option<string>,
        dueTime: Option<string>,
        priority: Priority,
        status: Status,
        assignedTo: seq<string>)
    | Loading
    | Finished

  datatype CreateTaskCommand =
    | TitleTask(title: string)
    | DescriptionTask(description: string)
    | DueDate(dueDate: string)
    | DueTime(time: string)
    | SetPriority(priority: Priority)
    | AssignMembers(assignedToIds: seq<string>)
    | Back
    | SaveTask

  const InvalidDateMessage := "Invalid date"
  const MissingBoardIdMessage := "boardId is required for CreateTaskViewModel."
  /** The owner every saved task gets: the view model does not ask who is signed in. */
  const CurrentUserId := "user123"

  /** `Creation.isSaveEnabled`: a non-blank title and no date error. Only a form with a title can be saved. */
  function IsSaveEnabled(s: CreateTaskState): (b: bool)
    ensures b ==> s.Creation? && |s.title| > 0 && s.dueDateError != Some(InvalidDateMessage)
  {
    s.Creation? && !IsBlank(s.title) && s.dueDateError.None?
  }

  /** A field command: one that edits a Creation state and leaves any other state alone. */
  predicate IsFieldCommand(cmd: CreateTaskCommand) {
    !cmd.Back? && !cmd.SaveTask?
  }

  /** The state the view model starts in, or the error it throws when the navigation argument is missing. */
  function InitialState(boardId: Option<string>): (r: Result<CreateTaskState>)
    ensures r.Err? <==> boardId.None?
    ensures r.Ok? ==> r.value.Creation? && r.value.boardId == boardId.value
    ensures r.Ok? ==> !IsSaveEnabled(r.value)
    ensures r.Ok? ==> r.value.priority == MEDIUM && r.value.status == TODO && r.value.assignedTo == []
    ensures r.Ok? ==> r.value.description.None? && r.value.dueDate.None? && r.value.dueTime.None? && r.value.dueDateError.None?
  {
    match boardId
    case None => Err(MissingBoardIdMessage)
    case Some(b) => Ok(Creation(b, "", None, None, None, None, MEDIUM, TODO, []))
  }

  /**
   * The task `SaveTask` hands to `addTaskUseCase`: no id, the form's fields and
   * the fixed owner. The two time defaults are separate clock readings.
   */
  function TaskToSave(s: CreateTaskState, createdNow: int, updatedNow: int): (t: Task)
    requires s.Creation?
    ensures t.id.None? && t.ownerId == CurrentUserId
    ensures t.createdAt == createdNow && t.updatedAt == updatedNow
    ensures t.boardId == s.boardId && t.title == s.title && t.assignedTo == s.assignedTo
    ensures t.priority == s.priority && t.status == s.status
    ensures t.description == s.description && t.dueDate == s.dueDate && t.dueTime == s.dueTime
  {
    Task(None, s.boardId, s.title, s.description, s.dueDate, s.dueTime, s.priority, s.status, s.assignedTo, CurrentUserId, createdNow, updatedNow)
  }

  /**
   * The state after one command (for `SaveTask`, the state once the coroutine
   * has finished). `parses` is `SimpleDateFormat`'s verdict on a string.
   * `stored` says whether `addTaskUseCase` returned: when it throws, the
   * uncaught exception ends the coroutine before Finished is written, so the
   * form stays Loading. Only `SaveTask` depends on it.
   */
  function Reduce(s: CreateTaskState, cmd: CreateTaskCommand, parses: string -> bool, stored: bool): (r: CreateTaskState)
    ensures cmd.Back? ==> r == Finished
    ensures cmd.SaveTask? ==> r == (if !IsSaveEnabled(s) then s else if stored then Finished else Loading)
    ensures IsFieldCommand(cmd) ==> (r.Creation? <==> s.Creation?)
    ensures IsFieldCommand(cmd) && !s.Creation? ==> r == s
    ensures IsFieldCommand(cmd) && s.Creation? ==> r.boardId == s.boardId && r.status == s.status
  {
    if cmd.Back? then Finished
    else if cmd.SaveTask? then (if !IsSaveEnabled(s) then s else if stored then Finished else Loading)
    else if !s.Creation? then s
    else match cmd
      case TitleTask(t) => s.(title := t)
      case DescriptionTask(d) => s.(description := Some(d))
      case DueDate(raw) =>
        var formatted := FormatUserInput(raw);
        s.(dueDate := Some(formatted), dueDateError := if IsValid(formatted, parses) then None else Some(InvalidDateMessage))
      case DueTime(t) => s.(dueTime := Some(t))
      case SetPriority(p) => s.(priority := p)
      case AssignMembers(ids) => s.(assignedTo := ids)
  }

  /** The state after a sequence of commands, each completed before the next. */
  function ReduceAll(s: CreateTaskState, cmds: seq<CreateTaskCommand>, parses: string -> bool, stored: bool): CreateTaskState
    decreases |cmds|
  {
    if cmds == [] then s else ReduceAll(Reduce(s, cmds[0], parses, stored), cmds[1..], parses, stored)
  }

  /** Each field command replaces exactly its own field of a Creation state. */
  lemma FieldCommandsReplaceOneField(s: CreateTaskState, parses: string -> bool, stored: bool, text: string, p: Priority, ids: seq<string>)
    requires s.Creation?
    ensures Reduce(s, TitleTask(text), parses, stored) == s.(title := text)
    ensures Reduce(s, DescriptionTask(text), parses, stored) == s.(description := Some(text))
    ensures Reduce(s, DueTime(text), parses, stored) == s.(dueTime := Some(text))
    ensures Reduce(s, SetPriority(p), parses, stored) == s.(priority := p)
    ensures Reduce(s, AssignMembers(ids), parses, stored) == s.(assignedTo := ids)
  {
  }

  /**
   * `DueDate` stores the masked input (digits and '/', at most ten characters)
   * and sets the error exactly when the masked text does not parse; no other
   * field changes.
   */
  lemma DueDateSetsError(s: CreateTaskState, raw: string, parses: string -> bool, stored: bool)
    requires s.Creation?
    ensures var r := Reduce(s, DueDate(raw), parses, stored);
      && r.dueDate == Some(FormatUserInput(raw))
      && |r.dueDate.value| <= 10 && DigitsAndSlashes(r.dueDate.value)
      && (r.dueDateError.None? <==> IsValid(FormatUserInput(raw), parses))
      && (r.dueDateError.Some? ==> r.dueDateError.value == InvalidDateMessage)
      && r.(dueDate := s.dueDate, dueDateError := s.dueDateError) == s
  {
  }

  /** How a field command moves `isSaveEnabled`: only the title and the date can change it. */
  lemma SaveEnabledAfterFieldCommand(s: CreateTaskState, cmd: CreateTaskCommand, parses: string -> bool, stored: bool)
    requires s.Creation? && IsFieldCommand(cmd)
    ensures cmd.TitleTask? ==> (IsSaveEnabled(Reduce(s, cmd, parses, stored)) <==> !IsBlank(cmd.title) && s.dueDateError.None?)
    ensures cmd.DueDate? ==> (IsSaveEnabled(Reduce(s, cmd, parses, stored)) <==> !IsBlank(s.title) && IsValid(FormatUserInput(cmd.dueDate), parses))
    ensures !cmd.TitleTask? && !cmd.DueDate? ==> (IsSaveEnabled(Reduce(s, cmd, parses, stored)) <==> IsSaveEnabled(s))
  {
  }

  /**
   * Only `SaveTask` depends on the use case's outcome, and an enabled save
   * that throws leaves the form Loading, which only `Back` then leaves.
   */
  lemma OutcomeMattersOnlyForSave(s: CreateTaskState, cmd: CreateTaskCommand, parses: string -> bool)
    ensures !cmd.SaveTask? ==> Reduce(s, cmd, parses, true) == Reduce(s, cmd, parses, false)
    ensures cmd.SaveTask? && IsSaveEnabled(s) ==>
      Reduce(s, cmd, parses, true) == Finished && Reduce(s, cmd, parses, false) == Loading
  {
  }

  /** Finished is final: no command leaves it. Loading is left only by `Back`. */
  lemma FinishedAndLoadingAreStable(cmd: CreateTaskCommand, parses: string -> bool, stored: bool)
    ensures Reduce(Finished, cmd, parses, stored) == Finished
    ensures Reduce(Loading, cmd, parses, stored) == (if cmd.Back? then Finished else Loading)
  {
  }

  /**
   * Any run of field commands from a Creation state ends in a Creation state
   * for the same board with the same status: the form cannot leave the
   * screen or move the task to another board by itself.
   */
  lemma {:induction false} FieldCommandsKeepCreation(s: CreateTaskState, cmds: seq<CreateTaskCommand>, parses: string -> bool, stored: bool)
    requires s.Creation?
    requires forall i :: 0 <= i < |cmds| ==> IsFieldCommand(cmds[i])
    ensures var r := ReduceAll(s, cmds, parses, stored);
      r.Creation? && r.boardId == s.boardId && r.status == s.status
    decreases |cmds|
  {
    if cmds != [] {
      var next := Reduce(s, cmds[0], parses, stored);
      assert forall i :: 0 <= i < |cmds[1..]| ==> IsFieldCommand(cmds[1..][i]) by {
        forall i | 0 <= i < |cmds[1..]|
          ensures IsFieldCommand(cmds[1..][i])
        {
          assert cmds[1..][i] == cmds[i + 1];
        }
      }
      FieldCommandsKeepCreation(next, cmds[1..], parses, stored);
    }
  }

  /**
   * The saved task has no id, so its mapped record has a null id; the task
   * repository then gives the new document its id.
   */
  lemma SavedTaskHasNoId(s: CreateTaskState, createdNow: int, updatedNow: int)
    requires s.Creation?
    ensures TasksMapper.ToDto(TaskToSave(s, createdNow, updatedNow)).id.None?
  {
  }

  /** The view model: its state, every value written to it, and the tasks handed to `addTaskUseCase`. */
  class CreateTaskViewModel {
    var state: CreateTaskState
    var trace: seq<CreateTaskState>
    var saved: seq<Task>

    /** Built with the `boardId` navigation argument; the missing-argument case is `InitialState(None)`. */
    constructor (boardId: string)
      ensures Ok(state) == InitialState(Some(boardId))
      ensures trace == [state] && saved == []
    {
      state := Creation(boardId, "", None, None, None, None, MEDIUM, TODO, []);
      trace := [Creation(boardId, "", None, None, None, None, MEDIUM, TODO, [])];
      saved := [];
    }

    /**
     * `processCommand`. A field command or `Back` writes its new state once.
     * `SaveTask` on an enabled form writes Loading and hands the task to
     * `addTaskUseCase`; Finished follows only when the call returns
     * (`stored`). On a form that cannot be saved it does nothing.
     */
    method ProcessCommand(cmd: CreateTaskCommand, parses: string -> bool, createdNow: int, updatedNow: int, stored: bool)
      modifies this
      ensures state == Reduce(old(state), cmd, parses, stored)
      ensures !cmd.SaveTask? ==> trace == old(trace) + [state] && saved == old(saved)
      ensures cmd.SaveTask? && IsSaveEnabled(old(state)) ==>
        trace == old(trace) + (if stored then [Loading, Finished] else [Loading])
        && saved == old(saved) + [TaskToSave(old(state), createdNow, updatedNow)]
      ensures cmd.SaveTask? && !IsSaveEnabled(old(state)) ==> trace == old(trace) && saved == old(saved)
    {
      if cmd.SaveTask? {
        var current := state;
        if IsSaveEnabled(current) {
          state := Loading;
          trace := trace + [Loading];
          var task := TaskToSave(current, createdNow, updatedNow);
          saved := saved + [task];
          if stored {
            state := Finished;
            trace := trace + [Finished];
          }
        }
      } else {
        state := Reduce(state, cmd, parses, stored);
        trace := trace + [state];
      }
    }
  }
}
