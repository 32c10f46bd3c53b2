/**
 * The task-details screen's view model
 * (presentation/screen/taskdetails/TaskDetailsViewModel.kt): the state the
 * task observer writes, the users looked up for it, and the commands that
 * change the task's status optimistically and roll back on failure.
 * Each coroutine is one sequential step; whether its use case succeeds is an
 * explicit `ok` parameter, and the user lookup is a function parameter.
 */
module TaskDetails {
  import opened Wrappers
  import opened Entities

  datatype TaskDetailsState =
    | Loading
    | Success(task: Task, creator: Option<User>, assignee: Option<User>)
    | Error(message: string)

  datatype TaskDetailsCommand = MarkAsCompleted | MarkAsRework | DeclineTask | NavigateBack

  datatype TaskDetailsEffect = ShowToast(message: string) | ShowError(message: string) | NavigateBackEffect

  /** The final state after a command, and the effects it sent in order. */
  datatype Outcome = Outcome(state: TaskDetailsState, effects: seq<TaskDetailsEffect>)

  const LoadFailedMessage := "Failed to load task"
  const DeletedMessage := "Task was deleted"
  const DeclinedMessage := "Task declined"
  const DeclineFailedMessage := "Failed to decline task"

  /** What the task observer writes for one emission: the task, or an error when it was deleted. */
  function OnEmission(task: Option<Task>): (r: TaskDetailsState)
    ensures task.None? <==> r.Error?
    ensures task.None? ==> r.message == DeletedMessage
    ensures task.Some? ==> r == Success(task.value, None, None)
  {
    match task
    case None => Error(DeletedMessage)
    case Some(t) => Success(t, None, None)
  }

  /** What the observer's `catch` writes when the stream fails. */
  function OnFailure(message: Option<string>): (r: TaskDetailsState)
    ensures r.Error?
    ensures message.Some? ==> r.message == message.value
    ensures message.None? ==> r.message == LoadFailedMessage
  {
    Error(message.GetOr(LoadFailedMessage))
  }

  /** The id `loadUsers` looks the assignee up by: the first assignee, if any. */
  function AssigneeId(task: Task): (r: Option<string>)
    ensures r.None? <==> task.assignedTo == []
    ensures r.Some? ==> r.value == task.assignedTo[0] && r.value in task.assignedTo
  {
    if task.assignedTo == [] then None else Some(task.assignedTo[0])
  }

  /**
   * What `loadUsers(task)` writes: the creator and assignee looked up for the
   * emitted task, applied to the task now in the state, and only if the state
   * is still Success. `lookup` returns None where the use case fails.
   */
  function UsersLoaded(s: TaskDetailsState, task: Task, lookup: string -> Option<User>): (r: TaskDetailsState)
    ensures !s.Success? ==> r == s
    ensures s.Success? ==> r.Success? && r.task == s.task
    ensures s.Success? ==> r.creator == lookup(task.ownerId)
    ensures s.Success? && task.assignedTo == [] ==> r.assignee.None?
    ensures s.Success? && task.assignedTo != [] ==> r.assignee == lookup(task.assignedTo[0])
  {
    if !s.Success? then s
    else
      var assignee := match AssigneeId(task) case None => None case Some(id) => lookup(id);
      Success(s.task, lookup(task.ownerId), assignee)
  }

  /**
   * Commands run only on a Success state whose task has an id: the Loading
   * and Error screens, and a task never stored, ignore them.
   */
  function Accepts(s: TaskDetailsState): (b: bool)
    ensures !s.Success? ==> !b
    ensures s.Success? && s.task.id.None? ==> !b
    ensures s.Success? && s.task.id.Some? ==> b
  {
    s.Success? && s.task.id.Some?
  }

  /** The status a status command moves the task to: never back to TODO, and DONE only on completion. */
  function TargetStatus(cmd: TaskDetailsCommand): (r: Status)
    requires cmd.MarkAsCompleted? || cmd.MarkAsRework?
    ensures r != TODO
    ensures r == DONE <==> cmd.MarkAsCompleted?
  {
    if cmd.MarkAsCompleted? then DONE else IN_PROGRESS
  }

  /** The toast sent when a status command succeeds: never the failure text, and never the decline toast. */
  function SuccessMessage(cmd: TaskDetailsCommand): (r: string)
    requires cmd.MarkAsCompleted? || cmd.MarkAsRework?
    ensures r != ErrorMessage(cmd) && r != DeclinedMessage && r != DeclineFailedMessage
  {
    if cmd.MarkAsCompleted? then "Task completed" else "Task returned to work"
  }

  /** The error sent when a status command fails: never the decline error, and each command has its own. */
  function ErrorMessage(cmd: TaskDetailsCommand): (r: string)
    requires cmd.MarkAsCompleted? || cmd.MarkAsRework?
    ensures r != DeclineFailedMessage && r != DeclinedMessage
    ensures cmd.MarkAsCompleted? <==> r == "Failed to complete task"
  {
    if cmd.MarkAsCompleted? then "Failed to complete task" else "Failed to return task"
  }

  /** The optimistic state a status command writes before calling the use case. */
  function Optimistic(s: TaskDetailsState, cmd: TaskDetailsCommand): (r: TaskDetailsState)
    requires s.Success? && (cmd.MarkAsCompleted? || cmd.MarkAsRework?)
    ensures r.Success? && r.creator == s.creator && r.assignee == s.assignee
    ensures r.task.status == TargetStatus(cmd) && r.task.(status := s.task.status) == s.task
  {
    s.(task := s.task.(status := TargetStatus(cmd)))
  }

  /**
   * `processCommand` once its coroutine has finished; `ok` says whether the
   * edit or delete use case succeeded.
   */
  function Process(s: TaskDetailsState, cmd: TaskDetailsCommand, ok: bool): (r: Outcome)
    ensures !Accepts(s) ==> r == Outcome(s, [])
    ensures !(Accepts(s) && ok && (cmd.MarkAsCompleted? || cmd.MarkAsRework?)) ==> r.state == s
    ensures Accepts(s) && ok && (cmd.MarkAsCompleted? || cmd.MarkAsRework?) ==> r.state == Optimistic(s, cmd)
    ensures Accepts(s) && (cmd.MarkAsCompleted? || cmd.MarkAsRework?) ==>
      r.effects == (if ok then [ShowToast(SuccessMessage(cmd)), NavigateBackEffect] else [ShowError(ErrorMessage(cmd))])
  {
    if !Accepts(s) then Outcome(s, [])
    else match cmd
      case MarkAsCompleted =>
        if ok then Outcome(Optimistic(s, cmd), [ShowToast(SuccessMessage(cmd)), NavigateBackEffect])
        else Outcome(s, [ShowError(ErrorMessage(cmd))])
      case MarkAsRework =>
        if ok then Outcome(Optimistic(s, cmd), [ShowToast(SuccessMessage(cmd)), NavigateBackEffect])
        else Outcome(s, [ShowError(ErrorMessage(cmd))])
      case DeclineTask =>
        if ok then Outcome(s, [ShowToast(DeclinedMessage), NavigateBackEffect])
        else Outcome(s, [ShowError(DeclineFailedMessage)])
      case NavigateBack => Outcome(s, [NavigateBackEffect])
  }

  /** `DeclineTask` never changes the state, whatever the outcome. */
  lemma DeclineKeepsState(s: TaskDetailsState, ok: bool)
    ensures Process(s, DeclineTask, ok).state == s
    ensures Accepts(s) ==>
      Process(s, DeclineTask, ok).effects == (if ok then [ShowToast(DeclinedMessage), NavigateBackEffect] else [ShowError(DeclineFailedMessage)])
  {
  }

  /** The screen is told to go back exactly when an accepted command succeeded, or was `NavigateBack`. */
  lemma NavigatesBackIffSucceeded(s: TaskDetailsState, cmd: TaskDetailsCommand, ok: bool)
    ensures NavigateBackEffect in Process(s, cmd, ok).effects <==> Accepts(s) && (ok || cmd.NavigateBack?)
  {
  }

  /** Every error effect comes from a failed use case, and a failed use case never changes the state. */
  lemma ErrorsComeFromFailures(s: TaskDetailsState, cmd: TaskDetailsCommand, ok: bool)
    ensures (exists e :: e in Process(s, cmd, ok).effects && e.ShowError?) <==> Accepts(s) && !ok && !cmd.NavigateBack?
    ensures !ok ==> Process(s, cmd, ok).state == s
  {
    var r := Process(s, cmd, ok);
    if Accepts(s) && !ok && !cmd.NavigateBack? {
      assert r.effects[0] in r.effects && r.effects[0].ShowError?;
    }
  }

  /** Once a completion has succeeded, completing the task again changes nothing, whatever its outcome. */
  lemma MarkAsCompletedIdempotent(s: TaskDetailsState, ok2: bool)
    ensures var s1 := Process(s, MarkAsCompleted, true).state;
      Process(s1, MarkAsCompleted, ok2).state == s1
  {
  }

  /** The state after a run of commands, each with its own use-case outcome. */
  function ProcessAll(s: TaskDetailsState, cmds: seq<TaskDetailsCommand>, oks: seq<bool>): TaskDetailsState
    requires |cmds| == |oks|
    decreases |cmds|
  {
    if cmds == [] then s else ProcessAll(Process(s, cmds[0], oks[0]).state, cmds[1..], oks[1..])
  }

  /**
   * However the commands and their outcomes go, the screen's commands can
   * only change the task's status: every other field of the task, the
   * creator and the assignee stay as they were.
   */
  lemma {:induction false} CommandsChangeOnlyStatus(s: TaskDetailsState, cmds: seq<TaskDetailsCommand>, oks: seq<bool>)
    requires |cmds| == |oks|
    ensures var r := ProcessAll(s, cmds, oks);
      && (r.Success? <==> s.Success?)
      && (s.Success? ==> r.task.(status := s.task.status) == s.task && r.creator == s.creator && r.assignee == s.assignee)
      && (!s.Success? ==> r == s)
    decreases |cmds|
  {
    if cmds != [] {
      var next := Process(s, cmds[0], oks[0]).state;
      CommandsChangeOnlyStatus(next, cmds[1..], oks[1..]);
    }
  }

  /** A run of commands whose use cases all fail leaves the state exactly as it was. */
  lemma {:induction false} FailuresRollBack(s: TaskDetailsState, cmds: seq<TaskDetailsCommand>, oks: seq<bool>)
    requires |cmds| == |oks|
    requires forall i :: 0 <= i < |oks| ==> !oks[i]
    ensures ProcessAll(s, cmds, oks) == s
    decreases |cmds|
  {
    if cmds != [] {
      assert forall i :: 0 <= i < |oks[1..]| ==> !oks[1..][i] by {
        forall i | 0 <= i < |oks[1..]|
          ensures !oks[1..][i]
        {
          assert oks[1..][i] == oks[i + 1];
        }
      }
      FailuresRollBack(s, cmds[1..], oks[1..]);
    }
  }

  /** The view model: its state, every state it wrote in order, and the effects it sent in order. */
  class TaskDetailsViewModel {
    var state: TaskDetailsState
    var trace: seq<TaskDetailsState>
    var effects: seq<TaskDetailsEffect>

    constructor ()
      ensures state == Loading && trace == [Loading] && effects == []
    {
      state := Loading;
      trace := [Loading];
      effects := [];
    }

    /** The observer's `onStart`. */
    method OnStart()
      modifies this
      ensures state == Loading && trace == old(trace) + [Loading] && effects == old(effects)
    {
      state := Loading;
      trace := trace + [Loading];
    }

    /** The observer's `onEach` for one emitted value, null when the task was deleted. */
    method OnTask(task: Option<Task>)
      modifies this
      ensures state == OnEmission(task) && trace == old(trace) + [state] && effects == old(effects)
    {
      state := OnEmission(task);
      trace := trace + [state];
    }

    /** The observer's `catch`, with the exception's message. */
    method OnError(message: Option<string>)
      modifies this
      ensures state == OnFailure(message) && trace == old(trace) + [state] && effects == old(effects)
    {
      state := OnFailure(message);
      trace := trace + [state];
    }

    /** `loadUsers(task)` once both lookups have finished: writes only if the state is still Success. */
    method LoadUsers(task: Task, lookup: string -> Option<User>)
      modifies this
      ensures state == UsersLoaded(old(state), task, lookup)
      ensures trace == old(trace) + (if old(state).Success? then [state] else [])
      ensures effects == old(effects)
    {
      if state.Success? {
        var creator := lookup(task.ownerId);
        var assigneeId := AssigneeId(task);
        var assignee := None;
        if assigneeId.Some? {
          assignee := lookup(assigneeId.value);
        }
        state := Success(state.task, creator, assignee);
        trace := trace + [state];
      }
    }

    /**
     * `processCommand` with the outcome of its use case. A status command
     * first writes the optimistic state, and writes the old state back if the
     * edit fails.
     */
    method ProcessCommand(cmd: TaskDetailsCommand, ok: bool)
      modifies this
      ensures state == Process(old(state), cmd, ok).state
      ensures effects == old(effects) + Process(old(state), cmd, ok).effects
      ensures Accepts(old(state)) && (cmd.MarkAsCompleted? || cmd.MarkAsRework?) ==>
        trace == old(trace) + [Optimistic(old(state), cmd)] + (if ok then [] else [old(state)])
      ensures !(Accepts(old(state)) && (cmd.MarkAsCompleted? || cmd.MarkAsRework?)) ==> trace == old(trace)
    {
      if !Accepts(state) {
        return;
      }
      match cmd {
        case MarkAsCompleted =>
          UpdateTask(cmd, ok);
        case MarkAsRework =>
          UpdateTask(cmd, ok);
        case DeclineTask =>
          if ok {
            effects := effects + [ShowToast(DeclinedMessage), NavigateBackEffect];
          } else {
            effects := effects + [ShowError(DeclineFailedMessage)];
          }
        case NavigateBack =>
          effects := effects + [NavigateBackEffect];
      }
    }

    /** `updateTask`: the optimistic write, then the effects of success or the rollback of failure. */
    method UpdateTask(cmd: TaskDetailsCommand, ok: bool)
      requires state.Success? && (cmd.MarkAsCompleted? || cmd.MarkAsRework?)
      modifies this
      ensures state == (if ok then Optimistic(old(state), cmd) else old(state))
      ensures trace == old(trace) + [Optimistic(old(state), cmd)] + (if ok then [] else [old(state)])
      ensures effects == old(effects) + (if ok then [ShowToast(SuccessMessage(cmd)), NavigateBackEffect] else [ShowError(ErrorMessage(cmd))])
    {
      var oldState := state;
      state := Optimistic(oldState, cmd);
      trace := trace + [state];
      if ok {
        effects := effects + [ShowToast(SuccessMessage(cmd)), NavigateBackEffect];
      } else {
        state := oldState;
        trace := trace + [state];
        effects := effects + [ShowError(ErrorMessage(cmd))];
      }
    }
  }
}
