/**
 * The create-board screen's view model
 * (presentation/screen/createboard/CreateBoardViewModel.kt). A `URL` is
 * represented by its text, which is all the view model keeps of it;
 * `addBoardUseCase` is modelled by recording the board it is handed, and
 * whether it returned or threw is the argument `stored`.
 */
module CreateBoard {
  import opened Wrappers
  import opened Text
  import opened Entities

  datatype CreateBoardState =
    | Creation(title: string, description: string, imageUrl: Option<string>)
    | Finished

  datatype CreateBoardCommand =
    | AddImage(url: string)
    | InputTitle(title: string)
    | InputDescription(description: string)
    | DeleteImage(index: int)
    | SaveBoard
    | Back

  /** The owner every saved board gets: the view model does not ask who is signed in. */
  const CurrentUserId := "currentUserId"

  /** The state the view model starts in: an empty form. */
  const InitialState: CreateBoardState := Creation("", "", None)

  /** `Creation.isSaveEnabled`: a non-blank title and a chosen image. Only a form with a title can be saved. */
  function IsSaveEnabled(s: CreateBoardState): (b: bool)
    ensures b ==> s.Creation? && |s.title| > 0 && s.imageUrl.Some?
  {
    s.Creation? && !IsBlank(s.title) && s.imageUrl.Some?
  }

  /**
   * The board `SaveBoard` hands to `addBoardUseCase`: the form's title,
   * description and image with the fixed owner. The source passes no id; the
   * model gives it the empty id, which the board mapper sends as null.
   */
  function BoardToSave(s: CreateBoardState, now: int): (b: Board)
    requires s.Creation?
    ensures b.title == s.title && b.description == Some(s.description) && b.imageUrl == s.imageUrl
    ensures b.ownerId == CurrentUserId && b.id == ""
    ensures b.tasksCount == 0 && b.members == [] && b.dueDate.None? && b.createdAt == now
  {
    Board("", s.title, Some(s.description), s.imageUrl, 0, None, CurrentUserId, [], now)
  }

  /**
   * The state after one command. `SaveBoard` finishes any Creation state
   * whether or not saving is enabled, provided `addBoardUseCase` returns
   * (`stored`): when it throws, the `update` lambda is abandoned and the
   * form stays as it was. Only `SaveBoard` depends on `stored`.
   */
  function Reduce(s: CreateBoardState, cmd: CreateBoardCommand, stored: bool): (r: CreateBoardState)
    ensures cmd.Back? ==> r == Finished
    ensures cmd.SaveBoard? ==> r == (if stored then Finished else s)
    ensures s.Finished? ==> r == Finished
    ensures !cmd.Back? && !cmd.SaveBoard? ==> (r.Creation? <==> s.Creation?)
  {
    match (cmd, s)
    case (Back, _) => Finished
    case (SaveBoard, _) => if stored then Finished else s
    case (_, Finished) => Finished
    case (AddImage(url), Creation(t, d, _)) => Creation(t, d, Some(url))
    case (DeleteImage(_), Creation(t, d, _)) => Creation(t, d, None)
    case (InputTitle(t), Creation(_, d, u)) => Creation(t, d, u)
    case (InputDescription(d), Creation(t, _, u)) => Creation(t, d, u)
  }

  /** The initial form cannot be saved. */
  lemma InitialStateCannotSave()
    ensures InitialState.Creation? && !IsSaveEnabled(InitialState)
  {
  }

  /** Each field command replaces only its own field; `DeleteImage` clears the image whatever its index. */
  lemma FieldCommandsReplaceOneField(s: CreateBoardState, text: string, index: int, stored: bool)
    requires s.Creation?
    ensures Reduce(s, AddImage(text), stored) == s.(imageUrl := Some(text))
    ensures Reduce(s, DeleteImage(index), stored) == s.(imageUrl := None)
    ensures Reduce(s, InputTitle(text), stored) == s.(title := text)
    ensures Reduce(s, InputDescription(text), stored) == s.(description := text)
  {
  }

  /** With a non-blank title, the image alone decides whether the form can be saved. */
  lemma ImageTogglesSave(s: CreateBoardState, url: string, index: int, stored: bool)
    requires s.Creation? && !IsBlank(s.title)
    ensures IsSaveEnabled(Reduce(s, AddImage(url), stored))
    ensures !IsSaveEnabled(Reduce(s, DeleteImage(index), stored))
  {
  }

  /** The saved board's id is blank, so the board mapper sends it with a null id. */
  lemma SavedBoardHasNoId(s: CreateBoardState, now: int)
    requires s.Creation?
    ensures IsBlank(BoardToSave(s, now).id)
  {
  }

  /** The view model: its state and the boards handed to `addBoardUseCase`. */
  class CreateBoardViewModel {
    var state: CreateBoardState
    var saved: seq<Board>

    constructor ()
      ensures state == InitialState && saved == []
    {
      state := InitialState;
      saved := [];
    }

    /**
     * `processCommand`; `now` is the creation time `Board` takes by default.
     * A save from Creation hands the board over whatever the outcome.
     */
    method ProcessCommand(cmd: CreateBoardCommand, now: int, stored: bool)
      modifies this
      ensures state == Reduce(old(state), cmd, stored)
      ensures cmd.SaveBoard? && old(state).Creation? ==> saved == old(saved) + [BoardToSave(old(state), now)]
      ensures !(cmd.SaveBoard? && old(state).Creation?) ==> saved == old(saved)
    {
      if cmd.SaveBoard? && state.Creation? {
        saved := saved + [BoardToSave(state, now)];
      }
      state := Reduce(state, cmd, stored);
    }
  }
}
