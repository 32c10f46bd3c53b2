/**
 * The board mapper (data/mapper/BoardMapper.kt) between the Firestore record
 * `BoardDTO` and the domain `Board`. The current time is a parameter.
 */
module BoardMapper {
  import opened Wrappers
  import opened Text
  import opened Entities

  /** The Firestore board record. */
  datatype BoardDto = BoardDto(
    id: Option<string>,
    title: Option<string>,
    description: Option<string>,
    imageUrl: Option<string>,
    tasksCount: int,
    dueDate: Option<string>,
    ownerId: Option<string>,
    members: seq<string>,
    createdAt: Option<int>,
    updatedAt: Option<int>)

  const NullIdMessage := "Board ID is required, cannot be null."
  const NullTitleMessage := "Board Title is required, cannot be null."
  const NullOwnerMessage := "Board Owner ID is required, cannot be null."

  /**
   * `BoardDTO.toDomain()`: the id, title and owner are required and checked
   * in that order; a missing creation time becomes `now`.
   */
  function ToDomain(dto: BoardDto, now: int): (r: Result<Board>)
    ensures r.Ok? <==> dto.id.Some? && dto.title.Some? && dto.ownerId.Some?
    ensures dto.id.None? ==> r == Err(NullIdMessage)
    ensures dto.id.Some? && dto.title.None? ==> r == Err(NullTitleMessage)
    ensures dto.id.Some? && dto.title.Some? && dto.ownerId.None? ==> r == Err(NullOwnerMessage)
    ensures r.Ok? ==> r.value.createdAt == (if dto.createdAt.Some? then dto.createdAt.value else now)
  {
    if dto.id.None? then Err(NullIdMessage)
    else if dto.title.None? then Err(NullTitleMessage)
    else if dto.ownerId.None? then Err(NullOwnerMessage)
    else Ok(Board(
      id := dto.id.value,
      title := dto.title.value,
      description := dto.description,
      imageUrl := dto.imageUrl,
      tasksCount := dto.tasksCount,
      dueDate := dto.dueDate,
      ownerId := dto.ownerId.value,
      members := dto.members,
      createdAt := dto.createdAt.GetOr(now)))
  }

  /** `Board.toDto()`: a blank id is sent as null so that Firestore assigns one; the update time is not written. */
  function ToDto(b: Board): (r: BoardDto)
    ensures r.id.None? <==> IsBlank(b.id)
    ensures r.id.Some? ==> r.id.value == b.id
    ensures r.updatedAt.None?
  {
    BoardDto(
      id := if IsBlank(b.id) then None else Some(b.id),
      title := Some(b.title),
      description := b.description,
      imageUrl := b.imageUrl,
      tasksCount := b.tasksCount,
      dueDate := b.dueDate,
      ownerId := Some(b.ownerId),
      members := b.members,
      createdAt := Some(b.createdAt),
      updatedAt := None)
  }

  /** Exact round trip for every board with a non-blank id. */
  lemma BoardRoundTrip(b: Board, now: int)
    requires !IsBlank(b.id)
    ensures ToDomain(ToDto(b), now) == Ok(b)
  {
  }

  /** Exact round trip the other way, for a complete record whose update time is unset. */
  lemma BoardDtoRoundTrip(dto: BoardDto, now: int)
    requires dto.id.Some? && !IsBlank(dto.id.value)
    requires dto.title.Some? && dto.ownerId.Some? && dto.createdAt.Some?
    requires dto.updatedAt.None?
    ensures ToDomain(dto, now).Ok? && ToDto(ToDomain(dto, now).value) == dto
  {
  }

  /** A board with a blank id cannot round-trip: its record has a null id, which `toDomain` rejects. */
  lemma BoardBlankIdFails(b: Board, now: int)
    requires IsBlank(b.id)
    ensures ToDomain(ToDto(b), now) == Err(NullIdMessage)
  {
  }
}
