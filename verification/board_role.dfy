/** The caller's effective role on a board, decided from the board lookup and the signed-in user. */
module BoardRole {
  import opened Wrappers
  import Boards

  datatype Role = Owner | Editor | Viewer

  /** A reactive query: `undefined` while loading, then its value (here `null` or a board). */
  datatype Query<T> = Loading | Loaded(value: T)

  /** A signed-in user: `userId` is neither null/undefined nor empty. */
  predicate SignedIn(userId: Option<string>) {
    userId.Some? && userId.value != ""
  }

  /**
   * `useBoardRole`: None (still loading), Viewer without a board or a user,
   * Owner for the board's owner, Editor for anyone else signed in.
   */
  function UseBoardRole(board: Query<Option<Boards.Board>>, userId: Option<string>): (role: Option<Role>)
    ensures role.None? <==> board.Loading?
    ensures role == Some(Viewer) <==> board.Loaded? && (board.value.None? || !SignedIn(userId))
    ensures role == Some(Owner) <==>
      board.Loaded? && board.value.Some? && SignedIn(userId) && board.value.value.ownerId == userId.value
    ensures role == Some(Editor) <==>
      board.Loaded? && board.value.Some? && SignedIn(userId) && board.value.value.ownerId != userId.value
  {
    match board
    case Loading => None
    case Loaded(b) =>
      if b.None? || !SignedIn(userId) then Some(Viewer)
      else if b.value.ownerId == userId.value then Some(Owner)
      else Some(Editor)
  }

  /** The components' gate: anything but "viewer" may edit, including the loading state. */
  predicate CanEdit(role: Option<Role>) {
    role != Some(Viewer)
  }

  /** Exactly one outcome, and ownership always needs a signed-in user whose id is the owner id. */
  lemma RoleIsTotal(board: Query<Option<Boards.Board>>, userId: Option<string>)
    ensures var r := UseBoardRole(board, userId);
      r in {None, Some(Owner), Some(Editor), Some(Viewer)}
    ensures UseBoardRole(board, userId) == Some(Owner) ==> SignedIn(userId)
    ensures CanEdit(UseBoardRole(board, userId)) <==> board.Loading? || (board.value.Some? && SignedIn(userId))
  {
  }

  /** Membership in the organisation plays no part: two boards with the same owner give the same role. */
  lemma RoleIgnoresOrganisation(b1: Boards.Board, b2: Boards.Board, userId: Option<string>)
    requires b1.ownerId == b2.ownerId
    ensures UseBoardRole(Loaded(Some(b1)), userId) == UseBoardRole(Loaded(Some(b2)), userId)
  {
  }
}
