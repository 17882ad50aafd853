/**
 * The board metadata store: the `boards` and `userFavorites` tables and the
 * mutations and queries over them. Identities come from the auth provider and
 * are inputs; the random placeholder pick is a nondeterministic choice.
 *
 * The store runs each mutation as a transaction: a mutation that throws
 * leaves both tables as they were. Patching or deleting a document that does
 * not exist throws.
 */
module Boards {
  import opened Wrappers
  import JsStrings

  /** Board document ids, issued in creation order. */
  type BoardId = nat

  datatype Board = Board(title: string, ownerId: string, orgId: string, authorName: string, authorImage: string, imageUrl: string)

  /** A `userFavorites` record: the user, the board, and the organisation the caller named when favouriting. */
  datatype Favorite = Favorite(userId: string, boardId: BoardId, orgId: string)

  /** What the auth provider says about the caller. */
  datatype Identity = Identity(subject: string, name: Option<string>, pictureUrl: Option<string>)

  datatype Error =
    | Unauthorized
    | TitleEmpty          // "Title cannot be empty"
    | TitleTooLong        // "Title too long (max 60 chars)"
    | BoardNotFound       // "Board not found"
    | NonexistentDocument // the store refuses to patch or delete a missing document

  /** A board as `getBoards` returns it: the document with its id and the caller's favourite flag. */
  datatype BoardView = BoardView(id: BoardId, board: Board, isFavorite: bool)

  const Placeholders: seq<string> := [
    "/placeholders/1.svg", "/placeholders/2.svg", "/placeholders/3.svg",
    "/placeholders/4.svg", "/placeholders/5.svg", "/placeholders/6.svg"
  ]

  const MaxTitleLength: nat := 60

  /** The record belongs to (user, board). */
  predicate Matches(f: Favorite, user: string, board: BoardId) {
    f.userId == user && f.boardId == board
  }

  /** No two records share a (user, board) pair, so the `by_user_board` lookup is unique. */
  ghost predicate UniqueFavorites(favs: seq<Favorite>) {
    forall i, j :: 0 <= i < j < |favs| ==>
      (favs[i].userId, favs[i].boardId) != (favs[j].userId, favs[j].boardId)
  }

  /** `query("userFavorites").withIndex("by_user_board", ...).unique()`: the index of the record, if any. */
  function FindFavorite(favs: seq<Favorite>, user: string, board: BoardId): (r: Option<nat>)
    ensures r.Some? ==> r.value < |favs| && Matches(favs[r.value], user, board)
    ensures r.None? ==> forall i :: 0 <= i < |favs| ==> !Matches(favs[i], user, board)
  {
    if favs == [] then None
    else if Matches(favs[|favs| - 1], user, board) then Some(|favs| - 1)
    else FindFavorite(favs[..|favs| - 1], user, board)
  }

  /** The caller has favourited the board: some record matches the pair. */
  predicate HasFavorite(favs: seq<Favorite>, user: string, board: BoardId)
    ensures HasFavorite(favs, user, board) <==> exists i :: 0 <= i < |favs| && Matches(favs[i], user, board)
  {
    FindFavorite(favs, user, board).Some?
  }

  /** The favourites table after `favorite`: unchanged if the pair is there, else one record appended. */
  function WithFavorite(favs: seq<Favorite>, user: string, board: BoardId, orgId: string): (r: seq<Favorite>)
    ensures HasFavorite(favs, user, board) ==> r == favs
    ensures !HasFavorite(favs, user, board) ==> |r| == |favs| + 1 && r[..|favs|] == favs && r[|favs|] == Favorite(user, board, orgId)
  {
    if HasFavorite(favs, user, board) then favs else favs + [Favorite(user, board, orgId)]
  }

  /** The favourites table after deleting the (user, board) record, if there is one. */
  function WithoutFavorite(favs: seq<Favorite>, user: string, board: BoardId): (r: seq<Favorite>)
    ensures !HasFavorite(favs, user, board) ==> r == favs
    ensures HasFavorite(favs, user, board) ==> |r| == |favs| - 1
  {
    match FindFavorite(favs, user, board)
    case None => favs
    case Some(i) => favs[..i] + favs[i + 1..]
  }

  /** Favouriting adds the pair, keeps every record, and keeps the table unique. */
  lemma {:induction false} WithFavoriteAdds(favs: seq<Favorite>, user: string, board: BoardId, orgId: string)
    requires UniqueFavorites(favs)
    ensures var r := WithFavorite(favs, user, board, orgId);
      && HasFavorite(r, user, board)
      && UniqueFavorites(r)
      && (forall f :: f in favs ==> f in r)
      && (forall f :: f in r && f !in favs ==> f == Favorite(user, board, orgId))
  {
    var r := WithFavorite(favs, user, board, orgId);
    if !HasFavorite(favs, user, board) {
      assert Matches(r[|r| - 1], user, board);
      forall i, j | 0 <= i < j < |r|
        ensures (r[i].userId, r[i].boardId) != (r[j].userId, r[j].boardId)
      {
        if j == |r| - 1 {
          assert !Matches(favs[i], user, board);
        }
      }
    }
  }

  /** Favouriting twice is favouriting once, whatever organisation the second call names. */
  lemma WithFavoriteIdempotent(favs: seq<Favorite>, user: string, board: BoardId, org1: string, org2: string)
    requires UniqueFavorites(favs)
    ensures WithFavorite(WithFavorite(favs, user, board, org1), user, board, org2) == WithFavorite(favs, user, board, org1)
  {
    WithFavoriteAdds(favs, user, board, org1);
  }

  /**
   * Unfavouriting removes the (user, board) record and nothing else: every
   * other record stays, in order, and the table stays unique.
   */
  lemma {:induction false} WithoutFavoriteRemoves(favs: seq<Favorite>, user: string, board: BoardId)
    requires UniqueFavorites(favs)
    ensures var r := WithoutFavorite(favs, user, board);
      && !HasFavorite(r, user, board)
      && UniqueFavorites(r)
      && (forall f :: f in r ==> f in favs)
      && (forall f :: f in favs && !(f.userId == user && f.boardId == board) ==> f in r)
      && (HasFavorite(favs, user, board) ==>
            exists k :: 0 <= k < |favs| && Matches(favs[k], user, board) && r == favs[..k] + favs[k + 1..])
  {
    match FindFavorite(favs, user, board)
    case None =>
    case Some(k) =>
      assert Matches(favs[k], user, board) && WithoutFavorite(favs, user, board) == favs[..k] + favs[k + 1..];
      RemoveAtNoMatch(favs, user, board, k);
      RemoveAtUnique(favs, k);
      RemoveAtKeepsOthers(favs, user, board, k);
  }

  /** With the unique match at `k` removed, no record matches (user, board) any more. */
  lemma RemoveAtNoMatch(favs: seq<Favorite>, user: string, board: BoardId, k: nat)
    requires UniqueFavorites(favs) && k < |favs| && Matches(favs[k], user, board)
    ensures !HasFavorite(favs[..k] + favs[k + 1..], user, board)
  {
    var r := favs[..k] + favs[k + 1..];
    forall i | 0 <= i < |r| ensures !Matches(r[i], user, board) {
      if i < k {
        assert r[i] == favs[i];
        assert (favs[i].userId, favs[i].boardId) != (favs[k].userId, favs[k].boardId);
      } else {
        assert r[i] == favs[i + 1];
        assert (favs[k].userId, favs[k].boardId) != (favs[i + 1].userId, favs[i + 1].boardId);
      }
    }
  }

  /** Removing one record keeps the table unique. */
  lemma RemoveAtUnique(favs: seq<Favorite>, k: nat)
    requires UniqueFavorites(favs) && k < |favs|
    ensures UniqueFavorites(favs[..k] + favs[k + 1..])
  {
    var r := favs[..k] + favs[k + 1..];
    forall i, j | 0 <= i < j < |r| ensures (r[i].userId, r[i].boardId) != (r[j].userId, r[j].boardId) {
      var i', j' := if i < k then i else i + 1, if j < k then j else j + 1;
      assert r[i] == favs[i'] && r[j] == favs[j'];
    }
  }

  /** Removing the record at `k` keeps every other record and adds none. */
  lemma RemoveAtKeepsOthers(favs: seq<Favorite>, user: string, board: BoardId, k: nat)
    requires k < |favs| && Matches(favs[k], user, board)
    ensures forall f :: f in favs[..k] + favs[k + 1..] ==> f in favs
    ensures forall f :: f in favs && !(f.userId == user && f.boardId == board) ==> f in favs[..k] + favs[k + 1..]
  {
    var r := favs[..k] + favs[k + 1..];
    forall f | f in r ensures f in favs {
      var i :| 0 <= i < |r| && r[i] == f;
      if i < k { assert favs[i] == f; } else { assert favs[i + 1] == f; }
    }
    forall f | f in favs && !(f.userId == user && f.boardId == board) ensures f in r {
      var i :| 0 <= i < |favs| && favs[i] == f;
      if i < k { assert r[i] == f; } else { assert i != k; assert r[i - 1] == f; }
    }
  }

  /** Unfavouriting twice is unfavouriting once. */
  lemma WithoutFavoriteIdempotent(favs: seq<Favorite>, user: string, board: BoardId)
    requires UniqueFavorites(favs)
    ensures WithoutFavorite(WithoutFavorite(favs, user, board), user, board) == WithoutFavorite(favs, user, board)
  {
    WithoutFavoriteRemoves(favs, user, board);
  }

  /** Favouriting a board that was not a favourite and then unfavouriting it restores the table. */
  lemma {:induction false} FavoriteThenUnfavorite(favs: seq<Favorite>, user: string, board: BoardId, orgId: string)
    requires !HasFavorite(favs, user, board)
    ensures WithoutFavorite(WithFavorite(favs, user, board, orgId), user, board) == favs
  {
    var r := favs + [Favorite(user, board, orgId)];
    assert Matches(r[|r| - 1], user, board);
    assert r[..|r| - 1] == favs;
  }

  /** The board `create` inserts for the caller. */
  predicate IsNewBoard(b: Board, identity: Identity, orgId: string, title: string) {
    && b.title == title
    && b.ownerId == identity.subject
    && b.orgId == orgId
    && b.authorName == identity.name.GetOr("Anonymous")
    && b.authorImage == identity.pictureUrl.GetOr("")
    && b.imageUrl in Placeholders
  }

  /** Why `updateTitle` refuses a title, if it does: checked on the trimmed title. */
  function TitleError(title: string): (e: Option<Error>)
    ensures e == None <==> (JsStrings.Trim(title) != [] && JsStrings.Utf16Length(JsStrings.Trim(title)) <= 60)
    ensures e.Some? ==> e.value in {TitleEmpty, TitleTooLong}
    ensures e == Some(TitleEmpty) <==> forall i :: 0 <= i < |title| ==> JsStrings.IsWhitespace(title[i])
  {
    var t := JsStrings.Trim(title);
    if t == [] then Some(TitleEmpty)
    else if JsStrings.Utf16Length(t) > MaxTitleLength then Some(TitleTooLong)
    else None
  }

  /** The boards of `orgId` with an id below `bound`, newest first (the `by_org` index read in descending order). */
  function OrgBoardsDesc(boards: map<BoardId, Board>, orgId: string, bound: nat): (ids: seq<BoardId>)
    ensures forall k :: 0 <= k < |ids| ==> ids[k] < bound && ids[k] in boards && boards[ids[k]].orgId == orgId
    ensures forall id :: id < bound && id in boards && boards[id].orgId == orgId ==> id in ids
    ensures forall k, l :: 0 <= k < l < |ids| ==> ids[k] > ids[l]
  {
    if bound == 0 then []
    else
      var rest := OrgBoardsDesc(boards, orgId, bound - 1);
      var id := bound - 1;
      if id in boards && boards[id].orgId == orgId then [id] + rest else rest
  }

  /** Some record says `user` favourited `board` while in organisation `orgId`. */
  predicate Favourited(favs: seq<Favorite>, user: string, board: BoardId, orgId: string) {
    exists i :: 0 <= i < |favs| && favs[i] == Favorite(user, board, orgId)
  }

  /** A record is in a non-empty list iff it is the last one or in the rest. */
  lemma FavouritedSplit(favs: seq<Favorite>, user: string, orgId: string)
    requires favs != []
    ensures forall x :: Favourited(favs, user, x, orgId) <==>
      favs[|favs| - 1] == Favorite(user, x, orgId) || Favourited(favs[..|favs| - 1], user, x, orgId)
  {
    var init := favs[..|favs| - 1];
    forall x ensures Favourited(favs, user, x, orgId) <==>
      favs[|favs| - 1] == Favorite(user, x, orgId) || Favourited(init, user, x, orgId)
    {
      if Favourited(favs, user, x, orgId) {
        var i :| 0 <= i < |favs| && favs[i] == Favorite(user, x, orgId);
        if i < |init| {
          assert init[i] == favs[i];
        }
      }
      if Favourited(init, user, x, orgId) {
        var i :| 0 <= i < |init| && init[i] == Favorite(user, x, orgId);
        assert favs[i] == init[i];
      }
    }
  }

  /**
   * Favourites mode: the caller's records (in `by_user` index order) whose
   * organisation is `orgId`, mapped to their boards, keeping the boards that
   * still exist and belong to `orgId`.
   */
  function FavoriteBoardIds(boards: map<BoardId, Board>, favs: seq<Favorite>, user: string, orgId: string): (ids: seq<BoardId>)
    ensures forall k :: 0 <= k < |ids| ==> ids[k] in boards && boards[ids[k]].orgId == orgId && HasFavorite(favs, user, ids[k])
    ensures forall x :: x in ids <==> x in boards && boards[x].orgId == orgId && Favourited(favs, user, x, orgId)
    ensures |ids| <= |favs|
  {
    if favs == [] then []
    else
      var init := favs[..|favs| - 1];
      var f := favs[|favs| - 1];
      var rest := FavoriteBoardIds(boards, init, user, orgId);
      assert forall k :: 0 <= k < |rest| ==> HasFavorite(favs, user, rest[k]) by {
        forall k | 0 <= k < |rest| ensures HasFavorite(favs, user, rest[k]) {
          var i := FindFavorite(init, user, rest[k]).value;
          assert Matches(favs[i], user, rest[k]);
        }
      }
      FavouritedSplit(favs, user, orgId);
      if f.userId == user && f.orgId == orgId && f.boardId in boards && boards[f.boardId].orgId == orgId then
        assert Matches(favs[|favs| - 1], user, f.boardId);
        assert f == Favorite(user, f.boardId, orgId);
        rest + [f.boardId]
      else rest
  }

  /** Which branch `getBoards` takes: a truthy `favorites` wins over a truthy `search`. */
  datatype ListingMode = FavoritesListing | SearchListing(query: string) | OrgListing

  function ListingModeOf(favorites: Option<string>, search: Option<string>): (m: ListingMode)
    ensures m.FavoritesListing? <==> favorites.Some? && favorites.value != ""
    ensures m.SearchListing? <==> !m.FavoritesListing? && search.Some? && search.value != ""
    ensures m.SearchListing? ==> search == Some(m.query)
  {
    if favorites.Some? && favorites.value != "" then FavoritesListing
    else if search.Some? && search.value != "" then SearchListing(search.value)
    else OrgListing
  }

  /** The two tables and the id counter of the store. */
  class BoardTables {
    var boards: map<BoardId, Board>
    var favorites: seq<Favorite>
    var nextId: BoardId

    ghost predicate Valid()
      reads this
    {
      && (forall id :: id in boards ==> id < nextId)
      && (forall k :: 0 <= k < |favorites| ==> favorites[k].boardId < nextId)
      && UniqueFavorites(favorites)
    }

    constructor ()
      ensures Valid() && boards == map[] && favorites == [] && nextId == 0
    {
      boards, favorites, nextId := map[], [], 0;
    }

    /** `create`: insert a board owned by the caller. */
    method Create(identity: Option<Identity>, orgId: string, title: string) returns (r: Result<BoardId, Error>)
      requires Valid()
      modifies this
      ensures Valid()
      ensures identity.None? ==> r == Failure(Unauthorized) && boards == old(boards) && favorites == old(favorites)
      ensures identity.None? ==> nextId == old(nextId)
      ensures identity.Some? ==> r.Success? && r.value == old(nextId) && nextId == old(nextId) + 1
      ensures identity.Some? ==> forall id :: id in old(boards) ==> id < r.value
      ensures identity.Some? ==> forall k :: 0 <= k < |favorites| ==> favorites[k].boardId != r.value
      ensures identity.Some? ==>
        && r.Success? && r.value !in old(boards) && r.value in boards
        && boards == old(boards)[r.value := boards[r.value]]
        && IsNewBoard(boards[r.value], identity.value, orgId, title)
        && favorites == old(favorites)
    {
      if identity.None? {
        return Failure(Unauthorized);
      }
      assert Placeholders[0] in Placeholders;
      var image :| image in Placeholders;
      var id := nextId;
      var user := identity.value;
      boards := boards[id := Board(title, user.subject, orgId, user.name.GetOr("Anonymous"), user.pictureUrl.GetOr(""), image)];
      nextId := nextId + 1;
      r := Success(id);
    }

    /** `remove`: delete the caller's favourite record for the board, then the board. */
    method Remove(identity: Option<Identity>, id: BoardId) returns (r: Result<(), Error>)
      requires Valid()
      modifies this
      ensures Valid() && nextId == old(nextId)
      ensures identity.None? ==> r == Failure(Unauthorized) && boards == old(boards) && favorites == old(favorites)
      ensures identity.Some? && id !in old(boards) ==>
        r == Failure(NonexistentDocument) && boards == old(boards) && favorites == old(favorites)
      ensures identity.Some? && id in old(boards) ==>
        && r == Success(())
        && boards == old(boards) - {id}
        && favorites == WithoutFavorite(old(favorites), identity.value.subject, id)
    {
      if identity.None? {
        return Failure(Unauthorized);
      }
      if id !in boards {
        // deleting a missing document throws, which rolls back the favourite deletion
        return Failure(NonexistentDocument);
      }
      WithoutFavoriteRemoves(favorites, identity.value.subject, id);
      favorites := WithoutFavorite(favorites, identity.value.subject, id);
      boards := boards - {id};
      r := Success(());
    }

    /** `updateTitle`: store the trimmed title, refusing an empty or over-long one. */
    method UpdateTitle(identity: Option<Identity>, id: BoardId, title: string) returns (r: Result<BoardId, Error>)
      requires Valid()
      modifies this
      ensures Valid() && favorites == old(favorites) && nextId == old(nextId)
      ensures identity.None? ==> r == Failure(Unauthorized) && boards == old(boards)
      ensures identity.Some? && TitleError(title).Some? ==> r == Failure(TitleError(title).value) && boards == old(boards)
      ensures identity.Some? && TitleError(title).None? && id !in old(boards) ==>
        r == Failure(NonexistentDocument) && boards == old(boards)
      ensures identity.Some? && TitleError(title).None? && id in old(boards) ==>
        r == Success(id) && boards == old(boards)[id := old(boards)[id].(title := JsStrings.Trim(title))]
    {
      if identity.None? {
        return Failure(Unauthorized);
      }
      var trimmed := JsStrings.Trim(title);
      if trimmed == [] {
        return Failure(TitleEmpty);
      }
      if JsStrings.Utf16Length(trimmed) > MaxTitleLength {
        return Failure(TitleTooLong);
      }
      if id !in boards {
        return Failure(NonexistentDocument);
      }
      boards := boards[id := boards[id].(title := trimmed)];
      r := Success(id);
    }

    /** `favorite`: record the caller's favourite once. */
    method AddFavorite(identity: Option<Identity>, id: BoardId, orgId: string) returns (r: Result<(), Error>)
      requires Valid()
      modifies this
      ensures Valid() && boards == old(boards) && nextId == old(nextId)
      ensures identity.None? ==> r == Failure(Unauthorized) && favorites == old(favorites)
      ensures identity.Some? && id !in boards ==> r == Failure(BoardNotFound) && favorites == old(favorites)
      ensures identity.Some? && id in boards ==>
        r == Success(()) && favorites == WithFavorite(old(favorites), identity.value.subject, id, orgId)
    {
      if identity.None? {
        return Failure(Unauthorized);
      }
      if id !in boards {
        return Failure(BoardNotFound);
      }
      var user := identity.value.subject;
      var existing := FindFavorite(favorites, user, id);
      if existing.Some? {
        return Success(());
      }
      WithFavoriteAdds(favorites, user, id, orgId);
      favorites := favorites + [Favorite(user, id, orgId)];
      r := Success(());
    }

    /** `unfavorite`: delete the caller's favourite record, if there is one. */
    method RemoveFavorite(identity: Option<Identity>, id: BoardId) returns (r: Result<(), Error>)
      requires Valid()
      modifies this
      ensures Valid() && boards == old(boards) && nextId == old(nextId)
      ensures identity.None? ==> r == Failure(Unauthorized) && favorites == old(favorites)
      ensures identity.Some? && id !in boards ==> r == Failure(BoardNotFound) && favorites == old(favorites)
      ensures identity.Some? && id in boards ==>
        r == Success(()) && favorites == WithoutFavorite(old(favorites), identity.value.subject, id)
    {
      if identity.None? {
        return Failure(Unauthorized);
      }
      if id !in boards {
        return Failure(BoardNotFound);
      }
      var user := identity.value.subject;
      var existing := FindFavorite(favorites, user, id);
      if existing.None? {
        return Success(());
      }
      WithoutFavoriteRemoves(favorites, user, id);
      var i := existing.value;
      var kept := favorites[..i] + favorites[i + 1..];
      forall k | 0 <= k < |kept| ensures kept[k].boardId < nextId {
        assert kept[k] == favorites[if k < i then k else k + 1];
      }
      favorites := kept;
      r := Success(());
    }

    /** `get`: the board, with no identity check. */
    function Get(id: BoardId): (b: Option<Board>)
      reads this
      ensures b.Some? <==> id in boards
      ensures b.Some? ==> b.value == boards[id]
    {
      if id in boards then Some(boards[id]) else None
    }

    /**
     * `getBoards`: the boards of `orgId` the caller may list, each flagged with
     * whether the caller favourited it. `searchHits` are the boards the
     * full-text index returns for the query, in its order.
     */
    function GetBoards(identity: Option<Identity>, orgId: string, favoritesArg: Option<string>,
                       search: Option<string>, searchHits: seq<BoardId>): (r: Result<seq<BoardView>, Error>)
      reads this
      requires Valid()
      requires ListingModeOf(favoritesArg, search).SearchListing? ==>
        forall k :: 0 <= k < |searchHits| ==> searchHits[k] in boards && boards[searchHits[k]].orgId == orgId
      ensures identity.None? <==> r == Failure(Unauthorized)
      ensures r.Success? ==> forall k :: 0 <= k < |r.value| ==>
        var v := r.value[k];
        && v.id in boards && v.board == boards[v.id] && v.board.orgId == orgId
        && (v.isFavorite <==> HasFavorite(favorites, identity.value.subject, v.id))
      ensures r.Success? && ListingModeOf(favoritesArg, search).FavoritesListing? ==>
        forall k :: 0 <= k < |r.value| ==> r.value[k].isFavorite
      ensures r.Success? && ListingModeOf(favoritesArg, search).OrgListing? ==>
        && (forall id :: id in boards && boards[id].orgId == orgId ==> exists k :: 0 <= k < |r.value| && r.value[k].id == id)
        && (forall k, l :: 0 <= k < l < |r.value| ==> r.value[k].id > r.value[l].id)
    {
      if identity.None? then Failure(Unauthorized)
      else
        var user := identity.value.subject;
        var ids := ListedIds(ListingModeOf(favoritesArg, search), user, orgId, searchHits);
        Success(ViewsOf(ids, user))
    }

    /** Each listed board with the caller's favourite flag. */
    function ViewsOf(ids: seq<BoardId>, user: string): (views: seq<BoardView>)
      reads this
      requires forall k :: 0 <= k < |ids| ==> ids[k] in boards
      ensures |views| == |ids|
      ensures forall k :: 0 <= k < |ids| ==>
        views[k] == BoardView(ids[k], boards[ids[k]], HasFavorite(favorites, user, ids[k]))
      ensures forall id :: id in ids ==> exists k :: 0 <= k < |views| && views[k].id == id
    {
      var views := seq(|ids|, k requires 0 <= k < |ids| && ids[k] in boards reads this =>
        BoardView(ids[k], boards[ids[k]], HasFavorite(favorites, user, ids[k])));
      assert forall id :: id in ids ==> exists k :: 0 <= k < |views| && views[k].id == id by {
        forall id | id in ids ensures exists k :: 0 <= k < |views| && views[k].id == id {
          var k :| 0 <= k < |ids| && ids[k] == id;
          assert views[k].id == id;
        }
      }
      views
    }

    /** The ids of the boards `getBoards` lists in the given mode, in order. */
    function ListedIds(mode: ListingMode, user: string, orgId: string, searchHits: seq<BoardId>): (ids: seq<BoardId>)
      reads this
      requires Valid()
      requires mode.SearchListing? ==>
        forall k :: 0 <= k < |searchHits| ==> searchHits[k] in boards && boards[searchHits[k]].orgId == orgId
      ensures forall k :: 0 <= k < |ids| ==> ids[k] in boards && boards[ids[k]].orgId == orgId
      ensures mode.FavoritesListing? ==> forall k :: 0 <= k < |ids| ==> HasFavorite(favorites, user, ids[k])
      ensures mode.FavoritesListing? ==> ids == FavoriteBoardIds(boards, favorites, user, orgId)
      ensures mode.FavoritesListing? ==>
        forall x :: x in ids <==> x in boards && boards[x].orgId == orgId && Favourited(favorites, user, x, orgId)
      ensures mode.SearchListing? ==> ids == searchHits
      ensures mode.OrgListing? ==>
        && (forall id :: id in boards && boards[id].orgId == orgId ==> id in ids)
        && (forall k, l :: 0 <= k < l < |ids| ==> ids[k] > ids[l])
    {
      match mode
      case FavoritesListing => FavoriteBoardIds(boards, favorites, user, orgId)
      case SearchListing(_) => searchHits
      case OrgListing => OrgBoardsDesc(boards, orgId, nextId)
    }
  }

  /**
   * Removing a board deletes only the caller's favourite for it: another
   * user's record for the same board stays in the table.
   */
  method RemoveKeepsOtherUsersFavorites(owner: Identity, other: Identity, orgId: string)
    returns (id: BoardId, remaining: seq<Favorite>, listed: Option<Board>)
    requires owner.subject != other.subject
    ensures remaining == [Favorite(other.subject, id, orgId)] && listed.None?
  {
    var tables := new BoardTables();
    var created := tables.Create(Some(owner), orgId, "Plan");
    id := created.value;
    var _ := tables.AddFavorite(Some(owner), id, orgId);
    var _ := tables.AddFavorite(Some(other), id, orgId);
    var removed := tables.Remove(Some(owner), id);
    OwnerRemovalKeepsOther(owner.subject, other.subject, id, orgId);
    remaining, listed := tables.favorites, tables.Get(id);
  }

  /**
   * Ids only grow: a board created later has a larger id than one created
   * earlier, even when the earlier one was deleted in between, so a deleted
   * board's id is never handed out again.
   */
  method CreateNeverReusesIds(user: Identity, orgId: string) returns (first: BoardId, second: BoardId)
    ensures first < second
  {
    var tables := new BoardTables();
    var a := tables.Create(Some(user), orgId, "First");
    first := a.value;
    var _ := tables.Remove(Some(user), first);
    var b := tables.Create(Some(user), orgId, "Second");
    second := b.value;
  }

  /** Two users favourite a board; deleting the first user's record leaves the second's. */
  lemma OwnerRemovalKeepsOther(owner: string, other: string, id: BoardId, orgId: string)
    requires owner != other
    ensures WithoutFavorite(WithFavorite(WithFavorite([], owner, id, orgId), other, id, orgId), owner, id)
         == [Favorite(other, id, orgId)]
  {
    var mine, theirs := Favorite(owner, id, orgId), Favorite(other, id, orgId);
    assert WithFavorite([], owner, id, orgId) == [mine];
    assert FindFavorite([mine], other, id) == None by {
      assert [mine][..0] == [];
    }
    assert WithFavorite([mine], other, id, orgId) == [mine, theirs];
    assert FindFavorite([mine, theirs], owner, id) == Some(0) by {
      assert [mine, theirs][..1] == [mine];
    }
  }
}
