/**
 * The room authorisation endpoint: the identity checks with their early
 * returns, the board lookup, the deterministic cursor colour and the display
 * name. The identity provider, the board query and the session service are
 * inputs.
 */
module LiveblocksAuth {
  import opened Wrappers
  import JsStrings
  import Boards

  /** The cursor colour palette. */
  const Colors: seq<string> := [
    "#DC2626", "#D97706", "#059669", "#7C3AED",
    "#DB2777", "#2563EB", "#EA580C", "#65A30D"
  ]

  /** What the identity provider returns for the current user. */
  datatype ClerkUser = ClerkUser(id: string, firstName: Option<string>, lastName: Option<string>,
                                 username: Option<string>, imageUrl: string)

  datatype UserInfo = UserInfo(name: string, avatar: string, color: string)

  datatype Permission = FullAccess

  /** A prepared session: who it is for, what it shows of them, and the rooms it is allowed. */
  datatype Session = Session(userId: string, userInfo: UserInfo, grants: map<string, Permission>)

  /**
   * What reading the room from the request body and querying its board
   * gives: the board, nothing, or a throw (a body that is not JSON, or a
   * room that fails the query's `v.id("boards")` argument validator).
   */
  datatype Lookup = Found(board: Boards.Board) | NotFound | Threw

  /**
   * The endpoint's reply: a refusal, the framework's 500 for an exception the
   * handler does not catch, or the session handed to the session service to
   * authorise.
   */
  datatype Response = Unauthorized401 | BoardNotFound404 | ServerError500 | Authorize(session: Session)

  /** `units.reduce((acc, c) => acc + c, 0)`, folding from the left. */
  function Sum(units: seq<int>): (total: int)
    ensures (forall k :: 0 <= k < |units| ==> units[k] >= 0) ==> total >= 0
  {
    if units == [] then 0 else Sum(units[..|units| - 1]) + units[|units| - 1]
  }

  /** The sum of a concatenation is the sum of its parts, so the fold's direction does not matter. */
  lemma {:induction false} SumAppend(a: seq<int>, b: seq<int>)
    ensures Sum(a + b) == Sum(a) + Sum(b)
    decreases |b|
  {
    if b != [] {
      assert (a + b)[..|a + b| - 1] == a + b[..|b| - 1];
      SumAppend(a, b[..|b| - 1]);
    } else {
      assert a + b == a;
    }
  }

  /** The colour index: the sum of the id's UTF-16 code units modulo the palette size. */
  function ColorIndex(userId: string): (i: nat)
    ensures i < |Colors|
  {
    Sum(JsStrings.Utf16Units(userId)) % |Colors|
  }

  /** `firstName && lastName ? "first last" : username ?? "Anonymous"` */
  function DisplayName(firstName: Option<string>, lastName: Option<string>, username: Option<string>): (name: string)
    ensures firstName.Some? && firstName.value != "" && lastName.Some? && lastName.value != "" ==>
      name == firstName.value + " " + lastName.value
    ensures !(firstName.Some? && firstName.value != "" && lastName.Some? && lastName.value != "") ==>
      name == (if username.Some? then username.value else "Anonymous")
  {
    if firstName.Some? && firstName.value != "" && lastName.Some? && lastName.value != "" then
      firstName.value + " " + lastName.value
    else username.GetOr("Anonymous")
  }

  /**
   * `POST`: refuse without session claims or a user (before the room is read
   * or the board looked up), refuse a room whose board the lookup does not
   * find, and otherwise prepare a session with full access to the room.
   * `lookup` is what reading the room and querying its board gives; a throw
   * there is not caught and becomes a 500.
   */
  method Post(hasSessionClaims: bool, user: Option<ClerkUser>, room: string, lookup: Lookup)
    returns (response: Response)
    ensures !hasSessionClaims || user.None? <==> response == Unauthorized401
    ensures hasSessionClaims && user.Some? && lookup.Threw? <==> response == ServerError500
    ensures hasSessionClaims && user.Some? && lookup.NotFound? <==> response == BoardNotFound404
    ensures response.Authorize? <==> hasSessionClaims && user.Some? && lookup.Found?
    ensures response.Authorize? ==>
      && response.session.userId == user.value.id
      && response.session.grants == map[room := FullAccess]
      && response.session.userInfo.color == Colors[ColorIndex(user.value.id)]
      && response.session.userInfo.name == DisplayName(user.value.firstName, user.value.lastName, user.value.username)
      && response.session.userInfo.avatar == user.value.imageUrl
  {
    if !hasSessionClaims || user.None? {
      return Unauthorized401;
    }
    var u := user.value;
    if lookup.Threw? {
      return ServerError500;
    }
    if lookup.NotFound? {
      return BoardNotFound404;
    }
    var colorIndex := ColorIndex(u.id);
    var info := UserInfo(DisplayName(u.firstName, u.lastName, u.username), u.imageUrl, Colors[colorIndex]);
    var session := Session(u.id, info, map[]);
    session := session.(grants := session.grants[room := FullAccess]);
    response := Authorize(session);
  }

  /** The colour depends on the user id alone: the same id gets the same palette entry. */
  lemma ColorIsDeterministic(a: ClerkUser, b: ClerkUser)
    requires a.id == b.id
    ensures Colors[ColorIndex(a.id)] == Colors[ColorIndex(b.id)]
    ensures Colors[ColorIndex(a.id)] in Colors
  {
  }

  /** "u1" is the two code units 117 and 49. */
  lemma UnitsOfU1()
    ensures JsStrings.Utf16Units("u1") == [117, 49]
  {
    assert "u1"[..1] == "u" && "u"[..0] == [];
    assert JsStrings.Utf16Units("u") == [117];
  }

  /** "u1" sums to 117 + 49 = 166, which is 6 modulo 8, so it is drawn in "#EA580C". */
  lemma ColorExample()
    ensures ColorIndex("u1") == 6 && Colors[ColorIndex("u1")] == "#EA580C"
  {
    UnitsOfU1();
    assert Sum([117, 49]) == 166 by {
      assert [117, 49][..1] == [117] && [117][..0] == [];
    }
  }
}
