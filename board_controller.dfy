/**
 * The board handlers: create (board and ADMIN membership together), list,
 * update (owner only), delete (no ownership check), like toggle and like
 * query. `requester` is the id the token middleware put on the request.
 */
module BoardController {
  import opened Wrappers
  import opened Values
  import opened Store
  import opened ErrorHandler
  import opened Envelopes
  import opened Replies
  import opened Schemas
  import opened Listing
  import BoardServices

  /** `{liked}` as `isBoardLikedByUser` returns it. */
  datatype LikeStatus = LikeStatus(liked: bool)

  function VisibilityIn(body: Body, key: string): Visibility {
    if StringIn(body, key) == "PUBLIC" then PUBLIC else PRIVATE
  }

  /** The board a validated create body describes, with the next id. */
  function NewBoard(t: Tables, body: Body, requester: nat, now: int): Board {
    Board(t.nextBoardId, StringIn(body, "title"), VisibilityIn(body, "visibility"),
          StringIn(body, "backgroundImg"), false, requester, now)
  }

  /**
   * `createBoard`: after validation, one board owned by the requester and
   * one ADMIN membership of the requester on it, written together.
   */
  function CreateBoardStep(t: Tables, body: Body, formats: Formats, requester: nat, now: int): (out: (Tables, Reply<Board>))
    ensures BoardCreateIssues(body, formats) != [] ==> out == (t, Thrown(ZodError(BoardCreateIssues(body, formats))))
    ensures BoardCreateIssues(body, formats) == [] ==> out.1.Sent?
    ensures BoardCreateIssues(body, formats) == [] ==>
      var b := out.1.body.data;
      && out.1 == Ok(b)
      && b.id == t.nextBoardId && b.ownerId == requester && !b.archived && b.updatedAt == now
      && b.title == body["title"].s && b.backgroundImg == body["backgroundImg"].s
      && (b.visibility == PUBLIC <==> body["visibility"].s == "PUBLIC")
      && out.0 == t.(boards := t.boards[b.id := b], members := t.members[(b.id, requester) := ADMIN],
                     nextBoardId := t.nextBoardId + 1)
  {
    var issues := BoardCreateIssues(body, formats);
    if issues != [] then (t, Thrown(ZodError(issues)))
    else
      BoardCreateAccepts(body, formats);
      var b := NewBoard(t, body, requester, now);
      (t.(boards := t.boards[b.id := b], members := t.members[(b.id, requester) := ADMIN],
          nextBoardId := t.nextBoardId + 1),
       Ok(b))
  }

  /**
   * Creation is atomic: in a well-formed store it either changes nothing or
   * adds exactly one board and exactly one membership row, the requester's
   * ADMIN row on that board, and keeps the store well formed.
   */
  lemma CreateBoardAtomic(t: Tables, body: Body, formats: Formats, requester: nat, now: int)
    requires Valid(t)
    ensures var out := CreateBoardStep(t, body, formats, requester, now);
            || out.0 == t
            || (var id := t.nextBoardId;
                && id !in t.boards && out.0.boards.Keys == t.boards.Keys + {id}
                && (id, requester) !in t.members && out.0.members.Keys == t.members.Keys + {(id, requester)}
                && RoleOf(out.0, id, requester) == Some(ADMIN) && out.0.boards[id].ownerId == requester)
    ensures Valid(CreateBoardStep(t, body, formats, requester, now).0)
  {
  }

  /** `createBoard` against the store; the two writes are one transaction. */
  method CreateBoard(db: Db, body: Body, formats: Formats, requester: nat, now: int) returns (r: Reply<Board>)
    modifies db
    ensures (db.Snapshot(), r) == CreateBoardStep(old(db.Snapshot()), body, formats, requester, now)
  {
    var issues := BoardCreateIssues(body, formats);
    if issues != [] {
      return Thrown(ZodError(issues));
    }
    var board := NewBoard(db.Snapshot(), body, requester, now);
    db.boards := db.boards[board.id := board];
    db.nextBoardId := db.nextBoardId + 1;
    db.members := db.members[(board.id, requester) := ADMIN];
    r := Ok(board);
  }

  /**
   * The query fields `getAllBoards` hands the service: `id` only when given
   * and non-empty, `page` 0 and `limit` 10 unless given and non-empty.
   */
  function BoardQueryFields(query: Query): (f: QueryFields)
    ensures f.boardId.None? && f.search == Param(query, "search")
    ensures f.filtered <==> ParamTruthy(Param(query, "isFiltered"))
    ensures f.id.Some? <==> ParamTruthy(Param(query, "id"))
    ensures !ParamTruthy(Param(query, "page")) ==> f.page == Some(Num(0))
    ensures !ParamTruthy(Param(query, "limit")) ==> f.limit == Some(Num(10))
    ensures ParamTruthy(Param(query, "page")) ==> f.page == Some(StringToNumber(query["page"]))
    ensures ParamTruthy(Param(query, "limit")) ==> f.limit == Some(StringToNumber(query["limit"]))
  {
    QueryFields(
      if ParamTruthy(Param(query, "id")) then Some(StringToNumber(query["id"])) else None,
      None,
      Param(query, "search"),
      Some(if ParamTruthy(Param(query, "page")) then StringToNumber(query["page"]) else Num(0)),
      Some(if ParamTruthy(Param(query, "limit")) then StringToNumber(query["limit"]) else Num(10)),
      ParamTruthy(Param(query, "isFiltered")))
  }

  /** `getAllBoards`: read-only; the service's result or error. */
  function GetAllBoards(t: Tables, query: Query, contains: (string, string) -> bool): (r: Reply<BoardServices.BoardsPage>)
    ensures r.Sent? <==> Bounds(PageWindow(BoardQueryFields(query))).Success?
    ensures r.Sent? ==> r.status == 200 && r.body.data == BoardServices.GetBoards(t, BoardQueryFields(query), contains).value
    ensures r.Thrown? ==> r.error == StoreRejectsArgument()
  {
    FromResult(BoardServices.GetBoards(t, BoardQueryFields(query), contains))
  }

  /** Without page and limit, browse mode shows the ten newest matching boards. */
  lemma GetAllBoardsDefaults(t: Tables, query: Query, contains: (string, string) -> bool)
    requires "page" !in query && "limit" !in query && "isFiltered" !in query
    ensures PageWindow(BoardQueryFields(query)) == Window(Num(0), Some(Num(10)))
    ensures GetAllBoards(t, query, contains).Sent?
  {
  }

  /** Any non-empty `isFiltered`, "false" included, selects lookup mode. */
  lemma IsFilteredFalseStillFilters(t: Tables, query: Query, contains: (string, string) -> bool)
    requires Param(query, "isFiltered") == Some("false")
    ensures GetAllBoards(t, query, contains).Sent?
    ensures GetAllBoards(t, query, contains).body.data.Options?
  {
    BoardServices.LookupResult(t, BoardQueryFields(query), contains);
  }

  /** The edit an update body asks for, read before validation as the handler does. */
  function EditOf(body: Body): BoardServices.EditBoard {
    BoardServices.EditBoard(
      if "title" in body && body["title"].JStr? then Some(body["title"].s) else None,
      if "visibility" in body && body["visibility"].JStr? then Some(VisibilityIn(body, "visibility")) else None,
      if "backgroundImg" in body && body["backgroundImg"].JStr? then Some(body["backgroundImg"].s) else None,
      if "archived" in body && body["archived"].JBool? then Some(body["archived"].b) else None)
  }

  /**
   * `updateBoard` of the controller: 412 for an empty body, then 412 for a
   * missing id, then validation, then 403 unless the requester owns the
   * board; then the service's update.
   */
  function UpdateBoardStep(t: Tables, body: Body, query: Query, formats: Formats, requester: nat, now: int)
    : (out: (Tables, Reply<Board>))
    ensures |body| == 0 ==> out == (t, Fail("API Missing body", 412))
    ensures |body| != 0 && !ParamTruthy(Param(query, "id")) ==> out == (t, Fail("BoardId is missing", 412))
    ensures |body| != 0 && ParamTruthy(Param(query, "id")) && BoardUpdateIssues(body, formats) != [] ==>
      out == (t, Thrown(ZodError(BoardUpdateIssues(body, formats))))
    ensures |body| != 0 && ParamTruthy(Param(query, "id")) && BoardUpdateIssues(body, formats) == []
            && StringToNumber(query["id"]).NaN? ==>
      out == (t, Thrown(StoreRejectsArgument()))
    ensures |body| != 0 && ParamTruthy(Param(query, "id")) && BoardUpdateIssues(body, formats) == []
            && StringToNumber(query["id"]).Num? && !BoardServices.OwnedBy(t, StringToNumber(query["id"]).n, requester) ==>
      out == (t, Fail("Board not found or unauthorized", 403))
    ensures out.1.Sent? <==>
      |body| != 0 && ParamTruthy(Param(query, "id")) && BoardUpdateIssues(body, formats) == []
      && StringToNumber(query["id"]).Num? && BoardServices.OwnedBy(t, StringToNumber(query["id"]).n, requester)
    ensures out.1.Sent? ==>
      var (t', r) := BoardServices.UpdateBoardStep(t, StringToNumber(query["id"]).n, requester, EditOf(body), now);
      out == (t', FromResult(r))
    ensures out.1.Thrown? ==> out.0 == t
  {
    if |body| == 0 then (t, Fail("API Missing body", 412))
    else if !ParamTruthy(Param(query, "id")) then (t, Fail("BoardId is missing", 412))
    else
      var input := EditOf(body);
      var issues := BoardUpdateIssues(body, formats);
      if issues != [] then (t, Thrown(ZodError(issues)))
      else
        var id := StringToNumber(query["id"]);
        if id.NaN? then (t, Thrown(StoreRejectsArgument()))
        else if !BoardServices.OwnedBy(t, id.n, requester) then (t, Fail("Board not found or unauthorized", 403))
        else
          var (t', r) := BoardServices.UpdateBoardStep(t, id.n, requester, input, now);
          (t', FromResult(r))
  }

  /**
   * No update reaches `archived`: the strict schema refuses the key, so every
   * board keeps its flag, and no board other than the one named changes.
   */
  lemma UpdateNeverArchives(t: Tables, body: Body, query: Query, formats: Formats, requester: nat, now: int)
    ensures var t' := UpdateBoardStep(t, body, query, formats, requester, now).0;
            && t'.boards.Keys == t.boards.Keys
            && (forall k :: k in t.boards ==> t'.boards[k].archived == t.boards[k].archived)
            && (forall k :: k in t.boards && t'.boards[k] != t.boards[k] ==>
                  ParamTruthy(Param(query, "id")) && StringToNumber(query["id"]) == Num(k) && t.boards[k].ownerId == requester)
  {
    if UpdateBoardStep(t, body, query, formats, requester, now).1.Sent? {
      BoardUpdateAccepts(body, formats);
      assert "archived" !in body;
      BoardServices.UpdateBoardConfined(t, StringToNumber(query["id"]).n, requester, EditOf(body), now);
    }
  }

  /** `updateBoard` of the controller against the store; the write is the service's. */
  method UpdateBoard(db: Db, body: Body, query: Query, formats: Formats, requester: nat, now: int) returns (r: Reply<Board>)
    modifies db
    ensures (db.Snapshot(), r) == UpdateBoardStep(old(db.Snapshot()), body, query, formats, requester, now)
  {
    if |body| == 0 {
      return Fail("API Missing body", 412);
    }
    if !ParamTruthy(Param(query, "id")) {
      return Fail("BoardId is missing", 412);
    }
    var input := EditOf(body);
    var issues := BoardUpdateIssues(body, formats);
    if issues != [] {
      return Thrown(ZodError(issues));
    }
    var id := StringToNumber(query["id"]);
    if id.NaN? {
      return Thrown(StoreRejectsArgument());
    }
    if !BoardServices.OwnedBy(db.Snapshot(), id.n, requester) {
      return Fail("Board not found or unauthorized", 403);
    }
    var updated := BoardServices.UpdateBoard(db, id.n, requester, input, now);
    r := FromResult(updated);
  }

  /**
   * `deleteBoard`: a non-numeric or absent id is answered 400 directly, an id
   * of 0 is an error, a missing board is the store's not-found error;
   * otherwise the board is removed, whoever asks.
   */
  function DeleteBoardStep(t: Tables, query: Query): (out: (Tables, Reply<string>))
    ensures ParamToNumber(Param(query, "id")).NaN? ==> out == (t, Sent(400, FormResponse(400, "Invalid Board ID")))
    ensures ParamToNumber(Param(query, "id")) == Num(0) ==> out == (t, Fail("Please provide Board Id", 400))
    ensures out.1 == Ok("Deleted Succesfully") <==>
      ParamToNumber(Param(query, "id")).Num? && ParamToNumber(Param(query, "id")).n != 0
      && BoardAt(t, ParamToNumber(Param(query, "id")).n).Some?
    ensures out.1 == Ok("Deleted Succesfully") ==> out.0 == t.(boards := t.boards - {ParamToNumber(Param(query, "id")).n as nat})
    ensures out.1 != Ok("Deleted Succesfully") ==> out.0 == t
  {
    var id := ParamToNumber(Param(query, "id"));
    if id.NaN? then (t, Sent(400, FormResponse(400, "Invalid Board ID")))
    else if id.n == 0 then (t, Fail("Please provide Board Id", 400))
    else if BoardAt(t, id.n).None? then (t, Thrown(RecordNotFound()))
    else (t.(boards := t.boards - {id.n as nat}), Ok("Deleted Succesfully"))
  }

  /** Deleting a missing board answers 404 through the error handler. */
  lemma DeleteMissingBoardIs404(t: Tables, query: Query)
    requires ParamToNumber(Param(query, "id")).Num? && ParamToNumber(Param(query, "id")).n != 0
    requires BoardAt(t, ParamToNumber(Param(query, "id")).n).None?
    ensures StatusOf(DeleteBoardStep(t, query).1) == 404
  {
    assert "P2025" in NotFoundCodes;
  }

  lemma DeleteBoardKeepsValid(t: Tables, query: Query)
    requires Valid(t)
    ensures Valid(DeleteBoardStep(t, query).0)
  {
  }

  /** `deleteBoard` against the store. */
  method DeleteBoard(db: Db, query: Query) returns (r: Reply<string>)
    modifies db
    ensures (db.Snapshot(), r) == DeleteBoardStep(old(db.Snapshot()), query)
  {
    var id := ParamToNumber(Param(query, "id"));
    if id.NaN? {
      return Sent(400, FormResponse(400, "Invalid Board ID"));
    }
    if id.n == 0 {
      return Fail("Please provide Board Id", 400);
    }
    if id.n < 0 || id.n as nat !in db.boards {
      return Thrown(RecordNotFound());
    }
    db.boards := db.boards - {id.n as nat};
    r := Ok("Deleted Succesfully");
  }

  /** The requester may like the board: a membership row and the board both exist. */
  predicate MayLike(t: Tables, boardId: int, userId: nat) {
    RoleOf(t, boardId, userId).Some? && BoardAt(t, boardId).Some?
  }

  /**
   * `likeBoard`: a falsy id is refused, a requester without membership on an
   * existing board is refused; otherwise the (user, board) like is removed
   * when present and added when absent.
   */
  function LikeBoardStep(t: Tables, query: Query, requester: nat): (out: (Tables, Reply<string>))
    ensures !NumTruthy(ParamToNumber(Param(query, "id"))) ==> out == (t, Fail("BoardId is required", 400))
    ensures NumTruthy(ParamToNumber(Param(query, "id"))) && !MayLike(t, ParamToNumber(Param(query, "id")).n, requester) ==>
      out == (t, Fail("Invalid BoardId or no permission to like this board", 400))
    ensures out.1.Sent? <==> NumTruthy(ParamToNumber(Param(query, "id"))) && MayLike(t, ParamToNumber(Param(query, "id")).n, requester)
    ensures out.1.Sent? ==>
      var pair := (requester, ParamToNumber(Param(query, "id")).n as nat);
      && out.0 == t.(likes := out.0.likes)
      && (pair in t.likes ==> out.0.likes == t.likes - {pair} && out.1 == Ok("Unliked Successfully"))
      && (pair !in t.likes ==> out.0.likes == t.likes + {pair} && out.1 == Ok("Liked Successfully"))
    ensures out.1.Thrown? ==> out.0 == t
  {
    var boardId := ParamToNumber(Param(query, "id"));
    if !NumTruthy(boardId) then (t, Fail("BoardId is required", 400))
    else if !MayLike(t, boardId.n, requester) then (t, Fail("Invalid BoardId or no permission to like this board", 400))
    else
      var pair := (requester, boardId.n as nat);
      if pair in t.likes then (t.(likes := t.likes - {pair}), Ok("Unliked Successfully"))
      else (t.(likes := t.likes + {pair}), Ok("Liked Successfully"))
  }

  /** Liking twice restores the store: the second call undoes the first. */
  lemma LikeTwiceRestores(t: Tables, query: Query, requester: nat)
    requires LikeBoardStep(t, query, requester).1.Sent?
    ensures var t1 := LikeBoardStep(t, query, requester).0;
            && LikeBoardStep(t1, query, requester).1.Sent?
            && LikeBoardStep(t1, query, requester).0 == t
  {
    var pair := (requester, ParamToNumber(Param(query, "id")).n as nat);
    var t1 := LikeBoardStep(t, query, requester).0;
    if pair in t.likes {
      assert t1.likes + {pair} == t.likes;
    } else {
      assert t1.likes - {pair} == t.likes;
    }
  }

  /** The two messages alternate: a like is followed by an unlike and vice versa. */
  lemma LikeMessagesAlternate(t: Tables, query: Query, requester: nat)
    requires LikeBoardStep(t, query, requester).1.Sent?
    ensures var t1 := LikeBoardStep(t, query, requester).0;
            (LikeBoardStep(t, query, requester).1 == Ok("Liked Successfully"))
              <==> (LikeBoardStep(t1, query, requester).1 == Ok("Unliked Successfully"))
  {
  }

  /** `likeBoard` against the store. */
  method LikeBoard(db: Db, query: Query, requester: nat) returns (r: Reply<string>)
    modifies db
    ensures (db.Snapshot(), r) == LikeBoardStep(old(db.Snapshot()), query, requester)
  {
    var boardId := ParamToNumber(Param(query, "id"));
    if !NumTruthy(boardId) {
      return Fail("BoardId is required", 400);
    }
    if !MayLike(db.Snapshot(), boardId.n, requester) {
      return Fail("Invalid BoardId or no permission to like this board", 400);
    }
    var pair := (requester, boardId.n as nat);
    if pair in db.likes {
      db.likes := db.likes - {pair};
      return Ok("Unliked Successfully");
    }
    db.likes := db.likes + {pair};
    r := Ok("Liked Successfully");
  }

  /**
   * `isBoardLikedByUser`: read-only. Falsy ids are refused, then ids naming
   * no board or no user; otherwise `liked` says whether the pair is liked.
   */
  function IsBoardLikedByUser(t: Tables, query: Query): (r: Reply<LikeStatus>)
    ensures !NumTruthy(ParamToNumber(Param(query, "boardId"))) ==> r == Fail("BoardId is missing", 400)
    ensures NumTruthy(ParamToNumber(Param(query, "boardId"))) && !NumTruthy(ParamToNumber(Param(query, "userId"))) ==>
      r == Fail("UserId is missing", 400)
    ensures r.Sent? <==>
      var b := ParamToNumber(Param(query, "boardId"));
      var u := ParamToNumber(Param(query, "userId"));
      NumTruthy(b) && NumTruthy(u) && BoardAt(t, b.n).Some? && u.n >= 0 && UserIdExists(t, u.n as nat)
    ensures r.Sent? ==> r == Ok(LikeStatus(
      (ParamToNumber(Param(query, "userId")).n as nat, ParamToNumber(Param(query, "boardId")).n as nat) in t.likes))
    ensures r.Thrown? ==> StatusOf(r) == 400
  {
    var boardId := ParamToNumber(Param(query, "boardId"));
    var userId := ParamToNumber(Param(query, "userId"));
    if !NumTruthy(boardId) then Fail("BoardId is missing", 400)
    else if !NumTruthy(userId) then Fail("UserId is missing", 400)
    else if BoardAt(t, boardId.n).None? then Fail("BoardId is Invalid", 400)
    else if userId.n < 0 || !UserIdExists(t, userId.n as nat) then Fail("UserId is Invalid", 400)
    else Ok(LikeStatus((userId.n as nat, boardId.n as nat) in t.likes))
  }

  /** After a like, the query reports it; after a second one, it reports it gone. */
  lemma LikeThenQuery(t: Tables, requester: nat, boardId: nat, liked: Query, asked: Query)
    requires Param(liked, "id") == Some(Text.IntToString(boardId)) && boardId != 0
    requires Param(asked, "boardId") == Some(Text.IntToString(boardId))
    requires Param(asked, "userId") == Some(Text.IntToString(requester)) && requester != 0
    requires UserIdExists(t, requester)
    requires LikeBoardStep(t, liked, requester).1.Sent?
    ensures var t1 := LikeBoardStep(t, liked, requester).0;
            IsBoardLikedByUser(t1, asked) == Ok(LikeStatus((requester, boardId) !in t.likes))
  {
    StringToNumberOfIntToString(boardId);
    StringToNumberOfIntToString(requester);
  }
}
