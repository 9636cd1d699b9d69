/**
 * The list handlers: create and rename delegate to the service after their
 * own guards; delete checks membership itself, on the board whose id equals
 * the list id; the listing checks a given board id first.
 */
module ListController {
  import opened Wrappers
  import opened Values
  import opened Store
  import opened ErrorHandler
  import opened Replies
  import opened Schemas
  import opened Listing
  import ListServices

  /** `createList`: validation, then the service. */
  function CreateListStep(t: Tables, body: Body, formats: Formats, requester: nat, now: int)
    : (out: (Tables, Reply<ListRow>))
    ensures ListCreateIssues(body, formats) != [] ==> out == (t, Thrown(ZodError(ListCreateIssues(body, formats))))
    ensures ListCreateIssues(body, formats) == [] ==>
      var (t', r) := ListServices.CreateListStep(t, body["listName"].s, body["boardId"].n, requester, now);
      out == (t', FromResult(r))
  {
    var issues := ListCreateIssues(body, formats);
    if issues != [] then (t, Thrown(ZodError(issues)))
    else
      ListCreateAccepts(body, formats);
      var (t', r) := ListServices.CreateListStep(t, StringIn(body, "listName"), body["boardId"].n, requester, now);
      (t', FromResult(r))
  }

  /** `createList` against the store. */
  method CreateList(db: Db, body: Body, formats: Formats, requester: nat, now: int) returns (r: Reply<ListRow>)
    modifies db
    ensures (db.Snapshot(), r) == CreateListStep(old(db.Snapshot()), body, formats, requester, now)
  {
    var issues := ListCreateIssues(body, formats);
    if issues != [] {
      return Thrown(ZodError(issues));
    }
    ListCreateAccepts(body, formats);
    var created := ListServices.CreateList(db, StringIn(body, "listName"), body["boardId"].n, requester, now);
    r := FromResult(created);
  }

  /** The object the rename validates: the body's `listName` (when given) and the numeric id. */
  function UpdateInput(body: Body, listId: int): Body {
    (if "listName" in body then map["listName" := body["listName"]] else map[])["listId" := JNum(listId)]
  }

  function NameIn(body: Body): Option<string> {
    if "listName" in body && body["listName"].JStr? then Some(body["listName"].s) else None
  }

  /**
   * `updateList` of the controller: 412 for an empty body, 400 for a falsy
   * id, then validation of `{listName, listId}`, then the service.
   */
  function UpdateListStep(t: Tables, body: Body, query: Query, formats: Formats, requester: nat, now: int)
    : (out: (Tables, Reply<ListRow>))
    ensures |body| == 0 ==> out == (t, Fail("API Missing body", 412))
    ensures |body| != 0 && !NumTruthy(ParamToNumber(Param(query, "id"))) ==> out == (t, Fail("ListId is required", 400))
    ensures |body| != 0 && NumTruthy(ParamToNumber(Param(query, "id")))
            && ListUpdateIssues(UpdateInput(body, ParamToNumber(Param(query, "id")).n), formats) != [] ==>
      out == (t, Thrown(ZodError(ListUpdateIssues(UpdateInput(body, ParamToNumber(Param(query, "id")).n), formats))))
    ensures out.1.Sent? ==>
      && |body| != 0 && NumTruthy(ParamToNumber(Param(query, "id")))
      && ListUpdateIssues(UpdateInput(body, ParamToNumber(Param(query, "id")).n), formats) == []
    ensures |body| != 0 && NumTruthy(ParamToNumber(Param(query, "id")))
            && ListUpdateIssues(UpdateInput(body, ParamToNumber(Param(query, "id")).n), formats) == [] ==>
      var step := ListServices.UpdateListStep(t, NameIn(body), ParamToNumber(Param(query, "id")).n, requester, now);
      out == (step.0, FromResult(step.1))
    ensures out.1.Thrown? ==> out.0 == t
  {
    if |body| == 0 then (t, Fail("API Missing body", 412))
    else
      var listId := ParamToNumber(Param(query, "id"));
      if !NumTruthy(listId) then (t, Fail("ListId is required", 400))
      else
        var issues := ListUpdateIssues(UpdateInput(body, listId.n), formats);
        if issues != [] then (t, Thrown(ZodError(issues)))
        else
          var step := ListServices.UpdateListStep(t, NameIn(body), listId.n, requester, now);
          (step.0, FromResult(step.1))
  }

  /** A negative id passes the falsiness guard and is refused by validation instead. */
  lemma UpdateListNegativeId(t: Tables, body: Body, query: Query, formats: Formats, requester: nat, now: int)
    requires |body| != 0 && ParamToNumber(Param(query, "id")).Num? && ParamToNumber(Param(query, "id")).n < 0
    ensures UpdateListStep(t, body, query, formats, requester, now).1.Thrown?
    ensures UpdateListStep(t, body, query, formats, requester, now).1.error.ZodError?
  {
    var input := UpdateInput(body, ParamToNumber(Param(query, "id")).n);
    ListUpdateAccepts(input, formats);
    assert !NumberAtLeastOne(input, "listId");
  }

  /**
   * Only `listName` of the body is validated, so keys the strict schema
   * would refuse are ignored: adding one changes nothing.
   */
  lemma UpdateListIgnoresOtherKeys(t: Tables, body: Body, query: Query, formats: Formats, requester: nat, now: int,
                                   k: string, v: Json)
    requires "listName" in body && k != "listName"
    ensures UpdateListStep(t, body[k := v], query, formats, requester, now) == UpdateListStep(t, body, query, formats, requester, now)
  {
    var listId := ParamToNumber(Param(query, "id"));
    assert |body[k := v]| != 0 && |body| != 0;
    if listId.Num? {
      assert UpdateInput(body[k := v], listId.n) == UpdateInput(body, listId.n);
    }
    assert NameIn(body[k := v]) == NameIn(body);
  }

  /** `updateList` of the controller against the store; the write is the service's. */
  method UpdateList(db: Db, body: Body, query: Query, formats: Formats, requester: nat, now: int) returns (r: Reply<ListRow>)
    modifies db
    ensures (db.Snapshot(), r) == UpdateListStep(old(db.Snapshot()), body, query, formats, requester, now)
  {
    if |body| == 0 {
      return Fail("API Missing body", 412);
    }
    var listId := ParamToNumber(Param(query, "id"));
    if !NumTruthy(listId) {
      return Fail("ListId is required", 400);
    }
    var issues := ListUpdateIssues(UpdateInput(body, listId.n), formats);
    if issues != [] {
      return Thrown(ZodError(issues));
    }
    var updated := ListServices.UpdateList(db, NameIn(body), listId.n, requester, now);
    r := FromResult(updated);
  }

  /**
   * `deleteList`: 400 for a falsy id, 404 for a missing list, 403 unless the
   * requester has a membership row, of any role, on the board whose id is
   * the list id; otherwise that list alone is removed.
   */
  function DeleteListStep(t: Tables, query: Query, requester: nat): (out: (Tables, Reply<string>))
    ensures !NumTruthy(ParamToNumber(Param(query, "id"))) ==> out == (t, Fail("List ID is required", 400))
    ensures NumTruthy(ParamToNumber(Param(query, "id"))) && ListAt(t, ParamToNumber(Param(query, "id")).n).None? ==>
      out == (t, Fail("Invalid List ID", 404))
    ensures NumTruthy(ParamToNumber(Param(query, "id"))) && ListAt(t, ParamToNumber(Param(query, "id")).n).Some?
            && RoleOf(t, ParamToNumber(Param(query, "id")).n, requester).None? ==>
      out == (t, Fail("User is not authorized to delete this list", 403))
    ensures out.1.Sent? <==>
      var id := ParamToNumber(Param(query, "id"));
      NumTruthy(id) && ListAt(t, id.n).Some? && RoleOf(t, id.n, requester).Some?
    ensures out.1.Sent? ==>
      && out.1 == Ok("Deleted Successfully")
      && out.0 == t.(lists := t.lists - {ParamToNumber(Param(query, "id")).n as nat})
  {
    var id := ParamToNumber(Param(query, "id"));
    if !NumTruthy(id) then (t, Fail("List ID is required", 400))
    else if ListAt(t, id.n).None? then (t, Fail("Invalid List ID", 404))
    else if RoleOf(t, id.n, requester).None? then (t, Fail("User is not authorized to delete this list", 403))
    else (t.(lists := t.lists - {id.n as nat}), Ok("Deleted Successfully"))
  }

  /**
   * The membership consulted is not the one on the list's board: a VIEWER
   * of the board numbered like the list deletes it, even with no row on the
   * list's own board.
   */
  lemma DeleteListConsultsBoardNumberedLikeList(t: Tables, query: Query, requester: nat)
    requires NumTruthy(ParamToNumber(Param(query, "id")))
    requires var id := ParamToNumber(Param(query, "id")).n;
             ListAt(t, id).Some? && RoleOf(t, id, requester) == Some(VIEWER)
             && RoleOf(t, ListAt(t, id).value.boardId, requester).None?
    ensures DeleteListStep(t, query, requester).1 == Ok("Deleted Successfully")
  {
  }

  lemma DeleteListKeepsValid(t: Tables, query: Query, requester: nat)
    requires Valid(t)
    ensures Valid(DeleteListStep(t, query, requester).0)
  {
  }

  /** `deleteList` against the store. */
  method DeleteList(db: Db, query: Query, requester: nat) returns (r: Reply<string>)
    modifies db
    ensures (db.Snapshot(), r) == DeleteListStep(old(db.Snapshot()), query, requester)
  {
    var id := ParamToNumber(Param(query, "id"));
    if !NumTruthy(id) {
      return Fail("List ID is required", 400);
    }
    if id.n < 0 || id.n as nat !in db.lists {
      return Fail("Invalid List ID", 404);
    }
    if RoleOf(db.Snapshot(), id.n, requester).None? {
      return Fail("User is not authorized to delete this list", 403);
    }
    db.lists := db.lists - {id.n as nat};
    r := Ok("Deleted Successfully");
  }

  /** The query fields `getLists` hands the service. */
  function ListQueryFields(query: Query): (f: QueryFields)
    ensures f.search == Param(query, "search")
    ensures f.filtered <==> ParamTruthy(Param(query, "isFiltered"))
    ensures f.id.Some? <==> ParamTruthy(Param(query, "id"))
    ensures f.boardId.Some? <==> ParamTruthy(Param(query, "boardId"))
    ensures !ParamTruthy(Param(query, "page")) ==> f.page == Some(Num(0))
    ensures !ParamTruthy(Param(query, "limit")) ==> f.limit == Some(Num(10))
    ensures ParamTruthy(Param(query, "page")) ==> f.page == Some(StringToNumber(query["page"]))
    ensures ParamTruthy(Param(query, "limit")) ==> f.limit == Some(StringToNumber(query["limit"]))
  {
    QueryFields(
      if ParamTruthy(Param(query, "id")) then Some(StringToNumber(query["id"])) else None,
      if ParamTruthy(Param(query, "boardId")) then Some(StringToNumber(query["boardId"])) else None,
      Param(query, "search"),
      Some(if ParamTruthy(Param(query, "page")) then StringToNumber(query["page"]) else Num(0)),
      Some(if ParamTruthy(Param(query, "limit")) then StringToNumber(query["limit"]) else Num(10)),
      ParamTruthy(Param(query, "isFiltered")))
  }

  /** `getLists`: read-only; a given board id must name a board (404), then the service's result. */
  function GetLists(t: Tables, query: Query, contains: (string, string) -> bool): (r: Reply<seq<ListRow>>)
    ensures (ParamTruthy(Param(query, "boardId")) && StringToNumber(query["boardId"]).Num?
             && BoardAt(t, StringToNumber(query["boardId"]).n).None?) ==> r == Fail("BoardId is Invalid", 404)
    ensures ParamTruthy(Param(query, "boardId")) && StringToNumber(query["boardId"]).NaN? ==>
      r == Thrown(StoreRejectsArgument())
    ensures !(ParamTruthy(Param(query, "boardId"))
              && (StringToNumber(query["boardId"]).NaN? || BoardAt(t, StringToNumber(query["boardId"]).n).None?)) ==>
      r == FromResult(ListServices.GetLists(t, ListQueryFields(query), contains))
    ensures r.Sent? ==>
      && (ParamTruthy(Param(query, "boardId")) ==>
            StringToNumber(query["boardId"]).Num? && BoardAt(t, StringToNumber(query["boardId"]).n).Some?)
      && r == FromResult(ListServices.GetLists(t, ListQueryFields(query), contains))
  {
    if ParamTruthy(Param(query, "boardId")) && StringToNumber(query["boardId"]).NaN? then Thrown(StoreRejectsArgument())
    else if ParamTruthy(Param(query, "boardId")) && BoardAt(t, StringToNumber(query["boardId"]).n).None? then
      Fail("BoardId is Invalid", 404)
    else FromResult(ListServices.GetLists(t, ListQueryFields(query), contains))
  }

  /** In a well-formed store, with a board id, every list returned belongs to that board. */
  lemma GetListsStaysOnBoard(t: Tables, query: Query, contains: (string, string) -> bool)
    requires Valid(t)
    requires ParamTruthy(Param(query, "boardId")) && GetLists(t, query, contains).Sent?
    ensures StringToNumber(query["boardId"]).Num?
    ensures forall l :: l in GetLists(t, query, contains).body.data ==> l.boardId == StringToNumber(query["boardId"]).n
  {
    var fields := ListQueryFields(query);
    var reply := GetLists(t, query, contains);
    assert reply == FromResult(ListServices.GetLists(t, fields, contains));
    var n := StringToNumber(query["boardId"]).n;
    assert n != 0 by {
      assert BoardAt(t, n).Some?;
    }
    var f := ListServices.ListFilter(fields);
    assert f.boardId == Some(n);
    ListServices.GetListsMatch(t, fields, contains);
    assert reply.body.data == ListServices.GetLists(t, fields, contains).value;
  }
}
