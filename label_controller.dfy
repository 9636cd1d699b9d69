/**
 * The label handlers. Their routes carry no token check, so `requester` is
 * optional: absent, a membership lookup loses its user condition (create,
 * edit) or receives NaN (delete). Edit and delete look up List rows, and
 * delete removes one.
 */
module LabelController {
  import opened Wrappers
  import opened Values
  import opened Store
  import opened ErrorHandler
  import opened Replies
  import opened Schemas
  import opened Listing
  import LabelServices

  const NoAccessMessage := "User don't have access"

  /** The membership found passes: present and not VIEWER. */
  predicate MayWrite(role: Option<Role>) {
    role.Some? && role.value != VIEWER
  }

  /**
   * `createLabel`: validation; a falsy board id (which validation already
   * rules out) 404; a missing board 400; no membership or VIEWER 400;
   * otherwise one new label.
   */
  function CreateLabelStep(t: Tables, body: Body, formats: Formats, requester: Option<nat>, memberScan: seq<(nat, nat)>)
    : (out: (Tables, Reply<Label>))
    ensures LabelCreateIssues(body, formats) != [] ==> out == (t, Thrown(ZodError(LabelCreateIssues(body, formats))))
    ensures LabelCreateIssues(body, formats) == [] && BoardAt(t, body["boardId"].n).None? ==>
      out == (t, Fail("BoardId is Invalid", 400))
    ensures LabelCreateIssues(body, formats) == [] && BoardAt(t, body["boardId"].n).Some?
            && !MayWrite(FirstRole(t, body["boardId"].n, requester, memberScan)) ==>
      out == (t, Fail(NoAccessMessage, 400))
    ensures out.1.Sent? <==>
      LabelCreateIssues(body, formats) == [] && BoardAt(t, body["boardId"].n).Some?
      && MayWrite(FirstRole(t, body["boardId"].n, requester, memberScan))
    ensures out.1.Sent? ==>
      var l := Label(t.nextLabelId, body["labelName"].s, body["color"].s, body["boardId"].n as nat);
      && out.1 == Ok(l)
      && out.0 == t.(labels := t.labels[l.id := l], nextLabelId := t.nextLabelId + 1)
    ensures out.1.Thrown? ==> out.0 == t
  {
    var issues := LabelCreateIssues(body, formats);
    if issues != [] then (t, Thrown(ZodError(issues)))
    else
      LabelCreateAccepts(body, formats);
      var boardId := body["boardId"].n;
      if boardId == 0 then (t, Fail("BoardId is required", 404))
      else if BoardAt(t, boardId).None? then (t, Fail("BoardId is Invalid", 400))
      else if !MayWrite(FirstRole(t, boardId, requester, memberScan)) then (t, Fail(NoAccessMessage, 400))
      else
        var l := Label(t.nextLabelId, StringIn(body, "labelName"), StringIn(body, "color"), boardId as nat);
        (t.(labels := t.labels[l.id := l], nextLabelId := t.nextLabelId + 1), Ok(l))
  }

  /** A VIEWER never creates a label. */
  lemma ViewerCannotCreateLabel(t: Tables, body: Body, formats: Formats, requester: nat, memberScan: seq<(nat, nat)>)
    requires LabelCreateIssues(body, formats) == []
    requires RoleOf(t, body["boardId"].n, requester) == Some(VIEWER)
    ensures CreateLabelStep(t, body, formats, Some(requester), memberScan).0 == t
    ensures StatusOf(CreateLabelStep(t, body, formats, Some(requester), memberScan).1) == 400
  {
  }

  lemma CreateLabelKeepsValid(t: Tables, body: Body, formats: Formats, requester: Option<nat>, memberScan: seq<(nat, nat)>)
    requires Valid(t)
    ensures Valid(CreateLabelStep(t, body, formats, requester, memberScan).0)
  {
  }

  /** `createLabel` against the store. */
  method CreateLabel(db: Db, body: Body, formats: Formats, requester: Option<nat>, memberScan: seq<(nat, nat)>) returns (r: Reply<Label>)
    modifies db
    ensures (db.Snapshot(), r) == CreateLabelStep(old(db.Snapshot()), body, formats, requester, memberScan)
  {
    var issues := LabelCreateIssues(body, formats);
    if issues != [] {
      return Thrown(ZodError(issues));
    }
    LabelCreateAccepts(body, formats);
    var boardId := body["boardId"].n;
    if boardId == 0 {
      return Fail("BoardId is required", 404);
    }
    if BoardAt(db.Snapshot(), boardId).None? {
      return Fail("BoardId is Invalid", 400);
    }
    if !MayWrite(FirstRole(db.Snapshot(), boardId, requester, memberScan)) {
      return Fail(NoAccessMessage, 400);
    }
    var l := Label(db.nextLabelId, StringIn(body, "labelName"), StringIn(body, "color"), boardId as nat);
    db.labels := db.labels[l.id := l];
    db.nextLabelId := db.nextLabelId + 1;
    r := Ok(l);
  }

  /** `{labelName, color, boardId, id}` taken from the body: what the edit validates and writes. */
  function EditInput(body: Body): (input: Body)
    ensures input.Keys <= LabelUpdateShape
    ensures forall k :: k in LabelUpdateShape && k in body ==> k in input && input[k] == body[k]
  {
    map k | k in body && k in LabelUpdateShape :: body[k]
  }

  /** The label after the edit: name and color when supplied, and the board given. */
  function EditedLabel(l: Label, input: Body, boardId: nat): Label {
    l.(labelName := if "labelName" in input then StringIn(input, "labelName") else l.labelName,
       color := if "color" in input then StringIn(input, "color") else l.color,
       boardId := boardId)
  }

  /** The edit's guards and its validation pass. */
  predicate EditAdmitted(body: Body, formats: Formats) {
    |body| != 0 && FieldTruthy(body, "id") && FieldTruthy(body, "boardId") && LabelUpdateIssues(EditInput(body), formats) == []
  }

  /**
   * `editLabel`: 412 for an empty body, 404 for a falsy id, 404 for a falsy
   * board id, validation of `{labelName, color, boardId, id}`, 400 unless
   * both the board and a List with the label's id exist, 400 without a
   * writing membership on the board; then the label with that id is
   * updated, or the store reports it missing.
   */
  function EditLabelStep(t: Tables, body: Body, formats: Formats, requester: Option<nat>, memberScan: seq<(nat, nat)>)
    : (out: (Tables, Reply<Label>))
    ensures |body| == 0 ==> out == (t, Fail("API Missing body", 412))
    ensures |body| != 0 && !FieldTruthy(body, "id") ==> out == (t, Fail("LabelId is required", 404))
    ensures |body| != 0 && FieldTruthy(body, "id") && !FieldTruthy(body, "boardId") ==>
      out == (t, Fail("BoardId is required", 404))
    ensures |body| != 0 && FieldTruthy(body, "id") && FieldTruthy(body, "boardId")
            && LabelUpdateIssues(EditInput(body), formats) != [] ==>
      out == (t, Thrown(ZodError(LabelUpdateIssues(EditInput(body), formats))))
    ensures EditAdmitted(body, formats) && BoardAt(t, body["boardId"].n).None? ==>
      out == (t, Fail("BoardId is Invalid", 400))
    ensures EditAdmitted(body, formats) && BoardAt(t, body["boardId"].n).Some? && ListAt(t, body["id"].n).None? ==>
      out == (t, Fail("ListId is Invalid", 400))
    ensures EditAdmitted(body, formats) && BoardAt(t, body["boardId"].n).Some? && ListAt(t, body["id"].n).Some?
            && !MayWrite(FirstRole(t, body["boardId"].n, requester, memberScan)) ==>
      out == (t, Fail(NoAccessMessage, 400))
    ensures EditAdmitted(body, formats) && BoardAt(t, body["boardId"].n).Some? && ListAt(t, body["id"].n).Some?
            && MayWrite(FirstRole(t, body["boardId"].n, requester, memberScan)) && LabelAt(t, body["id"].n).None? ==>
      out == (t, Thrown(RecordNotFound()))
    ensures out.1.Sent? <==>
      && |body| != 0 && FieldTruthy(body, "id") && FieldTruthy(body, "boardId")
      && LabelUpdateIssues(EditInput(body), formats) == []
      && BoardAt(t, body["boardId"].n).Some? && ListAt(t, body["id"].n).Some?
      && MayWrite(FirstRole(t, body["boardId"].n, requester, memberScan))
      && LabelAt(t, body["id"].n).Some?
    ensures out.1.Sent? ==>
      var id := body["id"].n as nat;
      var l := EditedLabel(t.labels[id], EditInput(body), body["boardId"].n as nat);
      && out.1 == Ok(l)
      && out.0 == t.(labels := t.labels[id := l])
      && (forall k :: k in t.lists ==> k in out.0.lists)
    ensures out.1.Thrown? ==> out.0 == t
  {
    if |body| == 0 then (t, Fail("API Missing body", 412))
    else if !FieldTruthy(body, "id") then (t, Fail("LabelId is required", 404))
    else if !FieldTruthy(body, "boardId") then (t, Fail("BoardId is required", 404))
    else
      var input := EditInput(body);
      var issues := LabelUpdateIssues(input, formats);
      if issues != [] then (t, Thrown(ZodError(issues)))
      else
        LabelUpdateAccepts(input, formats);
        var id := input["id"].n;
        var boardId := input["boardId"].n;
        if BoardAt(t, boardId).None? then (t, Fail("BoardId is Invalid", 400))
        else if ListAt(t, id).None? then (t, Fail("ListId is Invalid", 400))
        else if !MayWrite(FirstRole(t, boardId, requester, memberScan)) then (t, Fail(NoAccessMessage, 400))
        else if LabelAt(t, id).None? then (t, Thrown(RecordNotFound()))
        else
          var l := EditedLabel(t.labels[id as nat], input, boardId as nat);
          (t.(labels := t.labels[id as nat := l]), Ok(l))
  }

  /** A label can be edited only while a List with the same id exists. */
  lemma EditLabelNeedsListWithSameId(t: Tables, body: Body, formats: Formats, requester: Option<nat>, memberScan: seq<(nat, nat)>)
    requires |body| != 0 && FieldTruthy(body, "id") && FieldTruthy(body, "boardId")
    requires LabelUpdateIssues(EditInput(body), formats) == []
    requires BoardAt(t, body["boardId"].n).Some? && ListAt(t, body["id"].n).None?
    ensures EditLabelStep(t, body, formats, requester, memberScan) == (t, Fail("ListId is Invalid", 400))
  {
    LabelUpdateAccepts(EditInput(body), formats);
  }

  /** Keys outside `{labelName, color, boardId, id}` are not validated, so adding one changes nothing. */
  lemma EditLabelIgnoresOtherKeys(t: Tables, body: Body, formats: Formats, requester: Option<nat>, memberScan: seq<(nat, nat)>, k: string, v: Json)
    requires "id" in body && k !in LabelUpdateShape
    ensures EditLabelStep(t, body[k := v], formats, requester, memberScan) == EditLabelStep(t, body, formats, requester, memberScan)
  {
    assert EditInput(body[k := v]) == EditInput(body);
  }

  lemma EditLabelKeepsValid(t: Tables, body: Body, formats: Formats, requester: Option<nat>, memberScan: seq<(nat, nat)>)
    requires Valid(t)
    ensures Valid(EditLabelStep(t, body, formats, requester, memberScan).0)
  {
    var out := EditLabelStep(t, body, formats, requester, memberScan);
    if out.1.Sent? {
      var id := body["id"].n as nat;
      assert id in t.labels;
      var l := EditedLabel(t.labels[id], EditInput(body), body["boardId"].n as nat);
      assert l.id == id;
      assert out.0 == t.(labels := t.labels[id := l]);
    }
  }

  /** `editLabel` against the store. */
  method EditLabel(db: Db, body: Body, formats: Formats, requester: Option<nat>, memberScan: seq<(nat, nat)>) returns (r: Reply<Label>)
    modifies db
    ensures (db.Snapshot(), r) == EditLabelStep(old(db.Snapshot()), body, formats, requester, memberScan)
  {
    if |body| == 0 {
      return Fail("API Missing body", 412);
    }
    if !FieldTruthy(body, "id") {
      return Fail("LabelId is required", 404);
    }
    if !FieldTruthy(body, "boardId") {
      return Fail("BoardId is required", 404);
    }
    var input := EditInput(body);
    var issues := LabelUpdateIssues(input, formats);
    if issues != [] {
      return Thrown(ZodError(issues));
    }
    LabelUpdateAccepts(input, formats);
    var id := input["id"].n;
    var boardId := input["boardId"].n;
    if BoardAt(db.Snapshot(), boardId).None? {
      return Fail("BoardId is Invalid", 400);
    }
    if ListAt(db.Snapshot(), id).None? {
      return Fail("ListId is Invalid", 400);
    }
    if !MayWrite(FirstRole(db.Snapshot(), boardId, requester, memberScan)) {
      return Fail(NoAccessMessage, 400);
    }
    if id as nat !in db.labels {
      return Thrown(RecordNotFound());
    }
    var l := EditedLabel(db.labels[id as nat], input, boardId as nat);
    db.labels := db.labels[id as nat := l];
    r := Ok(l);
  }

  /** `search` from the body: a string is the text condition; another truthy value reaches the store. */
  function SearchIn(body: Body): Option<string> {
    if "search" in body && body["search"].JStr? then Some(body["search"].s) else None
  }

  /** The query fields `getLabelByBoardId` hands the service, read from the body. */
  function LabelQueryFields(body: Body): (f: QueryFields)
    requires FieldTruthy(body, "id") && FieldTruthy(body, "boardId")
    ensures f.id == Some(JsonToNumber(body["id"])) && f.boardId == Some(JsonToNumber(body["boardId"]))
    ensures f.filtered <==> FieldTruthy(body, "isFiltered")
    ensures !FieldTruthy(body, "page") ==> f.page == Some(Num(0))
    ensures !FieldTruthy(body, "limit") ==> f.limit == Some(Num(10))
    ensures FieldTruthy(body, "page") ==> f.page == Some(JsonToNumber(body["page"]))
    ensures FieldTruthy(body, "limit") ==> f.limit == Some(JsonToNumber(body["limit"]))
  {
    QueryFields(
      Some(JsonToNumber(body["id"])),
      Some(JsonToNumber(body["boardId"])),
      SearchIn(body),
      Some(if FieldTruthy(body, "page") then JsonToNumber(body["page"]) else Num(0)),
      Some(if FieldTruthy(body, "limit") then JsonToNumber(body["limit"]) else Num(10)),
      FieldTruthy(body, "isFiltered"))
  }

  /** A truthy `search` that is not a string: the store refuses it as a text condition. */
  predicate NonStringSearch(body: Body) {
    "search" in body && !body["search"].JStr? && Truthy(body["search"])
  }

  /**
   * `getLabelByBoardId`: read-only. Both `id` and `boardId` must be truthy
   * (400 otherwise); then the service's result for the fields in the body.
   */
  function GetLabelByBoardId(t: Tables, body: Body, contains: (string, string) -> bool, order: seq<nat>)
    : (r: Reply<seq<Label>>)
    ensures !FieldTruthy(body, "id") ==> r == Fail("LabelId is required", 400)
    ensures FieldTruthy(body, "id") && !FieldTruthy(body, "boardId") ==> r == Fail("boardId is required", 400)
    ensures FieldTruthy(body, "id") && FieldTruthy(body, "boardId") && NonStringSearch(body) ==>
      r == Thrown(StoreRejectsArgument())
    ensures FieldTruthy(body, "id") && FieldTruthy(body, "boardId") && !NonStringSearch(body) ==>
      r == FromResult(LabelServices.GetLabel(t, LabelQueryFields(body), contains, order))
    ensures r.Sent? ==>
      && FieldTruthy(body, "id") && FieldTruthy(body, "boardId")
      && r == FromResult(LabelServices.GetLabel(t, LabelQueryFields(body), contains, order))
  {
    if !FieldTruthy(body, "id") then Fail("LabelId is required", 400)
    else if !FieldTruthy(body, "boardId") then Fail("boardId is required", 400)
    else if NonStringSearch(body) then Thrown(StoreRejectsArgument())
    else FromResult(LabelServices.GetLabel(t, LabelQueryFields(body), contains, order))
  }

  /**
   * With numeric `id` and `boardId`, the answer holds at most the one label
   * with that id, and only if it is on that board.
   */
  lemma GetLabelByBoardIdNarrows(t: Tables, body: Body, contains: (string, string) -> bool, order: seq<nat>)
    requires LabelServices.ScanOrder(t, order)
    requires "id" in body && body["id"].JNum? && body["id"].n != 0
    requires "boardId" in body && body["boardId"].JNum? && body["boardId"].n != 0
    requires GetLabelByBoardId(t, body, contains, order).Sent?
    ensures forall l :: l in GetLabelByBoardId(t, body, contains, order).body.data ==>
      l.id == body["id"].n && l.boardId == body["boardId"].n
  {
    LabelServices.GetLabelResult(t, LabelQueryFields(body), contains, order);
  }

  /**
   * `deleteLabelById`: 400 for a missing id, 400 unless a List with that id
   * exists, the store's error when there is no requester (the user condition
   * is NaN), 400 without a writing membership on the list's board; then
   * that List row is removed and no label is touched.
   */
  function DeleteLabelByIdStep(t: Tables, query: Query, requester: Option<nat>): (out: (Tables, Reply<string>))
    ensures !ParamTruthy(Param(query, "id")) ==> out == (t, Fail("LabelId is required", 400))
    ensures ParamTruthy(Param(query, "id")) && StringToNumber(query["id"]).NaN? ==> out == (t, Thrown(StoreRejectsArgument()))
    ensures ParamTruthy(Param(query, "id")) && StringToNumber(query["id"]).Num? && ListAt(t, StringToNumber(query["id"]).n).None? ==>
      out == (t, Fail("ListId is Invalid", 400))
    ensures ParamTruthy(Param(query, "id")) && StringToNumber(query["id"]).Num? && ListAt(t, StringToNumber(query["id"]).n).Some?
            && requester.None? ==>
      out == (t, Thrown(StoreRejectsArgument()))
    ensures ParamTruthy(Param(query, "id")) && StringToNumber(query["id"]).Num? && ListAt(t, StringToNumber(query["id"]).n).Some?
            && requester.Some? && !MayWrite(RoleOf(t, ListAt(t, StringToNumber(query["id"]).n).value.boardId, requester.value)) ==>
      out == (t, Fail("User don't have delete permision", 400))
    ensures out.1.Sent? <==>
      && ParamTruthy(Param(query, "id")) && StringToNumber(query["id"]).Num?
      && ListAt(t, StringToNumber(query["id"]).n).Some? && requester.Some?
      && MayWrite(RoleOf(t, ListAt(t, StringToNumber(query["id"]).n).value.boardId, requester.value))
    ensures out.1.Sent? ==>
      && out.1 == Ok("Label Deleted Successfully")
      && out.0 == t.(lists := t.lists - {StringToNumber(query["id"]).n as nat})
    ensures out.1.Thrown? ==> out.0 == t
  {
    if !ParamTruthy(Param(query, "id")) then (t, Fail("LabelId is required", 400))
    else
      var id := StringToNumber(query["id"]);
      if id.NaN? then (t, Thrown(StoreRejectsArgument()))
      else if ListAt(t, id.n).None? then (t, Fail("ListId is Invalid", 400))
      else if requester.None? then (t, Thrown(StoreRejectsArgument()))
      else if !MayWrite(RoleOf(t, ListAt(t, id.n).value.boardId, requester.value)) then
        (t, Fail("User don't have delete permision", 400))
      else (t.(lists := t.lists - {id.n as nat}), Ok("Label Deleted Successfully"))
  }

  /** Deleting "a label" removes a List and leaves every label in place. */
  lemma DeleteLabelRemovesListOnly(t: Tables, query: Query, requester: Option<nat>)
    requires DeleteLabelByIdStep(t, query, requester).1.Sent?
    ensures var t' := DeleteLabelByIdStep(t, query, requester).0;
            && t'.labels == t.labels
            && |t'.lists| == |t.lists| - 1
  {
    var id := StringToNumber(query["id"]).n as nat;
    var t' := DeleteLabelByIdStep(t, query, requester).0;
    assert t.lists.Keys == t'.lists.Keys + {id};
  }

  /** Without a requester the delete never happens. */
  lemma AnonymousDeleteFails(t: Tables, query: Query)
    ensures DeleteLabelByIdStep(t, query, None).0 == t
    ensures DeleteLabelByIdStep(t, query, None).1.Thrown?
  {
  }

  lemma DeleteLabelByIdKeepsValid(t: Tables, query: Query, requester: Option<nat>)
    requires Valid(t)
    ensures Valid(DeleteLabelByIdStep(t, query, requester).0)
  {
  }

  /** `deleteLabelById` against the store. */
  method DeleteLabelById(db: Db, query: Query, requester: Option<nat>) returns (r: Reply<string>)
    modifies db
    ensures (db.Snapshot(), r) == DeleteLabelByIdStep(old(db.Snapshot()), query, requester)
  {
    if !ParamTruthy(Param(query, "id")) {
      return Fail("LabelId is required", 400);
    }
    var id := StringToNumber(query["id"]);
    if id.NaN? {
      return Thrown(StoreRejectsArgument());
    }
    if id.n < 0 || id.n as nat !in db.lists {
      return Fail("ListId is Invalid", 400);
    }
    var list := db.lists[id.n as nat];
    if requester.None? {
      return Thrown(StoreRejectsArgument());
    }
    if !MayWrite(RoleOf(db.Snapshot(), list.boardId, requester.value)) {
      return Fail("User don't have delete permision", 400);
    }
    db.lists := db.lists - {id.n as nat};
    r := Ok("Label Deleted Successfully");
  }
}
