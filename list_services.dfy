/**
 * The list service: creating a list at the next position of its board,
 * renaming a list, and the list listing. Writes need a non-VIEWER
 * membership on the board concerned.
 */
module ListServices {
  import opened Wrappers
  import opened Text
  import opened Values
  import opened Store
  import opened ErrorHandler
  import opened Listing
  import opened Extrema

  const ViewerMessage := "Viewers cannot perform this action"

  /**
   * `createList`: 404 for a missing board, 403 without membership, 400 for a
   * VIEWER; otherwise one new list, placed after every list of the board.
   */
  function CreateListStep(t: Tables, listName: string, boardId: int, userId: nat, now: int)
    : (out: (Tables, Result<ListRow, Error>))
    ensures BoardAt(t, boardId).None? ==> out == (t, Failure(AppError("Board ID is invalid", 404)))
    ensures BoardAt(t, boardId).Some? && RoleOf(t, boardId, userId).None? ==>
      out == (t, Failure(AppError("User " + IntToString(userId) + " has no access to board " + IntToString(boardId), 403)))
    ensures BoardAt(t, boardId).Some? && RoleOf(t, boardId, userId) == Some(VIEWER) ==>
      out == (t, Failure(AppError(ViewerMessage, 400)))
    ensures out.1.Success? <==>
      BoardAt(t, boardId).Some? && RoleOf(t, boardId, userId).Some? && RoleOf(t, boardId, userId) != Some(VIEWER)
    ensures out.1.Success? ==>
      var l := out.1.value;
      && l.id == t.nextListId && l.listName == listName && l.boardId == boardId && l.updatedAt == now
      && (forall id :: id in t.lists && t.lists[id].boardId == boardId ==> t.lists[id].position < l.position)
      && (PositionsOn(t, boardId) == {} ==> l.position == 1)
      && l.position == NextPosition(t, l.boardId)
      && out.0 == t.(lists := t.lists[l.id := l], nextListId := t.nextListId + 1)
  {
    if BoardAt(t, boardId).None? then (t, Failure(AppError("Board ID is invalid", 404)))
    else if RoleOf(t, boardId, userId).None? then
      (t, Failure(AppError("User " + IntToString(userId) + " has no access to board " + IntToString(boardId), 403)))
    else if RoleOf(t, boardId, userId) == Some(VIEWER) then (t, Failure(AppError(ViewerMessage, 400)))
    else
      var l := ListRow(t.nextListId, listName, boardId as nat, NextPosition(t, boardId as nat), now);
      (t.(lists := t.lists[l.id := l], nextListId := t.nextListId + 1), Success(l))
  }

  /** A created list is new: in a well-formed store no list had its id, and the store stays well formed. */
  lemma CreateListKeepsValid(t: Tables, listName: string, boardId: int, userId: nat, now: int)
    requires Valid(t)
    ensures CreateListStep(t, listName, boardId, userId, now).1.Success? ==> t.nextListId !in t.lists
    ensures Valid(CreateListStep(t, listName, boardId, userId, now).0)
  {
  }

  /**
   * In a well-formed store, each list created on a board moves that board's
   * next position up by exactly one.
   */
  lemma CreateListAdvancesPosition(t: Tables, listName: string, boardId: int, userId: nat, now: int)
    requires Valid(t)
    requires CreateListStep(t, listName, boardId, userId, now).1.Success?
    ensures boardId >= 0
    ensures NextPosition(CreateListStep(t, listName, boardId, userId, now).0, boardId as nat)
         == NextPosition(t, boardId as nat) + 1
  {
    var (t', r) := CreateListStep(t, listName, boardId, userId, now);
    var l := r.value;
    var b := boardId as nat;
    var p := NextPosition(t, b);
    assert t.nextListId !in t.lists;
    assert PositionsOn(t', b) == PositionsOn(t, b) + {p} by {
      forall x | x in PositionsOn(t', b) ensures x in PositionsOn(t, b) + {p} {
        var id :| id in t'.lists && t'.lists[id].boardId == b && t'.lists[id].position == x;
        if id != l.id {
          assert id in t.lists && t.lists[id].boardId == b;
        }
      }
      forall x | x in PositionsOn(t, b) + {p} ensures x in PositionsOn(t', b) {
        if x == p {
          assert t'.lists[l.id] == l;
        } else {
          var id :| id in t.lists && t.lists[id].boardId == b && t.lists[id].position == x;
          assert id != l.id && t'.lists[id] == t.lists[id];
        }
      }
    }
    var m := MaxOf(PositionsOn(t', b));
    assert p <= m;
  }

  /**
   * Lists created one after another on a board without lists get positions
   * 1, 2 and 3.
   */
  lemma ListPositionsCountUp(t: Tables, boardId: int, userId: nat, names: seq<string>, now: int)
    requires Valid(t) && |names| == 3
    requires CreateListStep(t, names[0], boardId, userId, now).1.Success?
    requires boardId >= 0 && PositionsOn(t, boardId as nat) == {}
    ensures var (t1, r1) := CreateListStep(t, names[0], boardId, userId, now);
            var (t2, r2) := CreateListStep(t1, names[1], boardId, userId, now);
            var (t3, r3) := CreateListStep(t2, names[2], boardId, userId, now);
            && r1.Success? && r2.Success? && r3.Success?
            && r1.value.position == 1 && r2.value.position == 2 && r3.value.position == 3
  {
    var (t1, r1) := CreateListStep(t, names[0], boardId, userId, now);
    CreateListKeepsValid(t, names[0], boardId, userId, now);
    CreateListAdvancesPosition(t, names[0], boardId, userId, now);
    assert t1.boards == t.boards && t1.members == t.members;
    var (t2, r2) := CreateListStep(t1, names[1], boardId, userId, now);
    CreateListKeepsValid(t1, names[1], boardId, userId, now);
    CreateListAdvancesPosition(t1, names[1], boardId, userId, now);
    assert t2.boards == t.boards && t2.members == t.members;
  }

  /** `createList` against the store. */
  method CreateList(db: Db, listName: string, boardId: int, userId: nat, now: int) returns (r: Result<ListRow, Error>)
    modifies db
    ensures (db.Snapshot(), r) == CreateListStep(old(db.Snapshot()), listName, boardId, userId, now)
  {
    if boardId < 0 || boardId as nat !in db.boards {
      return Failure(AppError("Board ID is invalid", 404));
    }
    var role := RoleOf(db.Snapshot(), boardId, userId);
    if role.None? {
      return Failure(AppError("User " + IntToString(userId) + " has no access to board " + IntToString(boardId), 403));
    }
    if role.value == VIEWER {
      return Failure(AppError(ViewerMessage, 400));
    }
    var position := NextPosition(db.Snapshot(), boardId as nat);
    var l := ListRow(db.nextListId, listName, boardId as nat, position, now);
    db.lists := db.lists[l.id := l];
    db.nextListId := db.nextListId + 1;
    r := Success(l);
  }

  /**
   * `updateList` of the service: 404 for a missing list; membership is
   * checked on the list's own board (403 without, 400 for a VIEWER); then
   * only the list's name changes (an absent name leaves it) and its
   * `updatedAt` is set.
   */
  function UpdateListStep(t: Tables, listName: Option<string>, listId: int, userId: nat, now: int)
    : (out: (Tables, Result<ListRow, Error>))
    ensures ListAt(t, listId).None? ==> out == (t, Failure(AppError("ListId is Invalid", 404)))
    ensures ListAt(t, listId).Some? && RoleOf(t, ListAt(t, listId).value.boardId, userId).None? ==>
      out == (t, Failure(AppError("User " + IntToString(userId) + " has no access to board", 403)))
    ensures ListAt(t, listId).Some? && RoleOf(t, ListAt(t, listId).value.boardId, userId) == Some(VIEWER) ==>
      out == (t, Failure(AppError(ViewerMessage, 400)))
    ensures out.1.Success? <==>
      ListAt(t, listId).Some? && RoleOf(t, ListAt(t, listId).value.boardId, userId).Some?
      && RoleOf(t, ListAt(t, listId).value.boardId, userId) != Some(VIEWER)
    ensures out.1.Success? ==>
      var old_ := t.lists[listId as nat];
      && out.1.value == old_.(listName := listName.GetOr(old_.listName), updatedAt := now)
      && out.0 == t.(lists := t.lists[listId as nat := out.1.value])
  {
    match ListAt(t, listId)
    case None => (t, Failure(AppError("ListId is Invalid", 404)))
    case Some(l) =>
      var role := RoleOf(t, l.boardId, userId);
      if role.None? then (t, Failure(AppError("User " + IntToString(userId) + " has no access to board", 403)))
      else if role.value == VIEWER then (t, Failure(AppError(ViewerMessage, 400)))
      else
        var l' := l.(listName := listName.GetOr(l.listName), updatedAt := now);
        (t.(lists := t.lists[listId as nat := l']), Success(l'))
  }

  lemma UpdateListKeepsValid(t: Tables, listName: Option<string>, listId: int, userId: nat, now: int)
    requires Valid(t)
    ensures Valid(UpdateListStep(t, listName, listId, userId, now).0)
  {
  }

  /** A rename keeps the list on its board at its position. */
  lemma UpdateListKeepsPlace(t: Tables, listName: Option<string>, listId: int, userId: nat, now: int)
    requires UpdateListStep(t, listName, listId, userId, now).1.Success?
    ensures var t' := UpdateListStep(t, listName, listId, userId, now).0;
            && t'.lists.Keys == t.lists.Keys
            && forall id :: id in t.lists ==>
                 t'.lists[id].boardId == t.lists[id].boardId && t'.lists[id].position == t.lists[id].position
  {
  }

  /** `updateList` of the service, against the store. */
  method UpdateList(db: Db, listName: Option<string>, listId: int, userId: nat, now: int) returns (r: Result<ListRow, Error>)
    modifies db
    ensures (db.Snapshot(), r) == UpdateListStep(old(db.Snapshot()), listName, listId, userId, now)
  {
    if listId < 0 || listId as nat !in db.lists {
      return Failure(AppError("ListId is Invalid", 404));
    }
    var l := db.lists[listId as nat];
    var role := RoleOf(db.Snapshot(), l.boardId, userId);
    if role.None? {
      return Failure(AppError("User " + IntToString(userId) + " has no access to board", 403));
    }
    if role.value == VIEWER {
      return Failure(AppError(ViewerMessage, 400));
    }
    var updated := l.(listName := listName.GetOr(l.listName), updatedAt := now);
    db.lists := db.lists[listId as nat := updated];
    r := Success(updated);
  }

  /** The `where` object of `getLists`: id, board and text conditions. */
  function ListFilter(fields: QueryFields): Filter {
    Filter(NumberCondition(fields.id), NumberCondition(fields.boardId), SearchCondition(fields.search))
  }

  /** A list satisfies the filter; the text condition is matched against the list's name. */
  predicate ListMatches(l: ListRow, f: Filter, contains: (string, string) -> bool) {
    && (f.id.None? || l.id == f.id.value)
    && (f.boardId.None? || l.boardId == f.boardId.value)
    && (f.search.None? || contains(l.listName, f.search.value))
  }

  /** `orderBy: [{updatedAt: 'desc'}, {id: 'desc'}]` on two stored lists. */
  predicate ListNewer(t: Tables, a: nat, b: nat)
    requires a in t.lists && b in t.lists
  {
    t.lists[a].updatedAt > t.lists[b].updatedAt || (t.lists[a].updatedAt == t.lists[b].updatedAt && a > b)
  }

  /** All matching lists in the store's order, before the window is applied. */
  function OrderedLists(t: Tables, f: Filter, contains: (string, string) -> bool): (ids: seq<nat>)
    ensures forall i :: 0 <= i < |ids| ==> ids[i] in t.lists && ListMatches(t.lists[ids[i]], f, contains)
    ensures forall id :: id in t.lists && ListMatches(t.lists[id], f, contains) ==> id in ids
    ensures forall i, j :: 0 <= i < j < |ids| ==> ListNewer(t, ids[i], ids[j])
  {
    var stamp := map id | id in t.lists && ListMatches(t.lists[id], f, contains) :: t.lists[id].updatedAt;
    ByRecency(stamp)
  }

  /** `getLists`: read-only; the matching lists, newest first, cut to the window. */
  function GetLists(t: Tables, fields: QueryFields, contains: (string, string) -> bool): (r: Result<seq<ListRow>, Error>)
    ensures r.Failure? <==> Bounds(PageWindow(fields)).Failure?
    ensures r.Failure? ==> r.error == StoreRejectsArgument()
  {
    match Bounds(PageWindow(fields))
    case Failure(e) => Failure(e)
    case Success((skip, take)) =>
      var ids := Slice(OrderedLists(t, ListFilter(fields), contains), skip, take);
      Success(seq(|ids|, i requires 0 <= i < |ids| => t.lists[ids[i]]))
  }

  /**
   * The lists returned are the ones at positions `skip`, `skip + 1`, ... of
   * the full newest-first order of matching lists, at most `take` of them;
   * in lookup mode, all of them.
   */
  lemma GetListsResult(t: Tables, fields: QueryFields, contains: (string, string) -> bool)
    requires GetLists(t, fields, contains).Success?
    ensures var ids := OrderedLists(t, ListFilter(fields), contains);
            var (skip, take) := Bounds(PageWindow(fields)).value;
            var window := Slice(ids, skip, take);
            var rows := GetLists(t, fields, contains).value;
            && |rows| == |window|
            && (take.Some? ==> |rows| <= take.value)
            && (fields.filtered ==> window == ids)
            && (forall i :: 0 <= i < |window| ==> skip + i < |ids| && window[i] == ids[skip + i])
            && (forall i :: 0 <= i < |rows| ==> rows[i] == t.lists[window[i]])
            && (forall i, j :: 0 <= i < j < |window| ==> ListNewer(t, window[i], window[j]))
  {
    if fields.filtered {
      FilteredModeIsUnpaged(fields);
    }
  }

  /** Every list `getLists` returns satisfies its `where` object. */
  lemma GetListsMatch(t: Tables, fields: QueryFields, contains: (string, string) -> bool)
    requires GetLists(t, fields, contains).Success?
    ensures forall l :: l in GetLists(t, fields, contains).value ==> ListMatches(l, ListFilter(fields), contains)
  {
    var all := OrderedLists(t, ListFilter(fields), contains);
    var (skip, take) := Bounds(PageWindow(fields)).value;
    var ids := Slice(all, skip, take);
    var rows := GetLists(t, fields, contains).value;
    assert rows == seq(|ids|, i requires 0 <= i < |ids| => t.lists[ids[i]]);
    forall l | l in rows ensures ListMatches(l, ListFilter(fields), contains) {
      var i :| 0 <= i < |rows| && rows[i] == l;
      assert ids[i] == all[skip + i];
    }
  }

  /**
   * `getLists` as written: its text condition names a `title` column, which
   * the list table does not have, so the store refuses every query with a
   * non-empty search as a validation error. Without a search it answers as
   * `GetLists`, which matches the search against the list's name instead.
   */
  function GetListsAsWritten(t: Tables, fields: QueryFields, contains: (string, string) -> bool)
    : (r: Result<seq<ListRow>, Error>)
    ensures r.Failure? <==> Bounds(PageWindow(fields)).Failure? || SearchCondition(fields.search).Some?
    ensures r.Failure? ==> r.error == StoreRejectsArgument()
    ensures r.Success? ==> r == GetLists(t, fields, contains)
  {
    if SearchCondition(fields.search).Some? then Failure(StoreRejectsArgument())
    else GetLists(t, fields, contains)
  }

  /**
   * Wherever the two differ it is over a search: as written the query is
   * refused with 400, while the name match answers with the lists.
   */
  lemma ListSearchRefusedAsWritten(t: Tables, fields: QueryFields, contains: (string, string) -> bool)
    requires GetLists(t, fields, contains).Success?
    ensures GetListsAsWritten(t, fields, contains) != GetLists(t, fields, contains) <==> SearchCondition(fields.search).Some?
    ensures SearchCondition(fields.search).Some? ==>
      && GetListsAsWritten(t, fields, contains) == Failure(StoreRejectsArgument())
      && HandleError(GetListsAsWritten(t, fields, contains).error).status == 400
  {
  }
}
