/**
 * The board service: the board listing (browse and lookup modes) and the
 * owner-only board update.
 */
module BoardServices {
  import opened Wrappers
  import opened Values
  import opened Store
  import opened ErrorHandler
  import opened Listing

  /** `IEditBoard`: the fields an update may supply. */
  datatype EditBoard = EditBoard(
    title: Option<string>, visibility: Option<Visibility>, backgroundImg: Option<string>, archived: Option<bool>)

  /** A board in lookup mode: `{id, name: title, value: id}`. */
  datatype BoardOption = BoardOption(id: nat, name: string, value: nat)

  /** What `getBoards` returns: full records, or the lookup projection. */
  datatype BoardsPage = Records(boards: seq<Board>) | Options(options: seq<BoardOption>)

  /** The `where` object of `getBoards`: an id condition and a title condition. */
  function BoardFilter(fields: QueryFields): Filter {
    Filter(NumberCondition(fields.id), None, SearchCondition(fields.search))
  }

  /** A board satisfies the filter; `contains` is the store's case-insensitive substring test. */
  predicate BoardMatches(b: Board, f: Filter, contains: (string, string) -> bool) {
    && (f.id.None? || b.id == f.id.value)
    && (f.search.None? || contains(b.title, f.search.value))
  }

  /** The matching boards, each with its `updatedAt`. */
  function BoardStamps(t: Tables, f: Filter, contains: (string, string) -> bool): (stamp: map<nat, int>)
    ensures forall id :: id in stamp <==> id in t.boards && BoardMatches(t.boards[id], f, contains)
    ensures forall id :: id in stamp ==> stamp[id] == t.boards[id].updatedAt
  {
    map id | id in t.boards && BoardMatches(t.boards[id], f, contains) :: t.boards[id].updatedAt
  }

  /** All matching boards in the store's order, before the window is applied. */
  function OrderedMatches(t: Tables, f: Filter, contains: (string, string) -> bool): (ids: seq<nat>)
    ensures forall i :: 0 <= i < |ids| ==> ids[i] in t.boards && BoardMatches(t.boards[ids[i]], f, contains)
    ensures forall id :: id in t.boards && BoardMatches(t.boards[id], f, contains) ==> id in ids
    ensures forall i, j :: 0 <= i < j < |ids| ==> BoardNewer(t, ids[i], ids[j])
  {
    var stamp := BoardStamps(t, f, contains);
    ByRecency(stamp)
  }

  /** `orderBy: [{updatedAt: 'desc'}, {id: 'desc'}]` on two stored boards. */
  predicate BoardNewer(t: Tables, a: nat, b: nat)
    requires a in t.boards && b in t.boards
  {
    t.boards[a].updatedAt > t.boards[b].updatedAt || (t.boards[a].updatedAt == t.boards[b].updatedAt && a > b)
  }

  /** The stored rows of the given ids. */
  function RowsOf(t: Tables, ids: seq<nat>): (rows: seq<Board>)
    requires forall i :: 0 <= i < |ids| ==> ids[i] in t.boards
    ensures |rows| == |ids| && forall i :: 0 <= i < |ids| ==> rows[i] == t.boards[ids[i]]
  {
    seq(|ids|, i requires 0 <= i < |ids| => t.boards[ids[i]])
  }

  function Project(b: Board): BoardOption {
    BoardOption(b.id, b.title, b.id)
  }

  /** The lookup projection of each row, in order. */
  function Projected(rows: seq<Board>): (opts: seq<BoardOption>)
    ensures |opts| == |rows| && forall i :: 0 <= i < |rows| ==> opts[i] == Project(rows[i])
  {
    seq(|rows|, i requires 0 <= i < |rows| => Project(rows[i]))
  }

  /**
   * `getBoards`. A window the store refuses (NaN or negative) is an error;
   * otherwise the matching boards, newest first, cut to the window, and in
   * lookup mode projected to options.
   */
  function GetBoards(t: Tables, fields: QueryFields, contains: (string, string) -> bool): (r: Result<BoardsPage, Error>)
    ensures r.Failure? <==> Bounds(PageWindow(fields)).Failure?
    ensures r.Failure? ==> r.error == StoreRejectsArgument()
    ensures r.Success? ==> (r.value.Options? <==> fields.filtered)
  {
    match Bounds(PageWindow(fields))
    case Failure(e) => Failure(e)
    case Success((skip, take)) =>
      var rows := RowsOf(t, Slice(OrderedMatches(t, BoardFilter(fields), contains), skip, take));
      if fields.filtered then
        Success(Options(Projected(rows)))
      else
        Success(Records(rows))
  }

  /**
   * Browse mode: at most `take` boards, each a stored board matching the
   * filter, being the ones at positions `skip`, `skip + 1`, ... of the full
   * newest-first order, and so themselves newest first.
   */
  lemma BrowseResult(t: Tables, fields: QueryFields, contains: (string, string) -> bool)
    requires !fields.filtered && GetBoards(t, fields, contains).Success?
    ensures var ids := OrderedMatches(t, BoardFilter(fields), contains);
            var (skip, take) := Bounds(PageWindow(fields)).value;
            var window := Slice(ids, skip, take);
            var rows := GetBoards(t, fields, contains).value.boards;
            && take.Some? && |rows| <= take.value && |rows| == |window|
            && (forall i :: 0 <= i < |window| ==> skip + i < |ids| && window[i] == ids[skip + i])
            && (forall i :: 0 <= i < |rows| ==> rows[i] == t.boards[window[i]])
            && (forall i, j :: 0 <= i < j < |window| ==> BoardNewer(t, window[i], window[j]))
  {
    var ids := OrderedMatches(t, BoardFilter(fields), contains);
    var (skip, take) := Bounds(PageWindow(fields)).value;
    var window := Slice(ids, skip, take);
    assert GetBoards(t, fields, contains).value == Records(RowsOf(t, window));
  }

  /** Lookup mode: every matching board once, newest first, as `{id, name: title, value: id}`. */
  lemma LookupResult(t: Tables, fields: QueryFields, contains: (string, string) -> bool)
    requires fields.filtered
    ensures GetBoards(t, fields, contains).Success?
    ensures var ids := OrderedMatches(t, BoardFilter(fields), contains);
            var opts := GetBoards(t, fields, contains).value.options;
            && |opts| == |ids|
            && (forall i :: 0 <= i < |opts| ==> opts[i] == Project(t.boards[ids[i]]))
            && (forall id :: id in t.boards && BoardMatches(t.boards[id], BoardFilter(fields), contains) ==>
                  Project(t.boards[id]) in opts)
  {
    FilteredModeIsUnpaged(fields);
    assert Bounds(PageWindow(fields)) == Success((0, None));
    var ids := OrderedMatches(t, BoardFilter(fields), contains);
    assert Slice(ids, 0, None) == ids;
    var opts := GetBoards(t, fields, contains).value.options;
    assert opts == Projected(RowsOf(t, ids));
    forall id | id in t.boards && BoardMatches(t.boards[id], BoardFilter(fields), contains)
      ensures Project(t.boards[id]) in opts
    {
      var i :| 0 <= i < |ids| && ids[i] == id;
      assert opts[i] == Project(t.boards[id]);
    }
  }

  /** The board after an update: each supplied field replaced, the rest kept. */
  function ApplyEdit(b: Board, e: EditBoard, now: int): Board {
    b.(title := e.title.GetOr(b.title),
       visibility := e.visibility.GetOr(b.visibility),
       backgroundImg := e.backgroundImg.GetOr(b.backgroundImg),
       archived := e.archived.GetOr(b.archived),
       updatedAt := now)
  }

  /** `board.findUnique({where: {id, ownerId}})` finds the board. */
  predicate OwnedBy(t: Tables, boardId: int, userId: nat) {
    BoardAt(t, boardId).Some? && BoardAt(t, boardId).value.ownerId == userId
  }

  /**
   * `updateBoard` of the service: 403 unless the board exists and belongs to
   * the user; otherwise only that board changes, and only in the supplied
   * fields (and its `updatedAt`, set to `now`).
   */
  function UpdateBoardStep(t: Tables, boardId: int, userId: nat, e: EditBoard, now: int): (out: (Tables, Result<Board, Error>))
    ensures !OwnedBy(t, boardId, userId) ==> out == (t, Failure(AppError("Board not found or unauthorized", 403)))
    ensures out.1.Success? <==> OwnedBy(t, boardId, userId)
    ensures out.1.Success? ==>
      var old_ := t.boards[boardId as nat];
      var b := out.1.value;
      && out.0 == t.(boards := t.boards[boardId as nat := b])
      && b.id == old_.id && b.ownerId == old_.ownerId && b.updatedAt == now
      && (e.title.Some? ==> b.title == e.title.value) && (e.title.None? ==> b.title == old_.title)
      && (e.visibility.Some? ==> b.visibility == e.visibility.value) && (e.visibility.None? ==> b.visibility == old_.visibility)
      && (e.backgroundImg.Some? ==> b.backgroundImg == e.backgroundImg.value)
      && (e.backgroundImg.None? ==> b.backgroundImg == old_.backgroundImg)
      && (e.archived.Some? ==> b.archived == e.archived.value) && (e.archived.None? ==> b.archived == old_.archived)
  {
    if !OwnedBy(t, boardId, userId) then (t, Failure(AppError("Board not found or unauthorized", 403)))
    else
      var b := ApplyEdit(t.boards[boardId as nat], e, now);
      (t.(boards := t.boards[boardId as nat := b]), Success(b))
  }

  lemma UpdateBoardKeepsValid(t: Tables, boardId: int, userId: nat, e: EditBoard, now: int)
    requires Valid(t)
    ensures Valid(UpdateBoardStep(t, boardId, userId, e, now).0)
  {
  }

  /**
   * An edit that does not supply `archived` keeps every board's flag, and
   * changes no board but the one named, and that only for its owner.
   */
  lemma UpdateBoardConfined(t: Tables, boardId: int, userId: nat, e: EditBoard, now: int)
    requires e.archived.None?
    ensures var t' := UpdateBoardStep(t, boardId, userId, e, now).0;
            && t'.boards.Keys == t.boards.Keys
            && (forall k :: k in t.boards ==> t'.boards[k].archived == t.boards[k].archived)
            && (forall k :: k in t.boards && t'.boards[k] != t.boards[k] ==> k == boardId && t.boards[k].ownerId == userId)
  {
  }

  /** The same update applied twice leaves what one application left, apart from the timestamp. */
  lemma UpdateBoardIdempotent(t: Tables, boardId: int, userId: nat, e: EditBoard, now: int)
    requires UpdateBoardStep(t, boardId, userId, e, now).1.Success?
    ensures var t1 := UpdateBoardStep(t, boardId, userId, e, now).0;
            UpdateBoardStep(t1, boardId, userId, e, now) == (t1, Success(t1.boards[boardId as nat]))
  {
    var t1 := UpdateBoardStep(t, boardId, userId, e, now).0;
    var k := boardId as nat;
    assert ApplyEdit(t1.boards[k], e, now) == t1.boards[k];
    assert t1.boards[k := t1.boards[k]] == t1.boards;
  }

  /** `updateBoard` of the service, against the store. */
  method UpdateBoard(db: Db, boardId: int, userId: nat, e: EditBoard, now: int) returns (r: Result<Board, Error>)
    modifies db
    ensures (db.Snapshot(), r) == UpdateBoardStep(old(db.Snapshot()), boardId, userId, e, now)
  {
    if boardId < 0 || boardId as nat !in db.boards || db.boards[boardId as nat].ownerId != userId {
      return Failure(AppError("Board not found or unauthorized", 403));
    }
    var updated := ApplyEdit(db.boards[boardId as nat], e, now);
    db.boards := db.boards[boardId as nat := updated];
    r := Success(updated);
  }
}
