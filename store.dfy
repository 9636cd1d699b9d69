/** The largest and the smallest element of a finite non-empty set. */
module Extrema {

  lemma HasElement(s: set<int>)
    requires s != {}
    ensures exists y :: y in s
  {
    if forall y :: y !in s {
      assert false;
    }
  }

  lemma MaxExists(s: set<int>)
    requires s != {}
    ensures exists m :: m in s && forall x :: x in s ==> x <= m
  {
    HasElement(s);
    var y :| y in s;
    var rest := s - {y};
    assert forall x :: x in s ==> x == y || x in rest;
    if rest == {} {
      assert forall x :: x in s ==> x <= y;
    } else {
      MaxExists(rest);
      var m :| m in rest && forall x :: x in rest ==> x <= m;
      var top := if m < y then y else m;
      assert forall x :: x in s ==> x <= top;
    }
  }

  lemma MinExists(s: set<int>)
    requires s != {}
    ensures exists m :: m in s && forall x :: x in s ==> m <= x
  {
    HasElement(s);
    var y :| y in s;
    var rest := s - {y};
    assert forall x :: x in s ==> x == y || x in rest;
    if rest == {} {
      assert forall x :: x in s ==> y <= x;
    } else {
      MinExists(rest);
      var m :| m in rest && forall x :: x in rest ==> m <= x;
      var bottom := if y < m then y else m;
      assert forall x :: x in s ==> bottom <= x;
    }
  }
  function MaxOf(s: set<int>): (m: int)
    requires s != {}
    ensures m in s && forall x :: x in s ==> x <= m
  {
    MaxExists(s);
    var m :| m in s && forall x :: x in s ==> x <= m;
    m
  }

  function MinOf(s: set<int>): (m: int)
    requires s != {}
    ensures m in s && forall x :: x in s ==> m <= x
  {
    MinExists(s);
    var m :| m in s && forall x :: x in s ==> m <= x;
    m
  }
}

/**
 * The relational store, replaced by an in-memory one: a table per entity,
 * the membership and like join tables, and the auto-increment counters that
 * hand out row ids. `Tables` is the store as a value (what specifications and
 * lemmas talk about); `Db` is the store the handlers update in place.
 */
module Store {
  import opened Wrappers
  import opened Extrema

  datatype Role = ADMIN | EDITOR | VIEWER

  datatype Visibility = PRIVATE | PUBLIC

  datatype User = User(
    id: nat, username: string, email: string, password: string,
    jwtId: string,           // the one live session identifier
    refreshToken: string,
    profileImg: Option<string>)

  datatype Board = Board(
    id: nat, title: string, visibility: Visibility, backgroundImg: string,
    archived: bool, ownerId: nat, updatedAt: int)

  datatype ListRow = ListRow(id: nat, listName: string, boardId: nat, position: int, updatedAt: int)

  datatype Label = Label(id: nat, labelName: string, color: string, boardId: nat)

  datatype Tables = Tables(
    users: map<string, User>,        // keyed by the unique email
    boards: map<nat, Board>,
    members: map<(nat, nat), Role>,  // (boardId, userId): one row per pair
    likes: set<(nat, nat)>,          // (userId, boardId): one row per pair
    lists: map<nat, ListRow>,
    labels: map<nat, Label>,
    nextUserId: nat, nextBoardId: nat, nextListId: nat, nextLabelId: nat)

  /**
   * Rows sit under their own id (users under their email), every id was
   * handed out by its counter, and no two users share an id.
   */
  predicate Valid(t: Tables) {
    && 1 <= t.nextUserId && 1 <= t.nextBoardId && 1 <= t.nextListId && 1 <= t.nextLabelId
    && (forall e :: e in t.users ==> t.users[e].email == e && 1 <= t.users[e].id < t.nextUserId)
    && (forall e1, e2 :: e1 in t.users && e2 in t.users && t.users[e1].id == t.users[e2].id ==> e1 == e2)
    && (forall id :: id in t.boards ==> t.boards[id].id == id && 1 <= id < t.nextBoardId)
    && (forall k :: k in t.members ==> k.0 < t.nextBoardId)
    && (forall id :: id in t.lists ==> t.lists[id].id == id && 1 <= id < t.nextListId)
    && (forall id :: id in t.labels ==> t.labels[id].id == id && 1 <= id < t.nextLabelId)
  }

  function Empty(): (t: Tables)
    ensures Valid(t)
  {
    Tables(map[], map[], map[], {}, map[], map[], 1, 1, 1, 1)
  }

  /** `board.findUnique({where: {id}})` for a numeric id. */
  function BoardAt(t: Tables, id: int): (b: Option<Board>)
    ensures b.Some? <==> id >= 0 && id as nat in t.boards
    ensures b.Some? ==> b.value == t.boards[id as nat]
  {
    if id >= 0 && id as nat in t.boards then Some(t.boards[id as nat]) else None
  }

  /** `list.findUnique({where: {id}})` for a numeric id. */
  function ListAt(t: Tables, id: int): (l: Option<ListRow>)
    ensures l.Some? <==> id >= 0 && id as nat in t.lists
    ensures l.Some? ==> l.value == t.lists[id as nat]
  {
    if id >= 0 && id as nat in t.lists then Some(t.lists[id as nat]) else None
  }

  /** `label.findUnique({where: {id}})` for a numeric id. */
  function LabelAt(t: Tables, id: int): (l: Option<Label>)
    ensures l.Some? <==> id >= 0 && id as nat in t.labels
    ensures l.Some? ==> l.value == t.labels[id as nat]
  {
    if id >= 0 && id as nat in t.labels then Some(t.labels[id as nat]) else None
  }

  /**
   * `boardUser.findUnique({boardId_userId})` (and `findFirst` with both
   * conditions): the role of a user on a board, if any.
   */
  function RoleOf(t: Tables, boardId: int, userId: int): (r: Option<Role>)
    ensures r.Some? <==> boardId >= 0 && userId >= 0 && (boardId as nat, userId as nat) in t.members
    ensures r.Some? ==> r.value == t.members[(boardId as nat, userId as nat)]
  {
    if boardId >= 0 && userId >= 0 && (boardId as nat, userId as nat) in t.members then
      Some(t.members[(boardId as nat, userId as nat)])
    else None
  }

  /** The users holding a membership row on a board. */
  function MembersOf(t: Tables, boardId: int): set<int> {
    set k | k in t.members && k.0 == boardId :: k.1 as int
  }

  /**
   * `scan` is a possible scan order of the membership table: it names the
   * stored membership rows and nothing else.
   */
  predicate MemberScan(t: Tables, scan: seq<(nat, nat)>) {
    && (forall i :: 0 <= i < |scan| ==> scan[i] in t.members)
    && (forall k :: k in t.members ==> k in scan)
  }

  /** The index of the first row of `scan` on the board, or `|scan|` when there is none. */
  function FirstOnBoard(scan: seq<(nat, nat)>, boardId: int): (i: nat)
    ensures i <= |scan|
    ensures forall j :: 0 <= j < i ==> scan[j].0 != boardId
    ensures i < |scan| ==> scan[i].0 == boardId
  {
    if scan == [] then 0
    else if scan[0].0 == boardId then 0
    else
      var i := FirstOnBoard(scan[1..], boardId);
      assert forall j :: 1 <= j < 1 + i ==> scan[j] == scan[1..][j - 1];
      1 + i
  }

  /**
   * `boardUser.findFirst({where: {boardId, userId}})` without an `orderBy`.
   * With a user id it finds that user's row. An undefined `userId` drops
   * that condition, so the row found is the first row of the board in the
   * store's scan order of the membership table, which is the parameter
   * `scan`.
   */
  function FirstRole(t: Tables, boardId: int, userId: Option<nat>, scan: seq<(nat, nat)>): (r: Option<Role>)
    ensures userId.Some? ==> r == RoleOf(t, boardId, userId.value)
    ensures userId.None? && MemberScan(t, scan) ==> (r.Some? <==> MembersOf(t, boardId) != {})
    ensures userId.None? && r.Some? ==>
      exists i :: 0 <= i < |scan| && scan[i].0 == boardId && scan[i] in t.members && r.value == t.members[scan[i]]
                  && forall j :: 0 <= j < i ==> scan[j].0 != boardId
  {
    if userId.Some? then RoleOf(t, boardId, userId.value)
    else
      var i := FirstOnBoard(scan, boardId);
      FirstOnBoardIsMember(t, boardId, scan);
      if i < |scan| && scan[i] in t.members then Some(t.members[scan[i]]) else None
  }

  /** Over a membership scan, the board has a first row exactly when it has a member. */
  lemma FirstOnBoardIsMember(t: Tables, boardId: int, scan: seq<(nat, nat)>)
    ensures MemberScan(t, scan) ==> (FirstOnBoard(scan, boardId) < |scan| <==> MembersOf(t, boardId) != {})
  {
    var i := FirstOnBoard(scan, boardId);
    if !MemberScan(t, scan) {
      return;
    }
    if i < |scan| {
      assert scan[i] in t.members && scan[i].0 == boardId;
      assert scan[i].1 as int in MembersOf(t, boardId);
    }
    if MembersOf(t, boardId) != {} {
      HasElement(MembersOf(t, boardId));
      var u :| u in MembersOf(t, boardId);
      var k :| k in t.members && k.0 == boardId && k.1 as int == u;
      assert k in scan;
      var j :| 0 <= j < |scan| && scan[j] == k;
      assert j >= i;
    }
  }

  /**
   * Which membership the anonymous lookup finds depends on the scan order
   * alone: on a board with a VIEWER and an ADMIN, either can come first.
   */
  lemma FirstRoleDependsOnScan(t: Tables)
    requires t.members == map[(1, 1) := VIEWER, (1, 2) := ADMIN]
    ensures MemberScan(t, [(1, 1), (1, 2)]) && MemberScan(t, [(1, 2), (1, 1)])
    ensures FirstRole(t, 1, None, [(1, 1), (1, 2)]) == Some(VIEWER)
    ensures FirstRole(t, 1, None, [(1, 2), (1, 1)]) == Some(ADMIN)
  {
    assert FirstOnBoard([(1, 1), (1, 2)], 1) == 0;
    assert FirstOnBoard([(1, 2), (1, 1)], 1) == 0;
  }

  /** `user.findUnique({where: {id}})` finds a row. */
  predicate UserIdExists(t: Tables, id: nat) {
    exists e :: e in t.users && t.users[e].id == id
  }

  /** The positions of the lists of one board. */
  function PositionsOn(t: Tables, boardId: nat): set<int> {
    set id | id in t.lists && t.lists[id].boardId == boardId :: t.lists[id].position
  }

  /**
   * `(aggregate(_max: position) || 0) + 1`: one past the highest position on
   * the board, or 1 when the board has no lists.
   */
  function NextPosition(t: Tables, boardId: nat): (p: int)
    ensures forall id :: id in t.lists && t.lists[id].boardId == boardId ==> t.lists[id].position < p
    ensures PositionsOn(t, boardId) == {} ==> p == 1
    ensures PositionsOn(t, boardId) != {} ==> p == MaxOf(PositionsOn(t, boardId)) + 1
  {
    var ps := PositionsOn(t, boardId);
    assert forall id :: id in t.lists && t.lists[id].boardId == boardId ==> t.lists[id].position in ps;
    if ps == {} then 1
    else
      MaxOf(ps) + 1
  }

  /** The store, updated in place by the handlers. */
  class Db {
    var users: map<string, User>
    var boards: map<nat, Board>
    var members: map<(nat, nat), Role>
    var likes: set<(nat, nat)>
    var lists: map<nat, ListRow>
    var labels: map<nat, Label>
    var nextUserId: nat
    var nextBoardId: nat
    var nextListId: nat
    var nextLabelId: nat

    /** The current contents, as a value. */
    function Snapshot(): Tables
      reads this
    {
      Tables(users, boards, members, likes, lists, labels, nextUserId, nextBoardId, nextListId, nextLabelId)
    }

    constructor ()
      ensures Snapshot() == Empty()
    {
      users, boards, members, likes, lists, labels := map[], map[], map[], {}, map[], map[];
      nextUserId, nextBoardId, nextListId, nextLabelId := 1, 1, 1, 1;
    }
  }
}
