/**
 * What the three listing services share: the pagination window, the filter
 * assembled from the query fields, and the store's ordering of results
 * (most recently updated first, then highest id first).
 */
module Listing {
  import opened Wrappers
  import opened Values
  import opened Extrema
  import opened ErrorHandler

  /** The fields a listing receives; `filtered` is the truthiness of `isFiltered`. */
  datatype QueryFields = QueryFields(
    id: Option<JsNumber>, boardId: Option<JsNumber>, search: Option<string>,
    page: Option<JsNumber>, limit: Option<JsNumber>, filtered: bool)

  /** `skip` and `take` as computed; `take == None` is `undefined`: no limit. */
  datatype Window = Window(skip: JsNumber, take: Option<JsNumber>)

  /**
   * `skip = isFiltered ? 0 : page ? page * limit : 0` and
   * `take = isFiltered ? undefined : limit ? limit : 10`, after the
   * destructuring defaults `limit = 10, page = 0`.
   */
  function PageWindow(fields: QueryFields): Window {
    var limit := fields.limit.GetOr(Num(10));
    var page := fields.page.GetOr(Num(0));
    Window(
      if fields.filtered then Num(0) else if NumTruthy(page) then Mul(page, limit) else Num(0),
      if fields.filtered then None else Some(if NumTruthy(limit) then limit else Num(10)))
  }

  /** Filtered (lookup) mode ignores page and limit altogether. */
  lemma FilteredModeIsUnpaged(fields: QueryFields)
    requires fields.filtered
    ensures PageWindow(fields) == Window(Num(0), None)
  {
  }

  /** Browse mode skips `page * limit` rows and takes `limit`, with 0 and 10 standing in for falsy values. */
  lemma BrowseModeWindow(fields: QueryFields)
    requires !fields.filtered
    ensures var page := fields.page.GetOr(Num(0));
            var limit := fields.limit.GetOr(Num(10));
            && PageWindow(fields).skip == (if NumTruthy(page) then Mul(page, limit) else Num(0))
            && PageWindow(fields).take == Some(if NumTruthy(limit) then limit else Num(10))
  {
  }

  /** The store takes only a non-negative whole skip and take. */
  function Bounds(w: Window): (r: Result<(nat, Option<nat>), Error>)
    ensures r.Success? <==> w.skip.Num? && w.skip.n >= 0 && (w.take.Some? ==> w.take.value.Num? && w.take.value.n >= 0)
    ensures r.Success? ==> r.value.0 == w.skip.n && (r.value.1.Some? <==> w.take.Some?)
    ensures r.Success? && w.take.Some? ==> r.value.1.value == w.take.value.n
  {
    if w.skip.NaN? || w.skip.n < 0 then Failure(StoreRejectsArgument())
    else if w.take.None? then Success((w.skip.n, None))
    else if w.take.value.NaN? || w.take.value.n < 0 then Failure(StoreRejectsArgument())
    else Success((w.skip.n, Some(w.take.value.n)))
  }

  /** The conditions of the `where` object; `None` means the condition was not added. */
  datatype Filter = Filter(id: Option<int>, boardId: Option<int>, search: Option<string>)

  /** `if (x) filters.x = x`: a number condition is added only for a truthy number. */
  function NumberCondition(x: Option<JsNumber>): (c: Option<int>)
    ensures c.Some? <==> x.Some? && NumTruthy(x.value)
    ensures c.Some? ==> c.value == x.value.n
  {
    if x.Some? && NumTruthy(x.value) then Some(x.value.n) else None
  }

  /** `if (search) filters.OR = [...]`: the text condition is added only for a non-empty string. */
  function SearchCondition(search: Option<string>): (c: Option<string>)
    ensures c.Some? <==> search.Some? && search.value != ""
    ensures c.Some? ==> c == search
  {
    if search.Some? && search.value != "" then search else None
  }

  /** Row `a` sorts before row `b`: later `updatedAt`, or the same and a higher id. */
  predicate Newer(stamp: map<nat, int>, a: nat, b: nat)
    requires a in stamp && b in stamp
  {
    stamp[a] > stamp[b] || (stamp[a] == stamp[b] && a > b)
  }

  lemma NewestExists(stamp: map<nat, int>, keys: set<nat>)
    requires keys != {} && keys <= stamp.Keys
    ensures exists m :: m in keys && forall y :: y in keys && y != m ==> Newer(stamp, m, y)
  {
    HasElement(keys);
    var y :| y in keys;
    var rest := keys - {y};
    assert forall x :: x in keys ==> x == y || x in rest;
    if rest == {} {
      assert forall x :: x in keys && x != y ==> Newer(stamp, y, x);
    } else {
      NewestExists(stamp, rest);
      var m :| m in rest && forall x :: x in rest && x != m ==> Newer(stamp, m, x);
      if Newer(stamp, y, m) {
        assert forall x :: x in keys && x != y ==> Newer(stamp, y, x);
      } else {
        assert forall x :: x in keys && x != m ==> Newer(stamp, m, x);
      }
    }
  }

  /** The row the ordering puts first. */
  function Newest(stamp: map<nat, int>): (m: nat)
    requires stamp != map[]
    ensures m in stamp && forall y :: y in stamp && y != m ==> Newer(stamp, m, y)
  {
    assert stamp.Keys != {} by {
      HasElement(stamp.Keys);
      var k :| k in stamp.Keys;
      assert k in stamp;
    }
    NewestExists(stamp, stamp.Keys);
    var m :| m in stamp && forall y :: y in stamp && y != m ==> Newer(stamp, m, y);
    m
  }

  /**
   * `orderBy: [{updatedAt: 'desc'}, {id: 'desc'}]` over the rows whose ids
   * key `stamp` (each mapped to its `updatedAt`): every row exactly once,
   * each before all the rows it is newer than.
   */
  function ByRecency(stamp: map<nat, int>): (r: seq<nat>)
    ensures forall i :: 0 <= i < |r| ==> r[i] in stamp
    ensures forall k :: k in stamp ==> k in r
    ensures forall i, j :: 0 <= i < j < |r| ==> Newer(stamp, r[i], r[j])
    decreases stamp.Keys
  {
    if stamp == map[] then []
    else
      var m := Newest(stamp);
      var rest := stamp - {m};
      assert rest.Keys < stamp.Keys;
      var tail := ByRecency(rest);
      assert forall k :: k in stamp ==> k == m || k in rest;
      [m] + tail
  }

  /** The order never repeats a row. */
  lemma ByRecencyDistinct(stamp: map<nat, int>)
    ensures forall i, j :: 0 <= i < j < |ByRecency(stamp)| ==> ByRecency(stamp)[i] != ByRecency(stamp)[j]
  {
  }

  /** `skip` then `take`. */
  function Slice<T>(s: seq<T>, skip: nat, take: Option<nat>): (r: seq<T>)
    ensures take.Some? ==> |r| <= take.value
    ensures |r| == if skip >= |s| then 0 else if take.None? || take.value > |s| - skip then |s| - skip else take.value
    ensures take.None? && skip == 0 ==> r == s
    ensures forall i :: 0 <= i < |r| ==> skip + i < |s| && r[i] == s[skip + i]
  {
    var from := if skip <= |s| then skip else |s|;
    var to := if take.None? || from + take.value > |s| then |s| else from + take.value;
    s[from..to]
  }

  /** Consecutive pages of one size are adjacent: together they are one page of twice the size. */
  lemma ConsecutivePages<T>(s: seq<T>, page: nat, limit: nat)
    ensures Slice(s, page * limit, Some(limit)) + Slice(s, (page + 1) * limit, Some(limit))
         == Slice(s, page * limit, Some(2 * limit))
  {
    var a := page * limit;
    assert (page + 1) * limit == a + limit;
    if a + limit <= |s| {
      assert s[a..a + limit] + s[a + limit..if a + 2 * limit > |s| then |s| else a + 2 * limit]
          == s[a..if a + 2 * limit > |s| then |s| else a + 2 * limit];
    }
  }
}
