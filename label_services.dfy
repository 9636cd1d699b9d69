/**
 * The label service: the label listing. It asks the store for no order, so
 * the store's scan order of the label table is a parameter; the result is
 * the matching labels in that order, cut to the window.
 */
module LabelServices {
  import opened Wrappers
  import opened Values
  import opened Store
  import opened ErrorHandler
  import opened Listing

  /** The `where` object of `getLabel`: id, board and text conditions. */
  function LabelFilter(fields: QueryFields): Filter {
    Filter(NumberCondition(fields.id), NumberCondition(fields.boardId), SearchCondition(fields.search))
  }

  /** A label satisfies the filter; the text condition is matched against the label's name. */
  predicate LabelMatches(l: Label, f: Filter, contains: (string, string) -> bool) {
    && (f.id.None? || l.id == f.id.value)
    && (f.boardId.None? || l.boardId == f.boardId.value)
    && (f.search.None? || contains(l.labelName, f.search.value))
  }

  predicate Distinct(s: seq<nat>) {
    forall i, j :: 0 <= i < j < |s| ==> s[i] != s[j]
  }

  /** `order` lists every stored label exactly once: a possible scan order of the table. */
  predicate ScanOrder(t: Tables, order: seq<nat>) {
    && Distinct(order)
    && (forall k :: k in t.labels ==> k in order)
    && (forall i :: 0 <= i < |order| ==> order[i] in t.labels)
  }

  /** The ids in `order` naming a stored label that matches, in the order given. */
  function MatchingInOrder(t: Tables, f: Filter, contains: (string, string) -> bool, order: seq<nat>): (ids: seq<nat>)
    ensures forall i :: 0 <= i < |ids| ==> ids[i] in t.labels && LabelMatches(t.labels[ids[i]], f, contains)
    ensures forall i :: 0 <= i < |ids| ==> ids[i] in order
    ensures forall k :: k in order && k in t.labels && LabelMatches(t.labels[k], f, contains) ==> k in ids
    ensures Distinct(order) ==> Distinct(ids)
  {
    if order == [] then []
    else
      var rest := MatchingInOrder(t, f, contains, order[1..]);
      assert forall k :: k in order ==> k == order[0] || k in order[1..];
      if order[0] in t.labels && LabelMatches(t.labels[order[0]], f, contains) then [order[0]] + rest else rest
  }

  /** `getLabel`: read-only; the matching labels in scan order, cut to the window. */
  function GetLabel(t: Tables, fields: QueryFields, contains: (string, string) -> bool, order: seq<nat>)
    : (r: Result<seq<Label>, Error>)
    ensures r.Failure? <==> Bounds(PageWindow(fields)).Failure?
    ensures r.Failure? ==> r.error == StoreRejectsArgument()
  {
    match Bounds(PageWindow(fields))
    case Failure(e) => Failure(e)
    case Success((skip, take)) =>
      var ids := Slice(MatchingInOrder(t, LabelFilter(fields), contains, order), skip, take);
      Success(seq(|ids|, i requires 0 <= i < |ids| => t.labels[ids[i]]))
  }

  /**
   * Whatever the scan order: at most `take` labels, each a stored label
   * matching the filter, none twice; in lookup mode, every matching label.
   */
  lemma GetLabelResult(t: Tables, fields: QueryFields, contains: (string, string) -> bool, order: seq<nat>)
    requires ScanOrder(t, order)
    requires GetLabel(t, fields, contains, order).Success?
    ensures var (skip, take) := Bounds(PageWindow(fields)).value;
            var window := Slice(MatchingInOrder(t, LabelFilter(fields), contains, order), skip, take);
            var rows := GetLabel(t, fields, contains, order).value;
            && |rows| == |window| && Distinct(window)
            && (take.Some? ==> |rows| <= take.value)
            && (forall i :: 0 <= i < |rows| ==>
                  window[i] in t.labels && rows[i] == t.labels[window[i]] && LabelMatches(rows[i], LabelFilter(fields), contains))
            && (fields.filtered ==>
                  forall k :: k in t.labels && LabelMatches(t.labels[k], LabelFilter(fields), contains) ==> k in window)
  {
    var ids := MatchingInOrder(t, LabelFilter(fields), contains, order);
    var (skip, take) := Bounds(PageWindow(fields)).value;
    var window := Slice(ids, skip, take);
    assert Distinct(window) by {
      forall i, j | 0 <= i < j < |window| ensures window[i] != window[j] {
        assert window[i] == ids[skip + i] && window[j] == ids[skip + j];
      }
    }
    if fields.filtered {
      FilteredModeIsUnpaged(fields);
      assert window == ids;
    }
  }

  /** A scan order exists for every store: the labels by id, highest first. */
  lemma ScanOrderExists(t: Tables)
    ensures ScanOrder(t, ByRecency(map k | k in t.labels :: 0))
  {
    var stamp := map k | k in t.labels :: 0;
    var order := ByRecency(stamp);
    assert forall i, j :: 0 <= i < j < |order| ==> Newer(stamp, order[i], order[j]);
  }

  /**
   * `getLabel` as written: its text condition names a `title` column, which
   * the label table does not have, so the store refuses every query with a
   * non-empty search as a validation error. Without a search it answers as
   * `GetLabel`, which matches the search against the label's name instead.
   */
  function GetLabelAsWritten(t: Tables, fields: QueryFields, contains: (string, string) -> bool, order: seq<nat>)
    : (r: Result<seq<Label>, Error>)
    ensures r.Failure? <==> Bounds(PageWindow(fields)).Failure? || SearchCondition(fields.search).Some?
    ensures r.Failure? ==> r.error == StoreRejectsArgument()
    ensures r.Success? ==> r == GetLabel(t, fields, contains, order)
  {
    if SearchCondition(fields.search).Some? then Failure(StoreRejectsArgument())
    else GetLabel(t, fields, contains, order)
  }

  /**
   * Wherever the two differ it is over a search: as written the query is
   * refused with 400, while the name match answers with the labels.
   */
  lemma LabelSearchRefusedAsWritten(t: Tables, fields: QueryFields, contains: (string, string) -> bool, order: seq<nat>)
    requires GetLabel(t, fields, contains, order).Success?
    ensures GetLabelAsWritten(t, fields, contains, order) != GetLabel(t, fields, contains, order)
            <==> SearchCondition(fields.search).Some?
    ensures SearchCondition(fields.search).Some? ==>
      && GetLabelAsWritten(t, fields, contains, order) == Failure(StoreRejectsArgument())
      && HandleError(GetLabelAsWritten(t, fields, contains, order).error).status == 400
  {
  }
}
