/**
 * The loops of `filter_fragment` (common/src/data_stream/stream.rs), against what module Filtering says they select.
 */
module FilterFragment {
  import opened Core
  import opened Sorting
  import opened Joins
  import opened Fragments
  import opened Query
  import opened Filtering

  // ------------------------------------------------------------------ what is sent

  function ItemsOfRows(id: nat, data: seq<Bytes>, m: FilterMatch, rows: seq<nat>): Result<seq<Item>> {
    if rows == [] then Ok([])
    else
      var before, row := ItemsOfRows(id, data, m, rows[..|rows| - 1]), rows[|rows| - 1];
      if before.Rejected? || row >= |data| then Rejected
      else Ok(before.value + [Item(id, row, IdsAt(m, row), data[row])])
  }

  function ItemsOfFragments(a: Access, names: set<nat>, matches: map<nat, FilterMatch>,
                            ids: seq<nat>): Result<seq<Item>> {
    if ids == [] then Ok([])
    else
      var before, id := ItemsOfFragments(a, names, matches, ids[..|ids| - 1]), ids[|ids| - 1];
      if before.Rejected? || id !in matches || id !in names || GetBodyFragment(a, id).Rejected? then Rejected
      else
        match ItemsOfRows(id, GetBodyFragment(a, id).value.data, matches[id], Sorted(matches[id].Keys))
        case Rejected => Rejected
        case Ok(items) => Ok(before.value + items)
  }

  /** Every index and join the filters need can be read. */
  ghost predicate Evaluable(a: Access, filters: map<nat, seq<Filter>>) {
    forall id :: id in filters ==> EvaluableAt(a, id, filters[id])
  }

  ghost predicate EvaluableAt(a: Access, id: nat, filters: seq<Filter>) {
    GetIndexFragment(a, id).Ok? && forall f :: f in filters ==> Rows(f, GetIndexFragment(a, id).value).Ok?
  }

  predicate HasJoin(a: Access, source: nat, target: nat) {
    GetJoinFragment(a, source).Ok? && FindTarget(GetJoinFragment(a, source).value.joins, target).Ok?
  }

  ghost predicate Joinable(a: Access, filters: map<nat, seq<Filter>>) {
    forall source, target :: source in filters && target in AskedBy(a, filters[source]) ==> HasJoin(a, source, target)
  }

  predicate ShouldSendHeader(header: HeaderFilter, matched: bool, isLive: bool) {
    match header
    case Always => true
    case OnData => matched
    case OnDataOrOnNewBlock => matched || isLive
  }

  ghost function AllMatches(a: Access, filters: map<nat, seq<Filter>>): map<nat, FilterMatch> {
    map id | id in MatchedFragments(a, filters) :: Wanted(a, filters, id)
  }

  /** What one block filter makes of one block. */
  ghost function FilterBlock(a: Access, bf: BlockFilter, names: set<nat>, isLive: bool): Result<Filtered> {
    var matches := AllMatches(a, bf.filters);
    var wantsHeader := ShouldSendHeader(bf.headerFilter, matches != map[], isLive);
    var items := ItemsOfFragments(a, names, matches, Sorted(matches.Keys));
    if !Evaluable(a, bf.filters) || !Joinable(a, bf.filters) || items.Rejected?
    || (wantsHeader && GetHeaderFragment(a).Rejected?) then Rejected
    else Ok(Filtered(if wantsHeader then Some(GetHeaderFragment(a).value) else None, items.value))
  }

  // ------------------------------------------------------------------ selecting

  lemma DirectNone(a: Access)
    ensures Direct(a, []) == map[] && AskedBy(a, []) == {}
  {
    assert Selected(a, []) == {};
  }

  lemma SelectedOneMore(a: Access, filters: seq<Filter>, f: Filter)
    ensures Selected(a, filters + [f]) == Selected(a, filters) + RowsIn(a, f)
  {
    hide RowsIn;
  }

  lemma SelectingOneMore(a: Access, filters: seq<Filter>, f: Filter, row: nat)
    ensures Selecting(a, filters + [f], row) == Selecting(a, filters, row) + if row in RowsIn(a, f) then {f.filterId}
            else {}
    ensures row !in Selected(a, filters) ==> Selecting(a, filters, row) == {}
  {
    hide RowsIn;
  }

  lemma DirectOneMore(a: Access, filters: seq<Filter>, f: Filter)
    ensures Direct(a, filters + [f]) == WithMatch(Direct(a, filters), f.filterId, RowsIn(a, f))
  {
    hide RowsIn, Selected, Selecting;
    var all, one := Direct(a, filters + [f]), WithMatch(Direct(a, filters), f.filterId, RowsIn(a, f));
    SelectedOneMore(a, filters, f);
    assert all.Keys == one.Keys;
    forall row | row in all.Keys
      ensures all[row] == one[row]
    {
      SelectingOneMore(a, filters, f, row);
    }
  }

  /** What a fragment's filters bring along, by target. */
  function AskedMatches(a: Access, filters: seq<Filter>): map<nat, FilterMatch> {
    map target | target in AskedBy(a, filters) :: Direct(a, Asking(filters, target))
  }

  function MatchOf(byTarget: map<nat, FilterMatch>, target: nat): FilterMatch {
    if target in byTarget then byTarget[target] else map[]
  }

  /** A filter that asks for nothing yet has no entry, and its match is empty. */
  lemma {:induction false} UnaskedIsEmpty(a: Access, filters: seq<Filter>, target: nat)
    requires target !in AskedBy(a, filters)
    ensures Direct(a, Asking(filters, target)) == map[]
  {
    forall f | f in Asking(filters, target)
      ensures RowsIn(a, f) == {}
    {
      AskingMeans(filters, target, f);
    }
    assert Selected(a, Asking(filters, target)) == {};
  }

  lemma AskedOneMore(a: Access, filters: seq<Filter>, f: Filter, target: nat)
    ensures Asking(filters + [f], target) == if target in f.joins then Asking(filters, target) + [f]
            else Asking(filters, target)
    ensures target in AskedBy(a, filters + [f]) <==>
            target in AskedBy(a, filters) || (RowsIn(a, f) != {} && target in f.joins)
  {
    hide RowsIn;
    assert (filters + [f])[..|filters|] == filters;
  }

  lemma MatchAgain(m: FilterMatch, id: nat, rows: set<nat>)
    ensures WithMatch(WithMatch(m, id, rows), id, rows) == WithMatch(m, id, rows)
  {
    var twice, once := WithMatch(WithMatch(m, id, rows), id, rows), WithMatch(m, id, rows);
    assert twice.Keys == once.Keys;
    forall row | row in once.Keys
      ensures twice[row] == once[row]
    {
    }
  }

  /** The matches by target once the first targets of `f` have been dealt with. */
  ghost predicate Asked(a: Access, before: seq<Filter>, f: Filter, done: seq<nat>, byTarget: map<nat, FilterMatch>) {
    && (forall t :: t in byTarget <==> t in AskedBy(a, before) || t in done)
    && forall t :: t in byTarget ==>
      byTarget[t] == Direct(a, if t in done then Asking(before, t) + [f] else Asking(before, t))
  }

  lemma AskedStep(a: Access, before: seq<Filter>, f: Filter, done: seq<nat>, byTarget: map<nat, FilterMatch>, t: nat)
    requires Asked(a, before, f, done, byTarget)
    ensures Asked(a, before, f, done + [t], byTarget[t := WithMatch(MatchOf(byTarget, t), f.filterId, RowsIn(a, f))])
  {
    hide Direct, WithMatch, RowsIn, AskedBy;
    DirectOneMore(a, Asking(before, t), f);
    if t in done {
      MatchAgain(Direct(a, Asking(before, t)), f.filterId, RowsIn(a, f));
    } else if t !in byTarget {
      UnaskedIsEmpty(a, before, t);
    }
  }

  lemma AskedDone(a: Access, before: seq<Filter>, f: Filter, byTarget: map<nat, FilterMatch>)
    requires Asked(a, before, f, f.joins, byTarget) && RowsIn(a, f) != {}
    ensures byTarget == AskedMatches(a, before + [f])
  {
    hide Direct, RowsIn, AskedBy;
    var all := AskedMatches(a, before + [f]);
    forall t
      ensures t in byTarget <==> t in all
      ensures t in byTarget && t in all ==> byTarget[t] == all[t]
    {
      AskedOneMore(a, before, f, t);
    }
  }

  lemma AskedNothingMore(a: Access, before: seq<Filter>, f: Filter)
    requires RowsIn(a, f) == {}
    ensures AskedMatches(a, before + [f]) == AskedMatches(a, before)
  {
    hide RowsIn, Direct, AskedBy;
    var all, old_ := AskedMatches(a, before + [f]), AskedMatches(a, before);
    forall t
      ensures t in all <==> t in old_
      ensures t in all && t in old_ ==> all[t] == old_[t]
    {
      AskedOneMore(a, before, f, t);
      DirectOneMore(a, Asking(before, t), f);
      MatchNone(Direct(a, Asking(before, t)), f.filterId);
    }
  }

  /** The rows the filters of one fragment select, and what they ask for. */
  method SelectFragment(a: Access, id: nat, indexes: IndexFragment, filters: seq<Filter>)
    returns (r: Result<(FilterMatch, map<nat, FilterMatch>)>)
    requires GetIndexFragment(a, id) == Ok(indexes) && forall f :: f in filters ==> f.fragmentId == id
    ensures r.Ok? <==> EvaluableAt(a, id, filters)
    ensures r.Ok? ==> r.value == (Direct(a, filters), AskedMatches(a, filters))
  {
    hide Direct, AskedMatches, Rows, Asked, WithMatch;
    var selected: FilterMatch, byTarget: map<nat, FilterMatch> := map[], map[];
    DirectNone(a);
    assert AskedMatches(a, []) == map[] by { NothingAsked(a); }
    for k := 0 to |filters|
      invariant selected == Direct(a, filters[..k]) && byTarget == AskedMatches(a, filters[..k])
      invariant forall f :: f in filters[..k] ==> Rows(f, indexes).Ok?
    {
      var f, before := filters[k], filters[..k];
      assert filters[..k + 1] == before + [f];
      var rows := FilterRows(f, indexes);
      if rows.Rejected? {
        return Rejected;
      }
      assert rows.value == RowsIn(a, f);
      DirectOneMore(a, before, f);
      selected := WithMatch(selected, f.filterId, rows.value);
      if rows.value == {} {
        AskedNothingMore(a, before, f);
      } else {
        assert Asked(a, before, f, [], byTarget) by { AskedStart(a, before, f); }
        for j := 0 to |f.joins|
          invariant Asked(a, before, f, f.joins[..j], byTarget)
        {
          AskedStep(a, before, f, f.joins[..j], byTarget, f.joins[j]);
          assert f.joins[..j + 1] == f.joins[..j] + [f.joins[j]];
          byTarget := byTarget[f.joins[j] := WithMatch(MatchOf(byTarget, f.joins[j]), f.filterId, rows.value)];
        }
        assert f.joins[..|f.joins|] == f.joins;
        AskedDone(a, before, f, byTarget);
      }
    }
    assert filters[..|filters|] == filters;
    r := Ok((selected, byTarget));
  }

  lemma NothingAsked(a: Access)
    ensures AskedMatches(a, []) == map[]
  {
    DirectNone(a);
  }

  lemma AskedStart(a: Access, before: seq<Filter>, f: Filter)
    ensures Asked(a, before, f, [], AskedMatches(a, before))
  {
  }

  // ------------------------------------------------------------------ following joins

  function AddIds(m: FilterMatch, ids: set<nat>, rows: set<nat>): FilterMatch {
    if ids == {} then m
    else map row | row in m.Keys + rows :: if row in rows then IdsAt(m, row) + ids else m[row]
  }

  function FoldJoin(into: FilterMatch, m: FilterMatch, join: JoinTo, rows: seq<nat>): FilterMatch {
    if rows == [] then into
    else AddIds(FoldJoin(into, m, join, rows[..|rows| - 1]), IdsAt(m, rows[|rows| - 1]),
                Targets(join, rows[|rows| - 1]))
  }

  lemma AddOneId(m: FilterMatch, ids: set<nat>, id: nat, rows: set<nat>)
    ensures WithMatch(AddIds(m, ids, rows), id, rows) == AddIds(m, ids + {id}, rows)
  {
    var one, all := WithMatch(AddIds(m, ids, rows), id, rows), AddIds(m, ids + {id}, rows);
    assert one.Keys == all.Keys;
    forall row | row in all.Keys
      ensures one[row] == all[row]
    {
    }
  }

  /** Every filter that matched a row gets all rows it is joined to. */
  method AddEach(m: FilterMatch, ids: set<nat>, rows: set<nat>) returns (r: FilterMatch)
    ensures r == AddIds(m, ids, rows)
  {
    hide WithMatch, AddIds;
    var left := ids;
    r := m;
    assert ids - left == {};
    NoIds(m, rows);
    while left != {}
      invariant left <= ids && r == AddIds(m, ids - left, rows)
      decreases |left|
    {
      var id := Least(left);
      AddOneId(m, ids - left, id, rows);
      assert ids - (left - {id}) == ids - left + {id};
      r := WithMatch(r, id, rows);
      left := left - {id};
    }
    assert ids - left == ids;
  }

  /** Adds what the rows of `m` are joined to, with the filters that matched them. */
  method FollowJoin(into: FilterMatch, m: FilterMatch, join: JoinTo) returns (r: FilterMatch)
    ensures r == FoldJoin(into, m, join, Sorted(m.Keys))
  {
    hide AddIds, Targets, Sorted;
    var rows := Sorted(m.Keys);
    r := into;
    for k := 0 to |rows|
      invariant r == FoldJoin(into, m, join, rows[..k])
    {
      assert rows[..k + 1][..k] == rows[..k];
      r := AddEach(r, IdsAt(m, rows[k]), Targets(join, rows[k]));
    }
    assert rows[..|rows|] == rows;
  }

  lemma NoIds(m: FilterMatch, rows: set<nat>)
    ensures AddIds(m, {}, rows) == m
  {
  }

  lemma {:induction false} FoldJoinMeans(into: FilterMatch, m: FilterMatch, join: JoinTo, rows: seq<nat>, row: nat,
                                         id: nat)
    ensures id in IdsAt(FoldJoin(into, m, join, rows), row) <==>
            id in IdsAt(into, row) || exists r :: r in rows && row in Targets(join, r) && id in IdsAt(m, r)
    ensures row in FoldJoin(into, m, join, rows) <==>
            row in into || exists r :: r in rows && row in Targets(join, r) && IdsAt(m, r) != {}
    decreases |rows|
  {
    hide Targets;
    if rows != [] {
      FoldJoinMeans(into, m, join, rows[..|rows| - 1], row, id);
      assert rows == rows[..|rows| - 1] + [rows[|rows| - 1]];
    }
  }

  lemma SameMatch(m: FilterMatch, n: FilterMatch)
    requires forall row :: row in m <==> row in n
    requires forall row, id :: id in IdsAt(m, row) <==> id in IdsAt(n, row)
    ensures m == n
  {
    forall row | row in m
      ensures m[row] == n[row]
    {
      forall id
        ensures id in m[row] <==> id in n[row]
      {
        assert id in IdsAt(m, row) <==> id in IdsAt(n, row);
      }
    }
  }

  lemma BroughtAt(a: Access, filters: map<nat, seq<Filter>>, source: nat, target: nat, row: nat, id: nat)
    ensures var asking, brought := Asking(FiltersOf(filters, source), target), Brought(a, filters, source, target);
            && (row in brought <==> exists r :: r in Selected(a, asking) && row in TargetsOf(a, source, target, r))
            && (id in IdsAt(brought, row) <==>
                exists r ::
                  r in Selected(a, asking) && row in TargetsOf(a, source, target, r) && id in Selecting(a, asking, r))
  {
    hide Selected, Selecting, TargetsOf;
  }

  ghost function Followed(a: Access, filters: map<nat, seq<Filter>>, source: nat, target: nat,
                          into: FilterMatch): FilterMatch
    requires HasJoin(a, source, target)
  {
    var m := Direct(a, Asking(FiltersOf(filters, source), target));
    FoldJoin(into, m, FindTarget(GetJoinFragment(a, source).value.joins, target).value, Sorted(m.Keys))
  }

  lemma FollowedAt(a: Access, filters: map<nat, seq<Filter>>, source: nat, target: nat, into: FilterMatch, row: nat,
                   id: nat)
    requires HasJoin(a, source, target)
    ensures var followed, brought := Followed(a, filters, source, target, into), Brought(a, filters, source, target);
            && (id in IdsAt(followed, row) <==> id in IdsAt(into, row) || id in IdsAt(brought, row))
            && (row in followed <==> row in into || row in brought)
  {
    hide Targets, FoldJoin, Selected, Selecting, Brought;
    var join, asking := FindTarget(GetJoinFragment(a, source).value.joins, target).value,
      Asking(FiltersOf(filters, source), target);
    var m := Direct(a, asking);
    forall r
      ensures r in Sorted(m.Keys) <==> r in Selected(a, asking)
      ensures r in Selected(a, asking) ==> IdsAt(m, r) == Selecting(a, asking, r) != {}
      ensures TargetsOf(a, source, target, r) == Targets(join, r)
    {
      SortedHolds(m.Keys, r);
      SelectedMeans(a, asking, r);
    }
    FoldJoinMeans(into, m, join, Sorted(m.Keys), row, id);
    BroughtAt(a, filters, source, target, row, id);
  }

  /** Following the join of a source's matches is merging what that source brings along. */
  lemma FollowedIsBrought(a: Access, filters: map<nat, seq<Filter>>, source: nat, target: nat, into: FilterMatch)
    requires HasJoin(a, source, target)
    ensures Followed(a, filters, source, target, into) == Merge(into, Brought(a, filters, source, target))
  {
    hide Followed, Brought;
    var followed, merged := Followed(a, filters, source, target, into),
      Merge(into, Brought(a, filters, source, target));
    forall row
      ensures row in followed <==> row in merged
    {
      FollowedAt(a, filters, source, target, into, row, 0);
    }
    forall row, id
      ensures id in IdsAt(followed, row) <==> id in IdsAt(merged, row)
    {
      FollowedAt(a, filters, source, target, into, row, id);
    }
    SameMatch(followed, merged);
  }

  lemma SelectedMeans(a: Access, filters: seq<Filter>, row: nat)
    ensures row in Selected(a, filters) <==> Selecting(a, filters, row) != {}
  {
    if row in Selected(a, filters) {
      var f :| f in filters && row in RowsIn(a, f);
      assert f.filterId in Selecting(a, filters, row);
    }
  }

  // ------------------------------------------------------------------ all fragments, then all joins

  /** What selecting from every fragment leaves. */
  ghost predicate SelectedAll(a: Access, filters: map<nat, seq<Filter>>, ids: seq<nat>, matches: map<nat, FilterMatch>,
                              joins: map<nat, map<nat, FilterMatch>>) {
    && (forall id :: id in matches <==> id in ids && id in filters && Selected(a, filters[id]) != {})
    && (forall id :: id in matches ==> matches[id] == Direct(a, filters[id]))
    && (forall id :: id in joins <==> id in ids && id in filters)
    && (forall id :: id in joins ==> joins[id] == AskedMatches(a, filters[id]))
  }

  method SelectAll(a: Access, filters: map<nat, seq<Filter>>)
    returns (r: Result<(map<nat, FilterMatch>, map<nat, map<nat, FilterMatch>>)>)
    requires WfFilters(filters)
    ensures r.Ok? <==> Evaluable(a, filters)
    ensures r.Ok? ==> SelectedAll(a, filters, Sorted(filters.Keys), r.value.0, r.value.1)
  {
    hide Direct, AskedMatches, Selected, Sorted, SelectedAll, EvaluableAt;
    var ids := Sorted(filters.Keys);
    assert SelectedAll(a, filters, [], map[], map[]) by { NothingYet(a, filters); }
    var matches: map<nat, FilterMatch>, joins: map<nat, map<nat, FilterMatch>> := map[], map[];
    for k := 0 to |ids|
      invariant SelectedAll(a, filters, ids[..k], matches, joins)
      invariant forall id :: id in ids[..k] && id in filters ==> EvaluableAt(a, id, filters[id])
    {
      var id := ids[k];
      SortedHolds(filters.Keys, id);
      assert id !in ids[..k] by { SortedOnce(filters.Keys, k); }
      assert ids[..k + 1] == ids[..k] + [id];
      var indexes := GetIndexFragment(a, id);
      if indexes.Rejected? {
        assert !EvaluableAt(a, id, filters[id]) by { NoIndex(a, id, filters[id]); }
        return Rejected;
      }
      var selected := SelectFragment(a, id, indexes.value, filters[id]);
      if selected.Rejected? {
        return Rejected;
      }
      SelectedOneMoreFragment(a, filters, ids[..k], id, matches, joins);
      joins := joins[id := selected.value.1];
      if selected.value.0 != map[] {
        matches := matches[id := selected.value.0];
      }
    }
    assert ids[..|ids|] == ids;
    forall id | id in filters
      ensures EvaluableAt(a, id, filters[id])
    {
      SortedHolds(filters.Keys, id);
    }
    r := Ok((matches, joins));
  }

  lemma NoIndex(a: Access, id: nat, filters: seq<Filter>)
    requires GetIndexFragment(a, id).Rejected?
    ensures !EvaluableAt(a, id, filters)
  {
  }

  lemma NothingYet(a: Access, filters: map<nat, seq<Filter>>)
    ensures SelectedAll(a, filters, [], map[], map[])
  {
  }

  lemma SelectedOneMoreFragment(a: Access, filters: map<nat, seq<Filter>>, ids: seq<nat>, id: nat,
                                matches: map<nat, FilterMatch>, joins: map<nat, map<nat, FilterMatch>>)
    requires SelectedAll(a, filters, ids, matches, joins) && id in filters && id !in ids
    ensures var own := Direct(a, filters[id]);
            SelectedAll(a, filters, ids + [id], if own == map[] then matches
                        else matches[id := own], joins[id := AskedMatches(a, filters[id])])
  {
    hide Direct, AskedMatches, Selected;
    NoneSelected(a, filters[id]);
  }

  lemma NoneSelected(a: Access, filters: seq<Filter>)
    ensures Direct(a, filters) == map[] <==> Selected(a, filters) == {}
  {
    hide Selected;
    assert Direct(a, filters).Keys == Selected(a, filters);
  }

  lemma SortedOnce(s: set<nat>, k: nat)
    requires k < |Sorted(s)|
    ensures Sorted(s)[k] !in Sorted(s)[..k]
  {
    hide Sorted;
    forall i | 0 <= i < k
      ensures Sorted(s)[i] < Sorted(s)[k]
    {
      SortedAscends(s, i, k);
    }
  }

  ghost predicate Progress(a: Access, filters: map<nat, seq<Filter>>, sources: seq<nat>,
                           matches: map<nat, FilterMatch>) {
    && matches.Keys == SelectedFrom(a, filters) + AskedFrom(a, filters, sources)
    && forall t :: t in matches ==> matches[t] == MergeAll(a, filters, sources, t)
  }

  lemma NotBrought(a: Access, filters: map<nat, seq<Filter>>, source: nat, target: nat)
    requires target !in AskedBy(a, FiltersOf(filters, source))
    ensures Brought(a, filters, source, target) == map[]
  {
    UnaskedIsEmpty(a, FiltersOf(filters, source), target);
    var asking := Asking(FiltersOf(filters, source), target);
    NoneSelected(a, asking);
    assert BroughtRows(a, asking, source, target) == {};
  }

  lemma {:induction false} UnmatchedIsEmpty(a: Access, filters: map<nat, seq<Filter>>, sources: seq<nat>, target: nat)
    requires target !in SelectedFrom(a, filters) + AskedFrom(a, filters, sources)
    ensures MergeAll(a, filters, sources, target) == map[]
    decreases |sources|
  {
    hide Brought, AskedBy, Selected;
    if sources == [] {
      assert FiltersOf(filters, target) == [] || Selected(a, FiltersOf(filters, target)) == {};
      NoneSelected(a, FiltersOf(filters, target));
      DirectNone(a);
    } else {
      UnmatchedIsEmpty(a, filters, sources[..|sources| - 1], target);
      NotBrought(a, filters, sources[|sources| - 1], target);
    }
  }

  /** The matches while the targets of one source are dealt with. */
  ghost predicate Midway(a: Access, filters: map<nat, seq<Filter>>, sources: seq<nat>, source: nat, done: seq<nat>,
                         matches: map<nat, FilterMatch>) {
    && (forall t :: t in matches <==> t in SelectedFrom(a, filters) + AskedFrom(a, filters, sources) || t in done)
    && forall t :: t in matches ==>
         matches[t] == if t in done then Merge(MergeAll(a, filters, sources, t), Brought(a, filters, source, t))
         else MergeAll(a, filters, sources, t)
  }

  lemma MidwayStep(a: Access, filters: map<nat, seq<Filter>>, sources: seq<nat>, source: nat, done: seq<nat>,
                   matches: map<nat, FilterMatch>, t: nat)
    requires Midway(a, filters, sources, source, done, matches) && HasJoin(a, source, t) && t !in done
    ensures Midway(a, filters, sources, source, done + [t],
                   matches[t := Followed(a, filters, source, t, MatchOf(matches, t))])
  {
    hide SelectedFrom, AskedFrom, MergeAll, Brought, Merge, Followed;
    if t !in matches { UnmatchedIsEmpty(a, filters, sources, t); }
    FollowedIsBrought(a, filters, source, t, MatchOf(matches, t));
  }

  lemma MidwayDone(a: Access, filters: map<nat, seq<Filter>>, sources: seq<nat>, source: nat, done: seq<nat>,
                   matches: map<nat, FilterMatch>)
    requires Midway(a, filters, sources, source, done, matches)
    requires forall t :: t in done <==> t in AskedBy(a, FiltersOf(filters, source))
    ensures Progress(a, filters, sources + [source], matches)
  {
    hide SelectedFrom, AskedBy, Brought, Merge, MergeAll;
    assert (sources + [source])[..|sources|] == sources;
    forall t | t in matches
      ensures matches[t] == MergeAll(a, filters, sources + [source], t)
    {
      MergeOneMore(a, filters, sources, source, t);
      if t !in done {
        NotBrought(a, filters, source, t);
        MergeNothing(MergeAll(a, filters, sources, t));
      }
    }
  }

  lemma MergeOneMore(a: Access, filters: map<nat, seq<Filter>>, sources: seq<nat>, source: nat, t: nat)
    ensures MergeAll(a, filters, sources + [source], t) ==
            Merge(MergeAll(a, filters, sources, t), Brought(a, filters, source, t))
  {
    assert (sources + [source])[..|sources|] == sources;
  }

  lemma MergeNothing(m: FilterMatch)
    ensures Merge(m, map[]) == m
  {
    var merged := Merge(m, map[]);
    assert merged.Keys == m.Keys;
    forall row | row in m.Keys
      ensures merged[row] == m[row]
    {
    }
  }

  lemma AskedKeys(a: Access, filters: seq<Filter>, t: nat)
    ensures t in AskedMatches(a, filters) <==> t in AskedBy(a, filters)
    ensures t in AskedMatches(a, filters) ==> AskedMatches(a, filters)[t] == Direct(a, Asking(filters, t))
  {
    hide Direct, AskedBy;
  }

  /** Follows the joins of one source fragment. */
  method BringFrom(a: Access, filters: map<nat, seq<Filter>>, source: nat, byTarget: map<nat, FilterMatch>,
                   matches: map<nat, FilterMatch>, ghost sources: seq<nat>) returns (r: Result<map<nat, FilterMatch>>)
    requires source in filters && byTarget == AskedMatches(a, filters[source]) && Progress(a, filters, sources, matches)
    ensures r.Ok? <==> forall t :: t in AskedBy(a, filters[source]) ==> HasJoin(a, source, t)
    ensures r.Ok? ==> Progress(a, filters, sources + [source], r.value)
  {
    hide AskedMatches, AskedBy, Direct, Midway, HasJoin, Progress, Followed, FoldJoin, Asking;
    var targets, result := Sorted(byTarget.Keys), matches;
    assert Midway(a, filters, sources, source, [], result) by { MidwayStart(a, filters, sources, source, matches); }
    for k := 0 to |targets|
      invariant Midway(a, filters, sources, source, targets[..k], result)
      invariant forall t :: t in targets[..k] ==> HasJoin(a, source, t)
    {
      var t := targets[k];
      SortedHolds(byTarget.Keys, t);
      SortedOnce(byTarget.Keys, k);
      AskedKeys(a, filters[source], t);
      assert targets[..k + 1] == targets[..k] + [t];
      JoinLookup(a, source, t);
      var fragment := GetJoinFragment(a, source);
      if fragment.Rejected? {
        return Rejected;
      }
      var join := FindTarget(fragment.value.joins, t);
      if join.Rejected? {
        return Rejected;
      }
      MidwayStep(a, filters, sources, source, targets[..k], result, t);
      var followed := FollowJoin(MatchOf(result, t), byTarget[t], join.value);
      assert followed == Followed(a, filters, source, t,
                                  MatchOf(result, t)) by { FollowedMeans(a, filters, source, t, MatchOf(result, t)); }
      result := result[t := followed];
    }
    assert targets[..|targets|] == targets;
    forall t
      ensures t in targets <==> t in AskedBy(a, filters[source])
    {
      SortedHolds(byTarget.Keys, t);
      AskedKeys(a, filters[source], t);
    }
    MidwayDone(a, filters, sources, source, targets, result);
    r := Ok(result);
  }

  lemma MidwayStart(a: Access, filters: map<nat, seq<Filter>>, sources: seq<nat>, source: nat,
                    matches: map<nat, FilterMatch>)
    requires Progress(a, filters, sources, matches)
    ensures Midway(a, filters, sources, source, [], matches)
  {
    hide MergeAll, SelectedFrom, AskedFrom, Brought, Merge;
  }

  lemma JoinLookup(a: Access, source: nat, target: nat)
    ensures HasJoin(a, source, target) <==>
            GetJoinFragment(a, source).Ok? && FindTarget(GetJoinFragment(a, source).value.joins, target).Ok?
  {
  }

  lemma FollowedMeans(a: Access, filters: map<nat, seq<Filter>>, source: nat, target: nat, into: FilterMatch)
    requires HasJoin(a, source, target)
    ensures var m := Direct(a, Asking(FiltersOf(filters, source), target));
            Followed(a, filters, source, target, into) ==
            FoldJoin(into, m, FindTarget(GetJoinFragment(a, source).value.joins, target).value, Sorted(m.Keys))
  {
  }

  lemma SelectedKeys(a: Access, filters: map<nat, seq<Filter>>, matches: map<nat, FilterMatch>,
                     joins: map<nat, map<nat, FilterMatch>>, id: nat)
    requires SelectedAll(a, filters, Sorted(filters.Keys), matches, joins)
    ensures id in matches <==> id in SelectedFrom(a, filters)
    ensures id in matches ==> id in filters && matches[id] == Direct(a, filters[id])
  {
    hide Selected, Direct, Sorted;
    SortedHolds(filters.Keys, id);
  }

  lemma ProgressStart(a: Access, filters: map<nat, seq<Filter>>, matches: map<nat, FilterMatch>,
                      joins: map<nat, map<nat, FilterMatch>>)
    requires SelectedAll(a, filters, Sorted(filters.Keys), matches, joins)
    ensures Progress(a, filters, [], matches)
  {
    hide SelectedAll, SelectedFrom, Direct, Sorted;
    forall id
      ensures id in matches <==> id in SelectedFrom(a, filters)
      ensures id in matches ==> matches[id] == MergeAll(a, filters, [], id)
    {
      SelectedKeys(a, filters, matches, joins, id);
    }
    assert matches.Keys == SelectedFrom(a, filters) + AskedFrom(a, filters, []);
  }

  /** Follows the joins of every source fragment, one step each. */
  method BringAlong(a: Access, filters: map<nat, seq<Filter>>, matches: map<nat, FilterMatch>,
                    joins: map<nat, map<nat, FilterMatch>>)
    returns (r: Result<map<nat, FilterMatch>>)
    requires SelectedAll(a, filters, Sorted(filters.Keys), matches, joins)
    ensures r.Ok? <==> Joinable(a, filters)
    ensures r.Ok? ==> r.value == AllMatches(a, filters)
  {
    hide AskedMatches, AskedBy, Direct, HasJoin, Progress, Selected, Sorted;
    var sources, result := Sorted(filters.Keys), matches;
    ProgressStart(a, filters, matches, joins);
    for k := 0 to |sources|
      invariant Progress(a, filters, sources[..k], result)
      invariant forall source, t :: source in sources[..k] && source in filters && t in AskedBy(a, filters[source]) ==>
                  HasJoin(a, source, t)
    {
      var source := sources[k];
      SortedHolds(filters.Keys, source);
      assert sources[..k + 1] == sources[..k] + [source];
      var brought := BringFrom(a, filters, source, joins[source], result, sources[..k]);
      if brought.Rejected? {
        return Rejected;
      }
      result := brought.value;
    }
    assert sources[..|sources|] == sources;
    forall source | source in filters
      ensures source in sources
    {
      SortedHolds(filters.Keys, source);
    }
    assert result == AllMatches(a, filters) by { ProgressDone(a, filters, result); }
    r := Ok(result);
  }

  lemma ProgressDone(a: Access, filters: map<nat, seq<Filter>>, matches: map<nat, FilterMatch>)
    requires Progress(a, filters, Sorted(filters.Keys), matches)
    ensures matches == AllMatches(a, filters)
  {
    hide MergeAll, SelectedFrom, AskedFrom;
  }

  // ------------------------------------------------------------------ the whole block

  method CollectItems(a: Access, names: set<nat>, matches: map<nat, FilterMatch>) returns (r: Result<seq<Item>>)
    ensures r == ItemsOfFragments(a, names, matches, Sorted(matches.Keys))
  {
    hide Sorted;
    var ids, items := Sorted(matches.Keys), [];
    for k := 0 to |ids|
      invariant ItemsOfFragments(a, names, matches, ids[..k]) == Ok(items)
    {
      var id := ids[k];
      SortedHolds(matches.Keys, id);
      assert ids[..k + 1][..k] == ids[..k];
      var body := GetBodyFragment(a, id);
      if id !in names || body.Rejected? {
        assert ItemsOfFragments(a, names, matches, ids[..k + 1]).Rejected?;
        ItemsStopped(a, names, matches, ids, k + 1);
        return Rejected;
      }
      var rows := CollectRows(id, body.value.data, matches[id]);
      if rows.Rejected? {
        assert ItemsOfFragments(a, names, matches, ids[..k + 1]).Rejected?;
        ItemsStopped(a, names, matches, ids, k + 1);
        return Rejected;
      }
      items := items + rows.value;
    }
    assert ids[..|ids|] == ids;
    r := Ok(items);
  }

  lemma {:induction false} ItemsStopped(a: Access, names: set<nat>, matches: map<nat, FilterMatch>, ids: seq<nat>,
                                        k: nat)
    requires k <= |ids| && ItemsOfFragments(a, names, matches, ids[..k]).Rejected?
    ensures ItemsOfFragments(a, names, matches, ids).Rejected?
    decreases |ids|
  {
    if k < |ids| {
      assert ids[..|ids| - 1][..k] == ids[..k];
      ItemsStopped(a, names, matches, ids[..|ids| - 1], k);
    } else {
      assert ids[..k] == ids;
    }
  }

  method CollectRows(id: nat, data: seq<Bytes>, m: FilterMatch) returns (r: Result<seq<Item>>)
    ensures r == ItemsOfRows(id, data, m, Sorted(m.Keys))
  {
    hide Sorted;
    var rows, items := Sorted(m.Keys), [];
    for k := 0 to |rows|
      invariant ItemsOfRows(id, data, m, rows[..k]) == Ok(items)
    {
      assert rows[..k + 1][..k] == rows[..k];
      if rows[k] >= |data| {
        assert ItemsOfRows(id, data, m, rows[..k + 1]).Rejected?;
        RowsStopped(id, data, m, rows, k + 1);
        return Rejected;
      }
      items := items + [Item(id, rows[k], IdsAt(m, rows[k]), data[rows[k]])];
    }
    assert rows[..|rows|] == rows;
    r := Ok(items);
  }

  lemma {:induction false} RowsStopped(id: nat, data: seq<Bytes>, m: FilterMatch, rows: seq<nat>, k: nat)
    requires k <= |rows| && ItemsOfRows(id, data, m, rows[..k]).Rejected?
    ensures ItemsOfRows(id, data, m, rows).Rejected?
    decreases |rows|
  {
    if k < |rows| {
      assert rows[..|rows| - 1][..k] == rows[..k];
      RowsStopped(id, data, m, rows[..|rows| - 1], k);
    } else {
      assert rows[..k] == rows;
    }
  }

  /** One block filter on one block: the loops of the source give what FilterBlock says. */
  method FilterOne(a: Access, bf: BlockFilter, names: set<nat>, isLive: bool) returns (r: Result<Filtered>)
    requires WfFilters(bf.filters)
    ensures r == FilterBlock(a, bf, names, isLive)
  {
    hide SelectedAll, Evaluable, Joinable, AllMatches, ItemsOfFragments;
    var selected := SelectAll(a, bf.filters);
    if selected.Rejected? {
      return Rejected;
    }
    var brought := BringAlong(a, bf.filters, selected.value.0, selected.value.1);
    if brought.Rejected? {
      return Rejected;
    }
    var matches := brought.value;
    var header: Option<Bytes> := None;
    if ShouldSendHeader(bf.headerFilter, matches != map[], isLive) {
      var found := GetHeaderFragment(a);
      if found.Rejected? {
        return Rejected;
      }
      header := Some(found.value);
    }
    var items := CollectItems(a, names, matches);
    if items.Rejected? {
      return Rejected;
    }
    r := Ok(Filtered(header, items.value));
  }
}
