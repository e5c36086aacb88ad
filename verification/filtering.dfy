/** Which rows of a block a filter selects and brings along, and what is sent of them (common/src/data_stream). */
module Filtering {
  import opened Core
  import opened Sorting
  import opened Joins
  import opened Fragments
  import opened Query

  /** One row to send: its fragment, its number, the filters that want it and its message. */
  datatype Item = Item(fragmentId: nat, row: nat, filterIds: set<nat>, message: Bytes)

  datatype Filtered = Filtered(header: Option<Bytes>, items: seq<Item>)

  // ------------------------------------------------------------------ filter matches

  /** The filters that want each row (common/src/data_stream/filter.rs). */
  type FilterMatch = map<nat, set<nat>>

  function IdsAt(m: FilterMatch, row: nat): set<nat> {
    if row in m then m[row] else {}
  }

  function WithMatch(m: FilterMatch, id: nat, rows: set<nat>): FilterMatch {
    map row | row in m.Keys + rows :: if row in rows then IdsAt(m, row) + {id} else m[row]
  }

  lemma MatchNone(m: FilterMatch, id: nat)
    ensures WithMatch(m, id, {}) == m
  {
    assert WithMatch(m, id, {}).Keys == m.Keys;
  }

  lemma MatchOneMore(m: FilterMatch, id: nat, rows: set<nat>, row: nat)
    ensures WithMatch(WithMatch(m, id, rows), id, {row}) == WithMatch(m, id, rows + {row})
  {
    var once, all := WithMatch(WithMatch(m, id, rows), id, {row}), WithMatch(m, id, rows + {row});
    assert once.Keys == all.Keys;
    forall r | r in all
      ensures once[r] == all[r]
    {
    }
  }

  class FilterMatches {
    var matches: FilterMatch

    constructor ()
      ensures matches == map[]
    {
      matches := map[];
    }

    method AddSingleMatch(id: nat, row: nat)
      modifies this
      ensures matches == WithMatch(old(matches), id, {row})
    {
      matches := matches[row := IdsAt(matches, row) + {id}];
    }

    /** Adding a bitmap row by row is adding it at once. */
    method AddMatch(id: nat, rows: set<nat>)
      modifies this
      ensures matches == WithMatch(old(matches), id, rows)
    {
      hide WithMatch, Least;
      var left := rows;
      MatchNone(matches, id);
      assert rows - left == {};
      while left != {}
        invariant left <= rows && matches == WithMatch(old(matches), id, rows - left)
        decreases |left|
      {
        var row := Least(left);
        MatchOneMore(old(matches), id, rows - left, row);
        AddSingleMatch(id, row);
        assert rows - (left - {row}) == rows - left + {row};
        left := left - {row};
      }
      assert rows - left == rows;
    }
  }

  // ------------------------------------------------------------------ what a block filter selects

  /** The rows one filter selects; none where the fragment has no index or it cannot be evaluated. */
  function RowsIn(a: Access, f: Filter): set<nat> {
    match GetIndexFragment(a, f.fragmentId)
    case Rejected => {}
    case Ok(indexes) => if Rows(f, indexes).Ok? then Rows(f, indexes).value else {}
  }

  /** The filters among `filters` that select a row. */
  function Selecting(a: Access, filters: seq<Filter>, row: nat): set<nat> {
    set f | f in filters && row in RowsIn(a, f) :: f.filterId
  }

  function Selected(a: Access, filters: seq<Filter>): set<nat> {
    set f, row | f in filters && row in RowsIn(a, f) :: row
  }

  function Direct(a: Access, filters: seq<Filter>): FilterMatch {
    map row | row in Selected(a, filters) :: Selecting(a, filters, row)
  }

  /** The filters that also ask for `target`, in order. */
  function Asking(filters: seq<Filter>, target: nat): seq<Filter> {
    if filters == [] then []
    else
      var before, last := Asking(filters[..|filters| - 1], target), filters[|filters| - 1];
      if target in last.joins then before + [last] else before
  }

  /** The rows of `target` that a row of `source` is joined to. */
  function TargetsOf(a: Access, source: nat, target: nat, row: nat): set<nat> {
    match GetJoinFragment(a, source)
    case Rejected => {}
    case Ok(fragment) =>
      match FindTarget(fragment.joins, target)
      case Rejected => {}
      case Ok(join) => Targets(join, row)
  }

  /** What one source fragment brings along into `target`. */
  function Brought(a: Access, filters: map<nat, seq<Filter>>, source: nat, target: nat): FilterMatch {
    var asking := Asking(FiltersOf(filters, source), target);
    map row | row in BroughtRows(a, asking, source, target) :: BroughtIds(a, asking, source, target, row)
  }

  function BroughtRows(a: Access, asking: seq<Filter>, source: nat, target: nat): set<nat> {
    set r, row | r in Selected(a, asking) && row in TargetsOf(a, source, target, r) :: row
  }

  function BroughtIds(a: Access, asking: seq<Filter>, source: nat, target: nat, row: nat): set<nat> {
    set r, id | r in Selected(a, asking) && row in TargetsOf(a, source, target, r)
    && id in Selecting(a, asking, r) :: id
  }

  function Merge(m: FilterMatch, n: FilterMatch): FilterMatch {
    map row | row in m.Keys + n.Keys :: IdsAt(m, row) + IdsAt(n, row)
  }

  function MergeAll(a: Access, filters: map<nat, seq<Filter>>, sources: seq<nat>, target: nat): FilterMatch {
    if sources == [] then Direct(a, FiltersOf(filters, target))
    else Merge(MergeAll(a, filters, sources[..|sources| - 1], target),
               Brought(a, filters, sources[|sources| - 1], target))
  }

  /** All filters that want a row of a fragment: directly, or through one join. */
  function Wanted(a: Access, filters: map<nat, seq<Filter>>, target: nat): FilterMatch {
    MergeAll(a, filters, Sorted(filters.Keys), target)
  }

  /** The fragments that filters with a match ask for; they count even when nothing is joined. */
  function AskedBy(a: Access, filters: seq<Filter>): set<nat> {
    set f, target | f in filters && RowsIn(a, f) != {} && target in f.joins :: target
  }

  function AskedFrom(a: Access, filters: map<nat, seq<Filter>>, sources: seq<nat>): set<nat> {
    if sources == [] then {}
    else AskedFrom(a, filters, sources[..|sources| - 1]) + AskedBy(a, FiltersOf(filters, sources[|sources| - 1]))
  }

  function SelectedFrom(a: Access, filters: map<nat, seq<Filter>>): set<nat> {
    set id | id in filters && Selected(a, filters[id]) != {}
  }

  /** The fragments with an entry: selected from directly or asked for. */
  function MatchedFragments(a: Access, filters: map<nat, seq<Filter>>): set<nat> {
    SelectedFrom(a, filters) + AskedFrom(a, filters, Sorted(filters.Keys))
  }

  // ------------------------------------------------------------------ joins are exact and go one step

  ghost predicate DirectHit(a: Access, filters: map<nat, seq<Filter>>, target: nat, row: nat, id: nat) {
    exists f :: f in FiltersOf(filters, target) && f.filterId == id && row in RowsIn(a, f)
  }

  /** A filter with that id on `source` asks for `target` and matched a row that is joined to this one. */
  ghost predicate JoinHit(a: Access, filters: map<nat, seq<Filter>>, source: nat, target: nat, row: nat, id: nat) {
    exists f, r :: f in FiltersOf(filters, source) && target in f.joins && f.filterId == id && r in RowsIn(a, f)
                   && row in TargetsOf(a, source, target, r)
  }

  lemma {:induction false} AskingMeans(filters: seq<Filter>, target: nat, f: Filter)
    ensures f in Asking(filters, target) <==> f in filters && target in f.joins
    decreases |filters|
  {
    if filters != [] {
      AskingMeans(filters[..|filters| - 1], target, f);
      assert filters == filters[..|filters| - 1] + [filters[|filters| - 1]];
    }
  }

  lemma BroughtMeans(a: Access, filters: map<nat, seq<Filter>>, source: nat, target: nat, row: nat, id: nat)
    ensures id in IdsAt(Brought(a, filters, source, target), row) <==> JoinHit(a, filters, source, target, row, id)
  {
    var asking := Asking(FiltersOf(filters, source), target);
    forall f
      ensures f in asking <==> f in FiltersOf(filters, source) && target in f.joins
    {
      AskingMeans(FiltersOf(filters, source), target, f);
    }
    if JoinHit(a, filters, source, target, row, id) {
      var f, r :| f in FiltersOf(filters, source) && target in f.joins && f.filterId == id && r in RowsIn(a, f)
                  && row in TargetsOf(a, source, target, r);
      assert f in asking && r in Selected(a, asking) && id in Selecting(a, asking, r);
      assert id in BroughtIds(a, asking, source, target, row);
    }
    if id in IdsAt(Brought(a, filters, source, target), row) {
      var r :| r in Selected(a, asking) && row in TargetsOf(a, source, target, r) && id in Selecting(a, asking, r);
      var f :| f in asking && r in RowsIn(a, f) && f.filterId == id;
    }
  }

  lemma {:induction false} MergeAllMeans(a: Access, filters: map<nat, seq<Filter>>, sources: seq<nat>, target: nat,
                                         row: nat, id: nat)
    ensures id in IdsAt(MergeAll(a, filters, sources, target), row) <==>
            DirectHit(a, filters, target, row, id) || exists source ::
              source in sources && JoinHit(a, filters, source, target, row, id)
    decreases |sources|
  {
    hide JoinHit, Brought;
    if sources == [] {
      assert id in IdsAt(Direct(a, FiltersOf(filters, target)), row) <==> DirectHit(a, filters, target, row, id) by {
        DirectMeans(a, filters, target, row, id);
      }
    } else {
      MergeAllMeans(a, filters, sources[..|sources| - 1], target, row, id);
      BroughtMeans(a, filters, sources[|sources| - 1], target, row, id);
      assert sources == sources[..|sources| - 1] + [sources[|sources| - 1]];
    }
  }

  lemma DirectMeans(a: Access, filters: map<nat, seq<Filter>>, target: nat, row: nat, id: nat)
    ensures id in IdsAt(Direct(a, FiltersOf(filters, target)), row) <==> DirectHit(a, filters, target, row, id)
  {
    var own := FiltersOf(filters, target);
    if DirectHit(a, filters, target, row, id) {
      var f :| f in own && f.filterId == id && row in RowsIn(a, f);
      assert row in Selected(a, own);
    }
  }

  /**
   * A row of a fragment is sent for filter id `id` if and only if a filter with that id selects the row itself, or
   * one that asks for the fragment selects a row joined to it; joins are not followed further.
   */
  lemma WantedMeans(a: Access, filters: map<nat, seq<Filter>>, target: nat, row: nat, id: nat)
    ensures id in IdsAt(Wanted(a, filters, target), row) <==>
            DirectHit(a, filters, target, row, id) || exists source ::
              source in filters && JoinHit(a, filters, source, target, row, id)
  {
    hide JoinHit, DirectHit, MergeAll;
    MergeAllMeans(a, filters, Sorted(filters.Keys), target, row, id);
    forall source
      ensures source in Sorted(filters.Keys) <==> source in filters
    {
      SortedHolds(filters.Keys, source);
    }
  }

  // ------------------------------------------------------------------ which fragments have an entry

  /** Some filter selects a row of the block. */
  ghost predicate Selects(a: Access, filters: map<nat, seq<Filter>>) {
    exists id, f :: id in filters && f in filters[id] && RowsIn(a, f) != {}
  }

  lemma {:induction false} AskedFromMeans(a: Access, filters: map<nat, seq<Filter>>, sources: seq<nat>, target: nat)
    requires target in AskedFrom(a, filters, sources)
    ensures exists source, f :: source in filters && f in filters[source] && RowsIn(a, f) != {} && target in f.joins
    decreases |sources|
  {
    hide RowsIn;
    var init, source := sources[..|sources| - 1], sources[|sources| - 1];
    if target in AskedFrom(a, filters, init) {
      AskedFromMeans(a, filters, init, target);
    } else {
      var f :| f in FiltersOf(filters, source) && RowsIn(a, f) != {} && target in f.joins;
      assert source in filters && f in filters[source];
    }
  }

  /** A fragment with an entry has a filter that selects a row and is for it or asks for it. */
  lemma MatchedMeans(a: Access, filters: map<nat, seq<Filter>>, target: nat)
    requires target in MatchedFragments(a, filters)
    ensures exists id, f ::
              id in filters && f in filters[id] && RowsIn(a, f) != {} && (id == target || target in f.joins)
  {
    hide RowsIn, AskedFrom;
    if target in SelectedFrom(a, filters) {
      var row :| row in Selected(a, filters[target]);
      var f :| f in filters[target] && row in RowsIn(a, f);
      assert RowsIn(a, f) != {};
    } else {
      AskedFromMeans(a, filters, Sorted(filters.Keys), target);
    }
  }

  lemma {:induction false} AskedFromHolds(a: Access, filters: map<nat, seq<Filter>>, sources: seq<nat>, source: nat,
                                          f: Filter, target: nat)
    requires source in sources && f in FiltersOf(filters, source) && RowsIn(a, f) != {} && target in f.joins
    ensures target in AskedFrom(a, filters, sources)
    decreases |sources|
  {
    hide RowsIn;
    var init, last := sources[..|sources| - 1], sources[|sources| - 1];
    if source == last {
      assert target in AskedBy(a, FiltersOf(filters, last));
    } else {
      assert sources == init + [last];
      AskedFromHolds(a, filters, init, source, f, target);
    }
  }

  /** A fragment of which a row is wanted has an entry. */
  lemma HitIsMatched(a: Access, filters: map<nat, seq<Filter>>, target: nat, row: nat, id: nat)
    requires id in IdsAt(Wanted(a, filters, target), row)
    ensures target in MatchedFragments(a, filters) && Selects(a, filters)
  {
    hide RowsIn, AskedFrom, TargetsOf, Wanted, IdsAt;
    WantedMeans(a, filters, target, row, id);
    if DirectHit(a, filters, target, row, id) {
      var f :| f in FiltersOf(filters, target) && f.filterId == id && row in RowsIn(a, f);
      assert target in filters && f in filters[target] && row in Selected(a, filters[target]);
    } else {
      var source :| source in filters && JoinHit(a, filters, source, target, row, id);
      var f, r :| f in FiltersOf(filters, source) && target in f.joins && f.filterId == id && r in RowsIn(a, f)
                  && row in TargetsOf(a, source, target, r);
      SortedHolds(filters.Keys, source);
      AskedFromHolds(a, filters, Sorted(filters.Keys), source, f, target);
    }
  }

  /** There is an entry exactly if some filter selects a row. */
  lemma MatchedIffSelects(a: Access, filters: map<nat, seq<Filter>>)
    ensures MatchedFragments(a, filters) != {} <==> Selects(a, filters)
  {
    hide RowsIn, AskedFrom;
    if target :| target in MatchedFragments(a, filters) {
      MatchedMeans(a, filters, target);
    }
    if Selects(a, filters) {
      var id, f :| id in filters && f in filters[id] && RowsIn(a, f) != {};
      var row :| row in RowsIn(a, f);
      assert row in Selected(a, filters[id]);
      assert id in SelectedFrom(a, filters);
    }
  }
}
