/** What filtering a block depends on: two ways to read a block that agree on it give the same result. */
module FilterAgreement {
  import opened Core
  import opened Sorting
  import opened Joins
  import opened Fragments
  import opened Query
  import opened Filtering
  import opened FilterFragment

  /** Index, join and header fragments agree, and so do the bodies that are wanted. */
  ghost predicate Agree(a: Access, b: Access, wanted: set<nat>) {
    && (forall id :: GetIndexFragment(a, id) == GetIndexFragment(b, id))
    && (forall id :: GetJoinFragment(a, id) == GetJoinFragment(b, id))
    && GetHeaderFragment(a) == GetHeaderFragment(b)
    && forall id :: id in wanted ==> GetBodyFragment(a, id) == GetBodyFragment(b, id)
  }

  lemma RowsAgree(a: Access, b: Access, wanted: set<nat>, f: Filter)
    requires Agree(a, b, wanted)
    ensures RowsIn(a, f) == RowsIn(b, f)
  {
    assert GetIndexFragment(a, f.fragmentId) == GetIndexFragment(b, f.fragmentId);
  }

  lemma SelectedAgree(a: Access, b: Access, wanted: set<nat>, filters: seq<Filter>)
    requires Agree(a, b, wanted)
    ensures Selected(a, filters) == Selected(b, filters) && Direct(a, filters) == Direct(b, filters)
            && AskedBy(a, filters) == AskedBy(b, filters)
  {
    hide Agree, RowsIn;
    forall f
      ensures RowsIn(a, f) == RowsIn(b, f)
    {
      RowsAgree(a, b, wanted, f);
    }
    assert Selected(a, filters) == Selected(b, filters);
    forall row
      ensures Selecting(a, filters, row) == Selecting(b, filters, row)
    {
    }
  }

  lemma TargetsAgree(a: Access, b: Access, wanted: set<nat>, source: nat, target: nat, row: nat)
    requires Agree(a, b, wanted)
    ensures TargetsOf(a, source, target, row) == TargetsOf(b, source, target, row)
    ensures HasJoin(a, source, target) <==> HasJoin(b, source, target)
  {
    assert GetJoinFragment(a, source) == GetJoinFragment(b, source);
  }

  lemma SelectingAgrees(a: Access, b: Access, wanted: set<nat>, filters: seq<Filter>, row: nat)
    requires Agree(a, b, wanted)
    ensures Selecting(a, filters, row) == Selecting(b, filters, row)
  {
    hide Agree, RowsIn;
    forall f
      ensures RowsIn(a, f) == RowsIn(b, f)
    {
      RowsAgree(a, b, wanted, f);
    }
  }

  lemma BroughtRowsAgree(a: Access, b: Access, wanted: set<nat>, asking: seq<Filter>, source: nat, target: nat)
    requires Agree(a, b, wanted)
    ensures BroughtRows(a, asking, source, target) == BroughtRows(b, asking, source, target)
  {
    hide Agree, TargetsOf, Selected;
    SelectedAgree(a, b, wanted, asking);
    forall row
      ensures TargetsOf(a, source, target, row) == TargetsOf(b, source, target, row)
    {
      TargetsAgree(a, b, wanted, source, target, row);
    }
  }

  lemma BroughtIdsAgree(a: Access, b: Access, wanted: set<nat>, asking: seq<Filter>, source: nat, target: nat, row: nat)
    requires Agree(a, b, wanted)
    ensures BroughtIds(a, asking, source, target, row) == BroughtIds(b, asking, source, target, row)
  {
    hide Agree, TargetsOf, Selected, Selecting;
    SelectedAgree(a, b, wanted, asking);
    forall r
      ensures TargetsOf(a, source, target, r) == TargetsOf(b, source, target, r)
      ensures Selecting(a, asking, r) == Selecting(b, asking, r)
    {
      TargetsAgree(a, b, wanted, source, target, r);
      SelectingAgrees(a, b, wanted, asking, r);
    }
  }

  lemma BroughtAgree(a: Access, b: Access, wanted: set<nat>, filters: map<nat, seq<Filter>>, source: nat, target: nat)
    requires Agree(a, b, wanted)
    ensures Brought(a, filters, source, target) == Brought(b, filters, source, target)
  {
    hide Agree, BroughtRows, BroughtIds, Asking;
    var asking := Asking(FiltersOf(filters, source), target);
    BroughtRowsAgree(a, b, wanted, asking, source, target);
    forall row
      ensures BroughtIds(a, asking, source, target, row) == BroughtIds(b, asking, source, target, row)
    {
      BroughtIdsAgree(a, b, wanted, asking, source, target, row);
    }
  }

  lemma {:induction false} MergeAgrees(a: Access, b: Access, wanted: set<nat>, filters: map<nat, seq<Filter>>,
                                       sources: seq<nat>, target: nat)
    requires Agree(a, b, wanted)
    ensures MergeAll(a, filters, sources, target) == MergeAll(b, filters, sources, target)
    ensures AskedFrom(a, filters, sources) == AskedFrom(b, filters, sources)
    decreases |sources|
  {
    hide Agree, Brought, Direct, AskedBy;
    if sources == [] {
      SelectedAgree(a, b, wanted, FiltersOf(filters, target));
    } else {
      var source := sources[|sources| - 1];
      MergeAgrees(a, b, wanted, filters, sources[..|sources| - 1], target);
      BroughtAgree(a, b, wanted, filters, source, target);
      SelectedAgree(a, b, wanted, FiltersOf(filters, source));
    }
  }

  lemma MatchedAgree(a: Access, b: Access, wanted: set<nat>, filters: map<nat, seq<Filter>>)
    requires Agree(a, b, wanted)
    ensures MatchedFragments(a, filters) == MatchedFragments(b, filters)
  {
    hide Agree, MergeAll, AskedFrom, Selected, Sorted;
    forall id | id in filters
      ensures Selected(a, filters[id]) == Selected(b, filters[id])
    {
      SelectedAgree(a, b, wanted, filters[id]);
    }
    MergeAgrees(a, b, wanted, filters, Sorted(filters.Keys), 0);
    assert SelectedFrom(a, filters) == SelectedFrom(b, filters);
  }

  lemma MatchesAgree(a: Access, b: Access, wanted: set<nat>, filters: map<nat, seq<Filter>>)
    requires Agree(a, b, wanted)
    ensures AllMatches(a, filters) == AllMatches(b, filters)
  {
    hide Agree, MergeAll, MatchedFragments, Sorted;
    MatchedAgree(a, b, wanted, filters);
    forall id
      ensures Wanted(a, filters, id) == Wanted(b, filters, id)
    {
      MergeAgrees(a, b, wanted, filters, Sorted(filters.Keys), id);
    }
  }

  lemma {:induction false} ItemsAgree(a: Access, b: Access, wanted: set<nat>, names: set<nat>,
                                      matches: map<nat, FilterMatch>, ids: seq<nat>)
    requires Agree(a, b, wanted) && forall id :: id in ids ==> id in wanted
    ensures ItemsOfFragments(a, names, matches, ids) == ItemsOfFragments(b, names, matches, ids)
    decreases |ids|
  {
    if ids != [] {
      ItemsAgree(a, b, wanted, names, matches, ids[..|ids| - 1]);
      assert GetBodyFragment(a, ids[|ids| - 1]) == GetBodyFragment(b, ids[|ids| - 1]);
    }
  }

  lemma EvaluationAgrees(a: Access, b: Access, wanted: set<nat>, filters: map<nat, seq<Filter>>)
    requires Agree(a, b, wanted)
    ensures Evaluable(a, filters) <==> Evaluable(b, filters)
    ensures Joinable(a, filters) <==> Joinable(b, filters)
  {
    forall id | id in filters
      ensures EvaluableAt(a, id, filters[id]) <==> EvaluableAt(b, id, filters[id])
    {
      assert GetIndexFragment(a, id) == GetIndexFragment(b, id);
    }
    hide EvaluableAt, AskedBy, HasJoin, Agree;
    forall source, target | source in filters
      ensures target in AskedBy(a, filters[source]) <==> target in AskedBy(b, filters[source])
      ensures HasJoin(a, source, target) <==> HasJoin(b, source, target)
    {
      SelectedAgree(a, b, wanted, filters[source]);
      TargetsAgree(a, b, wanted, source, target, 0);
    }
  }

  /** Only the bodies of fragments with a match are read. */
  lemma FilteredAgrees(a: Access, b: Access, wanted: set<nat>, bf: BlockFilter, names: set<nat>, isLive: bool)
    requires Agree(a, b, wanted) && MatchedFragments(b, bf.filters) <= wanted
    ensures FilterBlock(a, bf, names, isLive) == FilterBlock(b, bf, names, isLive)
  {
    hide Evaluable, Joinable, ItemsOfFragments, Wanted, MatchedFragments, Sorted;
    MatchesAgree(a, b, wanted, bf.filters);
    EvaluationAgrees(a, b, wanted, bf.filters);
    var matches := AllMatches(b, bf.filters);
    forall id | id in Sorted(matches.Keys)
      ensures id in wanted
    {
      SortedHolds(matches.Keys, id);
    }
    ItemsAgree(a, b, wanted, names, matches, Sorted(matches.Keys));
  }

  /** A block in which no filter selects a row has nothing to send but a header that is always wanted. */
  lemma {:induction false} NothingSelected(a: Access, filters: map<nat, seq<Filter>>, sources: seq<nat>)
    requires forall id, f :: id in filters && f in filters[id] ==> RowsIn(a, f) == {}
    ensures AskedFrom(a, filters, sources) == {} && SelectedFrom(a, filters) == {}
    decreases |sources|
  {
    hide RowsIn;
    forall id | id in filters
      ensures Selected(a, filters[id]) == {} && AskedBy(a, filters[id]) == {}
    {
    }
    if sources != [] { NothingSelected(a, filters, sources[..|sources| - 1]); }
  }

  lemma NothingToSend(a: Access, bf: BlockFilter, names: set<nat>)
    requires forall id, f :: id in bf.filters && f in bf.filters[id] ==> RowsIn(a, f) == {}
    requires !bf.headerFilter.Always? && Evaluable(a, bf.filters)
    ensures FilterBlock(a, bf, names, false) == Ok(Filtered(None, []))
  {
    hide Evaluable, RowsIn, AskedFrom, SelectedFrom, Wanted;
    NothingSelected(a, bf.filters, Sorted(bf.filters.Keys));
    assert Sorted({}) == [];
    assert AllMatches(a, bf.filters) == map[];
  }
}
