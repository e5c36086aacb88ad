/** Filters: conditions over the bitmap indexes of one fragment (common/src/query.rs). */
module Query {
  import opened Core
  import opened Sorting
  import opened Indexes
  import opened Fragments

  datatype HeaderFilter = Always | OnData | OnDataOrOnNewBlock

  datatype Condition = Condition(indexId: nat, key: Scalar)

  /** Conditions are ANDed; `joins` names the fragments to bring along. */
  datatype Filter = Filter(filterId: nat, fragmentId: nat, conditions: seq<Condition>, joins: seq<nat>)

  /** Filters by fragment; the source iterates over its tree map by ascending fragment id. */
  datatype BlockFilter = BlockFilter(headerFilter: HeaderFilter, filters: map<nat, seq<Filter>>)

  /** One condition narrows the rows; a key that is not in the index leaves none and ends the filter. */
  function Narrow(conditions: seq<Condition>, indexes: seq<Index>, rows: set<nat>): Result<set<nat>> {
    if conditions == [] then Ok(rows)
    else
      var cond := conditions[0];
      if cond.indexId >= |indexes| then Rejected
      else match indexes[cond.indexId].body
        case EmptyIndex => Narrow(conditions[1..], indexes, rows)
        case Bitmap(bitmap) =>
          match Get(bitmap, cond.key)
          case None => Ok({})
          case Some(found) => Narrow(conditions[1..], indexes, rows * found)
  }

  function Rows(f: Filter, indexes: IndexFragment): Result<set<nat>> {
    Narrow(f.conditions, indexes.indexes, Interval(indexes.rangeStart, indexes.rangeLen))
  }

  /** The loop of the source, which stops at the first key that is not there. */
  method FilterRows(f: Filter, indexes: IndexFragment) returns (r: Result<set<nat>>)
    ensures r == Rows(f, indexes)
  {
    var result := Interval(indexes.rangeStart, indexes.rangeLen);
    var i := 0;
    while i < |f.conditions|
      invariant 0 <= i <= |f.conditions|
      invariant Narrow(f.conditions[i..], indexes.indexes, result) == Rows(f, indexes)
    {
      var cond := f.conditions[i];
      assert f.conditions[i..][1..] == f.conditions[i + 1..];
      if cond.indexId >= |indexes.indexes| {
        return Rejected;
      }
      match indexes.indexes[cond.indexId].body {
        case EmptyIndex =>
        case Bitmap(bitmap) =>
          var found := Get(bitmap, cond.key);
          if found.None? {
            return Ok({});
          }
          result := result * found.value;
      }
      i := i + 1;
    }
    r := Ok(result);
  }

  // ------------------------------------------------------------------ what a filter means

  /** Every index a filter uses is there, is a bitmap and can be searched. */
  ghost predicate Searchable(f: Filter, indexes: IndexFragment) {
    forall c :: c in f.conditions ==> SearchableAt(indexes, c.indexId)
  }

  ghost predicate SearchableAt(indexes: IndexFragment, indexId: nat) {
    && indexId < |indexes.indexes| && indexes.indexes[indexId].body.Bitmap?
    && WfIndex(indexes.indexes[indexId].body.bitmap) && OneVariant(indexes.indexes[indexId].body.bitmap)
  }

  ghost predicate Satisfies(c: Condition, indexes: IndexFragment, row: nat) {
    && c.indexId < |indexes.indexes| && indexes.indexes[c.indexId].body.Bitmap?
    && Holds(indexes.indexes[c.indexId].body.bitmap, c.key, row)
  }

  ghost predicate Matches(f: Filter, indexes: IndexFragment, row: nat) {
    && indexes.rangeStart <= row < indexes.rangeStart + indexes.rangeLen
    && forall c :: c in f.conditions ==> Satisfies(c, indexes, row)
  }

  lemma {:induction false} NarrowKeepsSatisfying(conditions: seq<Condition>, indexes: IndexFragment, rows: set<nat>,
                                                 row: nat)
    requires forall c :: c in conditions ==> SearchableAt(indexes, c.indexId)
    ensures Narrow(conditions, indexes.indexes, rows).Ok?
    ensures row in Narrow(conditions, indexes.indexes, rows).value <==>
            row in rows && forall c :: c in conditions ==> Satisfies(c, indexes, row)
    decreases |conditions|
  {
    if conditions != [] {
      var cond, rest := conditions[0], conditions[1..];
      assert conditions == [cond] + rest;
      assert SearchableAt(indexes, cond.indexId);
      var bitmap := indexes.indexes[cond.indexId].body.bitmap;
      GetFinds(bitmap, cond.key);
      if Get(bitmap, cond.key).Some? {
        NarrowKeepsSatisfying(rest, indexes, rows * Get(bitmap, cond.key).value, row);
      } else {
        assert !Holds(bitmap, cond.key, row);
      }
    }
  }

  /** A filter selects exactly the rows of the fragment that satisfy every condition. */
  lemma FilterMeans(f: Filter, indexes: IndexFragment, row: nat)
    requires Searchable(f, indexes)
    ensures Rows(f, indexes).Ok? && (row in Rows(f, indexes).value <==> Matches(f, indexes, row))
  {
    NarrowKeepsSatisfying(f.conditions, indexes, Interval(indexes.rangeStart, indexes.rangeLen), row);
  }

  // ------------------------------------------------------------------ block filters

  /** What adding filters one by one leads to: no empty list, and each filter under its own fragment. */
  ghost predicate WfFilters(filters: map<nat, seq<Filter>>) {
    forall id :: id in filters ==> filters[id] != [] && forall f :: f in filters[id] ==> f.fragmentId == id
  }

  function FiltersOf(filters: map<nat, seq<Filter>>, id: nat): seq<Filter> {
    if id in filters then filters[id] else []
  }

  function AllFragmentIds(filters: map<nat, seq<Filter>>): set<nat> {
    filters.Keys + set id, f, to | id in filters && f in filters[id] && to in f.joins :: to
  }

  class BlockFilterBuilder {
    var headerFilter: HeaderFilter
    var filters: map<nat, seq<Filter>>

    ghost predicate Valid()
      reads this
    {
      WfFilters(filters)
    }

    constructor ()
      ensures Valid() && filters == map[] && headerFilter == OnDataOrOnNewBlock
    {
      headerFilter, filters := OnDataOrOnNewBlock, map[];
    }

    method SetHeaderFilter(value: HeaderFilter)
      requires Valid()
      modifies this`headerFilter
      ensures Valid() && headerFilter == value && filters == old(filters)
    {
      headerFilter := value;
    }

    method AddFilter(f: Filter)
      requires Valid()
      modifies this`filters
      ensures Valid() && filters == old(filters)[f.fragmentId := FiltersOf(old(filters), f.fragmentId) + [f]]
    {
      filters := filters[f.fragmentId := FiltersOf(filters, f.fragmentId) + [f]];
    }
  }
}
