/** What is sent of a block: exactly the wanted rows, in order, each with its filters and its own message. */
module FilteredItems {
  import opened Core
  import opened Sorting
  import opened Fragments
  import opened Query
  import opened Filtering
  import opened FilterFragment

  ghost predicate ItemOk(a: Access, matches: map<nat, FilterMatch>, item: Item) {
    && item.fragmentId in matches && item.row in matches[item.fragmentId]
    && item.filterIds == matches[item.fragmentId][item.row]
    && GetBodyFragment(a, item.fragmentId).Ok? && item.row < |GetBodyFragment(a, item.fragmentId).value.data|
    && item.message == GetBodyFragment(a, item.fragmentId).value.data[item.row]
  }

  ghost predicate Before(x: Item, y: Item) {
    x.fragmentId < y.fragmentId || (x.fragmentId == y.fragmentId && x.row < y.row)
  }

  ghost predicate InOrder(items: seq<Item>) {
    forall i, j :: 0 <= i < j < |items| ==> Before(items[i], items[j])
  }

  ghost predicate IsItem(items: seq<Item>, id: nat, row: nat) {
    exists i :: 0 <= i < |items| && items[i].fragmentId == id && items[i].row == row
  }

  lemma {:induction false} RowsInOrder(id: nat, data: seq<Bytes>, m: FilterMatch, rows: seq<nat>)
    requires ItemsOfRows(id, data, m, rows).Ok? && (forall i, j :: 0 <= i < j < |rows| ==> rows[i] < rows[j])
    ensures var items := ItemsOfRows(id, data, m, rows).value;
            && |items| == |rows|
            && forall i :: 0 <= i < |rows| ==>
              rows[i] < |data| && items[i] == Item(id, rows[i], IdsAt(m, rows[i]), data[rows[i]])
    decreases |rows|
  {
    if rows != [] { RowsInOrder(id, data, m, rows[..|rows| - 1]); }
  }

  /** The items of one fragment. */
  lemma FragmentItems(a: Access, matches: map<nat, FilterMatch>, id: nat, row: nat)
    requires id in matches && GetBodyFragment(a, id).Ok?
    requires ItemsOfRows(id, GetBodyFragment(a, id).value.data, matches[id], Sorted(matches[id].Keys)).Ok?
    ensures var items := ItemsOfRows(id, GetBodyFragment(a, id).value.data, matches[id],
                                     Sorted(matches[id].Keys)).value;
            && InOrder(items) && (forall i :: 0 <= i < |items| ==>
                                  items[i].fragmentId == id && ItemOk(a, matches, items[i]))
            && (IsItem(items, id, row) <==> row in matches[id])
  {
    hide Sorted;
    var rows := Sorted(matches[id].Keys);
    forall i, j | 0 <= i < j < |rows|
      ensures rows[i] < rows[j]
    {
      SortedAscends(matches[id].Keys, i, j);
    }
    RowsInOrder(id, GetBodyFragment(a, id).value.data, matches[id], rows);
    forall i | 0 <= i < |rows|
      ensures rows[i] in matches[id]
    {
      SortedHolds(matches[id].Keys, rows[i]);
    }
    SortedHolds(matches[id].Keys, row);
    var items := ItemsOfRows(id, GetBodyFragment(a, id).value.data, matches[id], rows).value;
    if row in matches[id] {
      var i :| 0 <= i < |rows| && rows[i] == row;
      assert items[i].row == row;
    }
  }

  lemma {:induction false} ItemsMean(a: Access, names: set<nat>, matches: map<nat, FilterMatch>, ids: seq<nat>,
                                     id: nat, row: nat)
    requires ItemsOfFragments(a, names, matches, ids).Ok? && forall i, j :: 0 <= i < j < |ids| ==> ids[i] < ids[j]
    ensures var items := ItemsOfFragments(a, names, matches, ids).value;
            && InOrder(items) && (forall i :: 0 <= i < |items| ==>
                                  items[i].fragmentId in ids && ItemOk(a, matches, items[i]))
            && (IsItem(items, id, row) <==> id in ids && id in matches && row in matches[id])
    decreases |ids|
  {
    hide ItemOk, Sorted;
    if ids != [] {
      var init, last := ids[..|ids| - 1], ids[|ids| - 1];
      assert ids == init + [last];
      ItemsMean(a, names, matches, init, id, row);
      FragmentItems(a, matches, last, row);
      var before := ItemsOfFragments(a, names, matches, init).value;
      var here := ItemsOfRows(last, GetBodyFragment(a, last).value.data, matches[last],
                              Sorted(matches[last].Keys)).value;
      JoinedItems(before, here, id, row);
    }
  }

  lemma JoinedItems(a: seq<Item>, b: seq<Item>, id: nat, row: nat)
    requires InOrder(a) && InOrder(b) && forall i, j :: 0 <= i < |a| && 0 <= j < |b| ==>
               a[i].fragmentId < b[j].fragmentId
    ensures InOrder(a + b) && (IsItem(a + b, id, row) <==> IsItem(a, id, row) || IsItem(b, id, row))
  {
    var all := a + b;
    if IsItem(a, id, row) {
      var i :| 0 <= i < |a| && a[i].fragmentId == id && a[i].row == row;
      assert all[i] == a[i];
    }
    if IsItem(b, id, row) {
      var i :| 0 <= i < |b| && b[i].fragmentId == id && b[i].row == row;
      assert all[|a| + i] == b[i];
    }
  }

  /** A row with an entry has a filter that wants it. */
  lemma {:induction false} WantedIsNonEmpty(a: Access, filters: map<nat, seq<Filter>>, sources: seq<nat>, target: nat,
                                            row: nat)
    requires row in MergeAll(a, filters, sources, target)
    ensures IdsAt(MergeAll(a, filters, sources, target), row) != {}
    decreases |sources|
  {
    if sources == [] {
      SelectedMeans(a, FiltersOf(filters, target), row);
    } else {
      var init, source := sources[..|sources| - 1], sources[|sources| - 1];
      if row in MergeAll(a, filters, init, target) {
        WantedIsNonEmpty(a, filters, init, target, row);
      } else {
        BroughtIsNonEmpty(a, filters, source, target, row);
      }
    }
  }

  lemma BroughtIsNonEmpty(a: Access, filters: map<nat, seq<Filter>>, source: nat, target: nat, row: nat)
    requires row in Brought(a, filters, source, target)
    ensures IdsAt(Brought(a, filters, source, target), row) != {}
  {
    hide Selected, Selecting, TargetsOf;
    var asking := Asking(FiltersOf(filters, source), target);
    var r :| r in Selected(a, asking) && row in TargetsOf(a, source, target, r);
    SelectedMeans(a, asking, r);
    var id :| id in Selecting(a, asking, r);
    assert id in BroughtIds(a, asking, source, target, row);
  }

  /** A filter with that id selects the row, or selects one that is joined to it and asks for its fragment. */
  ghost predicate Hit(a: Access, filters: map<nat, seq<Filter>>, target: nat, row: nat, id: nat) {
    || DirectHit(a, filters, target, row, id)
    || exists source :: source in filters && JoinHit(a, filters, source, target, row, id)
  }

  lemma WantedIffHit(a: Access, filters: map<nat, seq<Filter>>, target: nat, row: nat)
    ensures target in MatchedFragments(a, filters) && row in Wanted(a, filters, target) <==>
            exists id :: Hit(a, filters, target, row, id)
  {
    hide MatchedFragments, MergeAll, DirectHit, JoinHit, Hit;
    if row in Wanted(a, filters, target) {
      WantedIsNonEmpty(a, filters, Sorted(filters.Keys), target, row);
      var id :| id in IdsAt(Wanted(a, filters, target), row);
      HitMeans(a, filters, target, row, id);
    }
    if id :| Hit(a, filters, target, row, id) {
      HitMeans(a, filters, target, row, id);
      HitIsMatched(a, filters, target, row, id);
    }
  }

  lemma HitMeans(a: Access, filters: map<nat, seq<Filter>>, target: nat, row: nat, id: nat)
    ensures id in IdsAt(Wanted(a, filters, target), row) <==> Hit(a, filters, target, row, id)
  {
    hide DirectHit, JoinHit, Wanted, IdsAt;
    WantedMeans(a, filters, target, row, id);
  }

  /** An item is a wanted row with exactly the filters that want it, at least one, and its own message. */
  ghost predicate ItemSent(a: Access, filters: map<nat, seq<Filter>>, item: Item) {
    && (forall id :: id in item.filterIds <==> Hit(a, filters, item.fragmentId, item.row, id))
    && item.filterIds != {}
    && GetBodyFragment(a, item.fragmentId).Ok? && item.row < |GetBodyFragment(a, item.fragmentId).value.data|
    && item.message == GetBodyFragment(a, item.fragmentId).value.data[item.row]
  }

  /**
   * The items of a filtered block: ordered by fragment and row, one for exactly the rows that some filter selects or
   * brings along, each with exactly the filters that do, and its own message.
   */
  lemma ItemsAreWanted(a: Access, bf: BlockFilter, names: set<nat>, isLive: bool, target: nat, row: nat)
    requires FilterBlock(a, bf, names, isLive).Ok?
    ensures var items := FilterBlock(a, bf, names, isLive).value.items;
            && InOrder(items)
            && (IsItem(items, target, row) <==> exists id :: Hit(a, bf.filters, target, row, id))
            && forall i :: 0 <= i < |items| ==> ItemSent(a, bf.filters, items[i])
  {
    hide Evaluable, Joinable, MatchedFragments, MergeAll, Sorted, ItemsOfFragments, Hit;
    var matches := AllMatches(a, bf.filters);
    var ids := Sorted(matches.Keys);
    forall i, j | 0 <= i < j < |ids|
      ensures ids[i] < ids[j]
    {
      SortedAscends(matches.Keys, i, j);
    }
    ItemsMean(a, names, matches, ids, target, row);
    SortedHolds(matches.Keys, target);
    WantedIffHit(a, bf.filters, target, row);
    var items := FilterBlock(a, bf, names, isLive).value.items;
    forall i | 0 <= i < |items|
      ensures ItemSent(a, bf.filters, items[i])
    {
      assert ItemOk(a, matches, items[i]);
      WantedIsNonEmpty(a, bf.filters, Sorted(bf.filters.Keys), items[i].fragmentId, items[i].row);
      forall id
        ensures id in items[i].filterIds <==> Hit(a, bf.filters, items[i].fragmentId, items[i].row, id)
      {
        HitMeans(a, bf.filters, items[i].fragmentId, items[i].row, id);
      }
    }
  }

  // ------------------------------------------------------------------ the header

  /** A filter is sent the header always, with data, or, by default, with data and of every new head. */
  ghost predicate HeaderDue(a: Access, bf: BlockFilter, isLive: bool) {
    || bf.headerFilter.Always?
    || Selects(a, bf.filters)
    || (bf.headerFilter.OnDataOrOnNewBlock? && isLive)
  }

  /** The header is sent exactly when it is due, and then it is the block's own. */
  lemma HeaderSentIff(a: Access, bf: BlockFilter, names: set<nat>, isLive: bool)
    requires FilterBlock(a, bf, names, isLive).Ok?
    ensures var header := FilterBlock(a, bf, names, isLive).value.header;
            && (header.Some? <==> HeaderDue(a, bf, isLive))
            && (header.Some? ==> Ok(header.value) == GetHeaderFragment(a))
  {
    hide Evaluable, Joinable, MatchedFragments, ItemsOfFragments, Wanted, Selects;
    MatchedIffSelects(a, bf.filters);
    assert AllMatches(a, bf.filters).Keys == MatchedFragments(a, bf.filters);
    assert AllMatches(a, bf.filters) == map[] <==> AllMatches(a, bf.filters).Keys == {};
  }

  /** A filter has something to send of a block exactly when the header is due: with every row goes the header. */
  lemma OutputIffDue(a: Access, bf: BlockFilter, names: set<nat>, isLive: bool)
    requires FilterBlock(a, bf, names, isLive).Ok?
    ensures FilterBlock(a, bf, names, isLive).value != Filtered(None, []) <==> HeaderDue(a, bf, isLive)
  {
    hide FilterBlock, Selects, Hit;
    HeaderSentIff(a, bf, names, isLive);
    var items := FilterBlock(a, bf, names, isLive).value.items;
    if items != [] {
      ItemsAreWanted(a, bf, names, isLive, items[0].fragmentId, items[0].row);
      assert ItemSent(a, bf.filters, items[0]);
      var id :| id in items[0].filterIds;
      HitMeans(a, bf.filters, items[0].fragmentId, items[0].row, id);
      HitIsMatched(a, bf.filters, items[0].fragmentId, items[0].row, id);
    }
  }

  // ------------------------------------------------------------------ errors

  /** A fragment whose rows are to be sent: some filter selects from it, or one that selects asks for it. */
  ghost predicate IsSentFrom(a: Access, filters: map<nat, seq<Filter>>, target: nat) {
    exists id, f :: id in filters && f in filters[id] && RowsIn(a, f) != {} && (id == target || target in f.joins)
  }

  lemma SentFromIffMatched(a: Access, filters: map<nat, seq<Filter>>, target: nat)
    ensures IsSentFrom(a, filters, target) <==> target in MatchedFragments(a, filters)
  {
    hide RowsIn, AskedFrom;
    if target in MatchedFragments(a, filters) { MatchedMeans(a, filters, target); }
    if IsSentFrom(a, filters, target) {
      var id, f :| id in filters && f in filters[id] && RowsIn(a, f) != {} && (id == target || target in f.joins);
      if id == target {
        var row :| row in RowsIn(a, f);
        assert row in Selected(a, filters[target]);
      } else {
        SortedHolds(filters.Keys, id);
        AskedFromHolds(a, filters, Sorted(filters.Keys), id, f, target);
      }
    }
  }

  /** Its name is known, its body is there and so is every row of it that is wanted. */
  ghost predicate BodyThere(a: Access, filters: map<nat, seq<Filter>>, names: set<nat>, target: nat) {
    && target in names && GetBodyFragment(a, target).Ok?
    && forall row: nat, id: nat :: Hit(a, filters, target, row, id) ==> row < |GetBodyFragment(a, target).value.data|
  }

  /** Every join that a filter with a selected row asks for is there. */
  ghost predicate CanJoin(a: Access, filters: map<nat, seq<Filter>>) {
    forall id, f, target :: id in filters && f in filters[id] && RowsIn(a, f) != {} && target in f.joins ==>
      GetJoinFragment(a, id).Ok? && FindTarget(GetJoinFragment(a, id).value.joins, target).Ok?
  }

  /** Filtering a block works exactly when everything it needs is there. */
  lemma FilterWorksIff(a: Access, bf: BlockFilter, names: set<nat>, isLive: bool)
    ensures FilterBlock(a, bf, names, isLive).Ok? <==>
            && (forall id :: id in bf.filters ==> GetIndexFragment(a, id).Ok?)
            && (forall id, f :: id in bf.filters && f in bf.filters[id] ==> Rows(f, GetIndexFragment(a, id).value).Ok?)
            && CanJoin(a, bf.filters)
            && (forall target :: IsSentFrom(a, bf.filters, target) ==> BodyThere(a, bf.filters, names, target))
            && (HeaderDue(a, bf, isLive) ==> GetHeaderFragment(a).Ok?)
  {
    hide MatchedFragments, ItemsOfFragments, Wanted, Selects, Rows, IsSentFrom, BodyThere, Joinable, CanJoin, Sorted;
    var filters := bf.filters;
    var matches := AllMatches(a, filters);
    MatchedIffSelects(a, filters);
    assert matches.Keys == MatchedFragments(a, filters) && (matches == map[] <==> matches.Keys == {});
    JoinableMeans(a, filters);
    assert ItemsOfFragments(a, names, matches, Sorted(matches.Keys)).Ok? <==>
           forall target :: IsSentFrom(a, filters, target) ==> BodyThere(a, filters, names, target) by {
      BodiesThere(a, filters, names);
    }
  }

  lemma BodiesThere(a: Access, filters: map<nat, seq<Filter>>, names: set<nat>)
    ensures var matches := AllMatches(a, filters);
            ItemsOfFragments(a, names, matches, Sorted(matches.Keys)).Ok? <==>
            forall target :: IsSentFrom(a, filters, target) ==> BodyThere(a, filters, names, target)
  {
    hide MatchedFragments, ItemsOfFragments, ItemsThere, BodyThere, IsSentFrom, Wanted, Sorted;
    var matches := AllMatches(a, filters);
    ItemsWorkIff(a, names, matches, Sorted(matches.Keys));
    forall target: nat
      ensures target in Sorted(matches.Keys) <==> IsSentFrom(a, filters, target)
      ensures IsSentFrom(a, filters, target) ==>
              (ItemsThere(a, names, matches, target) <==> BodyThere(a, filters, names, target))
    {
      SortedHolds(matches.Keys, target);
      SentFromIffMatched(a, filters, target);
      if target in matches { ThereIff(a, filters, names, target); }
    }
  }

  lemma JoinableMeans(a: Access, filters: map<nat, seq<Filter>>)
    ensures Joinable(a, filters) <==> CanJoin(a, filters)
  {
    hide RowsIn;
    if Joinable(a, filters) {
      forall id, f, target | id in filters && f in filters[id] && RowsIn(a, f) != {} && target in f.joins
        ensures HasJoin(a, id, target)
      {
        assert target in AskedBy(a, filters[id]);
      }
    }
  }

  ghost predicate ItemsThere(a: Access, names: set<nat>, matches: map<nat, FilterMatch>, target: nat) {
    && target in matches && target in names && GetBodyFragment(a, target).Ok?
    && forall row :: row in matches[target] ==> row < |GetBodyFragment(a, target).value.data|
  }

  lemma ThereIff(a: Access, filters: map<nat, seq<Filter>>, names: set<nat>, target: nat)
    requires target in MatchedFragments(a, filters)
    ensures ItemsThere(a, names, AllMatches(a, filters), target) <==> BodyThere(a, filters, names, target)
  {
    hide MatchedFragments, Wanted, Hit;
    var matches := AllMatches(a, filters);
    assert target in matches && matches[target] == Wanted(a, filters, target);
    if ItemsThere(a, names, matches, target) {
      forall row: nat, id: nat | Hit(a, filters, target, row, id)
        ensures row < |GetBodyFragment(a, target).value.data|
      {
        WantedIffHit(a, filters, target, row);
      }
    }
    if BodyThere(a, filters, names, target) {
      forall row | row in matches[target]
        ensures row < |GetBodyFragment(a, target).value.data|
      {
        WantedIffHit(a, filters, target, row);
      }
    }
  }

  lemma {:induction false} RowsWorkIff(id: nat, data: seq<Bytes>, m: FilterMatch, rows: seq<nat>)
    ensures ItemsOfRows(id, data, m, rows).Ok? <==> forall row :: row in rows ==> row < |data|
    decreases |rows|
  {
    if rows != [] {
      var init, last := rows[..|rows| - 1], rows[|rows| - 1];
      RowsWorkIff(id, data, m, init);
      assert rows == init + [last] && last in rows;
      assert forall row :: row in init ==> row in rows;
    }
  }

  lemma {:induction false} ItemsWorkIff(a: Access, names: set<nat>, matches: map<nat, FilterMatch>, ids: seq<nat>)
    ensures ItemsOfFragments(a, names, matches, ids).Ok? <==>
            forall id :: id in ids ==> ItemsThere(a, names, matches, id)
    decreases |ids|
  {
    hide ItemsOfRows, Sorted;
    if ids != [] {
      var init, id := ids[..|ids| - 1], ids[|ids| - 1];
      ItemsWorkIff(a, names, matches, init);
      assert ids == init + [id] && id in ids;
      assert forall i :: i in init ==> i in ids;
      if id in matches && GetBodyFragment(a, id).Ok? {
        RowsWorkIff(id, GetBodyFragment(a, id).value.data, matches[id], Sorted(matches[id].Keys));
        forall row
          ensures row in Sorted(matches[id].Keys) <==> row in matches[id]
        {
          SortedHolds(matches[id].Keys, row);
        }
      }
    }
  }
}
