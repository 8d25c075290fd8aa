/** The store list of the dashboard: the urgency-tier and name filter, the
    display order, and the per-tier counts shown on the priority cards. */
module StoreListing {
  import opened StoreModel
  import TextRules

  /** The value of `filterUrgency`: `'all'` or one exact tier. */
  datatype Filter = All | Only(tier: Urgency)

  // ---------------------------------------------------------------------
  // Filter
  // ---------------------------------------------------------------------

  /** The filter callback: the tier must match unless the filter is `'all'`, and
      a non-empty search term must occur in the lower-cased store name. */
  predicate Keep(store: StoreIntel, filter: Filter, term: string) {
    && (filter.All? || store.urgency == filter.tier)
    && (term == "" || TextRules.Includes(TextRules.Lower(store.name), TextRules.Lower(term)))
  }

  /** `storeIntelligence.filter(...)`: a fresh list of the kept stores, in
      their original order. */
  function FilterStores(stores: seq<StoreIntel>, filter: Filter, term: string): seq<StoreIntel> {
    if stores == [] then []
    else (if Keep(stores[0], filter, term) then [stores[0]] else []) + FilterStores(stores[1..], filter, term)
  }

  /** The filtered list holds each kept store as often as the loaded list does,
      and no other store. */
  lemma {:induction false} FilterCounts(stores: seq<StoreIntel>, filter: Filter, term: string)
    ensures |FilterStores(stores, filter, term)| <= |stores|
    ensures forall x ::
      multiset(FilterStores(stores, filter, term))[x] == if Keep(x, filter, term) then multiset(stores)[x] else 0
  {
    if stores != [] {
      FilterCounts(stores[1..], filter, term);
      assert stores == [stores[0]] + stores[1..];
    }
  }

  /** A store survives the filter exactly when its tier matches (or the filter
      is `'all'`) and the search term is empty or occurs, ignoring case, in its name. */
  lemma KeepMeaning(store: StoreIntel, filter: Filter, term: string)
    ensures Keep(store, filter, term) <==>
      && (filter == All || store.urgency == filter.tier)
      && (term == "" || TextRules.Occurs(TextRules.Lower(store.name), TextRules.Lower(term)))
  {
    TextRules.IncludesIsOccurs(TextRules.Lower(store.name), TextRules.Lower(term));
  }

  /** The `searchTerm &&` guard changes nothing: every name includes the empty term. */
  lemma SearchGuardRedundant(store: StoreIntel, filter: Filter, term: string)
    ensures Keep(store, filter, term) <==>
      (filter.All? || store.urgency == filter.tier)
      && TextRules.Includes(TextRules.Lower(store.name), TextRules.Lower(term))
  {
    if term == "" {
      TextRules.IncludesEmpty(TextRules.Lower(store.name));
    }
  }

  /** Filtering distributes over concatenation, so it never reorders what it keeps. */
  lemma {:induction false} FilterAppend(a: seq<StoreIntel>, b: seq<StoreIntel>, filter: Filter, term: string)
    ensures FilterStores(a + b, filter, term) == FilterStores(a, filter, term) + FilterStores(b, filter, term)
  {
    if a == [] {
      assert a + b == b;
    } else {
      assert (a + b)[1..] == a[1..] + b;
      FilterAppend(a[1..], b, filter, term);
    }
  }

  /** With filter `'all'` and an empty search term every store is kept, in order. */
  lemma {:induction false} FilterAllKeepsEverything(stores: seq<StoreIntel>)
    ensures FilterStores(stores, All, "") == stores
  {
    if stores != [] {
      FilterAllKeepsEverything(stores[1..]);
      assert stores == [stores[0]] + stores[1..];
    }
  }

  // ---------------------------------------------------------------------
  // Display order
  // ---------------------------------------------------------------------

  /** The sort comparator: negative when `a` goes first. Lower tier rank first;
      within a tier, more days since the last order first. */
  function Compare(a: StoreIntel, b: StoreIntel): int {
    if Rank(a.urgency) != Rank(b.urgency) then Rank(a.urgency) - Rank(b.urgency)
    else b.daysSinceLastOrder - a.daysSinceLastOrder
  }

  /** The comparator is a total preorder: antisymmetric in sign and transitive. */
  lemma CompareFlip(a: StoreIntel, b: StoreIntel)
    ensures Compare(a, b) < 0 <==> Compare(b, a) > 0
    ensures Compare(a, b) == 0 <==> Compare(b, a) == 0
  {
  }

  lemma CompareTransitive(a: StoreIntel, b: StoreIntel, c: StoreIntel)
    requires Compare(a, b) <= 0 && Compare(b, c) <= 0
    ensures Compare(a, c) <= 0
  {
  }

  /** Every store is placed no later than the stores the comparator puts after it. */
  ghost predicate Sorted(s: seq<StoreIntel>) {
    forall i, j :: 0 <= i < j < |s| ==> Compare(s[i], s[j]) <= 0
  }

  /** Insert `x` before the first element that does not strictly precede it,
      so `x` lands ahead of every element the comparator calls equal. */
  function Insert(x: StoreIntel, sorted: seq<StoreIntel>): seq<StoreIntel> {
    if sorted == [] then [x]
    else if Compare(sorted[0], x) < 0 then [sorted[0]] + Insert(x, sorted[1..])
    else [x] + sorted
  }

  lemma {:induction false} InsertPermutes(x: StoreIntel, sorted: seq<StoreIntel>)
    ensures |Insert(x, sorted)| == |sorted| + 1
    ensures multiset(Insert(x, sorted)) == multiset(sorted) + multiset{x}
  {
    if sorted != [] && Compare(sorted[0], x) < 0 {
      InsertPermutes(x, sorted[1..]);
      assert sorted == [sorted[0]] + sorted[1..];
    }
  }

  /** `y` may stand before every element of `s`. */
  ghost predicate PrecedesAll(y: StoreIntel, s: seq<StoreIntel>) {
    forall j :: 0 <= j < |s| ==> Compare(y, s[j]) <= 0
  }

  lemma SortedCons(y: StoreIntel, s: seq<StoreIntel>)
    requires PrecedesAll(y, s) && Sorted(s)
    ensures Sorted([y] + s)
  {
    var r := [y] + s;
    forall i, j | 0 <= i < j < |r|
      ensures Compare(r[i], r[j]) <= 0
    {
      assert r[j] == s[j - 1];
      if i > 0 {
        assert r[i] == s[i - 1];
      }
    }
  }

  lemma PrecedesAllInsert(y: StoreIntel, x: StoreIntel, s: seq<StoreIntel>)
    requires PrecedesAll(y, s) && Compare(y, x) <= 0
    ensures PrecedesAll(y, Insert(x, s))
  {
    var r := Insert(x, s);
    InsertPermutes(x, s);
    forall j | 0 <= j < |r|
      ensures Compare(y, r[j]) <= 0
    {
      assert r[j] in multiset(r);
      if r[j] != x {
        assert r[j] in multiset(s);
        var k :| 0 <= k < |s| && s[k] == r[j];
      }
    }
  }

  lemma {:induction false} InsertSorted(x: StoreIntel, sorted: seq<StoreIntel>)
    requires Sorted(sorted)
    ensures Sorted(Insert(x, sorted))
  {
    if sorted == [] {
    } else if Compare(sorted[0], x) < 0 {
      var y, tail := sorted[0], sorted[1..];
      assert sorted == [y] + tail;
      assert Sorted(tail) && PrecedesAll(y, tail);
      InsertSorted(x, tail);
      PrecedesAllInsert(y, x, tail);
      SortedCons(y, Insert(x, tail));
    } else {
      CompareFlip(sorted[0], x);
      forall j | 0 <= j < |sorted|
        ensures Compare(x, sorted[j]) <= 0
      {
        if j > 0 {
          CompareTransitive(x, sorted[0], sorted[j]);
        }
      }
      SortedCons(x, sorted);
    }
  }

  /** The library sort with the comparator, as a stable insertion sort. */
  function SortStores(stores: seq<StoreIntel>): seq<StoreIntel> {
    if stores == [] then [] else Insert(stores[0], SortStores(stores[1..]))
  }

  /** The sorted list is a permutation of its input, in comparator order. */
  lemma {:induction false} SortStoresCorrect(stores: seq<StoreIntel>)
    ensures |SortStores(stores)| == |stores|
    ensures multiset(SortStores(stores)) == multiset(stores)
    ensures Sorted(SortStores(stores))
  {
    if stores != [] {
      var rest := SortStores(stores[1..]);
      SortStoresCorrect(stores[1..]);
      InsertSorted(stores[0], rest);
      InsertPermutes(stores[0], rest);
      assert stores == [stores[0]] + stores[1..];
    }
  }

  /** The stores with one comparator key (tier rank and days), in list order. */
  function WithKey(s: seq<StoreIntel>, rank: nat, days: int): seq<StoreIntel> {
    if s == [] then []
    else
      (if HasKey(s[0], rank, days) then [s[0]] else [])
      + WithKey(s[1..], rank, days)
  }

  predicate HasKey(x: StoreIntel, rank: nat, days: int) {
    Rank(x.urgency) == rank && x.daysSinceLastOrder == days
  }

  lemma {:induction false} InsertWithKey(x: StoreIntel, sorted: seq<StoreIntel>, rank: nat, days: int)
    ensures WithKey(Insert(x, sorted), rank, days) == WithKey([x], rank, days) + WithKey(sorted, rank, days)
  {
    if sorted == [] {
      assert Insert(x, sorted) == [x];
      assert WithKey(sorted, rank, days) == [];
    } else if Compare(sorted[0], x) < 0 {
      var y, tail := sorted[0], sorted[1..];
      var rest := Insert(x, tail);
      assert Insert(x, sorted) == [y] + rest;
      assert sorted == [y] + tail;
      InsertWithKey(x, tail, rank, days);
      WithKeyCons(y, rest, rank, days);
      WithKeyCons(y, tail, rank, days);
      var wx, wy, wt := WithKey([x], rank, days), WithKey([y], rank, days), WithKey(tail, rank, days);
      assert wx == [] || wy == [] by {
        WithKeySingle(x, rank, days);
        WithKeySingle(y, rank, days);
        assert HasKey(x, rank, days) ==> !HasKey(y, rank, days);
      }
      calc {
        WithKey(Insert(x, sorted), rank, days);
        wy + (wx + wt);
        { assert wy + (wx + wt) == (wy + wx) + wt; }
        (wy + wx) + wt;
        { assert wy + wx == wx + wy; }
        (wx + wy) + wt;
        wx + (wy + wt);
        wx + WithKey(sorted, rank, days);
      }
    } else {
      assert Insert(x, sorted) == [x] + sorted;
      WithKeyCons(x, sorted, rank, days);
    }
  }

  lemma WithKeyCons(y: StoreIntel, s: seq<StoreIntel>, rank: nat, days: int)
    ensures WithKey([y] + s, rank, days) == WithKey([y], rank, days) + WithKey(s, rank, days)
  {
    assert ([y] + s)[1..] == s;
    assert [y][1..] == [];
  }

  lemma WithKeySingle(y: StoreIntel, rank: nat, days: int)
    ensures WithKey([y], rank, days) == if HasKey(y, rank, days) then [y] else []
  {
    assert [y][1..] == [];
  }

  /** The sort is stable: stores the comparator calls equal keep their relative order. */
  lemma {:induction false} SortStable(stores: seq<StoreIntel>, rank: nat, days: int)
    ensures WithKey(SortStores(stores), rank, days) == WithKey(stores, rank, days)
  {
    if stores != [] {
      SortStable(stores[1..], rank, days);
      InsertWithKey(stores[0], SortStores(stores[1..]), rank, days);
    }
  }

  /** `filteredStores`: the filtered list, then sorted. */
  function Display(stores: seq<StoreIntel>, filter: Filter, term: string): seq<StoreIntel> {
    SortStores(FilterStores(stores, filter, term))
  }

  /** What the store list shows: exactly the kept stores, each as often as it
      was loaded, urgent before warning before good, and within a tier the
      longest-silent store first. */
  lemma DisplayedStores(stores: seq<StoreIntel>, filter: Filter, term: string)
    ensures var r := Display(stores, filter, term);
      && multiset(r) == multiset(FilterStores(stores, filter, term))
      && (forall x :: x in r <==> x in stores && Keep(x, filter, term))
      && (forall i, j :: 0 <= i < j < |r| ==> Rank(r[i].urgency) <= Rank(r[j].urgency))
      && (forall i, j :: 0 <= i < j < |r| && r[j].urgency == Urgent ==> r[i].urgency == Urgent)
      && (forall i, j :: 0 <= i < j < |r| && r[i].urgency == Good ==> r[j].urgency == Good)
      && (forall i, j :: 0 <= i < j < |r| && r[i].urgency == r[j].urgency ==>
            r[i].daysSinceLastOrder >= r[j].daysSinceLastOrder)
  {
    var f := FilterStores(stores, filter, term);
    var r := Display(stores, filter, term);
    FilterCounts(stores, filter, term);
    SortStoresCorrect(f);
    forall x
      ensures x in r <==> x in stores && Keep(x, filter, term)
    {
      assert x in r <==> x in multiset(r);
      assert x in f <==> x in multiset(f);
      assert x in stores <==> x in multiset(stores);
    }
    RankOrder();
    forall i, j | 0 <= i < j < |r|
      ensures Rank(r[i].urgency) <= Rank(r[j].urgency)
    {
      assert Compare(r[i], r[j]) <= 0;
    }
  }

  // ---------------------------------------------------------------------
  // Tier counts
  // ---------------------------------------------------------------------

  /** `storeIntelligence.filter(s => s.urgency === tier).length`. */
  function CountTier(stores: seq<StoreIntel>, tier: Urgency): nat {
    if stores == [] then 0
    else (if stores[0].urgency == tier then 1 else 0) + CountTier(stores[1..], tier)
  }

  /** The three card counts add up to the number of loaded stores. */
  lemma {:induction false} TierCountsSum(stores: seq<StoreIntel>)
    ensures CountTier(stores, Urgent) + CountTier(stores, Warning) + CountTier(stores, Good) == |stores|
  {
    if stores != [] {
      TierCountsSum(stores[1..]);
    }
  }

  /** A card's count is the length of the list shown when that tier is selected
      and the search box is empty. */
  lemma {:induction false} CountIsFilteredLength(stores: seq<StoreIntel>, tier: Urgency)
    ensures CountTier(stores, tier) == |FilterStores(stores, Only(tier), "")|
  {
    if stores != [] {
      CountIsFilteredLength(stores[1..], tier);
    }
  }
}
