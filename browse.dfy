/**
 * The browse panel (src/components/BrowsePanel.tsx): places grouped by country, the sorted and
 * filtered country list, cities ordered by size, and the panel's own state.
 */
module Browse {
  import opened Wrappers
  import opened Types
  import Seqs
  import Text
  import Store

  // ---------------------------------------------------------------------------------------------
  // Grouping by country

  /** The dictionary `groupByCountry` builds: each place pushed onto the group of its country. */
  function Groups(places: seq<Place>): (g: map<string, seq<Place>>)
  {
    if |places| == 0 then map[]
    else
      var g := Groups(places[..|places| - 1]);
      var p := places[|places| - 1];
      g[p.country := (if p.country in g then g[p.country] else []) + [p]]
  }

  /** The loop of `groupByCountry`. */
  method GroupByCountry(places: seq<Place>) returns (groups: map<string, seq<Place>>)
    ensures groups == Groups(places)
  {
    groups := map[];
    var i := 0;
    while i < |places|
      invariant 0 <= i <= |places|
      invariant groups == Groups(places[..i])
    {
      var place := places[i];
      if place.country !in groups {
        groups := groups[place.country := []];
      }
      groups := groups[place.country := groups[place.country] + [place]];
      assert places[..i + 1][..i] == places[..i];
      i := i + 1;
    }
    assert places[..|places|] == places;
  }

  function FromCountry(country: string): Place -> bool
  {
    (p: Place) => p.country == country
  }

  /** The keys are exactly the countries that occur. */
  lemma {:induction false} GroupKeys(places: seq<Place>, country: string)
    ensures country in Groups(places) <==> exists i :: 0 <= i < |places| && places[i].country == country
    decreases |places|
  {
    if |places| > 0 {
      var init := places[..|places| - 1];
      GroupKeys(init, country);
      if country in Groups(init) {
        var i :| 0 <= i < |init| && init[i].country == country;
        assert places[i] == init[i];
      }
      if exists i :: 0 <= i < |init| && init[i].country == country {
      } else if country != places[|places| - 1].country {
        forall i | 0 <= i < |places| ensures places[i].country != country {
          if i < |init| {
            assert init[i] == places[i];
          }
        }
      }
    }
  }

  /**
   * The group of a country holds exactly that country's places, in input order (the places of
   * the input filtered by country).
   */
  lemma {:induction false} GroupIsFilter(places: seq<Place>, country: string)
    requires country in Groups(places)
    ensures Groups(places)[country] == Seqs.Filter(places, FromCountry(country))
    decreases |places|
  {
    var init := places[..|places| - 1];
    var p := places[|places| - 1];
    assert places == init + [p];
    Seqs.FilterSnoc(init, p, FromCountry(country));
    if country in Groups(init) {
      GroupIsFilter(init, country);
    } else {
      GroupKeys(init, country);
      NoneFromCountry(init, country);
    }
  }

  /** A country with no places has an empty filter. */
  lemma NoneFromCountry(s: seq<Place>, country: string)
    requires forall i :: 0 <= i < |s| ==> s[i].country != country
    ensures Seqs.Filter(s, FromCountry(country)) == []
  {
  }

  /** No group is empty. */
  lemma GroupsNonEmpty(places: seq<Place>, country: string)
    requires country in Groups(places)
    ensures |Groups(places)[country]| > 0
    ensures forall p :: p in Groups(places)[country] <==> p in places && p.country == country
  {
    GroupKeys(places, country);
    GroupIsFilter(places, country);
    Seqs.FilterMembers(places, FromCountry(country));
    var i :| 0 <= i < |places| && places[i].country == country;
    assert places[i] in Seqs.Filter(places, FromCountry(country));
  }

  /** The countries in order of first appearance (the order in which keys are inserted). */
  function KeyOrder(places: seq<Place>): (ks: seq<string>)
  {
    if |places| == 0 then []
    else
      var ks := KeyOrder(places[..|places| - 1]);
      var c := places[|places| - 1].country;
      if c in ks then ks else ks + [c]
  }

  predicate Distinct(s: seq<string>)
  {
    forall i, j :: 0 <= i < j < |s| ==> s[i] != s[j]
  }

  /** The inserted keys are distinct and are exactly the keys of the groups. */
  lemma {:induction false} KeyOrderIsKeys(places: seq<Place>)
    ensures Distinct(KeyOrder(places))
    ensures forall c :: c in KeyOrder(places) <==> c in Groups(places)
    decreases |places|
  {
    if |places| > 0 {
      KeyOrderIsKeys(places[..|places| - 1]);
    }
  }

  /** The total length of the groups named by `ks`. */
  function SumSizes(g: map<string, seq<Place>>, ks: seq<string>): nat
  {
    if |ks| == 0 then 0
    else SumSizes(g, ks[..|ks| - 1]) + (if ks[|ks| - 1] in g then |g[ks[|ks| - 1]]| else 0)
  }

  lemma {:induction false} SumSizesOutside(g: map<string, seq<Place>>, ks: seq<string>, c: string, v: seq<Place>)
    requires c !in ks
    ensures SumSizes(g[c := v], ks) == SumSizes(g, ks)
    decreases |ks|
  {
    if |ks| > 0 {
      SumSizesOutside(g, ks[..|ks| - 1], c, v);
    }
  }

  lemma {:induction false} SumSizesUpdate(g: map<string, seq<Place>>, ks: seq<string>, c: string, v: seq<Place>)
    requires Distinct(ks) && c in ks && c in g
    ensures SumSizes(g[c := v], ks) == SumSizes(g, ks) - |g[c]| + |v|
    decreases |ks|
  {
    var init := ks[..|ks| - 1];
    if ks[|ks| - 1] == c {
      assert c !in init;
      SumSizesOutside(g, init, c, v);
    } else {
      assert c in init;
      SumSizesUpdate(g, init, c, v);
    }
  }

  /** The group sizes (over the distinct countries) sum to the number of places. */
  lemma {:induction false} GroupSizesSum(places: seq<Place>)
    ensures SumSizes(Groups(places), KeyOrder(places)) == |places|
    decreases |places|
  {
    if |places| > 0 {
      var init := places[..|places| - 1];
      var p := places[|places| - 1];
      var g := Groups(init);
      var ks := KeyOrder(init);
      GroupSizesSum(init);
      KeyOrderIsKeys(init);
      var v := (if p.country in g then g[p.country] else []) + [p];
      if p.country in ks {
        SumSizesUpdate(g, ks, p.country, v);
      } else {
        SumSizesOutside(g, ks, p.country, v);
        assert (ks + [p.country])[..|ks|] == ks;
      }
    }
  }

  // ---------------------------------------------------------------------------------------------
  // The sorted country list

  /** The default `sort` order on strings: lexicographic by character. */
  predicate StrLe(a: string, b: string)
    decreases |a|
  {
    |a| == 0 || (|b| > 0 && (a[0] < b[0] || (a[0] == b[0] && StrLe(a[1..], b[1..]))))
  }

  lemma {:induction false} StrLeTotal(a: string, b: string)
    ensures StrLe(a, b) || StrLe(b, a)
    decreases |a|
  {
    if |a| > 0 && |b| > 0 && a[0] == b[0] {
      StrLeTotal(a[1..], b[1..]);
    }
  }

  lemma {:induction false} StrLeTransitive(a: string, b: string, c: string)
    requires StrLe(a, b) && StrLe(b, c)
    ensures StrLe(a, c)
    decreases |a|
  {
    if |a| > 0 && a[0] == b[0] && b[0] == c[0] {
      StrLeTransitive(a[1..], b[1..], c[1..]);
    }
  }

  lemma {:induction false} StrLeAntisymmetric(a: string, b: string)
    requires StrLe(a, b) && StrLe(b, a)
    ensures a == b
    decreases |a|
  {
    if |a| > 0 {
      StrLeAntisymmetric(a[1..], b[1..]);
      assert a == [a[0]] + a[1..] && b == [b[0]] + b[1..];
    }
  }

  predicate SortedStrings(s: seq<string>)
  {
    forall i :: 0 < i < |s| ==> StrLe(s[i - 1], s[i])
  }

  /** Inserts `x` into a sorted list. */
  function Insert(x: string, s: seq<string>): (r: seq<string>)
    requires SortedStrings(s)
    ensures SortedStrings(r) && multiset(r) == multiset(s) + multiset{x}
    ensures |r| > 0 && (r[0] == x || (|s| > 0 && r[0] == s[0]))
  {
    if |s| == 0 then [x]
    else if StrLe(x, s[0]) then [x] + s
    else
      StrLeTotal(x, s[0]);
      var t := Insert(x, s[1..]);
      assert s == [s[0]] + s[1..];
      [s[0]] + t
  }

  /** `sort()` — the strings in ascending order, a permutation of the input. */
  function SortStrings(s: seq<string>): (r: seq<string>)
    ensures SortedStrings(r) && multiset(r) == multiset(s)
  {
    if |s| == 0 then []
    else
      assert s == s[..|s| - 1] + [s[|s| - 1]];
      Insert(s[|s| - 1], SortStrings(s[..|s| - 1]))
  }

  /** Adjacent order gives order between any two positions. */
  lemma {:induction false} SortedPairwise(s: seq<string>, i: nat, j: nat)
    requires SortedStrings(s) && i <= j < |s|
    ensures StrLe(s[i], s[j])
    decreases j - i
  {
    if i == j {
      StrLeTotal(s[i], s[i]);
    } else {
      SortedPairwise(s, i, j - 1);
      StrLeTransitive(s[i], s[j - 1], s[j]);
    }
  }

  /** `Object.keys(groups).sort()`. */
  function Countries(places: seq<Place>): (cs: seq<string>)
    ensures SortedStrings(cs)
    ensures forall c :: c in cs <==> c in Groups(places)
    ensures Distinct(cs)
  {
    var cs := SortStrings(KeyOrder(places));
    KeyOrderIsKeys(places);
    assert forall c :: c in cs <==> c in multiset(cs);
    assert forall c :: c in KeyOrder(places) <==> c in multiset(KeyOrder(places));
    DistinctByCount(KeyOrder(places), cs);
    cs
  }

  lemma DistinctByCount(ks: seq<string>, cs: seq<string>)
    requires Distinct(ks) && multiset(cs) == multiset(ks)
    ensures Distinct(cs)
  {
    DistinctCounts(ks);
    forall i, j | 0 <= i < j < |cs| ensures cs[i] != cs[j] {
      if cs[i] == cs[j] {
        TwiceCounts(cs, i, j);
      }
    }
  }

  lemma {:induction false} DistinctCounts(ks: seq<string>)
    requires Distinct(ks)
    ensures forall c :: multiset(ks)[c] <= 1
    decreases |ks|
  {
    if |ks| > 0 {
      var init := ks[..|ks| - 1];
      DistinctCounts(init);
      assert ks == init + [ks[|ks| - 1]];
      assert ks[|ks| - 1] !in init;
    }
  }

  lemma TwiceCounts(cs: seq<string>, i: nat, j: nat)
    requires i < j < |cs| && cs[i] == cs[j]
    ensures multiset(cs)[cs[i]] >= 2
  {
    assert cs == cs[..j] + cs[j..];
    assert cs[i] in cs[..j];
    assert cs[j] in cs[j..];
  }

  // ---------------------------------------------------------------------------------------------
  // Filtering countries

  function QueryMatcher(query: string): string -> bool
  {
    (c: string) => Text.Contains(Text.Lower(c), Text.Lower(query))
  }

  /** An empty query keeps every country; otherwise those containing it, ignoring case. */
  function FilterCountries(countries: seq<string>, query: string): (r: seq<string>)
    ensures query == "" ==> r == countries
    ensures query != "" ==>
              forall c :: c in r <==> c in countries && Text.Contains(Text.Lower(c), Text.Lower(query))
  {
    if query == "" then countries
    else
      Seqs.FilterMembers(countries, QueryMatcher(query));
      Seqs.Filter(countries, QueryMatcher(query))
  }

  /** Filtering keeps the list's order, so the filtered list is still sorted. */
  lemma FilteredStaysSorted(countries: seq<string>, query: string)
    requires SortedStrings(countries)
    ensures SortedStrings(FilterCountries(countries, query))
  {
    if query != "" {
      FilterKeepsSorted(countries, QueryMatcher(query));
    }
  }

  lemma {:induction false} FilterKeepsSorted(s: seq<string>, p: string -> bool)
    requires SortedStrings(s)
    ensures SortedStrings(Seqs.Filter(s, p))
    decreases |s|
  {
    if |s| > 0 {
      var init := s[..|s| - 1];
      var x := s[|s| - 1];
      FilterKeepsSorted(init, p);
      var r := Seqs.Filter(init, p);
      Seqs.FilterMembers(init, p);
      if p(x) && |r| > 0 {
        var last := r[|r| - 1];
        assert last in r;
        var k :| 0 <= k < |init| && init[k] == last;
        SortedPairwise(s, k, |s| - 1);
      }
    }
  }

  // ---------------------------------------------------------------------------------------------
  // Cities of a country, largest first

  /** Sorted by size, largest first. */
  predicate LargestFirst(s: seq<Place>)
  {
    forall k, l :: 0 <= k < l < |s| ==> s[k].size >= s[l].size
  }

  /** `.sort((a, b) => b.size - a.size)`, in place: an insertion sort by swaps. */
  method SortBySize(a: array<Place>)
    modifies a
    ensures LargestFirst(a[..])
    ensures multiset(a[..]) == multiset(old(a[..]))
  {
    var i := 0;
    while i < a.Length
      invariant 0 <= i <= a.Length
      invariant forall k, l :: 0 <= k < l < i ==> a[k].size >= a[l].size
      invariant multiset(a[..]) == multiset(old(a[..]))
    {
      SiftUp(a, i);
      i := i + 1;
    }
  }

  /** Positions `0..i` are largest first once position `j` is set aside. */
  predicate SortedExcept(s: seq<Place>, i: nat, j: nat)
    requires i < |s|
  {
    forall k, l :: 0 <= k < l <= i && k != j && l != j ==> s[k].size >= s[l].size
  }

  /** The place at `j` is at least as large as every place after it up to `i`. */
  predicate DominatesAfter(s: seq<Place>, i: nat, j: nat)
    requires j <= i < |s|
  {
    forall l :: j < l <= i ==> s[j].size >= s[l].size
  }

  /** Swapping the moving place one position up keeps both facts, one position earlier. */
  lemma SwapKeeps(s: seq<Place>, i: nat, j: nat)
    requires 0 < j <= i < |s|
    requires SortedExcept(s, i, j) && DominatesAfter(s, i, j) && s[j - 1].size < s[j].size
    ensures SortedExcept(s[j - 1 := s[j]][j := s[j - 1]], i, j - 1)
    ensures DominatesAfter(s[j - 1 := s[j]][j := s[j - 1]], i, j - 1)
  {
  }

  /** Swapping two positions keeps the elements. */
  lemma SwapPermutes(s: seq<Place>, i: nat, j: nat)
    requires i < j < |s|
    ensures multiset(s[i := s[j]][j := s[i]]) == multiset(s)
  {
    var t := s[i := s[j]][j := s[i]];
    assert s == s[..i] + [s[i]] + s[i + 1..j] + [s[j]] + s[j + 1..];
    assert t == s[..i] + [s[j]] + s[i + 1..j] + [s[i]] + s[j + 1..];
  }

  /** Once the moving place meets a place at least as large, the whole prefix is sorted. */
  lemma SiftDone(s: seq<Place>, i: nat, j: nat)
    requires j <= i < |s|
    requires SortedExcept(s, i, j) && DominatesAfter(s, i, j)
    requires j == 0 || s[j - 1].size >= s[j].size
    ensures forall k, l :: 0 <= k < l <= i ==> s[k].size >= s[l].size
  {
    forall k, l | 0 <= k < l <= i ensures s[k].size >= s[l].size {
      if l == j && k < j - 1 {
        assert s[k].size >= s[j - 1].size;
      }
    }
  }

  /** Moves `a[i]` up past the smaller places before it, extending the sorted prefix by one. */
  method SiftUp(a: array<Place>, i: nat)
    requires i < a.Length
    requires forall k, l :: 0 <= k < l < i ==> a[k].size >= a[l].size
    modifies a
    ensures forall k, l :: 0 <= k < l <= i ==> a[k].size >= a[l].size
    ensures multiset(a[..]) == multiset(old(a[..]))
  {
    var j := i;
    while j > 0 && a[j - 1].size < a[j].size
      invariant 0 <= j <= i
      invariant SortedExcept(a[..], i, j) && DominatesAfter(a[..], i, j)
      invariant multiset(a[..]) == multiset(old(a[..]))
    {
      ghost var s := a[..];
      SwapKeeps(s, i, j);
      SwapPermutes(s, j - 1, j);
      a[j - 1], a[j] := a[j], a[j - 1];
      assert a[..] == s[j - 1 := s[j]][j := s[j - 1]];
      j := j - 1;
    }
    SiftDone(a[..], i, j);
  }

  // ---------------------------------------------------------------------------------------------
  // The panel

  class BrowsePanel {
    const store: Store.RadioStore
    var selectedCountry: Option<string>
    var searchQuery: string

    constructor (store: Store.RadioStore)
      ensures this.store == store && selectedCountry.None? && searchQuery == ""
    {
      this.store := store;
      selectedCountry := None;
      searchQuery := "";
    }

    /** Leaving the browse tab forgets the selected country and the query. */
    method OnActiveTabChanged()
      modifies this`selectedCountry, this`searchQuery
      ensures store.activeTab != Browse ==> selectedCountry.None? && searchQuery == ""
      ensures store.activeTab == Browse ==>
                selectedCountry == old(selectedCountry) && searchQuery == old(searchQuery)
    {
      if store.activeTab != Browse {
        selectedCountry := None;
        searchQuery := "";
      }
    }

    method SetSearchQuery(q: string)
      modifies this`searchQuery
      ensures searchQuery == q
    {
      searchQuery := q;
    }

    method SelectCountry(country: Option<string>)
      modifies this`selectedCountry
      ensures selectedCountry == country
    {
      selectedCountry := country;
    }

    /**
     * The country list shown: the group keys in insertion order (`KeyOrder`, which
     * `KeyOrderIsKeys` shows are exactly the keys of `Groups`), sorted, then filtered.
     */
    method ShownCountries() returns (shown: seq<string>)
      ensures shown == FilterCountries(Countries(store.places), searchQuery)
      ensures SortedStrings(shown)
    {
      var cs := SortStrings(KeyOrder(store.places));
      shown := if searchQuery == "" then cs else Seqs.Filter(cs, QueryMatcher(searchQuery));
      FilteredStaysSorted(cs, searchQuery);
    }

    /** The cities of the selected country, largest first. */
    method Cities(country: string) returns (cities: seq<Place>)
      requires country in Groups(store.places)
      ensures LargestFirst(cities)
      ensures multiset(cities) == multiset(Groups(store.places)[country])
      ensures forall p :: p in cities <==> p in store.places && p.country == country
    {
      var groups := GroupByCountry(store.places);
      var group := groups[country];
      var a := new Place[|group|](i requires 0 <= i < |group| => group[i]);
      assert a[..] == group;
      SortBySize(a);
      cities := a[..];
      GroupsNonEmpty(store.places, country);
      assert forall p :: p in cities <==> p in multiset(cities);
      assert forall p :: p in group <==> p in multiset(group);
    }

    /** Picking a city returns to explore and then shows the city with the sidebar open. */
    method SelectPlace(place: Place)
      modifies store`activeTab, store`searchOpen, store`sidebarOpen, store`popupPlace, store`popupScreen,
        store`globeTarget, store`selectedPlace
      ensures store.activeTab == Explore && !store.searchOpen && store.popupPlace.None? && store.popupScreen.None?
      ensures store.globeTarget == Some(TargetOf(place)) && store.selectedPlace == Some(place) && store.sidebarOpen
    {
      store.SetActiveTab(Explore);
      store.SetGlobeTarget(Some(LatLng(place.geo.1, place.geo.0)));
      store.SetSelectedPlace(Some(place));
      store.SetSidebarOpen(true);
    }
  }
}
