/** The provider search: pages of twelve service providers fetched by
    rating, narrowed to those within reach of the user's location, sorted
    by distance, rating or name, and appended page after page while a full
    page keeps coming back. The distance between two points and the name
    collation are functions given by the caller; the database answer to
    each page request is an input. */
module SearchContainer {
  import opened Common
  import opened Toasts

  /** `RESULTS_PER_PAGE`. */
  const ResultsPerPage: nat := 12

  const LoadFailed: string := "Erro ao carregar resultados"

  /** The columns of a provider the search reads; a coordinate may be
      null. */
  datatype Provider = Provider(id: string, fullName: Option<string>, rating: real,
                               latitude: Option<real>, longitude: Option<real>)

  datatype Location = Location(latitude: real, longitude: real)

  datatype SortOption = ByDistance | ByRating | ByName

  datatype Filters = Filters(serviceType: string, minRating: real, maxDistance: real)

  /** The distance between a location and a point, as `calculateDistance`
      computes it. */
  type DistanceFn = (Location, real, real) -> real

  /** A number in JavaScript's truthiness: present and not zero. */
  predicate Truthy(x: Option<real>)
  {
    x.Some? && x.value != 0.0
  }

  predicate HasCoordinates(p: Provider)
  {
    Truthy(p.latitude) && Truthy(p.longitude)
  }

  /** Every provider of the list has coordinates. */
  predicate AllLocated(results: seq<Provider>)
  {
    forall i :: 0 <= i < |results| ==> HasCoordinates(results[i])
  }

  /** The comparator of `sortResults`, its sign deciding the order of `a`
      and `b`. `localeCompare` is modelled as the difference of the two
      names' places `rank` in the collation. */
  function Compare(sortBy: SortOption, location: Option<Location>, distance: DistanceFn,
                   rank: string -> real, a: Provider, b: Provider): (c: real)
  {
    match sortBy
    case ByDistance =>
      if location.None? || !HasCoordinates(a) || !HasCoordinates(b) then 0.0
      else distance(location.value, a.latitude.value, a.longitude.value) -
           distance(location.value, b.latitude.value, b.longitude.value)
    case ByRating => b.rating - a.rating
    case ByName => rank(OrEmpty(a.fullName)) - rank(OrEmpty(b.fullName))
  }

  /** Without a location, or when either provider lacks a (non-zero)
      coordinate, the distance comparator calls the pair equal; the rating
      comparator puts the higher rating first. */
  lemma ComparatorCases(location: Option<Location>, distance: DistanceFn, rank: string -> real,
                        a: Provider, b: Provider)
    ensures location.None? || !HasCoordinates(a) || !HasCoordinates(b) ==>
      Compare(ByDistance, location, distance, rank, a, b) == 0.0
    ensures Compare(ByRating, location, distance, rank, a, b) < 0.0 <==> a.rating > b.rating
    ensures Compare(ByRating, location, distance, rank, a, b) ==
      -Compare(ByRating, location, distance, rank, b, a)
  {
  }

  /** A provider at latitude 0 counts as having no coordinates. */
  lemma ZeroCoordinateMissing(id: string, name: Option<string>, rating: real, longitude: real)
    ensures !HasCoordinates(Provider(id, name, rating, Some(0.0), Some(longitude)))
  {
  }

  // ---------------------------------------------------------------------
  // Stable sorting by a key

  /** Inserts `x` before the first element whose key is not smaller, so
      that among equal keys the earlier element stays first. */
  function InsertBy(x: Provider, s: seq<Provider>, key: Provider -> real): (r: seq<Provider>)
    ensures multiset(r) == multiset(s) + multiset{x}
    ensures |r| == |s| + 1
  {
    if s == [] || key(x) <= key(s[0]) then [x] + s
    else
      var rest := InsertBy(x, s[1..], key);
      assert s == [s[0]] + s[1..];
      [s[0]] + rest
  }

  predicate SortedBy(s: seq<Provider>, key: Provider -> real)
  {
    forall i, j :: 0 <= i < j < |s| ==> key(s[i]) <= key(s[j])
  }

  lemma {:induction false} InsertBySorted(x: Provider, s: seq<Provider>, key: Provider -> real)
    requires SortedBy(s, key)
    ensures SortedBy(InsertBy(x, s, key), key)
    ensures InsertBy(x, s, key) != [] &&
      (InsertBy(x, s, key)[0] == x || (s != [] && InsertBy(x, s, key)[0] == s[0]))
  {
    if s == [] || key(x) <= key(s[0]) {
    } else {
      InsertBySorted(x, s[1..], key);
      var rest := InsertBy(x, s[1..], key);
      InsertByAbove(x, s[1..], key, key(s[0]));
      assert InsertBy(x, s, key) == [s[0]] + rest;
    }
  }

  /** Inserting keeps every key at or above a bound that `x` and all of `s`
      respect. */
  lemma {:induction false} InsertByAbove(x: Provider, s: seq<Provider>, key: Provider -> real, lo: real)
    requires lo <= key(x) && forall i :: 0 <= i < |s| ==> lo <= key(s[i])
    ensures forall j :: 0 <= j < |InsertBy(x, s, key)| ==> lo <= key(InsertBy(x, s, key)[j])
  {
    if s != [] && key(x) > key(s[0]) {
      InsertByAbove(x, s[1..], key, lo);
    }
  }

  /** `[...results].sort(compare)` for a comparator `key(a) - key(b)`:
      the stable insertion sort by `key`. */
  function SortBy(s: seq<Provider>, key: Provider -> real): (r: seq<Provider>)
    ensures multiset(r) == multiset(s)
    ensures |r| == |s|
  {
    if s == [] then []
    else
      assert s == [s[0]] + s[1..];
      InsertBy(s[0], SortBy(s[1..], key), key)
  }

  /** The sort orders by the key and keeps the providers. */
  lemma {:induction false} SortBySorted(s: seq<Provider>, key: Provider -> real)
    ensures SortedBy(SortBy(s, key), key)
    ensures multiset(SortBy(s, key)) == multiset(s)
  {
    if s != [] {
      SortBySorted(s[1..], key);
      InsertBySorted(s[0], SortBy(s[1..], key), key);
    }
  }

  /** Stability: when every key is equal the order is kept. */
  lemma {:induction false} SortByEqualKeys(s: seq<Provider>, key: Provider -> real)
    requires forall i :: 0 <= i < |s| ==> key(s[i]) == key(s[0])
    ensures SortBy(s, key) == s
  {
    if s != [] {
      if |s| > 1 {
        assert forall i :: 0 <= i < |s[1..]| ==> key(s[1..][i]) == key(s[1..][0]) by {
          forall i | 0 <= i < |s[1..]|
            ensures key(s[1..][i]) == key(s[1..][0])
          {
            assert key(s[i + 1]) == key(s[0]) && key(s[1]) == key(s[0]);
          }
        }
      }
      SortByEqualKeys(s[1..], key);
      assert s == [s[0]] + s[1..];
    }
  }

  function NegatedRating(): Provider -> real
  {
    (p: Provider) => -p.rating
  }

  function DistanceKey(location: Location, distance: DistanceFn): Provider -> real
  {
    (p: Provider) =>
      if HasCoordinates(p) then distance(location, p.latitude.value, p.longitude.value) else 0.0
  }

  function NameKey(rank: string -> real): Provider -> real
  {
    (p: Provider) => rank(OrEmpty(p.fullName))
  }

  function ConstantKey(): Provider -> real
  {
    (p: Provider) => 0.0
  }

  /** `sortResults`. By rating: highest first. By name: by the collation
      rank. By distance: nearest first when there is a location and every
      provider has coordinates; without a location every pair is equal
      and the order is kept. With a location and some provider lacking
      coordinates the comparator is not a consistent order (an unlocated
      provider ties with everyone, while located ones are ordered by
      distance), so the order the engine's sort returns depends on its
      algorithm; the model keeps the input order there, and what it
      promises in that case is only that the result is a permutation. */
  function SortResults(results: seq<Provider>, sortBy: SortOption, location: Option<Location>, distance: DistanceFn,
                       rank: string -> real): (r: seq<Provider>)
    ensures multiset(r) == multiset(results)
  {
    match sortBy
    case ByRating => SortBy(results, NegatedRating())
    case ByName => SortBy(results, NameKey(rank))
    case ByDistance =>
      if location.Some? && AllLocated(results) then
        SortBy(results, DistanceKey(location.value, distance))
      else SortBy(results, ConstantKey())
  }

  /** The rating order: highest rating first. */
  lemma RatingSortDescending(results: seq<Provider>, location: Option<Location>, distance: DistanceFn,
                             rank: string -> real)
    ensures var r := SortResults(results, ByRating, location, distance, rank);
      forall i, j :: 0 <= i < j < |r| ==> r[i].rating >= r[j].rating
  {
    SortBySorted(results, NegatedRating());
  }

  /** The name order agrees with the comparator on every pair. */
  lemma NameSortCollated(results: seq<Provider>, location: Option<Location>, distance: DistanceFn, rank: string -> real)
    ensures var r := SortResults(results, ByName, location, distance, rank);
      forall i, j :: 0 <= i < j < |r| ==> Compare(ByName, location, distance, rank, r[i], r[j]) <= 0.0
  {
    SortBySorted(results, NameKey(rank));
  }

  /** With a location and coordinates for everyone, nearest first. */
  lemma DistanceSortNearestFirst(results: seq<Provider>, location: Location, distance: DistanceFn, rank: string -> real)
    requires AllLocated(results)
    ensures var r := SortResults(results, ByDistance, Some(location), distance, rank);
      forall i, j :: 0 <= i < j < |r| ==> Compare(ByDistance, Some(location), distance, rank, r[i], r[j]) <= 0.0
  {
    var key := DistanceKey(location, distance);
    var r := SortBy(results, key);
    assert r == SortResults(results, ByDistance, Some(location), distance, rank);
    SortBySorted(results, key);
    forall i | 0 <= i < |r|
      ensures HasCoordinates(r[i])
    {
      SameElements(r, results, i);
    }
    forall i, j | 0 <= i < j < |r|
      ensures Compare(ByDistance, Some(location), distance, rank, r[i], r[j]) <= 0.0
    {
      assert key(r[i]) <= key(r[j]);
    }
  }

  /** An element of a permutation is an element of the original. */
  lemma SameElements(r: seq<Provider>, s: seq<Provider>, i: nat)
    requires multiset(r) == multiset(s) && i < |r|
    ensures exists k :: 0 <= k < |s| && s[k] == r[i]
  {
    assert r[i] in multiset(r);
    assert r[i] in s;
  }

  /** Without a location every pair compares equal and the order is kept. */
  lemma DistanceSortWithoutLocation(results: seq<Provider>, distance: DistanceFn, rank: string -> real)
    ensures SortResults(results, ByDistance, None, distance, rank) == results
  {
    SortByEqualKeys(results, ConstantKey());
  }

  // ---------------------------------------------------------------------
  // The distance filter

  /** A provider kept by the distance filter: with (non-zero) coordinates
      and no farther than `maxDistance`. */
  function WithinReach(location: Location, maxDistance: real, distance: DistanceFn): Provider -> bool
  {
    (p: Provider) =>
      HasCoordinates(p) && distance(location, p.latitude.value, p.longitude.value) <= maxDistance
  }

  /** The rows of a page that are kept: all of them without a location or
      a positive `maxDistance`, else those within reach. */
  function InReach(rows: seq<Provider>, location: Option<Location>, maxDistance: real, distance: DistanceFn)
    : (kept: seq<Provider>)
    ensures |kept| <= |rows|
    ensures location.None? || maxDistance <= 0.0 ==> kept == rows
    ensures location.Some? && maxDistance > 0.0 ==> kept == Filter(rows, WithinReach(location.value, maxDistance, distance))
  {
    if location.Some? && maxDistance > 0.0 then Filter(rows, WithinReach(location.value, maxDistance, distance))
    else rows
  }

  /** A row the filter drops makes the kept batch shorter than the page. */
  lemma {:induction false} DroppedRowShortens(rows: seq<Provider>, f: Provider -> bool, i: nat)
    requires i < |rows| && !f(rows[i])
    ensures |Filter(rows, f)| < |rows|
  {
    if i > 0 {
      assert rows[1..][i - 1] == rows[i];
      DroppedRowShortens(rows[1..], f, i - 1);
    }
  }

  /** The rows of an answer (none for null) that pass the distance
      filter. */
  function Kept(rows: Option<seq<Provider>>, location: Option<Location>, maxDistance: real, distance: DistanceFn)
    : (kept: seq<Provider>)
    ensures rows.None? ==> kept == []
    ensures rows.Some? ==> kept == InReach(rows.value, location, maxDistance, distance)
  {
    if rows.Some? then InReach(rows.value, location, maxDistance, distance) else []
  }

  /** With a location and a positive reach, every kept row has
      coordinates, so the distance sort of a batch is nearest first; and a
      full page with one provider lacking coordinates, or out of reach,
      keeps fewer than twelve rows, which ends the paging. */
  lemma KeptBatch(rows: seq<Provider>, location: Location, maxDistance: real, distance: DistanceFn,
                  rank: string -> real)
    requires maxDistance > 0.0
    ensures var kept := Kept(Some(rows), Some(location), maxDistance, distance);
      var r := SortResults(kept, ByDistance, Some(location), distance, rank);
      && AllLocated(kept)
      && (forall i, j :: 0 <= i < j < |r| ==> Compare(ByDistance, Some(location), distance, rank, r[i], r[j]) <= 0.0)
    ensures |rows| == ResultsPerPage && (exists i :: 0 <= i < |rows| && !WithinReach(location, maxDistance, distance)(rows[i])) ==>
      |Kept(Some(rows), Some(location), maxDistance, distance)| < ResultsPerPage
  {
    var kept := Kept(Some(rows), Some(location), maxDistance, distance);
    DistanceSortNearestFirst(kept, location, distance, rank);
    if |rows| == ResultsPerPage && exists i :: 0 <= i < |rows| && !WithinReach(location, maxDistance, distance)(rows[i]) {
      var i :| 0 <= i < |rows| && !WithinReach(location, maxDistance, distance)(rows[i]);
      DroppedRowShortens(rows, WithinReach(location, maxDistance, distance), i);
    }
  }

  /** The result list after a page: a new search shows the kept rows
      sorted; a continued one appends them (sorted) to the current list and
      re-sorts the whole. Paging never loses or invents a result: the list
      is a permutation of the kept rows, plus the current ones when
      continuing. */
  function Merged(current: seq<Provider>, kept: seq<Provider>, isNewSearch: bool, sortBy: SortOption,
                  location: Option<Location>, distance: DistanceFn, rank: string -> real): (r: seq<Provider>)
    ensures isNewSearch ==> multiset(r) == multiset(kept)
    ensures !isNewSearch ==> multiset(r) == multiset(current) + multiset(kept)
  {
    var sorted := SortResults(kept, sortBy, location, distance, rank);
    if isNewSearch then sorted else SortResults(current + sorted, sortBy, location, distance, rank)
  }

  // ---------------------------------------------------------------------
  // The search state

  /** The page the database is asked for: the providers whose name
      contains the query (when there is one), of the service type (when
      one is chosen) and rated at least `minRating` (when positive), by
      rating, rows `from` to `to`. */
  datatype PageRequest = PageRequest(nameLike: Option<string>, serviceType: Option<string>, minRating: Option<real>,
                                     from: nat, to: nat)

  /** The request `loadResults` builds. */
  function Request(searchQuery: string, filters: Filters, isNewSearch: bool, page: nat): (q: PageRequest)
    ensures q.from == (if isNewSearch then 0 else page * ResultsPerPage)
    ensures q.to == q.from + ResultsPerPage - 1 && q.to - q.from + 1 == 12
    ensures q.nameLike.Some? <==> searchQuery != ""
    ensures q.nameLike.Some? ==> q.nameLike.value == "%" + searchQuery + "%"
    ensures q.serviceType.Some? <==> filters.serviceType != ""
    ensures q.serviceType.Some? ==> q.serviceType.value == filters.serviceType
    ensures q.minRating.Some? <==> filters.minRating > 0.0
    ensures q.minRating.Some? ==> q.minRating.value == filters.minRating
  {
    var from := if isNewSearch then 0 else page * ResultsPerPage;
    PageRequest(if searchQuery != "" then Some("%" + searchQuery + "%") else None,
                if filters.serviceType != "" then Some(filters.serviceType) else None,
                if filters.minRating > 0.0 then Some(filters.minRating) else None,
                from, from + ResultsPerPage - 1)
  }

  /** The first page is rows 0..11 and the third rows 24..35. */
  lemma RequestRanges(filters: Filters)
    ensures Request("", filters, true, 5).from == 0 && Request("", filters, true, 5).to == 11
    ensures Request("", filters, false, 2).from == 24 && Request("", filters, false, 2).to == 35
  {
  }

  class Search {
    var searchResults: seq<Provider>
    var selectedProvider: Option<Provider>
    var filters: Filters
    var sortBy: SortOption
    var loading: bool
    var hasMore: bool
    var page: nat
    var location: Option<Location>
    var toasts: seq<Toast>
    /** The page requests sent, in order. */
    var requests: seq<PageRequest>

    /** No results, the default filters (any type, any rating, 25 km),
        sorted by distance, more to load, page 0. */
    constructor ()
      ensures searchResults == [] && selectedProvider == None
      ensures filters == Filters("", 0.0, 25.0) && sortBy == ByDistance
      ensures !loading && hasMore && page == 0 && location == None
      ensures toasts == [] && requests == []
    {
      searchResults := [];
      selectedProvider := None;
      filters := Filters("", 0.0, 25.0);
      sortBy := ByDistance;
      loading := false;
      hasMore := true;
      page := 0;
      location := None;
      toasts := [];
      requests := [];
    }

    /** `loadResults(searchQuery, isNewSearch)`: `response` is what the
        database answers to the page request (rows, null, or an error).
        Nothing happens while a load is running or, for a continuation,
        once there is nothing more. Otherwise the page is requested; the
        kept rows are sorted and replace the results (new search, page 1)
        or are appended and the whole list re-sorted (next page); there is
        more exactly when twelve rows were kept. An error only adds its
        toast. The load ends with `loading` false. */
    method LoadResults(searchQuery: string, isNewSearch: bool, response: Result<Option<seq<Provider>>>,
                       distance: DistanceFn, rank: string -> real)
      modifies this
      ensures old(loading) || (!old(hasMore) && !isNewSearch) ==>
        searchResults == old(searchResults) && page == old(page) && hasMore == old(hasMore) &&
        loading == old(loading) && toasts == old(toasts) && requests == old(requests)
      ensures !(old(loading) || (!old(hasMore) && !isNewSearch)) ==>
        && !loading
        && requests == old(requests) + [Request(searchQuery, filters, isNewSearch, old(page))]
        && (response.Err? ==>
              searchResults == old(searchResults) && page == old(page) && hasMore == old(hasMore) &&
              toasts == old(toasts) + [Toast(ToastKind.Error, LoadFailed)])
        && (response.Ok? ==>
              var kept := Kept(response.value, location, filters.maxDistance, distance);
              && toasts == old(toasts)
              && searchResults == Merged(old(searchResults), kept, isNewSearch, sortBy, location, distance, rank)
              && (hasMore <==> |kept| == ResultsPerPage)
              && page == (if isNewSearch then 1 else old(page) + 1))
      ensures filters == old(filters) && sortBy == old(sortBy) && location == old(location)
      ensures selectedProvider == old(selectedProvider)
    {
      if loading || (!hasMore && !isNewSearch) {
        return;
      }
      loading := true;
      requests := requests + [Request(searchQuery, filters, isNewSearch, page)];
      if response.Err? {
        toasts := toasts + [Toast(ToastKind.Error, LoadFailed)];
      } else {
        var kept := Kept(response.value, location, filters.maxDistance, distance);
        ApplyPage(isNewSearch, kept, distance, rank);
      }
      loading := false;
    }

    /** The successful half of `loadResults`: the kept rows of one page,
        sorted, replace the results or are appended to them and the whole
        list re-sorted; there is more exactly when the page was full. */
    method ApplyPage(isNewSearch: bool, kept: seq<Provider>, distance: DistanceFn, rank: string -> real)
      modifies this
      ensures searchResults == Merged(old(searchResults), kept, isNewSearch, old(sortBy), old(location), distance, rank)
      ensures page == (if isNewSearch then 1 else old(page) + 1)
      ensures hasMore <==> |kept| == ResultsPerPage
      ensures loading == old(loading) && toasts == old(toasts) && requests == old(requests)
      ensures filters == old(filters) && sortBy == old(sortBy) && location == old(location)
      ensures selectedProvider == old(selectedProvider)
    {
      var results := Merged(searchResults, kept, isNewSearch, sortBy, location, distance, rank);
      searchResults, page, hasMore := results, if isNewSearch then 1 else page + 1, |kept| == ResultsPerPage;
    }

    /** The effect on `sortBy` changes: a non-empty list is re-sorted in
        the new order. */
    method SetSortBy(option: SortOption, distance: DistanceFn, rank: string -> real)
      modifies this
      ensures sortBy == option
      ensures old(searchResults) == [] ==> searchResults == []
      ensures old(searchResults) != [] ==> searchResults == SortResults(old(searchResults), option, location, distance, rank)
      ensures page == old(page) && hasMore == old(hasMore) && loading == old(loading) && toasts == old(toasts)
      ensures filters == old(filters) && location == old(location) && requests == old(requests)
    {
      sortBy := option;
      if searchResults != [] {
        searchResults := SortResults(searchResults, sortBy, location, distance, rank);
      }
    }

    /** `handleProviderSelect`. */
    method SelectProvider(provider: Provider)
      modifies this
      ensures selectedProvider == Some(provider)
      ensures searchResults == old(searchResults) && page == old(page) && hasMore == old(hasMore)
      ensures loading == old(loading) && toasts == old(toasts) && requests == old(requests)
    {
      selectedProvider := Some(provider);
    }
  }
}
