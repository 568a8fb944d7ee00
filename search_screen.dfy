/**
 * The search screen: a free-text query plus four filter lists (cuisine,
 * price range, allergens to avoid, vegetarian options), applied to the
 * catalog one stage at a time; `handleFilterChange` toggles list entries (the
 * filter panel offers chips for the cuisine and price-range lists), and the
 * panel clears the lists and counts their entries.
 */
module SearchScreen {
  import opened Types
  import opened Text
  import opened Seqs
  import opened Catalog

  /** The filters the screen starts with when it is opened without any. */
  const EmptyFilters: SearchFilters := SearchFilters(Some([]), Some([]), Some([]), Some([]), Some(""))

  /** The filters passed by the navigating screen, or the empty ones. */
  function InitialFilters(routeFilters: Option<SearchFilters>): (f: SearchFilters)
    ensures routeFilters.Some? ==> f == routeFilters.value
    ensures routeFilters.None? ==> ActiveFilterCount(f) == 0 && f.searchQuery == Some("")
  {
    routeFilters.GetOr(EmptyFilters)
  }

  /** A filter list constrains the search only when it is present and non-empty. */
  predicate Active<T>(list: Option<seq<T>>) {
    list.Some? && |list.value| > 0
  }

  /** The lower-cased name, description or cuisine display name contains the lower-cased query. */
  predicate QueryHit(query: string, r: Restaurant) {
    Contains(ToLower(r.name), query) ||
    Contains(ToLower(r.description), query) ||
    Contains(ToLower(GetCuisineName(CuisineTag(r.cuisine))), query)
  }

  /** The query stage: an empty query passes everything, otherwise the query must hit. */
  predicate QueryStage(searchQuery: string, r: Restaurant) {
    searchQuery == "" || QueryHit(ToLower(searchQuery), r)
  }

  predicate CuisineStage(f: SearchFilters, r: Restaurant) {
    Active(f.cuisine) ==> r.cuisine in f.cuisine.value
  }

  predicate PriceStage(f: SearchFilters, r: Restaurant) {
    Active(f.priceRange) ==> r.priceRange in f.priceRange.value
  }

  /** `allergens.some(a => r.allergens.includes(a))`. */
  predicate DeclaresAny(allergens: seq<Allergen>, r: Restaurant) {
    exists a :: a in allergens && a in r.allergens
  }

  /** `options.some(o => r.vegetarianOptions.includes(o))`. */
  predicate OffersAny(options: seq<VegetarianOption>, r: Restaurant) {
    exists v :: v in options && v in r.vegetarianOptions
  }

  /** The allergen list excludes: a restaurant declaring any listed allergen is dropped. */
  predicate AllergenStage(f: SearchFilters, r: Restaurant) {
    Active(f.allergens) ==> !DeclaresAny(f.allergens.value, r)
  }

  /** The vegetarian list includes: a restaurant must offer at least one listed option. */
  predicate VegetarianStage(f: SearchFilters, r: Restaurant) {
    Active(f.vegetarianOptions) ==> OffersAny(f.vegetarianOptions.value, r)
  }

  predicate PassesFilters(f: SearchFilters, searchQuery: string, r: Restaurant) {
    QueryStage(searchQuery, r) && CuisineStage(f, r) && PriceStage(f, r) &&
    AllergenStage(f, r) && VegetarianStage(f, r)
  }

  /** The restaurants the screen lists: the catalog entries passing every stage, in catalog order. */
  function Filtered(catalog: seq<Restaurant>, f: SearchFilters, searchQuery: string): seq<Restaurant> {
    Filter(catalog, (r: Restaurant) => PassesFilters(f, searchQuery, r))
  }

  // The list after the first `n` stages of the pass holds the catalog entries passing those stages.
  ghost predicate UpTo(n: nat, f: SearchFilters, q: string, r: Restaurant) {
    (n >= 1 ==> QueryStage(q, r)) && (n >= 2 ==> CuisineStage(f, r)) && (n >= 3 ==> PriceStage(f, r)) &&
    (n >= 4 ==> AllergenStage(f, r)) && (n >= 5 ==> VegetarianStage(f, r))
  }

  ghost function After(n: nat, f: SearchFilters, q: string): Restaurant -> bool {
    (r: Restaurant) => UpTo(n, f, q, r)
  }

  /**
   * A restaurant is listed exactly when it is in the catalog and passes every
   * stage; the listing keeps catalog order.
   */
  lemma FilteredMembers(catalog: seq<Restaurant>, f: SearchFilters, searchQuery: string)
    ensures forall r :: r in Filtered(catalog, f, searchQuery) <==> r in catalog && PassesFilters(f, searchQuery, r)
    ensures IsSubsequence(Filtered(catalog, f, searchQuery), catalog)
  {
    var p := (r: Restaurant) => PassesFilters(f, searchQuery, r);
    forall r | r in catalog && p(r)
      ensures r in Filter(catalog, p)
    {
      assert multiset(Filter(catalog, p))[r] == multiset(catalog)[r] > 0;
    }
  }

  /**
   * One stage of the pass: when the stage is switched on it filters what the
   * earlier stages left, otherwise it keeps it; either way the list is the
   * catalog filtered by the earlier stages' condition and this stage's.
   */
  lemma NarrowStep<T>(s: seq<T>, before: T -> bool, after: T -> bool, stage: T -> bool, on: bool, cur: seq<T>)
    requires cur == Filter(s, before)
    requires forall i :: 0 <= i < |s| ==> after(s[i]) == (before(s[i]) && (on ==> stage(s[i])))
    ensures (if on then Filter(cur, stage) else cur) == Filter(s, after)
  {
    if on {
      FilterThen(s, before, stage, after);
    } else {
      FilterExt(s, before, after);
    }
  }

  lemma QueryStep(catalog: seq<Restaurant>, f: SearchFilters, q: string, byQuery: Restaurant -> bool)
    requires forall r :: byQuery(r) == QueryHit(ToLower(q), r)
    ensures (if q != "" then Filter(catalog, byQuery) else catalog) == Filter(catalog, After(1, f, q))
  {
    FilterAll(catalog, After(0, f, q));
    NarrowStep(catalog, After(0, f, q), After(1, f, q), byQuery, q != "", catalog);
  }

  lemma CuisineStep(catalog: seq<Restaurant>, f: SearchFilters, q: string, byCuisine: Restaurant -> bool, cur: seq<Restaurant>)
    requires cur == Filter(catalog, After(1, f, q))
    requires forall r :: byCuisine(r) == (f.cuisine.Some? && r.cuisine in f.cuisine.value)
    ensures (if Active(f.cuisine) then Filter(cur, byCuisine) else cur) == Filter(catalog, After(2, f, q))
  {
    NarrowStep(catalog, After(1, f, q), After(2, f, q), byCuisine, Active(f.cuisine), cur);
  }

  lemma PriceStep(catalog: seq<Restaurant>, f: SearchFilters, q: string, byPrice: Restaurant -> bool, cur: seq<Restaurant>)
    requires cur == Filter(catalog, After(2, f, q))
    requires forall r :: byPrice(r) == (f.priceRange.Some? && r.priceRange in f.priceRange.value)
    ensures (if Active(f.priceRange) then Filter(cur, byPrice) else cur) == Filter(catalog, After(3, f, q))
  {
    NarrowStep(catalog, After(2, f, q), After(3, f, q), byPrice, Active(f.priceRange), cur);
  }

  lemma AllergenStep(catalog: seq<Restaurant>, f: SearchFilters, q: string, byAllergens: Restaurant -> bool, cur: seq<Restaurant>)
    requires cur == Filter(catalog, After(3, f, q))
    requires forall r :: byAllergens(r) == (f.allergens.Some? && !DeclaresAny(f.allergens.value, r))
    ensures (if Active(f.allergens) then Filter(cur, byAllergens) else cur) == Filter(catalog, After(4, f, q))
  {
    NarrowStep(catalog, After(3, f, q), After(4, f, q), byAllergens, Active(f.allergens), cur);
  }

  lemma VegetarianStep(catalog: seq<Restaurant>, f: SearchFilters, q: string, byVegetarian: Restaurant -> bool, cur: seq<Restaurant>)
    requires cur == Filter(catalog, After(4, f, q))
    requires forall r :: byVegetarian(r) == (f.vegetarianOptions.Some? && OffersAny(f.vegetarianOptions.value, r))
    ensures (if Active(f.vegetarianOptions) then Filter(cur, byVegetarian) else cur) == Filtered(catalog, f, q)
  {
    NarrowStep(catalog, After(4, f, q), After(5, f, q), byVegetarian, Active(f.vegetarianOptions), cur);
    FilterExt(catalog, After(5, f, q), (r: Restaurant) => PassesFilters(f, q, r));
  }

  /**
   * The screen's filtering pass: each stage that is switched on narrows the
   * list left by the previous one; the result is exactly the catalog entries
   * that pass every stage, in catalog order and with their multiplicity.
   */
  method ApplyFilters(catalog: seq<Restaurant>, filters: SearchFilters, searchQuery: string)
    returns (filtered: seq<Restaurant>)
    ensures filtered == Filtered(catalog, filters, searchQuery)
  {
    ghost var before: seq<Restaurant>;
    filtered := catalog;

    var query := ToLower(searchQuery);
    var byQuery := (r: Restaurant) =>
      Contains(ToLower(r.name), query) ||
      Contains(ToLower(r.description), query) ||
      Contains(ToLower(GetCuisineName(CuisineTag(r.cuisine))), query);
    if searchQuery != "" {
      filtered := Filter(filtered, byQuery);
    }
    QueryStep(catalog, filters, searchQuery, byQuery);

    before := filtered;
    var byCuisine := (r: Restaurant) => filters.cuisine.Some? && r.cuisine in filters.cuisine.value;
    if Active(filters.cuisine) {
      filtered := Filter(filtered, byCuisine);
    }
    CuisineStep(catalog, filters, searchQuery, byCuisine, before);

    before := filtered;
    var byPrice := (r: Restaurant) => filters.priceRange.Some? && r.priceRange in filters.priceRange.value;
    if Active(filters.priceRange) {
      filtered := Filter(filtered, byPrice);
    }
    PriceStep(catalog, filters, searchQuery, byPrice, before);

    before := filtered;
    var byAllergens := (r: Restaurant) => filters.allergens.Some? && !DeclaresAny(filters.allergens.value, r);
    if Active(filters.allergens) {
      filtered := Filter(filtered, byAllergens);
    }
    AllergenStep(catalog, filters, searchQuery, byAllergens, before);

    before := filtered;
    var byVegetarian := (r: Restaurant) =>
      filters.vegetarianOptions.Some? && OffersAny(filters.vegetarianOptions.value, r);
    if Active(filters.vegetarianOptions) {
      filtered := Filter(filtered, byVegetarian);
    }
    VegetarianStep(catalog, filters, searchQuery, byVegetarian, before);
  }

  /** Running the filtering pass on its own output changes nothing. */
  lemma FilteredIdempotent(catalog: seq<Restaurant>, f: SearchFilters, searchQuery: string)
    ensures Filtered(Filtered(catalog, f, searchQuery), f, searchQuery) == Filtered(catalog, f, searchQuery)
  {
    FilterIdempotent(catalog, (r: Restaurant) => PassesFilters(f, searchQuery, r));
  }

  /** The query narrows what the filter panel alone selects, and nothing else. */
  lemma QueryNarrowsPanel(catalog: seq<Restaurant>, f: SearchFilters, searchQuery: string)
    ensures Filtered(catalog, f, searchQuery)
         == Filter(Filtered(catalog, f, ""), (r: Restaurant) => QueryStage(searchQuery, r))
  {
    FilterThen(catalog, (r: Restaurant) => PassesFilters(f, "", r),
      (r: Restaurant) => QueryStage(searchQuery, r),
      (r: Restaurant) => PassesFilters(f, searchQuery, r));
  }

  /** Number of selected entries over the four lists; an absent list counts as none. */
  function ActiveFilterCount(f: SearchFilters): (n: nat)
    ensures n == 0 <==> !Active(f.cuisine) && !Active(f.priceRange) && !Active(f.allergens) && !Active(f.vegetarianOptions)
  {
    |f.cuisine.GetOr([])| + |f.priceRange.GetOr([])| + |f.allergens.GetOr([])| + |f.vegetarianOptions.GetOr([])|
  }

  /** With no filter entry selected and no query, the screen lists the whole catalog. */
  lemma NoFiltersShowsAll(catalog: seq<Restaurant>, f: SearchFilters)
    requires ActiveFilterCount(f) == 0
    ensures Filtered(catalog, f, "") == catalog
  {
    FilterAll(catalog, (r: Restaurant) => PassesFilters(f, "", r));
  }

  /**
   * One `handleFilterChange` call, for each list key its type admits: which
   * list, and which entry. The filter panel renders chips for the cuisine and
   * price-range lists only.
   */
  datatype FilterChange =
    | CuisineChip(cuisine: Cuisine)
    | PriceRangeChip(priceRange: PriceRange)
    | AllergenChip(allergen: Allergen)
    | VegetarianChip(option: VegetarianOption)

  /**
   * Toggle one entry in one filter list: an absent list is treated as empty,
   * a present entry is removed (every occurrence), an absent one is appended.
   * The other lists and the query stay as they were.
   */
  function HandleFilterChange(prev: SearchFilters, change: FilterChange): (next: SearchFilters)
    ensures next.searchQuery == prev.searchQuery
    ensures change.CuisineChip? ==>
      next == prev.(cuisine := Some(Toggle(prev.cuisine.GetOr([]), change.cuisine)))
    ensures change.PriceRangeChip? ==>
      next == prev.(priceRange := Some(Toggle(prev.priceRange.GetOr([]), change.priceRange)))
    ensures change.AllergenChip? ==>
      next == prev.(allergens := Some(Toggle(prev.allergens.GetOr([]), change.allergen)))
    ensures change.VegetarianChip? ==>
      next == prev.(vegetarianOptions := Some(Toggle(prev.vegetarianOptions.GetOr([]), change.option)))
  {
    match change
    case CuisineChip(c) => prev.(cuisine := Some(Toggle(prev.cuisine.GetOr([]), c)))
    case PriceRangeChip(p) => prev.(priceRange := Some(Toggle(prev.priceRange.GetOr([]), p)))
    case AllergenChip(a) => prev.(allergens := Some(Toggle(prev.allergens.GetOr([]), a)))
    case VegetarianChip(v) => prev.(vegetarianOptions := Some(Toggle(prev.vegetarianOptions.GetOr([]), v)))
  }

  /** The entry a chip toggles is selected afterwards exactly when it was not selected before. */
  lemma FilterChangeFlipsSelection(prev: SearchFilters, c: Cuisine, p: PriceRange, a: Allergen, v: VegetarianOption)
    ensures var next := HandleFilterChange(prev, CuisineChip(c));
      c in next.cuisine.value <==> c !in prev.cuisine.GetOr([])
    ensures var next := HandleFilterChange(prev, PriceRangeChip(p));
      p in next.priceRange.value <==> p !in prev.priceRange.GetOr([])
    ensures var next := HandleFilterChange(prev, AllergenChip(a));
      a in next.allergens.value <==> a !in prev.allergens.GetOr([])
    ensures var next := HandleFilterChange(prev, VegetarianChip(v));
      v in next.vegetarianOptions.value <==> v !in prev.vegetarianOptions.GetOr([])
  {
  }

  /** The badge count goes up by one when an entry is added and down by its occurrences when removed. */
  lemma FilterChangeCount(prev: SearchFilters, change: FilterChange)
    ensures var n := ActiveFilterCount(prev);
      var m := ActiveFilterCount(HandleFilterChange(prev, change));
      match change
      case CuisineChip(c) =>
        m == if c in prev.cuisine.GetOr([]) then n - multiset(prev.cuisine.GetOr([]))[c] else n + 1
      case PriceRangeChip(p) =>
        m == if p in prev.priceRange.GetOr([]) then n - multiset(prev.priceRange.GetOr([]))[p] else n + 1
      case AllergenChip(a) =>
        m == if a in prev.allergens.GetOr([]) then n - multiset(prev.allergens.GetOr([]))[a] else n + 1
      case VegetarianChip(v) =>
        m == if v in prev.vegetarianOptions.GetOr([]) then n - multiset(prev.vegetarianOptions.GetOr([]))[v] else n + 1
  {
    match change
    case CuisineChip(c) => ToggleLength(prev.cuisine.GetOr([]), c);
    case PriceRangeChip(p) => ToggleLength(prev.priceRange.GetOr([]), p);
    case AllergenChip(a) => ToggleLength(prev.allergens.GetOr([]), a);
    case VegetarianChip(v) => ToggleLength(prev.vegetarianOptions.GetOr([]), v);
  }

  /**
   * Tapping the same chip twice on a list that lacked the entry restores the
   * filters; only the tapped list needs to be present, the others may be absent.
   */
  lemma FilterChangeTwice(prev: SearchFilters, change: FilterChange)
    requires match change
      case CuisineChip(c) => prev.cuisine.Some? && c !in prev.cuisine.value
      case PriceRangeChip(p) => prev.priceRange.Some? && p !in prev.priceRange.value
      case AllergenChip(a) => prev.allergens.Some? && a !in prev.allergens.value
      case VegetarianChip(v) => prev.vegetarianOptions.Some? && v !in prev.vegetarianOptions.value
    ensures HandleFilterChange(HandleFilterChange(prev, change), change) == prev
  {
    match change
    case CuisineChip(c) => ToggleTwiceAbsent(prev.cuisine.value, c);
    case PriceRangeChip(p) => ToggleTwiceAbsent(prev.priceRange.value, p);
    case AllergenChip(a) => ToggleTwiceAbsent(prev.allergens.value, a);
    case VegetarianChip(v) => ToggleTwiceAbsent(prev.vegetarianOptions.value, v);
  }

  /** The screen state the "clear" action resets: the filter lists and the query box. */
  datatype Criteria = Criteria(filters: SearchFilters, searchQuery: string)

  /** Clearing empties every list and the query. */
  function ClearFilters(): (c: Criteria)
    ensures ActiveFilterCount(c.filters) == 0
    ensures c.searchQuery == "" && c.filters.searchQuery == Some("")
  {
    Criteria(EmptyFilters, "")
  }

  /** After clearing, the screen lists the whole catalog again. */
  lemma ClearFiltersShowsAll(catalog: seq<Restaurant>)
    ensures Filtered(catalog, ClearFilters().filters, ClearFilters().searchQuery) == catalog
  {
    NoFiltersShowsAll(catalog, ClearFilters().filters);
  }
}
