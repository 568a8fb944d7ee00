/**
 * The restaurant catalog and the queries over it: keyword search, the
 * per-cuisine statistics, lookup by id, the rating and price filters, the
 * label tables, and the construction of a new record.
 *
 * The query functions take the catalog as a parameter; `RestaurantStore`
 * is the single shared list the program appends to.
 */
module Catalog {
  import opened Types
  import opened Text
  import opened Seqs

  // ---------------------------------------------------------------------
  // Label tables
  // ---------------------------------------------------------------------

  const PriceRangeTexts: map<string, string> := map[
    "0-250" := "NT$ 250 以下",
    "250-500" := "NT$ 250 - 500",
    "500-1000" := "NT$ 500 - 1000",
    "1000+" := "NT$ 1000 以上"]

  const CuisineNames: map<string, string> := map[
    "japanese" := "日式料理",
    "chinese" := "中式料理",
    "american" := "美式料理",
    "french" := "法式料理",
    "dessert" := "甜點咖啡",
    "healthy" := "健康輕食",
    "brunch" := "早午餐",
    "korean" := "韓式料理",
    "italian" := "義式料理",
    "thai" := "泰式料理",
    "vietnamese" := "越式料理",
    "indian" := "印度料理"]

  const CuisineEmojis: map<string, string> := map[
    "japanese" := "🍣",
    "chinese" := "🍜",
    "american" := "🍔",
    "french" := "🥐",
    "dessert" := "🍰",
    "healthy" := "🥗",
    "brunch" := "🍳",
    "korean" := "🍲",
    "italian" := "🍕",
    "thai" := "🌶️",
    "vietnamese" := "🍲",
    "indian" := "🍛"]

  /** The glyph shown for a cuisine tag the emoji table does not know. */
  const FallbackEmoji: string := "🍽️"

  /** The keys of the cuisine tables are exactly the twelve cuisine tags. */
  lemma CuisineTableKeys(tag: string)
    ensures tag in CuisineNames <==> exists c :: tag == CuisineTag(c)
    ensures tag in CuisineEmojis <==> exists c :: tag == CuisineTag(c)
  {
    if tag in CuisineNames {
      assert CuisineOfTag(tag).Some?;
    }
  }

  /** The price-range label; an unknown tag is shown as itself. */
  function GetPriceRangeText(tag: string): (text: string)
    ensures forall p :: tag == PriceRangeTag(p) ==> text == PriceRangeTexts[tag] && text != "" && text != tag
    ensures (forall p :: tag != PriceRangeTag(p)) ==> text == tag
  {
    assert tag in PriceRangeTexts ==> exists p :: tag == PriceRangeTag(p) by {
      if tag in PriceRangeTexts {
        var p :| p in [Budget, Moderate, Upscale, Luxury] && PriceRangeTag(p) == tag;
      }
    }
    LookupOr(PriceRangeTexts, tag, tag)
  }

  /** The cuisine's display name; an unknown tag is shown as itself. */
  function GetCuisineName(tag: string): (name: string)
    ensures forall c :: tag == CuisineTag(c) ==> name == CuisineNames[tag] && name != "" && name != tag
    ensures (forall c :: tag != CuisineTag(c)) ==> name == tag
  {
    CuisineTableKeys(tag);
    LookupOr(CuisineNames, tag, tag)
  }

  /** The cuisine's emoji; an unknown tag gets the generic plate. */
  function GetCuisineEmoji(tag: string): (emoji: string)
    ensures forall c :: tag == CuisineTag(c) ==> emoji == CuisineEmojis[tag] && emoji != FallbackEmoji
    ensures (forall c :: tag != CuisineTag(c)) ==> emoji == FallbackEmoji
  {
    CuisineTableKeys(tag);
    LookupOr(CuisineEmojis, tag, FallbackEmoji)
  }

  /** The cuisine a display name belongs to; the left inverse of the name table. */
  ghost function CuisineOfName(name: string): Option<Cuisine> {
    if name == "日式料理" then Some(Japanese)
    else if name == "中式料理" then Some(Chinese)
    else if name == "美式料理" then Some(American)
    else if name == "法式料理" then Some(French)
    else if name == "甜點咖啡" then Some(Dessert)
    else if name == "健康輕食" then Some(Healthy)
    else if name == "早午餐" then Some(Brunch)
    else if name == "韓式料理" then Some(Korean)
    else if name == "義式料理" then Some(Italian)
    else if name == "泰式料理" then Some(Thai)
    else if name == "越式料理" then Some(Vietnamese)
    else if name == "印度料理" then Some(Indian)
    else None
  }

  lemma CuisineNameInverse(c: Cuisine)
    ensures CuisineOfName(GetCuisineName(CuisineTag(c))) == Some(c)
  {
    match c
    case Japanese | Chinese | American | French | Brunch | Dessert => NameInverseFirstSix(c);
    case Healthy | Korean | Italian | Thai | Vietnamese | Indian => NameInverseLastSix(c);
  }

  lemma NameInverseFirstSix(c: Cuisine)
    requires c.Japanese? || c.Chinese? || c.American? || c.French? || c.Brunch? || c.Dessert?
    ensures CuisineOfName(GetCuisineName(CuisineTag(c))) == Some(c)
  {
    match c
    case Japanese =>
    case Chinese =>
    case American =>
    case French =>
    case Brunch =>
    case Dessert =>
  }

  lemma NameInverseLastSix(c: Cuisine)
    requires c.Healthy? || c.Korean? || c.Italian? || c.Thai? || c.Vietnamese? || c.Indian?
    ensures CuisineOfName(GetCuisineName(CuisineTag(c))) == Some(c)
  {
    match c
    case Healthy =>
    case Korean =>
    case Italian =>
    case Thai =>
    case Vietnamese =>
    case Indian =>
  }

  /** No two cuisines share a display name. */
  lemma CuisineNamesDistinct(c: Cuisine, d: Cuisine)
    ensures GetCuisineName(CuisineTag(c)) == GetCuisineName(CuisineTag(d)) ==> c == d
  {
    CuisineNameInverse(c);
    CuisineNameInverse(d);
  }

  /** No two price ranges share a label. */
  lemma PriceRangeTextsDistinct(p: PriceRange, q: PriceRange)
    ensures GetPriceRangeText(PriceRangeTag(p)) == GetPriceRangeText(PriceRangeTag(q)) ==> p == q
  {
  }

  /** The cuisine an emoji stands for, Korean for the glyph Korean and Vietnamese share. */
  ghost function CuisineOfEmoji(emoji: string): Option<Cuisine> {
    if emoji == "🍣" then Some(Japanese)
    else if emoji == "🍜" then Some(Chinese)
    else if emoji == "🍔" then Some(American)
    else if emoji == "🥐" then Some(French)
    else if emoji == "🍰" then Some(Dessert)
    else if emoji == "🥗" then Some(Healthy)
    else if emoji == "🍳" then Some(Brunch)
    else if emoji == "🍲" then Some(Korean)
    else if emoji == "🍕" then Some(Italian)
    else if emoji == "🌶️" then Some(Thai)
    else if emoji == "🍛" then Some(Indian)
    else None
  }

  lemma CuisineEmojiInverse(c: Cuisine)
    ensures CuisineOfEmoji(GetCuisineEmoji(CuisineTag(c))) == Some(if c == Vietnamese then Korean else c)
  {
    match c
    case Japanese =>
    case Chinese =>
    case American =>
    case French =>
    case Brunch =>
    case Dessert =>
    case Healthy =>
    case Korean =>
    case Italian =>
    case Thai =>
    case Vietnamese =>
    case Indian =>
  }

  /**
   * The emoji table is not one-to-one: Korean and Vietnamese share a glyph,
   * and they are the only two cuisines that do.
   */
  lemma EmojiCollision(c: Cuisine, d: Cuisine)
    ensures GetCuisineEmoji(CuisineTag(Korean)) == GetCuisineEmoji(CuisineTag(Vietnamese))
    ensures GetCuisineEmoji(CuisineTag(c)) == GetCuisineEmoji(CuisineTag(d)) ==>
              c == d || {c, d} == {Korean, Vietnamese}
  {
    CuisineEmojiInverse(c);
    CuisineEmojiInverse(d);
  }

  // ---------------------------------------------------------------------
  // Keyword search
  // ---------------------------------------------------------------------

  /**
   * The keyword condition of the search: no query, or an empty one, matches
   * everything; otherwise the lower-cased query must occur in the lower-cased
   * name, description or address.
   */
  predicate MatchesQuery(r: Restaurant, query: Option<string>) {
    query.None? || query.value == ""
    || Contains(ToLower(r.name), ToLower(query.value))
    || Contains(ToLower(r.description), ToLower(query.value))
    || Contains(ToLower(r.address), ToLower(query.value))
  }

  predicate MatchesSearch(r: Restaurant, query: Option<string>, cuisine: Option<Cuisine>, priceRange: Option<PriceRange>) {
    && MatchesQuery(r, query)
    && (cuisine.None? || r.cuisine == cuisine.value)
    && (priceRange.None? || r.priceRange == priceRange.value)
  }

  /**
   * `searchRestaurants`: the catalog entries meeting all supplied criteria,
   * in catalog order; an absent criterion does not constrain.
   */
  function SearchRestaurants(catalog: seq<Restaurant>, query: Option<string>,
                             cuisine: Option<Cuisine>, priceRange: Option<PriceRange>): (result: seq<Restaurant>)
    ensures forall r :: r in result ==>
              && r in catalog
              && (cuisine.Some? ==> r.cuisine == cuisine.value)
              && (priceRange.Some? ==> r.priceRange == priceRange.value)
              && (query.Some? && query.value != "" ==>
                    || Contains(ToLower(r.name), ToLower(query.value))
                    || Contains(ToLower(r.description), ToLower(query.value))
                    || Contains(ToLower(r.address), ToLower(query.value)))
    ensures forall r :: r in catalog && MatchesSearch(r, query, cuisine, priceRange) ==>
              multiset(result)[r] == multiset(catalog)[r]
    ensures IsSubsequence(result, catalog)
  {
    Filter(catalog, r => MatchesSearch(r, query, cuisine, priceRange))
  }

  /** Without criteria (an empty query counts as none) the search returns the whole catalog in order. */
  lemma SearchWithoutCriteria(catalog: seq<Restaurant>, query: Option<string>)
    requires query.None? || query == Some("")
    ensures SearchRestaurants(catalog, query, None, None) == catalog
  {
    FilterAll(catalog, r => MatchesSearch(r, query, None, None));
  }

  /** The search result is exactly the filter of the catalog by the three conditions. */
  lemma SearchIsExactFilter(catalog: seq<Restaurant>, query: Option<string>,
                            cuisine: Option<Cuisine>, priceRange: Option<PriceRange>, r: seq<Restaurant>)
    requires forall x :: x in r ==> MatchesSearch(x, query, cuisine, priceRange)
    requires forall x :: MatchesSearch(x, query, cuisine, priceRange) ==> multiset(r)[x] == multiset(catalog)[x]
    requires IsSubsequence(r, catalog)
    ensures r == SearchRestaurants(catalog, query, cuisine, priceRange)
  {
    FilterUnique(catalog, x => MatchesSearch(x, query, cuisine, priceRange), r);
  }

  // ---------------------------------------------------------------------
  // Statistics
  // ---------------------------------------------------------------------

  datatype RestaurantStats = RestaurantStats(totalRestaurants: nat, cuisineStats: map<Cuisine, nat>)

  /** The number of restaurants in `s` with cuisine `c`. */
  function CountCuisine(s: seq<Restaurant>, c: Cuisine): nat {
    if s == [] then 0
    else CountCuisine(s[..|s| - 1], c) + (if s[|s| - 1].cuisine == c then 1 else 0)
  }

  /** A cuisine's count is zero exactly when no restaurant has that cuisine. */
  lemma {:induction false} CountCuisineZero(s: seq<Restaurant>, c: Cuisine)
    ensures CountCuisine(s, c) == 0 <==> forall r :: r in s ==> r.cuisine != c
  {
    if s != [] {
      var init := s[..|s| - 1];
      CountCuisineZero(init, c);
      assert s == init + [s[|s| - 1]];
      assert forall r :: r in s <==> r in init || r == s[|s| - 1];
    }
  }

  /** The sum of `counts` over the cuisines listed in `cs`. */
  function SumCounts(counts: map<Cuisine, nat>, cs: seq<Cuisine>): nat
    requires forall c :: c in cs ==> c in counts
  {
    if cs == [] then 0 else counts[cs[0]] + SumCounts(counts, cs[1..])
  }

  /** The sum of the per-cuisine counts of `s` over the cuisines listed in `cs`. */
  function SumOfCountCuisine(s: seq<Restaurant>, cs: seq<Cuisine>): nat {
    if cs == [] then 0 else CountCuisine(s, cs[0]) + SumOfCountCuisine(s, cs[1..])
  }

  lemma {:induction false} SumOfCountCuisineEmpty(cs: seq<Cuisine>)
    ensures SumOfCountCuisine([], cs) == 0
  {
    if cs != [] {
      SumOfCountCuisineEmpty(cs[1..]);
    }
  }

  lemma {:induction false} SumOfCountCuisineAppend(s: seq<Restaurant>, r: Restaurant, cs: seq<Cuisine>)
    requires forall i, j :: 0 <= i < j < |cs| ==> cs[i] != cs[j]
    ensures SumOfCountCuisine(s + [r], cs) == SumOfCountCuisine(s, cs) + (if r.cuisine in cs then 1 else 0)
  {
    if cs != [] {
      assert (s + [r])[..|s + [r]| - 1] == s;
      SumOfCountCuisineAppend(s, r, cs[1..]);
      assert r.cuisine == cs[0] ==> r.cuisine !in cs[1..];
      assert r.cuisine in cs <==> r.cuisine == cs[0] || r.cuisine in cs[1..];
    }
  }

  lemma AllCuisinesDistinct()
    ensures forall i, j :: 0 <= i < j < |AllCuisines| ==> AllCuisines[i] != AllCuisines[j]
  {
  }

  /** Every restaurant is counted under exactly one of the twelve cuisines. */
  lemma {:induction false} CountsSumToLength(s: seq<Restaurant>)
    ensures SumOfCountCuisine(s, AllCuisines) == |s|
  {
    if s == [] {
      SumOfCountCuisineEmpty(AllCuisines);
    } else {
      var init := s[..|s| - 1];
      CountsSumToLength(init);
      assert s == init + [s[|s| - 1]];
      AllCuisinesComplete(s[|s| - 1].cuisine);
      AllCuisinesDistinct();
      SumOfCountCuisineAppend(init, s[|s| - 1], AllCuisines);
    }
  }

  lemma {:induction false} SumCountsAgrees(counts: map<Cuisine, nat>, s: seq<Restaurant>, cs: seq<Cuisine>)
    requires forall c :: c in counts && counts[c] == CountCuisine(s, c)
    ensures SumCounts(counts, cs) == SumOfCountCuisine(s, cs)
  {
    if cs != [] {
      SumCountsAgrees(counts, s, cs[1..]);
    }
  }

  /**
   * `getRestaurantStats`: the catalog size and, for each of the twelve
   * cuisines, how many restaurants have it; the counts add up to the size.
   */
  method GetRestaurantStats(catalog: seq<Restaurant>) returns (stats: RestaurantStats)
    ensures stats.totalRestaurants == |catalog|
    ensures forall c :: c in stats.cuisineStats && stats.cuisineStats[c] == CountCuisine(catalog, c)
    ensures SumCounts(stats.cuisineStats, AllCuisines) == stats.totalRestaurants
  {
    var totalRestaurants := |catalog|;
    var cuisineStats: map<Cuisine, nat> := map[
      Japanese := 0, Chinese := 0, American := 0, French := 0, Brunch := 0, Dessert := 0,
      Healthy := 0, Korean := 0, Italian := 0, Thai := 0, Vietnamese := 0, Indian := 0];
    forall c: Cuisine
      ensures c in cuisineStats && cuisineStats[c] == 0
    {
      AllCuisinesComplete(c);
    }
    assert catalog[..0] == [];
    var i := 0;
    while i < |catalog|
      invariant 0 <= i <= |catalog|
      invariant forall c :: c in cuisineStats && cuisineStats[c] == CountCuisine(catalog[..i], c)
    {
      var c := catalog[i].cuisine;
      assert catalog[..i + 1][..i] == catalog[..i];
      cuisineStats := cuisineStats[c := cuisineStats[c] + 1];
      i := i + 1;
    }
    assert catalog[..|catalog|] == catalog;
    SumCountsAgrees(cuisineStats, catalog, AllCuisines);
    CountsSumToLength(catalog);
    stats := RestaurantStats(totalRestaurants, cuisineStats);
  }

  // ---------------------------------------------------------------------
  // Lookup and simple filters
  // ---------------------------------------------------------------------

  /**
   * `getRestaurantById`: the first restaurant with the given id, or `None`;
   * duplicate ids are not rejected, the earliest one wins.
   */
  function GetRestaurantById(catalog: seq<Restaurant>, id: string): (found: Option<Restaurant>)
    ensures found.None? <==> forall i :: 0 <= i < |catalog| ==> catalog[i].id != id
    ensures found.Some? ==> exists i :: 0 <= i < |catalog| && catalog[i] == found.value && found.value.id == id
                                      && forall j :: 0 <= j < i ==> catalog[j].id != id
  {
    if catalog == [] then None
    else if catalog[0].id == id then Some(catalog[0])
    else
      var rest := GetRestaurantById(catalog[1..], id);
      assert rest.Some? ==> exists i :: 1 <= i < |catalog| && catalog[i] == rest.value
                                        && forall j :: 0 <= j < i ==> catalog[j].id != id by {
        if rest.Some? {
          var k :| 0 <= k < |catalog| - 1 && catalog[1..][k] == rest.value && rest.value.id == id
                   && forall j :: 0 <= j < k ==> catalog[1..][j].id != id;
          assert forall j :: 0 <= j < k + 1 ==> catalog[j].id != id by {
            forall j | 0 <= j < k + 1
              ensures catalog[j].id != id
            {
              if j > 0 {
                assert catalog[j] == catalog[1..][j - 1];
              }
            }
          }
        }
      }
      rest
  }

  /** With unique ids, looking up the id of any entry finds that entry. */
  lemma GetRestaurantByIdOfEntry(catalog: seq<Restaurant>, i: nat)
    requires i < |catalog|
    requires forall j, k :: 0 <= j < k < |catalog| ==> catalog[j].id != catalog[k].id
    ensures GetRestaurantById(catalog, catalog[i].id) == Some(catalog[i])
  {
    var found := GetRestaurantById(catalog, catalog[i].id);
    var k :| 0 <= k < |catalog| && catalog[k] == found.value && found.value.id == catalog[i].id
             && forall j :: 0 <= j < k ==> catalog[j].id != catalog[i].id;
    assert k == i;
  }

  const DefaultMinRating: real := 4.0

  /** `getTopRatedRestaurants`: the restaurants rated at least the threshold (4.0 when omitted), in order. */
  function GetTopRatedRestaurants(catalog: seq<Restaurant>, minRating: Option<real>): (result: seq<Restaurant>)
    ensures forall r :: r in result ==> r in catalog && r.rating >= minRating.GetOr(DefaultMinRating)
    ensures forall r :: r in catalog && r.rating >= minRating.GetOr(DefaultMinRating) ==>
              multiset(result)[r] == multiset(catalog)[r]
    ensures IsSubsequence(result, catalog)
  {
    var threshold := minRating.GetOr(DefaultMinRating);
    Filter(catalog, (r: Restaurant) => r.rating >= threshold)
  }

  /** `getRestaurantsByPriceRange`: the restaurants with exactly that price range, in order. */
  function GetRestaurantsByPriceRange(catalog: seq<Restaurant>, priceRange: PriceRange): (result: seq<Restaurant>)
    ensures forall r :: r in result ==> r in catalog && r.priceRange == priceRange
    ensures forall r :: r in catalog && r.priceRange == priceRange ==> multiset(result)[r] == multiset(catalog)[r]
    ensures IsSubsequence(result, catalog)
  {
    Filter(catalog, (r: Restaurant) => r.priceRange == priceRange)
  }

  /** A lower threshold never drops a restaurant a higher one keeps. */
  lemma TopRatedMonotone(catalog: seq<Restaurant>, low: real, high: real)
    requires low <= high
    ensures Filter(GetTopRatedRestaurants(catalog, Some(low)), (r: Restaurant) => r.rating >= high)
            == GetTopRatedRestaurants(catalog, Some(high))
  {
    FilterThen(catalog, (r: Restaurant) => r.rating >= low, (r: Restaurant) => r.rating >= high, (r: Restaurant) => r.rating >= high);
  }

  // ---------------------------------------------------------------------
  // New records and the shared catalog
  // ---------------------------------------------------------------------

  /** The coordinate every new restaurant gets until its address is geocoded. */
  const DefaultCoordinates: Coordinates := Coordinates(25.0816, 121.5816)

  /** The form fields of a record: everything but its id and coordinates. */
  function DataOf(r: Restaurant): RestaurantData {
    RestaurantData(r.name, r.description, r.cuisine, r.priceRange, r.address, r.phone, r.website,
                   r.rating, r.reviewCount, r.imageUrl, r.allergens, r.vegetarianOptions,
                   r.openingHours, r.features, r.isOpen)
  }

  /**
   * `createNewRestaurant`: the supplied fields unchanged, the given id (the
   * caller's timestamp string) and the default coordinates.
   */
  function CreateNewRestaurant(data: RestaurantData, id: string): (r: Restaurant)
    ensures r.id == id && r.coordinates == DefaultCoordinates
    ensures DataOf(r) == data
  {
    Restaurant(id, data.name, data.description, data.cuisine, data.priceRange, data.address,
               data.phone, data.website, data.rating, data.reviewCount, data.imageUrl,
               DefaultCoordinates, data.allergens, data.vegetarianOptions,
               data.openingHours, data.features, data.isOpen)
  }

  /** A record at the default coordinates is rebuilt exactly from its fields and id. */
  lemma CreateFromDataOf(r: Restaurant)
    requires r.coordinates == DefaultCoordinates
    ensures CreateNewRestaurant(DataOf(r), r.id) == r
  {
  }

  /** The module-level list of restaurants every screen reads and the add screen appends to. */
  class RestaurantStore {
    var restaurants: seq<Restaurant>

    constructor (initial: seq<Restaurant>)
      ensures restaurants == initial
    {
      restaurants := initial;
    }

    /** `Array.prototype.push`. */
    method Push(r: Restaurant)
      modifies this
      ensures restaurants == old(restaurants) + [r]
    {
      restaurants := restaurants + [r];
    }
  }
}
