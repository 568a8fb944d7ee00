/**
 * The home screen's two-step guided choice: pick a cuisine, then a budget;
 * the budget tap either opens the search screen with those two filters or,
 * when nothing in the catalog has both, raises an apology alert.
 */
module HomeScreen {
  import opened Types
  import opened Text
  import opened Seqs
  import opened Catalog
  import opened SearchScreen

  datatype Step = CuisineStep | BudgetStep

  /** What a budget tap leads to. */
  datatype BudgetOutcome =
    | Ignored
    | NavigateToSearch(filters: SearchFilters)
    | NoMatchAlert(title: string, message: string)

  /** The subtitle each budget card shows under its label. */
  function BudgetDescription(b: PriceRange): string {
    match b
    case Budget => "NT$ 250 以下"
    case Moderate => "NT$ 250 - 500"
    case Upscale => "NT$ 500 - 1000"
    case Luxury => "NT$ 1000 以上"
  }

  /** The budget cards describe each range with the catalog's own price label. */
  lemma BudgetDescriptionsAgree(b: PriceRange)
    ensures BudgetDescription(b) == GetPriceRangeText(PriceRangeTag(b))
  {
  }

  const NoMatchTitle: string := "沒有找到符合條件的餐廳"

  /** The apology names the chosen cuisine and price range by their display labels. */
  function NoMatchMessage(c: Cuisine, b: PriceRange): (message: string)
    ensures Contains(message, GetCuisineName(CuisineTag(c)))
    ensures Contains(message, GetPriceRangeText(PriceRangeTag(b)))
  {
    var name := GetCuisineName(CuisineTag(c));
    var price := GetPriceRangeText(PriceRangeTag(b));
    ContainsInfix("很抱歉，目前沒有", name, "且價格範圍在" + price + "的餐廳。");
    assert "很抱歉，目前沒有" + name + ("且價格範圍在" + price + "的餐廳。")
        == ("很抱歉，目前沒有" + name + "且價格範圍在") + price + "的餐廳。";
    ContainsInfix("很抱歉，目前沒有" + name + "且價格範圍在", price, "的餐廳。");
    "很抱歉，目前沒有" + name + "且價格範圍在" + price + "的餐廳。"
  }

  /** The route parameters the budget tap passes: exactly the two chosen values. */
  function GuidedFilters(c: Cuisine, b: PriceRange): SearchFilters {
    SearchFilters(Some([c]), Some([b]), None, None, None)
  }

  /** Restaurants that have both the chosen cuisine and the chosen price range. */
  predicate GuidedMatch(c: Cuisine, b: PriceRange, r: Restaurant) {
    r.cuisine == c && r.priceRange == b
  }

  /**
   * The search screen opened with the guided filters (and its query box
   * empty) lists exactly the restaurants with both chosen values.
   */
  lemma GuidedSearchLists(catalog: seq<Restaurant>, c: Cuisine, b: PriceRange)
    ensures Filtered(catalog, InitialFilters(Some(GuidedFilters(c, b))), "")
         == Filter(catalog, (r: Restaurant) => GuidedMatch(c, b, r))
  {
    FilterExt(catalog, (r: Restaurant) => PassesFilters(GuidedFilters(c, b), "", r),
      (r: Restaurant) => GuidedMatch(c, b, r));
  }

  /** The two-step selector's state. */
  class GuidedSelector {
    var selectedCuisine: Option<Cuisine>
    var currentStep: Step

    /** The budget step is showing exactly when a cuisine has been chosen. */
    predicate Valid()
      reads this
    {
      currentStep == BudgetStep <==> selectedCuisine.Some?
    }

    constructor ()
      ensures Valid()
      ensures selectedCuisine == None && currentStep == CuisineStep
    {
      selectedCuisine := None;
      currentStep := CuisineStep;
    }

    /** Choosing a cuisine records it and moves on to the budget step. */
    method HandleCuisineSelect(c: Cuisine)
      modifies this
      ensures Valid()
      ensures selectedCuisine == Some(c) && currentStep == BudgetStep
    {
      selectedCuisine := Some(c);
      currentStep := BudgetStep;
    }

    /** Going back forgets the cuisine and returns to the first step. */
    method HandleBackToCuisine()
      modifies this
      ensures Valid()
      ensures selectedCuisine == None && currentStep == CuisineStep
    {
      currentStep := CuisineStep;
      selectedCuisine := None;
    }

    /**
     * A budget tap: with no cuisine chosen nothing happens; otherwise the
     * search screen opens with the two choices as filters when at least one
     * restaurant has both, and the apology alert appears when none does.
     * The selector's own state is not changed, and a tap while the cuisine
     * step is showing is ignored.
     */
    method HandleBudgetSelect(catalog: seq<Restaurant>, budget: PriceRange) returns (outcome: BudgetOutcome)
      requires Valid()
      ensures selectedCuisine.None? ==> outcome == Ignored
      ensures currentStep == CuisineStep ==> outcome == Ignored
      ensures selectedCuisine.Some? ==>
        (outcome.NavigateToSearch? <==> exists r :: r in catalog && GuidedMatch(selectedCuisine.value, budget, r))
      ensures selectedCuisine.Some? && outcome.NavigateToSearch? ==>
        outcome.filters == GuidedFilters(selectedCuisine.value, budget)
      ensures selectedCuisine.Some? && !outcome.NavigateToSearch? ==>
        outcome == NoMatchAlert(NoMatchTitle, NoMatchMessage(selectedCuisine.value, budget))
    {
      if selectedCuisine.Some? {
        var c := selectedCuisine.value;
        var filteredRestaurants := Filter(catalog, (r: Restaurant) => r.cuisine == c && r.priceRange == budget);
        if |filteredRestaurants| > 0 {
          assert filteredRestaurants[0] in catalog;
          outcome := NavigateToSearch(GuidedFilters(c, budget));
        } else {
          outcome := NoMatchAlert(NoMatchTitle, NoMatchMessage(c, budget));
        }
      } else {
        outcome := Ignored;
      }
    }
  }

  /** When the budget tap navigates, the search screen it opens lists at least one restaurant. */
  lemma NavigationNeverEmpty(catalog: seq<Restaurant>, c: Cuisine, b: PriceRange, r: Restaurant)
    requires r in catalog && GuidedMatch(c, b, r)
    ensures |Filtered(catalog, InitialFilters(Some(GuidedFilters(c, b))), "")| > 0
  {
    GuidedSearchLists(catalog, c, b);
    var p := (x: Restaurant) => GuidedMatch(c, b, x);
    assert multiset(Filter(catalog, p))[r] == multiset(catalog)[r] > 0;
  }
}
