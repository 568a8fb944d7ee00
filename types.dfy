/**
 * The records and tag enumerations of the restaurant catalog.
 *
 * Every TypeScript string-literal union becomes an enumeration datatype with
 * a `...Tag` function giving the literal the program stores and compares.
 * The cuisine enumeration has the twelve values of the statistics record and
 * of the name and emoji tables, not the seven that the type declaration
 * lists; the sample records use seven cuisines, three of them (italian,
 * korean, thai) outside the declared seven.
 */
module Types {

  datatype Option<T> = None | Some(value: T) {
    function GetOr(default: T): T {
      match this
      case Some(v) => v
      case None => default
    }
  }

  datatype Cuisine =
    | Japanese | Chinese | American | French | Brunch | Dessert
    | Healthy | Korean | Italian | Thai | Vietnamese | Indian

  datatype PriceRange = Budget | Moderate | Upscale | Luxury

  datatype Allergen = Peanuts | Eggs | Dairy | Shrimp | Gluten | Nuts | Soy

  datatype VegetarianOption = Vegetarian | Vegan | LactoVegetarian

  datatype Weekday = Monday | Tuesday | Wednesday | Thursday | Friday | Saturday | Sunday

  /** The tag string the program stores for each cuisine. */
  function CuisineTag(c: Cuisine): string {
    match c
    case Japanese => "japanese"
    case Chinese => "chinese"
    case American => "american"
    case French => "french"
    case Brunch => "brunch"
    case Dessert => "dessert"
    case Healthy => "healthy"
    case Korean => "korean"
    case Italian => "italian"
    case Thai => "thai"
    case Vietnamese => "vietnamese"
    case Indian => "indian"
  }

  /** The cuisine stored under a tag, if the tag is one of the twelve. */
  function CuisineOfTag(tag: string): (c: Option<Cuisine>)
    ensures c.Some? ==> CuisineTag(c.value) == tag
    ensures c.None? ==> forall d :: CuisineTag(d) != tag
  {
    if tag == "japanese" then Some(Japanese)
    else if tag == "chinese" then Some(Chinese)
    else if tag == "american" then Some(American)
    else if tag == "french" then Some(French)
    else if tag == "brunch" then Some(Brunch)
    else if tag == "dessert" then Some(Dessert)
    else if tag == "healthy" then Some(Healthy)
    else if tag == "korean" then Some(Korean)
    else if tag == "italian" then Some(Italian)
    else if tag == "thai" then Some(Thai)
    else if tag == "vietnamese" then Some(Vietnamese)
    else if tag == "indian" then Some(Indian)
    else None
  }

  function PriceRangeTag(p: PriceRange): string {
    match p
    case Budget => "0-250"
    case Moderate => "250-500"
    case Upscale => "500-1000"
    case Luxury => "1000+"
  }

  function AllergenTag(a: Allergen): string {
    match a
    case Peanuts => "peanuts"
    case Eggs => "eggs"
    case Dairy => "dairy"
    case Shrimp => "shrimp"
    case Gluten => "gluten"
    case Nuts => "nuts"
    case Soy => "soy"
  }

  function VegetarianTag(v: VegetarianOption): string {
    match v
    case Vegetarian => "vegetarian"
    case Vegan => "vegan"
    case LactoVegetarian => "lacto-vegetarian"
  }

  /** The property name of each weekday in an opening-hours record. */
  function WeekdayKey(d: Weekday): string {
    match d
    case Monday => "monday"
    case Tuesday => "tuesday"
    case Wednesday => "wednesday"
    case Thursday => "thursday"
    case Friday => "friday"
    case Saturday => "saturday"
    case Sunday => "sunday"
  }

  /** The twelve cuisines in the order of the statistics record. */
  const AllCuisines: seq<Cuisine> :=
    [Japanese, Chinese, American, French, Brunch, Dessert,
     Healthy, Korean, Italian, Thai, Vietnamese, Indian]

  /** The weekdays in the order the opening-hours record declares its keys. */
  const AllWeekdays: seq<Weekday> :=
    [Monday, Tuesday, Wednesday, Thursday, Friday, Saturday, Sunday]

  lemma AllCuisinesComplete(c: Cuisine)
    ensures c in AllCuisines
  {
  }

  /** Distinct cuisines are stored under distinct tags, so comparing tags is comparing cuisines. */
  lemma CuisineTagInjective(c: Cuisine, d: Cuisine)
    ensures CuisineTag(c) == CuisineTag(d) ==> c == d
  {
  }

  datatype Coordinates = Coordinates(latitude: real, longitude: real)

  /** One day of an opening-hours table; times are "HH:MM" strings. */
  datatype DayHours = DayHours(open: string, close: string, closed: bool)

  datatype OpeningHours = OpeningHours(
    monday: DayHours, tuesday: DayHours, wednesday: DayHours, thursday: DayHours,
    friday: DayHours, saturday: DayHours, sunday: DayHours)
  {
    /** The entry stored under a weekday key. */
    function Day(d: Weekday): DayHours {
      match d
      case Monday => monday
      case Tuesday => tuesday
      case Wednesday => wednesday
      case Thursday => thursday
      case Friday => friday
      case Saturday => saturday
      case Sunday => sunday
    }
  }

  datatype Restaurant = Restaurant(
    id: string,
    name: string,
    description: string,
    cuisine: Cuisine,
    priceRange: PriceRange,
    address: string,
    phone: Option<string>,
    website: Option<string>,
    rating: real,
    reviewCount: int,
    imageUrl: string,
    coordinates: Coordinates,
    allergens: seq<Allergen>,
    vegetarianOptions: seq<VegetarianOption>,
    openingHours: OpeningHours,
    features: seq<string>,
    isOpen: Option<bool>)

  /** A restaurant record without its id and coordinates: what the add form collects. */
  datatype RestaurantData = RestaurantData(
    name: string,
    description: string,
    cuisine: Cuisine,
    priceRange: PriceRange,
    address: string,
    phone: Option<string>,
    website: Option<string>,
    rating: real,
    reviewCount: int,
    imageUrl: string,
    allergens: seq<Allergen>,
    vegetarianOptions: seq<VegetarianOption>,
    openingHours: OpeningHours,
    features: seq<string>,
    isOpen: Option<bool>)

  /** Search criteria; every list is optional and an absent list is no constraint. */
  datatype SearchFilters = SearchFilters(
    cuisine: Option<seq<Cuisine>>,
    priceRange: Option<seq<PriceRange>>,
    allergens: Option<seq<Allergen>>,
    vegetarianOptions: Option<seq<VegetarianOption>>,
    searchQuery: Option<string>)

  datatype UserPreferences = UserPreferences(
    id: string,
    userId: string,
    favoriteRestaurants: seq<string>,
    blacklistedAllergens: seq<Allergen>,
    preferredVegetarianOptions: seq<VegetarianOption>,
    preferredCuisines: seq<Cuisine>,
    preferredPriceRange: seq<PriceRange>,
    allergens: seq<Allergen>,
    vegetarianType: Option<VegetarianOption>,
    budgetRange: (int, int),
    maxDistance: int,
    createdAt: int,
    updatedAt: int)

  datatype User = User(
    id: string,
    uid: string,
    email: string,
    name: string,
    displayName: Option<string>,
    photoURL: Option<string>,
    preferences: Option<UserPreferences>,
    favorites: seq<string>)
}
