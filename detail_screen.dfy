/**
 * The restaurant detail screen: the record looked up by its id, its label
 * texts, its weekly hours table, the contact links it offers and the local
 * favourite toggle.
 */
module RestaurantDetailScreen {
  import opened Types
  import opened Text
  import opened Catalog

  /** What the screen shows for a route id. */
  datatype DetailView = NotFound | Found(restaurant: Restaurant)

  /** The first catalog entry with the id, or the not-found view when there is none. */
  function ResolveDetail(catalog: seq<Restaurant>, restaurantId: string): (view: DetailView)
    ensures view.NotFound? <==> forall r :: r in catalog ==> r.id != restaurantId
    ensures view.Found? ==> view.restaurant in catalog && view.restaurant.id == restaurantId
    ensures view.Found? ==> view.restaurant == GetRestaurantById(catalog, restaurantId).value
  {
    match GetRestaurantById(catalog, restaurantId)
    case None => NotFound
    case Some(r) => Found(r)
  }

  const ClosedText: string := "休息"

  /** One line of the hours table: "休息" on a closed day, otherwise "open - close". */
  function FormatOpeningHours(hours: DayHours): (text: string)
    ensures text == ClosedText <==> hours.closed
    ensures !hours.closed ==> text == hours.open + " - " + hours.close
    ensures !hours.closed ==> hours.open <= text && Contains(text, " - ")
    ensures !hours.closed ==> |hours.close| <= |text| && text[|text| - |hours.close|..] == hours.close
  {
    if hours.closed then ClosedText
    else
      var text := hours.open + " - " + hours.close;
      ContainsInfix(hours.open, " - ", hours.close);
      assert |text| >= 3;
      text
  }

  const DayNames: map<string, string> := map[
    "monday" := "週一",
    "tuesday" := "週二",
    "wednesday" := "週三",
    "thursday" := "週四",
    "friday" := "週五",
    "saturday" := "週六",
    "sunday" := "週日"]

  /** The weekday's short name; a key that is not a weekday is shown as itself. */
  function GetDayName(key: string): (name: string)
    ensures forall d :: key == WeekdayKey(d) ==> name == DayNames[key] && name != key
    ensures (forall d :: key != WeekdayKey(d)) ==> name == key
  {
    assert key in DayNames ==> exists d :: key == WeekdayKey(d) by {
      if key in DayNames {
        var d :| d in AllWeekdays && WeekdayKey(d) == key;
      }
    }
    LookupOr(DayNames, key, key)
  }

  /** The seven day names are distinct. */
  lemma DayNamesDistinct(d: Weekday, e: Weekday)
    ensures GetDayName(WeekdayKey(d)) == GetDayName(WeekdayKey(e)) ==> d == e
  {
  }

  /** One row of the hours table: the day's name and its hours text. */
  datatype HoursRow = HoursRow(dayName: string, hours: string)

  /**
   * The hours table, one row per key of the hours record in declaration
   * order, Monday to Sunday.
   */
  function OpeningHoursTable(openingHours: OpeningHours): (rows: seq<HoursRow>)
    ensures |rows| == |AllWeekdays|
    ensures forall i :: 0 <= i < |rows| ==>
      rows[i] == HoursRow(GetDayName(WeekdayKey(AllWeekdays[i])), FormatOpeningHours(openingHours.Day(AllWeekdays[i])))
  {
    RowsFor(openingHours, AllWeekdays)
  }

  function RowsFor(openingHours: OpeningHours, days: seq<Weekday>): (rows: seq<HoursRow>)
    ensures |rows| == |days|
    ensures forall i :: 0 <= i < |days| ==>
      rows[i] == HoursRow(GetDayName(WeekdayKey(days[i])), FormatOpeningHours(openingHours.Day(days[i])))
  {
    if days == [] then []
    else [HoursRow(GetDayName(WeekdayKey(days[0])), FormatOpeningHours(openingHours.Day(days[0])))]
         + RowsFor(openingHours, days[1..])
  }

  /** A restaurant closed every day shows "休息" on all seven rows, and only then. */
  lemma TableAllClosed(openingHours: OpeningHours)
    ensures (forall i :: 0 <= i < 7 ==> OpeningHoursTable(openingHours)[i].hours == ClosedText)
        <==> (forall d :: openingHours.Day(d).closed)
  {
    var rows := OpeningHoursTable(openingHours);
    if forall i :: 0 <= i < 7 ==> rows[i].hours == ClosedText {
      forall d
        ensures openingHours.Day(d).closed
      {
        var i := match d
          case Monday => 0 case Tuesday => 1 case Wednesday => 2 case Thursday => 3
          case Friday => 4 case Saturday => 5 case Sunday => 6;
        assert AllWeekdays[i] == d;
      }
    }
  }

  const AllergenLabels: map<string, string> := map[
    "peanuts" := "花生",
    "eggs" := "蛋類",
    "dairy" := "乳製品",
    "shrimp" := "蝦類",
    "gluten" := "麩質",
    "nuts" := "堅果",
    "soy" := "大豆"]

  const VegetarianLabels: map<string, string> := map[
    "vegetarian" := "奶蛋素",
    "vegan" := "全素",
    "lacto-vegetarian" := "奶素"]

  /** `allergenLabels[allergen] || allergen`: every allergen has its own label. */
  function AllergenLabel(a: Allergen): (text: string)
    ensures text == AllergenLabels[AllergenTag(a)] && text != "" && text != AllergenTag(a)
  {
    LookupOr(AllergenLabels, AllergenTag(a), AllergenTag(a))
  }

  function VegetarianLabel(v: VegetarianOption): (text: string)
    ensures text == VegetarianLabels[VegetarianTag(v)] && text != "" && text != VegetarianTag(v)
  {
    LookupOr(VegetarianLabels, VegetarianTag(v), VegetarianTag(v))
  }

  lemma AllergenLabelsDistinct(a: Allergen, b: Allergen)
    ensures AllergenLabel(a) == AllergenLabel(b) ==> a == b
  {
  }

  lemma VegetarianLabelsDistinct(v: VegetarianOption, w: VegetarianOption)
    ensures VegetarianLabel(v) == VegetarianLabel(w) ==> v == w
  {
  }

  /** A dietary section: one tag per declared entry, or a placeholder line when there are none. */
  datatype TagSection = Tags(labels: seq<string>) | NoInfo(text: string)

  function AllergenSection(r: Restaurant): (section: TagSection)
    ensures section.NoInfo? <==> r.allergens == []
    ensures section.NoInfo? ==> section.text == "無特殊過敏原標示"
    ensures section.Tags? ==> |section.labels| == |r.allergens|
    ensures section.Tags? ==> forall i :: 0 <= i < |r.allergens| ==> section.labels[i] == AllergenLabel(r.allergens[i])
  {
    if |r.allergens| > 0 then Tags(AllergenLabelsOf(r.allergens)) else NoInfo("無特殊過敏原標示")
  }

  function AllergenLabelsOf(allergens: seq<Allergen>): (labels: seq<string>)
    ensures |labels| == |allergens|
    ensures forall i :: 0 <= i < |allergens| ==> labels[i] == AllergenLabel(allergens[i])
  {
    if allergens == [] then [] else [AllergenLabel(allergens[0])] + AllergenLabelsOf(allergens[1..])
  }

  function VegetarianSection(r: Restaurant): (section: TagSection)
    ensures section.NoInfo? <==> r.vegetarianOptions == []
    ensures section.NoInfo? ==> section.text == "無素食選項"
    ensures section.Tags? ==> |section.labels| == |r.vegetarianOptions|
    ensures section.Tags? ==> forall i :: 0 <= i < |r.vegetarianOptions| ==>
      section.labels[i] == VegetarianLabel(r.vegetarianOptions[i])
  {
    if |r.vegetarianOptions| > 0 then Tags(VegetarianLabelsOf(r.vegetarianOptions)) else NoInfo("無素食選項")
  }

  function VegetarianLabelsOf(options: seq<VegetarianOption>): (labels: seq<string>)
    ensures |labels| == |options|
    ensures forall i :: 0 <= i < |options| ==> labels[i] == VegetarianLabel(options[i])
  {
    if options == [] then [] else [VegetarianLabel(options[0])] + VegetarianLabelsOf(options[1..])
  }

  const PlaceholderImage: string := "https://via.placeholder.com/300x200?text=Restaurant+Image"

  /** `imageUrl || placeholder`. */
  function HeaderImage(r: Restaurant): (url: string)
    ensures url == PlaceholderImage <==> r.imageUrl == "" || r.imageUrl == PlaceholderImage
    ensures r.imageUrl != "" ==> url == r.imageUrl
  {
    if r.imageUrl != "" then r.imageUrl else PlaceholderImage
  }

  /** The call buttons appear, and dial `tel:` plus the number, only for a non-empty phone. */
  function CallLink(r: Restaurant): (url: Option<string>)
    ensures url.Some? <==> r.phone.Some? && r.phone.value != ""
    ensures url.Some? ==> url.value == "tel:" + r.phone.value && url.value[4..] == r.phone.value
  {
    if r.phone.Some? && r.phone.value != "" then Some("tel:" + r.phone.value) else None
  }

  /** The website link appears, and opens the address as stored, only for a non-empty website. */
  function WebsiteLink(r: Restaurant): (url: Option<string>)
    ensures url.Some? <==> r.website.Some? && r.website.value != ""
    ensures url.Some? ==> url.value == r.website.value
  {
    if r.website.Some? && r.website.value != "" then Some(r.website.value) else None
  }

  /** The heart button's state, local to one visit of the screen. */
  class FavoriteState {
    var isFavorited: bool

    constructor ()
      ensures !isFavorited
    {
      isFavorited := false;
    }

    method HandleFavoriteToggle()
      modifies this
      ensures isFavorited == !old(isFavorited)
    {
      isFavorited := !isFavorited;
    }
  }
}
