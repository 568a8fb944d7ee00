# Restaurant finder: catalog queries and screen logic

This project is a Dafny model of the logic in a React Native restaurant finder for
Neihu District, Taipei. The app keeps one module-level list of restaurants. Its
screens query and extend that list:

- **Catalog.** Keyword search, per-cuisine statistics, lookup by id, rating and
  price filters, the label and emoji tables, and construction of new records.
  The shared list is the class `Catalog.RestaurantStore`; the add screen
  appends to it.
- **Search screen.** A five-stage filter pipeline: query, cuisine list, price
  list, allergen exclusion, vegetarian inclusion. Also the chip toggle, the
  clear action and the badge count.
- **Home screen.** A two-step guided selector, cuisine then budget. It opens
  the search screen only when some restaurant matches both choices. The
  search screen applies those choices only when it is first opened (see
  "Left out").
- **Profile screen.** A saved user and a draft. Edits touch only the draft and
  only in edit mode. Saving validates the name and e-mail. Cancelling discards
  the draft. The distance field is clamped to 1..50.
- **Add-restaurant screen.** A modal form. Three ordered checks guard the
  append to the shared catalog. Confirming the success alert resets the form.
- **Detail screen.** Resolving the route id, opening-hours text, weekday
  names, allergen and vegetarian tag labels with their fallbacks, the contact
  links, and the favourite toggle.

Module layout:

| file | module | contents |
|---|---|---|
| types.dfy | Types | records and tag enumerations |
| text.dfy | Text | the JavaScript string behaviour the code relies on: `trim`, ASCII `toLowerCase`, `includes` as infix, `parseInt`, `record[key] \|\| fallback` |
| seqs.dfy | Seqs | `filter` and the remove-or-append toggle |
| catalog.dfy | Catalog | `data/restaurants.ts` |
| search_screen.dfy | SearchScreen | `screens/SearchScreen.tsx` |
| home_screen.dfy | HomeScreen | `screens/HomeScreen.tsx` |
| profile_screen.dfy | ProfileScreen | `screens/ProfileScreen.tsx` |
| add_restaurant_screen.dfy | AddRestaurantScreen | `screens/AddRestaurantScreen.tsx` |
| detail_screen.dfy | RestaurantDetailScreen | `screens/RestaurantDetailScreen.tsx` |

How each kind of source code is modelled:

- Pure expressions (filters, finds, label tables) are functions.
- The statistics loop and the staged reassignment of `filtered` in
  `applyFilters` are methods with loops or step-by-step assignments. Each is
  proved equal to a specification function.
- React state is a class per screen, with the state cells as fields, and
  handlers are methods. The search screen is the exception: its filters and
  query are values (`SearchFilters`, `Criteria`), and its handlers
  (`HandleFilterChange`, `ClearFilters`) are functions from the old value to
  the new one.
- Values the program gets from the environment are parameters: the
  `Date.now()` id of a new record, and the two `new Date()` readings of the
  initial user (`createdAt` and `updatedAt`, one parameter each).

Where the types declaration and the code disagree, the model follows the
code. `CuisineType` is declared with seven values, but the statistics record
and the cuisine name and emoji tables use twelve. The model has twelve. The
sample records use seven cuisines, and three of them (italian, korean, thai)
are outside the declared seven.

## Model

| member | source | states |
|---|---|---|
| Types.CuisineOfTag | data/restaurants.ts:595-608 | a tag maps back to the cuisine it names, and an unknown tag to none |
| Types.CuisineTagInjective | data/restaurants.ts:595-608 | no two cuisines share a tag |
| Types.AllCuisinesComplete | data/restaurants.ts:595-608 | the twelve-entry cuisine list names every cuisine |
| Text.TrimEmptyIffBlank | screens/ProfileScreen.tsx:77-84 | `!s.trim()` holds exactly when `s` is all whitespace |
| Text.Trim | screens/AddRestaurantScreen.tsx:84-92 | `trim`: the contiguous run of the input left after dropping leading and trailing whitespace; it neither starts nor ends with whitespace |
| Text.TrimStart | screens/ProfileScreen.tsx:303 | the result is a suffix of the input; only whitespace was dropped; it does not start with whitespace |
| Text.TrimEnd | screens/AddRestaurantScreen.tsx:84-92 | the result is a prefix of the input; only whitespace was dropped; it does not end with whitespace |
| Text.ToLower | screens/SearchScreen.tsx:92-96 | same length; each character is lowered one by one |
| Text.ContainsIffOccursAt | data/restaurants.ts:543-546 | `includes` holds exactly when the needle occurs at some position |
| Text.ContainsInfix | screens/HomeScreen.tsx:147-151 | whatever is concatenated into a string is contained in it |
| Text.ParseInt | screens/ProfileScreen.tsx:303 | `parseInt`: a decimal digit string is read as its value, a minus sign followed by digits as the negated value, and text without a decimal digit is NaN |
| Text.LookupOr | screens/RestaurantDetailScreen.tsx:91 | `m[key] \|\| fallback` over the table's own keys: the stored label when present and non-empty, otherwise the fallback |
| Seqs.Filter | data/restaurants.ts:541 | `filter` keeps exactly the satisfying elements, each as often as it occurs, in order |
| Seqs.FilterUnique | data/restaurants.ts:541 | Filter's contract determines its result |
| Seqs.FilterThen | screens/SearchScreen.tsx:88-125 | two filters in sequence are one filter on the conjunction |
| Seqs.FilterIdempotent | screens/SearchScreen.tsx:88-125 | filtering twice with the same predicate changes nothing |
| Seqs.FilterAppend | screens/ProfileScreen.tsx:117-119 | filter distributes over concatenation |
| Seqs.Toggle | screens/ProfileScreen.tsx:117-119 | the value is present afterwards exactly when it was absent; other values' counts are unchanged; an absent value is appended at the end |
| Seqs.ToggleTwiceAbsent | screens/SearchScreen.tsx:130-133 | toggling an absent value twice restores the list |
| Seqs.ToggleTwiceMembers | screens/SearchScreen.tsx:130-133 | toggling any value twice restores the set of members |
| Seqs.ToggleLength | screens/SearchScreen.tsx:130-133 | a toggle appends one element or removes every occurrence of one |
| Catalog.CuisineTableKeys | data/restaurants.ts:647-682 | the name and emoji tables have exactly the twelve cuisine tags as keys |
| Catalog.GetPriceRangeText | data/restaurants.ts:636-644 | every price range gets its own non-empty label; any other tag outside the table is shown as itself |
| Catalog.GetCuisineName | data/restaurants.ts:647-663 | every cuisine gets its non-empty label; any other tag outside the table is shown as itself |
| Catalog.GetCuisineEmoji | data/restaurants.ts:666-682 | every cuisine gets its glyph, never the fallback; any other tag outside the table gets '🍽️' |
| Catalog.CuisineNameInverse | data/restaurants.ts:647-663 | the cuisine can be recovered from its label |
| Catalog.CuisineNamesDistinct | data/restaurants.ts:647-663 | no two cuisines share a label |
| Catalog.PriceRangeTextsDistinct | data/restaurants.ts:636-644 | no two price ranges share a label |
| Catalog.CuisineEmojiInverse | data/restaurants.ts:666-682 | the cuisine can be recovered from its glyph, except that Vietnamese reads as Korean |
| Catalog.EmojiCollision | data/restaurants.ts:675-678 | Korean and Vietnamese share a glyph, and they are the only pair that does |
| Catalog.SearchRestaurants | data/restaurants.ts:536-556 | every result matches the query (name, description or address), the cuisine and the price; every matching catalog entry is kept as often as it occurs; the result is an order-preserving subsequence |
| Catalog.SearchWithoutCriteria | data/restaurants.ts:541-554 | no criteria, or the empty query, return the whole catalog in order |
| Catalog.SearchIsExactFilter | data/restaurants.ts:541-554 | the search is the filter on the conjunction of its three conditions |
| Catalog.CountCuisineZero | data/restaurants.ts:610-612 | a cuisine no restaurant has counts 0 |
| Catalog.AllCuisinesDistinct | data/restaurants.ts:595-608 | the twelve statistics keys are distinct |
| Catalog.CountsSumToLength | data/restaurants.ts:593-618 | the twelve per-cuisine counts add up to the catalog length |
| Catalog.SumCountsAgrees | data/restaurants.ts:610-612 | a count record that agrees with the counts per cuisine has the same sum |
| Catalog.GetRestaurantStats | data/restaurants.ts:593-618 | the total is the catalog length; each of the twelve counts is the number of restaurants with that cuisine; the counts sum to the total |
| Catalog.GetRestaurantById | data/restaurants.ts:621-623 | none exactly when no entry has the id; otherwise the first entry with that id |
| Catalog.GetRestaurantByIdOfEntry | data/restaurants.ts:621-623 | with unique ids, looking up an entry's id finds that entry |
| Catalog.GetTopRatedRestaurants | data/restaurants.ts:626-628 | exactly the entries rated at least the threshold (4.0 by default), with multiplicity, in order |
| Catalog.GetRestaurantsByPriceRange | data/restaurants.ts:631-633 | exactly the entries with that price range, with multiplicity, in order |
| Catalog.TopRatedMonotone | data/restaurants.ts:626-628 | narrowing a lower-threshold result to a higher threshold gives the higher-threshold result |
| Catalog.CreateNewRestaurant | data/restaurants.ts:23-29 | every supplied field is kept; the id is the given one; the coordinates are the default |
| Catalog.CreateFromDataOf | data/restaurants.ts:23-29 | a record at the default coordinates is rebuilt exactly from its fields and id |
| Catalog.RestaurantStore.constructor | data/restaurants.ts:32 | the shared list starts as the given records |
| Catalog.RestaurantStore.Push | screens/AddRestaurantScreen.tsx:105 | `push` appends one record at the end and changes nothing else |
| SearchScreen.InitialFilters | screens/SearchScreen.tsx:37-43 | on the screen's first mount, route filters are used as given; without them every list is empty |
| SearchScreen.FilteredMembers | screens/SearchScreen.tsx:87-125 | a restaurant is listed exactly when it is in the catalog and passes every active stage; the list is an order-preserving subsequence |
| SearchScreen.NarrowStep | screens/SearchScreen.tsx:101-123 | a guarded stage narrows the previous stage's result to the next specification stage |
| SearchScreen.QueryStep | screens/SearchScreen.tsx:91-98 | the query stage, applied only to a non-empty query, matches name, description or cuisine label, all lowered |
| SearchScreen.CuisineStep | screens/SearchScreen.tsx:101-105 | a non-empty cuisine list keeps restaurants whose cuisine is in it |
| SearchScreen.PriceStep | screens/SearchScreen.tsx:107-111 | a non-empty price list keeps restaurants whose price range is in it |
| SearchScreen.AllergenStep | screens/SearchScreen.tsx:113-117 | a non-empty allergen list drops every restaurant declaring one of its allergens |
| SearchScreen.VegetarianStep | screens/SearchScreen.tsx:119-123 | a non-empty vegetarian list keeps restaurants offering one of its options |
| SearchScreen.ApplyFilters | screens/SearchScreen.tsx:87-126 | the staged reassignments produce exactly the conjunctive filter of the catalog |
| SearchScreen.FilteredIdempotent | screens/SearchScreen.tsx:87-125 | re-applying the same filters to the result changes nothing |
| SearchScreen.QueryNarrowsPanel | screens/SearchScreen.tsx:91-123 | the query stage only narrows what the panel filters keep |
| SearchScreen.ActiveFilterCount | screens/SearchScreen.tsx:150-154 | the badge is 0 exactly when no list has an entry |
| SearchScreen.NoFiltersShowsAll | screens/SearchScreen.tsx:87-125 | an empty query and empty or absent lists show the whole catalog in order |
| SearchScreen.HandleFilterChange | screens/SearchScreen.tsx:128-137 | the tapped list is toggled, an absent list read as empty; the other lists and the query are unchanged |
| SearchScreen.FilterChangeFlipsSelection | screens/SearchScreen.tsx:130-133 | the tapped entry is selected afterwards exactly when it was not before |
| SearchScreen.FilterChangeCount | screens/SearchScreen.tsx:130-133 | the badge goes up by one on an add, and down by the entry's occurrences on a removal |
| SearchScreen.FilterChangeTwice | screens/SearchScreen.tsx:128-137 | two taps on the same chip restore the filters when the tapped list is present and lacks the entry, whatever the other lists hold (absent ones included) |
| SearchScreen.ClearFilters | screens/SearchScreen.tsx:139-148 | every list is emptied, and both query strings |
| SearchScreen.ClearFiltersShowsAll | screens/SearchScreen.tsx:139-148 | after clearing, the whole catalog is listed |
| HomeScreen.BudgetDescriptionsAgree | screens/HomeScreen.tsx:101-126 | each budget card describes its range with the catalog's price label |
| HomeScreen.NoMatchMessage | screens/HomeScreen.tsx:147-151 | the apology names the chosen cuisine and the chosen price range by their labels |
| HomeScreen.GuidedSearchLists | screens/HomeScreen.tsx:140-145 | a search screen mounted for the first time with the two choices as route filters lists exactly the restaurants with both values |
| HomeScreen.GuidedSelector.constructor | screens/HomeScreen.tsx:41-42 | the selector starts on the cuisine step with no selection |
| HomeScreen.GuidedSelector.HandleCuisineSelect | screens/HomeScreen.tsx:128-131 | the cuisine is recorded and the budget step shows |
| HomeScreen.GuidedSelector.HandleBackToCuisine | screens/HomeScreen.tsx:157-160 | back to the cuisine step with the selection cleared |
| HomeScreen.GuidedSelector.HandleBudgetSelect | screens/HomeScreen.tsx:133-155 | nothing without a cuisine or on the cuisine step; otherwise it navigates with exactly the two choices iff some restaurant has both, and otherwise raises the no-match alert; the selector itself is not changed |
| HomeScreen.NavigationNeverEmpty | screens/HomeScreen.tsx:136-145 | when the budget tap navigates to a search screen mounted for the first time, it lists at least one restaurant |
| ProfileScreen.InitialUser | screens/ProfileScreen.tsx:24-45 | empty name and e-mail, no favourites; preferences present with every list empty, distance 5, budget 0-1000, no vegetarian type, and the two given timestamps |
| ProfileScreen.ToggleCuisinePref | screens/ProfileScreen.tsx:113-128 | no-op without preferences; otherwise the cuisine list becomes its Toggle (every occurrence removed in order, or one entry appended at the end), the cuisine flips membership, and nothing else changes |
| ProfileScreen.ToggleAllergenPref | screens/ProfileScreen.tsx:130-145 | the same for the allergen list: it becomes its Toggle, and nothing else changes |
| ProfileScreen.ToggleCuisinePrefTwice | screens/ProfileScreen.tsx:113-128 | toggling an absent cuisine twice restores the user |
| ProfileScreen.ToggleAllergenPrefTwice | screens/ProfileScreen.tsx:130-145 | toggling an absent allergen twice restores the user |
| ProfileScreen.SetVegetarianType | screens/ProfileScreen.tsx:147-157 | no-op without preferences; otherwise sets the type and nothing else |
| ProfileScreen.DistanceFromText | screens/ProfileScreen.tsx:303-308 | always in [1,50]; NaN gives 1; below 1 gives 1; above 50 gives 50; in range it is the parsed value |
| ProfileScreen.DistanceOfDigits | screens/ProfileScreen.tsx:303-308 | a digit string gives its value clamped to [1,50] |
| ProfileScreen.SetMaxDistance | screens/ProfileScreen.tsx:300-310 | no-op without preferences; otherwise sets the clamped distance and nothing else |
| ProfileScreen.ValidateProfile | screens/ProfileScreen.tsx:76-84 | name required first, then e-mail; ok exactly when neither is blank |
| ProfileScreen.SaveAlert | screens/ProfileScreen.tsx:78-88 | the success alert is raised exactly when the profile is valid |
| ProfileScreen.InitialUserNeedsName | screens/ProfileScreen.tsx:24-45 | the untouched profile cannot be saved: the name is required |
| ProfileScreen.ProfileSession.constructor | screens/ProfileScreen.tsx:24-48 | starts with the initial user, an identical draft, not editing |
| ProfileScreen.ProfileSession.HandleSave | screens/ProfileScreen.tsx:76-89 | a rejected save changes nothing; an accepted one commits the draft and leaves edit mode |
| ProfileScreen.ProfileSession.HandleCancel | screens/ProfileScreen.tsx:108-111 | the draft is reset to the saved user and edit mode ends |
| ProfileScreen.ProfileSession.PressEditButton | screens/ProfileScreen.tsx:330 | in edit mode it saves: an accepted save commits the draft and leaves edit mode, a rejected one changes nothing; otherwise it enters edit mode and changes nothing else |
| ProfileScreen.ProfileSession.OnNameText | screens/ProfileScreen.tsx:165-170 | the name is changed in the draft only while editing |
| ProfileScreen.ProfileSession.OnEmailText | screens/ProfileScreen.tsx:175-183 | the e-mail is changed in the draft only while editing |
| ProfileScreen.ProfileSession.OnCuisineCard | screens/ProfileScreen.tsx:203 | the cuisine toggle reaches the draft only while editing |
| ProfileScreen.ProfileSession.OnAllergenSwitch | screens/ProfileScreen.tsx:230-233 | the allergen toggle reaches the draft only while editing |
| ProfileScreen.ProfileSession.OnVegetarianChoice | screens/ProfileScreen.tsx:257-276 | the vegetarian choice reaches the draft only while editing |
| ProfileScreen.ProfileSession.OnDistanceText | screens/ProfileScreen.tsx:296-314 | the clamped distance reaches the draft only while editing; the distance stays in [1,50] |
| AddRestaurantScreen.InitialForm | screens/AddRestaurantScreen.tsx:21-45 | empty name, description, address, phone, website and image; Chinese, 250-500, rating 4.0, no reviews; no allergens, vegetarian options or features; open 11:00-22:00 every day |
| AddRestaurantScreen.ValidateAddress | screens/AddRestaurantScreen.tsx:65-70 | `validateAddress` accepts exactly the addresses in which 台北市內湖區 occurs at some position |
| AddRestaurantScreen.ValidateNewRestaurant | screens/AddRestaurantScreen.tsx:84-98 | name missing first, then address missing, then address outside the district; ok exactly when the name is not blank and the address mentions 台北市內湖區 |
| AddRestaurantScreen.DistrictAddressNotBlank | screens/AddRestaurantScreen.tsx:65-70 | an address naming the district is never blank |
| AddRestaurantScreen.InitialFormNeedsName | screens/AddRestaurantScreen.tsx:21-45 | the untouched form is rejected for its empty name |
| AddRestaurantScreen.RejectionAlert | screens/AddRestaurantScreen.tsx:68-90 | the district failure uses its own alert title, the other two use the generic one |
| AddRestaurantScreen.SuccessMessageAsWrittenHasNoLineBreak | screens/AddRestaurantScreen.tsx:109 | the success text as written holds a backslash and an `n`, and no line break |
| AddRestaurantScreen.AsWrittenSpellsOutLineBreak | screens/AddRestaurantScreen.tsx:109 | the text as written is the success line, a backslash and an `n`, then the address line, so it always differs from the corrected text |
| AddRestaurantScreen.SuccessMessageTwoLines | screens/AddRestaurantScreen.tsx:107-111 | the corrected text is exactly the success line, a line break and the address line |
| AddRestaurantScreen.ApplyEdit | screens/AddRestaurantScreen.tsx:218-300 | an edit sets its one field and leaves every other field as it was |
| AddRestaurantScreen.AddRestaurantForm.constructor | screens/AddRestaurantScreen.tsx:20-45 | the form starts as the initial form with the modal hidden |
| AddRestaurantScreen.AddRestaurantForm.OpenModal | screens/AddRestaurantScreen.tsx:163 | the modal shows and the form keeps its contents |
| AddRestaurantScreen.AddRestaurantForm.CloseModal | screens/AddRestaurantScreen.tsx:198 | the modal hides and the form keeps its contents |
| AddRestaurantScreen.AddRestaurantForm.Edit | screens/AddRestaurantScreen.tsx:218-300 | the form becomes the edited form; the modal is unchanged |
| AddRestaurantScreen.AddRestaurantForm.HandleSaveRestaurant | screens/AddRestaurantScreen.tsx:82-123 | rejected exactly when a check fails, with that check's alert title and message, and then the catalog is unchanged; otherwise the record built from the form is appended as the last entry, earlier entries unchanged, and the success alert is titled 成功 and carries the corrected two-line text |
| AddRestaurantScreen.AddRestaurantForm.ConfirmSuccess | screens/AddRestaurantScreen.tsx:113-116 | the modal hides and the form is reset |
| AddRestaurantScreen.AddRestaurantForm.ResetForm | screens/AddRestaurantScreen.tsx:125-151 | the form returns to its initial defaults |
| AddRestaurantScreen.AddedRestaurantFound | screens/AddRestaurantScreen.tsx:102-105 | a record added under a fresh id is what a lookup of that id finds, carrying the form's fields |
| RestaurantDetailScreen.ResolveDetail | screens/RestaurantDetailScreen.tsx:36-53 | not found exactly when no entry has the id; otherwise the first entry with it |
| RestaurantDetailScreen.FormatOpeningHours | screens/RestaurantDetailScreen.tsx:76-79 | '休息' exactly for a closed day, whatever its times; otherwise exactly the opening time, " - ", then the closing time |
| RestaurantDetailScreen.GetDayName | screens/RestaurantDetailScreen.tsx:81-92 | the seven weekday keys get their names; any other key outside the table is shown as itself |
| RestaurantDetailScreen.DayNamesDistinct | screens/RestaurantDetailScreen.tsx:82-90 | no two weekdays share a name |
| RestaurantDetailScreen.OpeningHoursTable | screens/RestaurantDetailScreen.tsx:227-234 | one row per weekday, Monday to Sunday, with the day's name and its hours text |
| RestaurantDetailScreen.RowsFor | screens/RestaurantDetailScreen.tsx:229 | one row per given day, in order |
| RestaurantDetailScreen.TableAllClosed | screens/RestaurantDetailScreen.tsx:227-234 | every row reads '休息' exactly when the restaurant is closed every day |
| RestaurantDetailScreen.AllergenLabel | screens/RestaurantDetailScreen.tsx:94-102 | every allergen has a non-empty label different from its tag |
| RestaurantDetailScreen.VegetarianLabel | screens/RestaurantDetailScreen.tsx:104-108 | every vegetarian option has a non-empty label different from its tag |
| RestaurantDetailScreen.AllergenLabelsDistinct | screens/RestaurantDetailScreen.tsx:94-102 | no two allergens share a label |
| RestaurantDetailScreen.VegetarianLabelsDistinct | screens/RestaurantDetailScreen.tsx:104-108 | no two vegetarian options share a label |
| RestaurantDetailScreen.AllergenSection | screens/RestaurantDetailScreen.tsx:191-205 | the placeholder text exactly when nothing is declared; otherwise one label per allergen, in order |
| RestaurantDetailScreen.AllergenLabelsOf | screens/RestaurantDetailScreen.tsx:194-196 | one label per allergen, in order |
| RestaurantDetailScreen.VegetarianSection | screens/RestaurantDetailScreen.tsx:208-222 | the placeholder text exactly when no option is offered; otherwise one label per option, in order |
| RestaurantDetailScreen.VegetarianLabelsOf | screens/RestaurantDetailScreen.tsx:211-213 | one label per option, in order |
| RestaurantDetailScreen.HeaderImage | screens/RestaurantDetailScreen.tsx:116 | the stored image when present, the placeholder when empty |
| RestaurantDetailScreen.CallLink | screens/RestaurantDetailScreen.tsx:59-63 | a `tel:` link to the stored number exactly when the phone is present and non-empty |
| RestaurantDetailScreen.WebsiteLink | screens/RestaurantDetailScreen.tsx:70-74 | the stored address exactly when the website is present and non-empty |
| RestaurantDetailScreen.FavoriteState.constructor | screens/RestaurantDetailScreen.tsx:34 | the heart starts off |
| RestaurantDetailScreen.FavoriteState.HandleFavoriteToggle | screens/RestaurantDetailScreen.tsx:55-57 | the flag flips, so two toggles restore it |

## Left out

- `sortRestaurantsByDistance` (data/restaurants.ts:559-590) is left out. It is floating-point haversine trigonometry followed by a built-in sort.
- `getCoordinatesFromAddress` (data/restaurants.ts:4-20) is left out. It is an asynchronous geocoding stub that returns the default coordinate whatever the address.
- The twenty literal sample records of `sampleRestaurants` are not reproduced. `RestaurantStore` is built from any initial list, and every property holds for every list.
- `Date.now()` and `new Date()` are not modelled. The new record's id and the initial user's two timestamps are parameters.
- `Alert.alert`, navigation, `Linking.openURL` and rendering are not modelled as calls. Their arguments are results (`BudgetOutcome`, `SaveOutcome`, `SaveAlert`, `CallLink`).
- The directions button's map URL is left out. It formats two floating-point coordinates as text.
- The `catch` branch of `handleSaveRestaurant` is left out. Nothing in the modelled save can throw.
- React state scheduling is not modelled. Handlers act on the current state at once, so stale-closure effects are not captured.
- `applyFilters` is modelled as a method of the catalog, the filters and the query. It is not modelled as an effect rerun on every change.
- `handleFilterChange` is modelled for the four list keys only. Its `keyof SearchFilters` parameter also admits `'searchQuery'`, which the filter panel never passes. The panel renders chips only for `'cuisine'` and `'priceRange'` (screens/SearchScreen.tsx:277 and 300). The allergen and vegetarian option lists (screens/SearchScreen.tsx:67-81) are never rendered, and no caller puts those lists in the route. So the allergen and vegetarian calls, and the stages they feed, cannot be reached from the screen as written.
- Text.ToLower: lowers ASCII letters only. JavaScript's full Unicode case mapping is not modelled.
- Text.ParseInt: reads base 10, and base 16 after `0x`. It does not model numbers too large for a double.
- HandleSaveRestaurant: its success alert carries the corrected two-line text `SuccessMessage`, not the one-line text with a visible backslash-n that screens/AddRestaurantScreen.tsx:109 produces (`SuccessMessageAsWritten`; see "## Findings"). `AsWrittenSpellsOutLineBreak` relates the two.
- LookupOr: stands for `record[key] || fallback` over the table's own keys only. In JavaScript a key naming an inherited `Object` member (`constructor`, `toString`, `__proto__`) finds that member, so `||` does not fall back. The same holds for GetPriceRangeText, GetCuisineName, GetCuisineEmoji and GetDayName. Their typed callers only pass the enumeration tags and weekday keys, so this does not arise in the program.
- GuidedSearchLists and NavigationNeverEmpty hold only for the search screen's first mount. The search screen is a bottom tab (App.tsx:63-67) that stays mounted once visited. `useState(routeParams?.filters || …)` (screens/SearchScreen.tsx:37) reads the route only on that first mount. A later guided navigation keeps the old filters and query, so the list it shows can be empty. The model does not capture this remount behaviour.
- The option grids of the screens are not modelled: the home screen offers nine cuisines and the profile and add screens seven, with icons, labels and styles. The handlers accept any of the twelve cuisines.
- The hours table assumes the keys of the hours record come in declaration order, Monday to Sunday. That is the order `Object.keys` gives for a record built with those keys.
- `screens/LoginScreen.tsx`, `screens/MapScreen.tsx` and `App.tsx` are not part of this model. They hold non-emptiness checks, navigation and UI wiring. The map's marker selection is a find by id, and `GetRestaurantById` covers it.
- The profile screen's report-issue dialog (`handleReportIssue`, screens/ProfileScreen.tsx:91-106) is left out. It only raises alerts.

## Findings

| source | as written | input that shows it | evidently intended | confidence | as-written member | corrected member |
|---|---|---|---|---|---|---|
| screens/AddRestaurantScreen.tsx:109 | the template literal writes `\\n`, so the success message holds a backslash followed by `n` | any accepted save, e.g. name "A" and address "台北市內湖區1號": the alert reads `餐廳「A」已新增成功！\n地址：台北市內湖區1號` on one line | a line break between the success line and the address line | not executed | AddRestaurantScreen.SuccessMessageAsWrittenHasNoLineBreak | AddRestaurantScreen.SuccessMessageTwoLines |
