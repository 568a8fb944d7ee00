/**
 * The add-restaurant screen: a modal form collecting the fields of a new
 * record. Saving checks the name, the address and the district, then builds
 * the record and appends it to the shared catalog; confirming the success
 * alert closes the modal and resets the form.
 */
module AddRestaurantScreen {
  import opened Types
  import opened Text
  import opened Catalog

  /** The one district the form accepts addresses in. */
  const District: string := "台北市內湖區"

  const DefaultDayHours: DayHours := DayHours("11:00", "22:00", false)

  /** The form as it opens and as it is reset: a Chinese, mid-priced place open 11:00–22:00 daily. */
  function InitialForm(): (d: RestaurantData)
    ensures d.name == "" && d.address == ""
    ensures d.cuisine == Chinese && d.priceRange == Moderate
    ensures d.rating == 4.0 && d.reviewCount == 0 && d.isOpen == Some(true)
    ensures d.description == "" && d.phone == Some("") && d.website == Some("") && d.imageUrl == ""
    ensures d.allergens == [] && d.vegetarianOptions == [] && d.features == []
    ensures forall day :: d.openingHours.Day(day) == DefaultDayHours
  {
    RestaurantData("", "", Chinese, Moderate, "", Some(""), Some(""), 4.0, 0, "", [], [],
      OpeningHours(DefaultDayHours, DefaultDayHours, DefaultDayHours, DefaultDayHours,
                   DefaultDayHours, DefaultDayHours, DefaultDayHours),
      [], Some(true))
  }

  /** `validateAddress`: the address must mention the district somewhere. */
  function ValidateAddress(address: string): (ok: bool)
    ensures ok <==> exists i :: 0 <= i <= |address| && District <= address[i..]
  {
    ContainsIffOccursAt(address, District);
    Contains(address, District)
  }

  datatype AddCheck = NameMissing | AddressMissing | AddressNotInDistrict | AddressOk

  /** The save checks, in order: a blank name, a blank address, an address outside the district. */
  function ValidateNewRestaurant(d: RestaurantData): (check: AddCheck)
    ensures check == NameMissing <==> IsBlank(d.name)
    ensures check == AddressMissing <==> !IsBlank(d.name) && IsBlank(d.address)
    ensures check == AddressNotInDistrict <==>
      !IsBlank(d.name) && !IsBlank(d.address) && !ValidateAddress(d.address)
    ensures check == AddressOk <==> !IsBlank(d.name) && ValidateAddress(d.address)
  {
    TrimEmptyIffBlank(d.name);
    TrimEmptyIffBlank(d.address);
    DistrictAddressNotBlank(d.address);
    if Trim(d.name) == [] then NameMissing
    else if Trim(d.address) == [] then AddressMissing
    else if !ValidateAddress(d.address) then AddressNotInDistrict
    else AddressOk
  }

  /** An address naming the district is never blank, so the blank check cannot hide it. */
  lemma DistrictAddressNotBlank(address: string)
    ensures ValidateAddress(address) ==> !IsBlank(address)
  {
    if ValidateAddress(address) {
      ContainsIffOccursAt(address, District);
      var i :| 0 <= i <= |address| && District <= address[i..];
      assert address[i] == District[0];
    }
  }

  /** The untouched form cannot be saved: its name is empty. */
  lemma InitialFormNeedsName()
    ensures ValidateNewRestaurant(InitialForm()) == NameMissing
  {
  }

  /** The alert each failed check raises: title and message. */
  function RejectionAlert(check: AddCheck): (alert: (string, string))
    requires check != AddressOk
    ensures alert.0 == "錯誤" <==> check != AddressNotInDistrict
  {
    match check
    case NameMissing => ("錯誤", "請輸入餐廳名稱")
    case AddressMissing => ("錯誤", "請輸入餐廳地址")
    case AddressNotInDistrict => ("地址錯誤", "請輸入台北市內湖區的完整地址")
  }

  /**
   * The success message as the source writes it: the escape in the template
   * literal is doubled, so the text holds a backslash and an `n`, not a
   * line break.
   */
  function SuccessMessageAsWritten(name: string, address: string): string {
    "餐廳「" + name + "」已新增成功！\\n地址：" + address
  }

  /** The message as written shows the two characters `\n` and has no line break. */
  lemma SuccessMessageAsWrittenHasNoLineBreak(name: string, address: string)
    requires '\n' !in name && '\n' !in address
    ensures '\n' !in SuccessMessageAsWritten(name, address)
    ensures Contains(SuccessMessageAsWritten(name, address), "\\n")
  {
    ContainsInfix("餐廳「" + name + "」已新增成功！", "\\n", "地址：" + address);
    assert SuccessMessageAsWritten(name, address)
        == ("餐廳「" + name + "」已新增成功！") + "\\n" + ("地址：" + address);
  }

  /** The success message with the line break the layout intends: name on one line, address on the next. */
  function SuccessMessage(name: string, address: string): string {
    SuccessLine(name) + "\n" + AddressLine(address)
  }

  function SuccessLine(name: string): string {
    "餐廳「" + name + "」已新增成功！"
  }

  function AddressLine(address: string): string {
    "地址：" + address
  }

  /** The message as written is the corrected one with its line break spelled as a backslash and an `n`. */
  lemma AsWrittenSpellsOutLineBreak(name: string, address: string)
    ensures SuccessMessageAsWritten(name, address) == SuccessLine(name) + "\\n" + AddressLine(address)
    ensures SuccessMessageAsWritten(name, address) != SuccessMessage(name, address)
  {
    var w := SuccessMessageAsWritten(name, address);
    var m := SuccessMessage(name, address);
    var k := |SuccessLine(name)|;
    assert w[k] == '\\' && m[k] == '\n';
  }

  /** The corrected message is exactly two lines: the success line and the address line. */
  lemma SuccessMessageTwoLines(name: string, address: string)
    requires '\n' !in name && '\n' !in address
    ensures var m := SuccessMessage(name, address);
      exists k :: 0 <= k < |m| && m[k] == '\n' && m[..k] == SuccessLine(name) && m[k + 1..] == AddressLine(address)
            && '\n' !in m[..k] && '\n' !in m[k + 1..]
  {
    var m := SuccessMessage(name, address);
    var k := |SuccessLine(name)|;
    assert m[k] == '\n';
    assert m[..k] == SuccessLine(name);
    assert m[k + 1..] == AddressLine(address);
  }

  /** One edit of a form field or one tap on a cuisine or price card. */
  datatype FormEdit =
    | NameText(name: string)
    | DescriptionText(description: string)
    | AddressText(address: string)
    | PhoneText(phone: string)
    | WebsiteText(website: string)
    | CuisineCard(cuisine: Cuisine)
    | PriceCard(priceRange: PriceRange)

  /** The form after one edit: that field set, every other field as it was. */
  function ApplyEdit(d: RestaurantData, edit: FormEdit): (e: RestaurantData)
    ensures edit.NameText? ==> e.name == edit.name && e.(name := d.name) == d
    ensures edit.DescriptionText? ==> e.description == edit.description && e.(description := d.description) == d
    ensures edit.AddressText? ==> e.address == edit.address && e.(address := d.address) == d
    ensures edit.PhoneText? ==> e.phone == Some(edit.phone) && e.(phone := d.phone) == d
    ensures edit.WebsiteText? ==> e.website == Some(edit.website) && e.(website := d.website) == d
    ensures edit.CuisineCard? ==> e.cuisine == edit.cuisine && e.(cuisine := d.cuisine) == d
    ensures edit.PriceCard? ==> e.priceRange == edit.priceRange && e.(priceRange := d.priceRange) == d
  {
    match edit
    case NameText(t) => d.(name := t)
    case DescriptionText(t) => d.(description := t)
    case AddressText(t) => d.(address := t)
    case PhoneText(t) => d.(phone := Some(t))
    case WebsiteText(t) => d.(website := Some(t))
    case CuisineCard(c) => d.(cuisine := c)
    case PriceCard(p) => d.(priceRange := p)
  }

  /** What a save press leads to. */
  datatype SaveOutcome =
    | Rejected(check: AddCheck, title: string, message: string)
    | Added(restaurant: Restaurant, title: string, message: string)

  /** The screen's state: the form being filled in and whether its modal is showing. */
  class AddRestaurantForm {
    var newRestaurant: RestaurantData
    var isModalVisible: bool

    constructor ()
      ensures newRestaurant == InitialForm() && !isModalVisible
    {
      newRestaurant := InitialForm();
      isModalVisible := false;
    }

    /** The header's add button shows the modal; the form keeps what it held. */
    method OpenModal()
      modifies this
      ensures isModalVisible && newRestaurant == old(newRestaurant)
    {
      isModalVisible := true;
    }

    /** The modal's cancel button hides it without clearing the form. */
    method CloseModal()
      modifies this
      ensures !isModalVisible && newRestaurant == old(newRestaurant)
    {
      isModalVisible := false;
    }

    method Edit(edit: FormEdit)
      modifies this
      ensures newRestaurant == ApplyEdit(old(newRestaurant), edit) && isModalVisible == old(isModalVisible)
    {
      newRestaurant := ApplyEdit(newRestaurant, edit);
    }

    /**
     * The save button: a failed check raises its alert and changes nothing;
     * otherwise the record built from the form with the given id is appended
     * to the catalog and the success alert is raised. The form and the modal
     * stay as they are until the alert is confirmed.
     */
    method HandleSaveRestaurant(store: RestaurantStore, id: string) returns (outcome: SaveOutcome)
      modifies store
      ensures outcome.Rejected? <==> ValidateNewRestaurant(newRestaurant) != AddressOk
      ensures outcome.Rejected? ==> outcome.check == ValidateNewRestaurant(newRestaurant)
      ensures outcome.Rejected? ==> (outcome.title, outcome.message) == RejectionAlert(outcome.check)
      ensures outcome.Rejected? ==> store.restaurants == old(store.restaurants)
      ensures outcome.Added? ==> outcome.restaurant == CreateNewRestaurant(newRestaurant, id)
      ensures outcome.Added? ==> store.restaurants == old(store.restaurants) + [outcome.restaurant]
      ensures outcome.Added? ==> outcome.title == "成功"
      ensures outcome.Added? ==> outcome.message == SuccessMessage(newRestaurant.name, newRestaurant.address)
    {
      var check := ValidateNewRestaurant(newRestaurant);
      if check != AddressOk {
        var alert := RejectionAlert(check);
        return Rejected(check, alert.0, alert.1);
      }
      var restaurant := CreateNewRestaurant(newRestaurant, id);
      store.Push(restaurant);
      outcome := Added(restaurant, "成功", SuccessMessage(newRestaurant.name, newRestaurant.address));
    }

    /** Confirming the success alert hides the modal and resets the form. */
    method ConfirmSuccess()
      modifies this
      ensures !isModalVisible && newRestaurant == InitialForm()
    {
      isModalVisible := false;
      ResetForm();
    }

    method ResetForm()
      modifies this
      ensures newRestaurant == InitialForm() && isModalVisible == old(isModalVisible)
    {
      newRestaurant := InitialForm();
    }
  }

  /**
   * A record added under an id no catalog entry has is what a lookup of that
   * id finds afterwards, and it carries the form's fields.
   */
  lemma AddedRestaurantFound(catalog: seq<Restaurant>, data: RestaurantData, id: string)
    requires forall r :: r in catalog ==> r.id != id
    ensures GetRestaurantById(catalog + [CreateNewRestaurant(data, id)], id) == Some(CreateNewRestaurant(data, id))
    ensures DataOf(GetRestaurantById(catalog + [CreateNewRestaurant(data, id)], id).value) == data
  {
    var s := catalog + [CreateNewRestaurant(data, id)];
    var found := GetRestaurantById(s, id);
    assert s[|catalog|].id == id;
    var k :| 0 <= k < |s| && s[k] == found.value && found.value.id == id
             && forall j :: 0 <= j < k ==> s[j].id != id;
    assert k == |catalog| by {
      assert forall j :: 0 <= j < |catalog| ==> s[j] == catalog[j];
    }
  }
}
