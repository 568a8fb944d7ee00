/**
 * The profile screen: a saved user and an editable draft of it. The draft is
 * changed only in edit mode; saving checks that name and e-mail are not
 * blank and then makes the draft the saved user; cancelling throws the draft
 * away.
 */
module ProfileScreen {
  import opened Types
  import opened Text
  import opened Seqs

  /**
   * The user the screen starts with; `createdAt` and `updatedAt` are the two
   * `new Date()` readings taken when the record is built.
   */
  function InitialUser(createdAt: int, updatedAt: int): (u: User)
    ensures u.name == "" && u.email == "" && u.favorites == []
    ensures u.preferences.Some?
    ensures u.preferences.value.preferredCuisines == [] && u.preferences.value.allergens == []
    ensures u.preferences.value.favoriteRestaurants == [] && u.preferences.value.blacklistedAllergens == []
    ensures u.preferences.value.preferredVegetarianOptions == [] && u.preferences.value.preferredPriceRange == []
    ensures u.preferences.value.maxDistance == 5 && u.preferences.value.budgetRange == (0, 1000)
    ensures u.preferences.value.vegetarianType.None?
    ensures u.preferences.value.createdAt == createdAt && u.preferences.value.updatedAt == updatedAt
  {
    User("1", "1", "", "", None, None,
      Some(UserPreferences("1", "1", [], [], [], [], [], [], None, (0, 1000), 5, createdAt, updatedAt)),
      [])
  }


  // ---------------------------------------------------------------------
  // Draft updates
  // ---------------------------------------------------------------------

  /** Toggle a preferred cuisine; a user without preferences is left as is. */
  function ToggleCuisinePref(u: User, c: Cuisine): (v: User)
    ensures u.preferences.None? ==> v == u
    ensures u.preferences.Some? ==> v.preferences.Some?
    ensures u.preferences.Some? ==>
      (c in v.preferences.value.preferredCuisines <==> c !in u.preferences.value.preferredCuisines)
    ensures u.preferences.Some? ==>
      multiset(v.preferences.value.preferredCuisines)[c := 0] == multiset(u.preferences.value.preferredCuisines)[c := 0]
    ensures u.preferences.Some? ==>
      v.preferences.value.preferredCuisines == Toggle(u.preferences.value.preferredCuisines, c)
    ensures u.preferences.Some? ==>
      v.preferences.value.(preferredCuisines := u.preferences.value.preferredCuisines) == u.preferences.value
    ensures v.(preferences := u.preferences) == u
  {
    if u.preferences.None? then u
    else
      var p := u.preferences.value;
      u.(preferences := Some(p.(preferredCuisines := Toggle(p.preferredCuisines, c))))
  }

  /** Toggle a declared allergen; a user without preferences is left as is. */
  function ToggleAllergenPref(u: User, a: Allergen): (v: User)
    ensures u.preferences.None? ==> v == u
    ensures u.preferences.Some? ==> v.preferences.Some?
    ensures u.preferences.Some? ==>
      (a in v.preferences.value.allergens <==> a !in u.preferences.value.allergens)
    ensures u.preferences.Some? ==>
      multiset(v.preferences.value.allergens)[a := 0] == multiset(u.preferences.value.allergens)[a := 0]
    ensures u.preferences.Some? ==>
      v.preferences.value.allergens == Toggle(u.preferences.value.allergens, a)
    ensures u.preferences.Some? ==>
      v.preferences.value.(allergens := u.preferences.value.allergens) == u.preferences.value
    ensures v.(preferences := u.preferences) == u
  {
    if u.preferences.None? then u
    else
      var p := u.preferences.value;
      u.(preferences := Some(p.(allergens := Toggle(p.allergens, a))))
  }

  /** Toggling a cuisine that was not preferred, twice, gives back the same user. */
  lemma ToggleCuisinePrefTwice(u: User, c: Cuisine)
    requires u.preferences.Some? && c !in u.preferences.value.preferredCuisines
    ensures ToggleCuisinePref(ToggleCuisinePref(u, c), c) == u
  {
    ToggleTwiceAbsent(u.preferences.value.preferredCuisines, c);
  }

  lemma ToggleAllergenPrefTwice(u: User, a: Allergen)
    requires u.preferences.Some? && a !in u.preferences.value.allergens
    ensures ToggleAllergenPref(ToggleAllergenPref(u, a), a) == u
  {
    ToggleTwiceAbsent(u.preferences.value.allergens, a);
  }

  /** Set or clear the vegetarian type; a user without preferences is left as is. */
  function SetVegetarianType(u: User, t: Option<VegetarianOption>): (v: User)
    ensures u.preferences.None? ==> v == u
    ensures u.preferences.Some? ==> v.preferences.Some? && v.preferences.value.vegetarianType == t
    ensures u.preferences.Some? ==>
      v.preferences.value.(vegetarianType := u.preferences.value.vegetarianType) == u.preferences.value
    ensures v.(preferences := u.preferences) == u
  {
    if u.preferences.None? then u
    else u.(preferences := Some(u.preferences.value.(vegetarianType := t)))
  }

  const MinDistance: int := 1
  const MaxDistance: int := 50

  /**
   * The distance the field's text gives: `parseInt(text) || 1` clamped to
   * [1, 50]. Text that does not parse, and a parsed zero, both give 1.
   */
  function DistanceFromText(text: string): (d: int)
    ensures MinDistance <= d <= MaxDistance
    ensures ParseInt(text).None? ==> d == MinDistance
    ensures ParseInt(text).Some? && ParseInt(text).value < MinDistance ==> d == MinDistance
    ensures ParseInt(text).Some? && MinDistance <= ParseInt(text).value <= MaxDistance ==> d == ParseInt(text).value
    ensures ParseInt(text).Some? && ParseInt(text).value > MaxDistance ==> d == MaxDistance
  {
    var distance := match ParseInt(text) case Some(n) => if n != 0 then n else 1 case None => 1;
    if distance > MaxDistance then MaxDistance else if distance < MinDistance then MinDistance else distance
  }

  /** A field holding only decimal digits gives their value, clamped. */
  lemma DistanceOfDigits(ds: string)
    requires ds != [] && AllDigits(ds, 10)
    ensures DistanceFromText(ds) == if DigitsValue(ds, 10) < MinDistance then MinDistance
                                    else if DigitsValue(ds, 10) > MaxDistance then MaxDistance
                                    else DigitsValue(ds, 10)
  {
  }

  /** Typing in the distance field; a user without preferences is left as is. */
  function SetMaxDistance(u: User, text: string): (v: User)
    ensures u.preferences.None? ==> v == u
    ensures u.preferences.Some? ==> v.preferences.Some? && v.preferences.value.maxDistance == DistanceFromText(text)
    ensures u.preferences.Some? ==>
      v.preferences.value.(maxDistance := u.preferences.value.maxDistance) == u.preferences.value
    ensures v.(preferences := u.preferences) == u
  {
    if u.preferences.None? then u
    else u.(preferences := Some(u.preferences.value.(maxDistance := DistanceFromText(text))))
  }

  // ---------------------------------------------------------------------
  // Saving
  // ---------------------------------------------------------------------

  datatype ProfileCheck = NameRequired | EmailRequired | ProfileOk

  /** The save checks, in order: a blank name first, then a blank e-mail. */
  function ValidateProfile(u: User): (check: ProfileCheck)
    ensures check == NameRequired <==> IsBlank(u.name)
    ensures check == EmailRequired <==> !IsBlank(u.name) && IsBlank(u.email)
    ensures check == ProfileOk <==> !IsBlank(u.name) && !IsBlank(u.email)
  {
    TrimEmptyIffBlank(u.name);
    TrimEmptyIffBlank(u.email);
    if Trim(u.name) == [] then NameRequired
    else if Trim(u.email) == [] then EmailRequired
    else ProfileOk
  }

  /** The alert each outcome of a save raises: title and message. */
  function SaveAlert(check: ProfileCheck): (alert: (string, string))
    ensures check == ProfileOk <==> alert.0 == "成功"
  {
    match check
    case NameRequired => ("錯誤", "請輸入姓名")
    case EmailRequired => ("錯誤", "請輸入電子郵件")
    case ProfileOk => ("成功", "個人資料已更新")
  }

  /** The user the screen starts with cannot be saved: its name is empty. */
  lemma InitialUserNeedsName(createdAt: int, updatedAt: int)
    ensures ValidateProfile(InitialUser(createdAt, updatedAt)) == NameRequired
  {
  }

  /** The distance a user's preferences keep is always within the field's bounds. */
  predicate DistanceInRange(u: User) {
    u.preferences.Some? ==> MinDistance <= u.preferences.value.maxDistance <= MaxDistance
  }

  /** The screen's state: the saved user, the draft, and whether edit mode is on. */
  class ProfileSession {
    var user: User
    var tempUser: User
    var isEditing: bool

    /** Outside edit mode the draft is the saved user; distances stay within bounds. */
    predicate Valid()
      reads this
    {
      (!isEditing ==> tempUser == user) && DistanceInRange(user) && DistanceInRange(tempUser)
    }

    constructor (createdAt: int, updatedAt: int)
      ensures Valid()
      ensures user == InitialUser(createdAt, updatedAt) && tempUser == user && !isEditing
    {
      user := InitialUser(createdAt, updatedAt);
      tempUser := user;
      isEditing := false;
    }

    /**
     * Save the draft: a blank name or e-mail leaves everything as it was
     * (edit mode stays on); otherwise the draft becomes the saved user and
     * edit mode ends.
     */
    method HandleSave() returns (check: ProfileCheck)
      requires Valid()
      modifies this
      ensures Valid()
      ensures check == ValidateProfile(old(tempUser))
      ensures check != ProfileOk ==> user == old(user) && tempUser == old(tempUser) && isEditing == old(isEditing)
      ensures check == ProfileOk ==> user == old(tempUser) && tempUser == old(tempUser) && !isEditing
    {
      check := ValidateProfile(tempUser);
      if check != ProfileOk {
        return;
      }
      user := tempUser;
      isEditing := false;
    }

    /** Cancel: the draft goes back to the saved user and edit mode ends. */
    method HandleCancel()
      requires Valid()
      modifies this
      ensures Valid()
      ensures user == old(user) && tempUser == user && !isEditing
    {
      tempUser := user;
      isEditing := false;
    }

    /** The header button: saves in edit mode, otherwise turns edit mode on. */
    method PressEditButton() returns (check: Option<ProfileCheck>)
      requires Valid()
      modifies this
      ensures Valid()
      ensures old(isEditing) ==> check == Some(ValidateProfile(old(tempUser)))
      ensures old(isEditing) && check == Some(ProfileOk) ==> user == old(tempUser) && tempUser == old(tempUser) && !isEditing
      ensures old(isEditing) && check != Some(ProfileOk) ==> user == old(user) && tempUser == old(tempUser) && isEditing
      ensures !old(isEditing) ==> check == None && isEditing && user == old(user) && tempUser == old(tempUser)
    {
      if isEditing {
        var c := HandleSave();
        check := Some(c);
      } else {
        isEditing := true;
        check := None;
      }
    }

    /** Typing a name: the field is editable only in edit mode. */
    method OnNameText(text: string)
      requires Valid()
      modifies this
      ensures Valid()
      ensures user == old(user) && isEditing == old(isEditing)
      ensures tempUser == if old(isEditing) then old(tempUser).(name := text) else old(tempUser)
    {
      if isEditing {
        tempUser := tempUser.(name := text);
      }
    }

    method OnEmailText(text: string)
      requires Valid()
      modifies this
      ensures Valid()
      ensures user == old(user) && isEditing == old(isEditing)
      ensures tempUser == if old(isEditing) then old(tempUser).(email := text) else old(tempUser)
    {
      if isEditing {
        tempUser := tempUser.(email := text);
      }
    }

    /** A tap on a cuisine card: toggles it in the draft, in edit mode only. */
    method OnCuisineCard(c: Cuisine)
      requires Valid()
      modifies this
      ensures Valid()
      ensures user == old(user) && isEditing == old(isEditing)
      ensures tempUser == if old(isEditing) then ToggleCuisinePref(old(tempUser), c) else old(tempUser)
    {
      if isEditing {
        tempUser := ToggleCuisinePref(tempUser, c);
      }
    }

    /** A flip of an allergen switch: toggles it in the draft, in edit mode only. */
    method OnAllergenSwitch(a: Allergen)
      requires Valid()
      modifies this
      ensures Valid()
      ensures user == old(user) && isEditing == old(isEditing)
      ensures tempUser == if old(isEditing) then ToggleAllergenPref(old(tempUser), a) else old(tempUser)
    {
      if isEditing {
        tempUser := ToggleAllergenPref(tempUser, a);
      }
    }

    /** A tap on a vegetarian choice (`None` is "no special need"), in edit mode only. */
    method OnVegetarianChoice(t: Option<VegetarianOption>)
      requires Valid()
      modifies this
      ensures Valid()
      ensures user == old(user) && isEditing == old(isEditing)
      ensures tempUser == if old(isEditing) then SetVegetarianType(old(tempUser), t) else old(tempUser)
    {
      if isEditing {
        tempUser := SetVegetarianType(tempUser, t);
      }
    }

    /** Typing in the distance field, editable only in edit mode. */
    method OnDistanceText(text: string)
      requires Valid()
      modifies this
      ensures Valid()
      ensures user == old(user) && isEditing == old(isEditing)
      ensures tempUser == if old(isEditing) then SetMaxDistance(old(tempUser), text) else old(tempUser)
    {
      if isEditing {
        tempUser := SetMaxDistance(tempUser, text);
      }
    }
  }
}
