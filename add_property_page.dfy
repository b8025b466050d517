/**
  The add-property page: a reactive form with nested address controls and
  an amenities array, a list of uploaded images, the upload-in-progress
  flag, the submit path and the two error-message getters. HTTP requests,
  toasts and navigations are logged; responses arrive as method parameters.
*/
module AddPropertyPage {
  import opened Wrappers
  import opened Seqs
  import opened Forms

  // ---- the form ----

  /** A number input: empty, or an integer (fractions are not modelled). */
  datatype NumberInput = Blank | Value(n: int)

  datatype AddressValues = AddressValues(
    buildingName: string, street: string, city: string, state: string, pincode: string, landmark: string)

  /** `propertyForm.value`. */
  datatype FormValues = FormValues(
    title: string,
    description: string,
    propertyType: string,
    bhkType: string,
    rent: NumberInput,
    deposit: NumberInput,
    furnishing: string,
    availableFrom: string,
    address: AddressValues,
    amenities: seq<string>,
    isAvailable: bool,
    contactPreference: string)

  /** The form as `initializeForm` builds it, `today` being the ISO date of creation. */
  function InitialValues(today: string): (v: FormValues)
    ensures v.amenities == [] && v.rent == Blank && v.deposit == Value(0)
    ensures v.bhkType == "1RK" && v.furnishing == "Unfurnished" && v.contactPreference == "Both" && v.isAvailable
  {
    FormValues("", "", "", "1RK", Blank, Value(0), "Unfurnished", today,
      AddressValues("", "", "", "", "", ""), [], true, "Both")
  }

  /** `^\d{6}$`: exactly six ASCII digits. */
  predicate PincodePattern(v: string) {
    |v| == 6 && AllDigits(v)
  }

  /** `Validators.required` on a number input: only an empty input fails (0 passes). */
  predicate NumberRequiredFails(x: NumberInput) {
    x.Blank?
  }

  /** `Validators.min(m)`: an empty input is left to `required`. */
  predicate BelowMin(x: NumberInput, m: int) {
    x.Value? && x.n < m
  }

  /**
    `form.get(path).errors` for every control path of the form; None when no
    control has that path. Controls without validators have no errors.
  */
  function ErrorsAt(v: FormValues, path: string): (r: Option<ControlErrors>)
    ensures path == "title" ==> r == Some(NoErrors.(required := v.title == "", minlength := MinLengthError(v.title, 3)))
    ensures path == "rent" ==> r == Some(NoErrors.(required := v.rent.Blank?, min := BelowMin(v.rent, 1)))
    ensures path == "address.pincode" ==> r == Some(NoErrors.(pattern := v.address.pincode != "" && !PincodePattern(v.address.pincode)))
  {
    match path
    case "title" => Some(NoErrors.(required := RequiredFails(v.title), minlength := MinLengthError(v.title, 3)))
    case "propertyType" => Some(NoErrors.(required := RequiredFails(v.propertyType)))
    case "rent" => Some(NoErrors.(required := NumberRequiredFails(v.rent), min := BelowMin(v.rent, 1)))
    case "deposit" => Some(NoErrors.(min := BelowMin(v.deposit, 0)))
    case "address.city" => Some(NoErrors.(required := RequiredFails(v.address.city)))
    case "address.state" => Some(NoErrors.(required := RequiredFails(v.address.state)))
    case "address.pincode" =>
      Some(NoErrors.(pattern := v.address.pincode != "" && !PincodePattern(v.address.pincode)))
    case "description" => Some(NoErrors)
    case "bhkType" => Some(NoErrors)
    case "furnishing" => Some(NoErrors)
    case "availableFrom" => Some(NoErrors)
    case "address" => Some(NoErrors)
    case "address.buildingName" => Some(NoErrors)
    case "address.street" => Some(NoErrors)
    case "address.landmark" => Some(NoErrors)
    case "amenities" => Some(NoErrors)
    case "isAvailable" => Some(NoErrors)
    case "contactPreference" => Some(NoErrors)
    case _ => None
  }

  /** The paths of the controls that have validators. */
  const ValidatedPaths: seq<string> :=
    ["title", "propertyType", "rent", "deposit", "address.city", "address.state", "address.pincode"]

  /** `propertyForm.valid`: no validated control has an error. */
  predicate FormValid(v: FormValues) {
    forall i :: 0 <= i < |ValidatedPaths| ==> !HasErrors(ErrorsAt(v, ValidatedPaths[i]).value)
  }

  /**
    The form rules: a title of at least 3 characters, a property type, a rent
    of at least 1, a deposit that is empty or at least 0, a city, a state,
    and a pincode that is empty or six digits.
  */
  lemma FormValidMeaning(v: FormValues)
    ensures FormValid(v) <==>
      |v.title| >= 3 && v.propertyType != "" && v.rent.Value? && v.rent.n >= 1
      && !BelowMin(v.deposit, 0) && v.address.city != "" && v.address.state != ""
      && (v.address.pincode == "" || PincodePattern(v.address.pincode))
  {
    assert ValidatedPaths[0] == "title" && ValidatedPaths[1] == "propertyType" && ValidatedPaths[2] == "rent";
    assert ValidatedPaths[3] == "deposit" && ValidatedPaths[4] == "address.city";
    assert ValidatedPaths[5] == "address.state" && ValidatedPaths[6] == "address.pincode";
  }

  /** A freshly built form is not valid (title, type, rent, city and state are empty). */
  lemma InitialFormInvalid(today: string)
    ensures !FormValid(InitialValues(today))
  {
    assert ValidatedPaths[0] == "title";
    assert HasErrors(ErrorsAt(InitialValues(today), "title").value);
  }

  /**
    `getFieldError(path)`: nothing unless the control has errors and was
    touched; then required, minlength, min, pattern in that order, each
    message naming the path as given; otherwise undefined.
  */
  function FieldError(v: FormValues, touched: set<string>, path: string): (r: Option<string>)
    ensures ErrorsAt(v, path).None? || !HasErrors(ErrorsAt(v, path).value) || path !in touched ==> r == None
    ensures r.Some? ==> path in touched && ErrorsAt(v, path).Some?
    ensures r.Some? && ErrorsAt(v, path).value.required ==> r.value == path + " is required"
    ensures r.Some? && !ErrorsAt(v, path).value.required && ErrorsAt(v, path).value.minlength.Some? ==>
      r.value == path + " is too short"
    ensures (r.Some? && !ErrorsAt(v, path).value.required && ErrorsAt(v, path).value.minlength.None?
      && ErrorsAt(v, path).value.min) ==> r.value == path + " must be greater than 0"
    ensures (r.Some? && !ErrorsAt(v, path).value.required && ErrorsAt(v, path).value.minlength.None?
      && !ErrorsAt(v, path).value.min) ==> r.value == "Invalid " + path + " format"
    ensures r.None? && path in touched && ErrorsAt(v, path).Some? ==>
      !ErrorsAt(v, path).value.required && ErrorsAt(v, path).value.minlength.None?
      && !ErrorsAt(v, path).value.min && !ErrorsAt(v, path).value.pattern
  {
    var e := ErrorsAt(v, path);
    if e.None? || !HasErrors(e.value) || path !in touched then None
    else if e.value.required then Some(path + " is required")
    else if e.value.minlength.Some? then Some(path + " is too short")
    else if e.value.min then Some(path + " must be greater than 0")
    else if e.value.pattern then Some("Invalid " + path + " format")
    else None
  }

  /** `getAddressFieldError(name)`: required, then pattern, of `address.<name>`; otherwise ''. */
  function AddressFieldError(v: FormValues, touched: set<string>, name: string): (r: string)
    ensures var e := ErrorsAt(v, "address." + name);
      e.None? || !HasErrors(e.value) || "address." + name !in touched ==> r == ""
    ensures var e := ErrorsAt(v, "address." + name);
      e.Some? && "address." + name in touched && e.value.required ==> r == name + " is required"
    ensures var e := ErrorsAt(v, "address." + name);
      e.Some? && "address." + name in touched && !e.value.required && e.value.pattern ==> r == "Invalid " + name + " format"
  {
    var e := ErrorsAt(v, "address." + name);
    if e.None? || !HasErrors(e.value) || "address." + name !in touched then ""
    else if e.value.required then name + " is required"
    else if e.value.pattern then "Invalid " + name + " format"
    else ""
  }

  /** What a touched title shows, from its length alone. */
  lemma TitleMessages(v: FormValues, touched: set<string>)
    requires "title" in touched
    ensures v.title == "" ==> FieldError(v, touched, "title") == Some("title is required")
    ensures 0 < |v.title| < 3 ==> FieldError(v, touched, "title") == Some("title is too short")
    ensures |v.title| >= 3 ==> FieldError(v, touched, "title") == None
  {
    assert "title" + " is required" == "title is required";
    assert "title" + " is too short" == "title is too short";
  }

  /** What a touched rent shows: required when empty, the minimum when below 1. */
  lemma RentMessages(v: FormValues, touched: set<string>)
    requires "rent" in touched
    ensures v.rent.Blank? ==> FieldError(v, touched, "rent") == Some("rent is required")
    ensures v.rent.Value? && v.rent.n < 1 ==> FieldError(v, touched, "rent") == Some("rent must be greater than 0")
    ensures v.rent.Value? && v.rent.n >= 1 ==> FieldError(v, touched, "rent") == None
  {
    assert "rent" + " is required" == "rent is required";
    assert "rent" + " must be greater than 0" == "rent must be greater than 0";
  }

  /** What a touched pincode shows: only a non-empty value that is not six digits is reported. */
  lemma PincodeMessages(v: FormValues, touched: set<string>)
    requires "address.pincode" in touched
    ensures v.address.pincode != "" && !PincodePattern(v.address.pincode) ==>
      AddressFieldError(v, touched, "pincode") == "Invalid pincode format"
    ensures v.address.pincode == "" || PincodePattern(v.address.pincode) ==> AddressFieldError(v, touched, "pincode") == ""
  {
  }

  // ---- amenities ----

  /** `findIndex(x => x.value === amenity)`: the first equal entry, or -1. */
  function FindAmenity(amenities: seq<string>, amenity: string): (i: int)
    ensures -1 <= i < |amenities|
    ensures i == -1 <==> amenity !in amenities
    ensures i >= 0 ==> amenities[i] == amenity && amenity !in amenities[..i]
  {
    IndexOf(amenities, amenity)
  }

  /**
    `onAmenityChange`: a check appends the amenity; an uncheck runs
    `removeAt(findIndex(...))`, where a -1 index counts from the end.
  */
  function AmenityChanged(amenities: seq<string>, amenity: string, checked: bool): (r: seq<string>)
    ensures checked ==> r == amenities + [amenity]
    ensures !checked && amenity in amenities ==>
      var i := FindAmenity(amenities, amenity);
      r == amenities[..i] + amenities[i + 1..]
    ensures !checked && amenity !in amenities && amenities != [] ==> r == amenities[..|amenities| - 1]
    ensures !checked && amenities == [] ==> r == []
  {
    if checked then amenities + [amenity]
    else SpliceOne(amenities, FindAmenity(amenities, amenity))
  }

  /** `isAmenitySelected`: the amenity is in the array's value. */
  predicate IsAmenitySelected(amenities: seq<string>, amenity: string) {
    amenity in amenities
  }

  /** Checking an amenity selects it. */
  lemma AmenityCheckSelects(amenities: seq<string>, amenity: string)
    ensures IsAmenitySelected(AmenityChanged(amenities, amenity, true), amenity)
  {
    assert (amenities + [amenity])[|amenities|] == amenity;
  }

  /** Unchecking an amenity held once deselects it and keeps the rest in order. */
  lemma AmenityUncheckDeselects(amenities: seq<string>, amenity: string)
    requires Distinct(amenities) && amenity in amenities
    ensures !IsAmenitySelected(AmenityChanged(amenities, amenity, false), amenity)
    ensures IsSubsequence(AmenityChanged(amenities, amenity, false), amenities)
    ensures |AmenityChanged(amenities, amenity, false)| == |amenities| - 1
  {
    var i := FindAmenity(amenities, amenity);
    RemoveAtIsSubsequence(amenities, i);
    RemoveAtMembers(amenities, i);
  }

  /** Unchecking an amenity that is not in the list drops the last selected one. */
  lemma UncheckAbsentDropsLast(amenities: seq<string>, amenity: string)
    requires amenity !in amenities && amenities != []
    ensures AmenityChanged(amenities, amenity, false) == amenities[..|amenities| - 1]
    ensures |AmenityChanged(amenities, amenity, false)| == |amenities| - 1
  {
  }

  // ---- images ----

  /** One uploaded image; its URL is `imageUrls[0]` of the response, undefined when that is empty. */
  datatype Image = Image(url: Option<string>, preview: Option<string>)

  /** The `images` field of the submitted data: `{url}` of each image, in order. */
  function ImageUrls(images: seq<Image>): (r: seq<Option<string>>)
    ensures |r| == |images|
    ensures forall i :: 0 <= i < |images| ==> r[i] == images[i].url
  {
    if images == [] then [] else [images[0].url] + ImageUrls(images[1..])
  }

  /** The upload response: falsy, or an object whose `imageUrls` may be missing. */
  datatype UploadResponse = NoBody | Body(imageUrls: Option<seq<string>>)

  datatype PropertyData = PropertyData(values: FormValues, images: seq<Option<string>>)

  datatype AddRequest = UploadImage(url: string) | PostProperty(url: string, data: PropertyData)

  /** A toast; an undefined message is None. */
  datatype Toast = Toast(message: Option<string>, color: string)

  const SubmitFailed := Toast(Some("Error adding property. Please try again."), "danger")
  const FillRequired := Toast(Some("Please fill all required fields correctly"), "warning")

  /** Every control path that `markFormGroupTouched` marks: the top level and the address group's children. */
  const AllControlPaths: set<string> := {
    "title", "description", "propertyType", "bhkType", "rent", "deposit", "furnishing", "availableFrom",
    "address", "amenities", "isAvailable", "contactPreference",
    "address.buildingName", "address.street", "address.city", "address.state", "address.pincode", "address.landmark"}

  class AddPropertyPage {
    const apiBaseUrl: string
    var values: FormValues
    var touched: set<string>
    var uploadImageLoadinig: bool
    var selectedImages: seq<Image>
    var requests: seq<AddRequest>
    var toasts: seq<Toast>
    var navigations: seq<seq<string>>

    constructor (apiBaseUrl: string, today: string)
      ensures this.apiBaseUrl == apiBaseUrl && values == InitialValues(today) && touched == {}
      ensures !uploadImageLoadinig && selectedImages == [] && requests == [] && toasts == [] && navigations == []
    {
      this.apiBaseUrl := apiBaseUrl;
      values := InitialValues(today);
      touched := {};
      uploadImageLoadinig := false;
      selectedImages := [];
      requests := [];
      toasts := [];
      navigations := [];
    }

    /** The user edits the form's values. */
    method OnFormInput(v: FormValues)
      modifies this
      ensures values == v && touched == old(touched) && selectedImages == old(selectedImages)
      ensures uploadImageLoadinig == old(uploadImageLoadinig) && requests == old(requests)
    {
      values := v;
    }

    /** A control loses focus. */
    method OnBlur(path: string)
      modifies this
      ensures touched == old(touched) + {path} && values == old(values)
      ensures selectedImages == old(selectedImages) && requests == old(requests)
    {
      touched := touched + {path};
    }

    method OnAmenityChange(amenity: string, checked: bool)
      modifies this
      ensures values == old(values).(amenities := AmenityChanged(old(values).amenities, amenity, checked))
      ensures checked ==> AmenitySelected(amenity)
      ensures touched == old(touched) && selectedImages == old(selectedImages) && requests == old(requests)
    {
      AmenityCheckSelects(values.amenities, amenity);
      values := values.(amenities := AmenityChanged(values.amenities, amenity, checked));
    }

    /** `isAmenitySelected(amenity)`: some entry of the amenities array equals it. */
    function AmenitySelected(amenity: string): (b: bool)
      reads this
      ensures b <==> exists i :: 0 <= i < |values.amenities| && values.amenities[i] == amenity
    {
      IsAmenitySelected(values.amenities, amenity)
    }

    /**
      `uploadImage`: the flag goes up first; empty data only warns (and the
      flag stays up); otherwise the upload is POSTed.
    */
    method UploadImageData(base64: string)
      modifies this
      ensures uploadImageLoadinig
      ensures base64 == "" ==> toasts == old(toasts) + [Toast(Some("No image data to upload"), "warning")] && requests == old(requests)
      ensures base64 != "" ==> requests == old(requests) + [UploadImage(apiBaseUrl + "/upload-image")] && toasts == old(toasts)
      ensures selectedImages == old(selectedImages) && values == old(values)
    {
      uploadImageLoadinig := true;
      if base64 == "" {
        toasts := toasts + [Toast(Some("No image data to upload"), "warning")];
        return;
      }
      requests := requests + [UploadImage(apiBaseUrl + "/upload-image")];
    }

    /**
      The upload's success callback. A falsy response changes nothing; a
      response without `imageUrls` throws before anything changes; otherwise
      the first URL is appended and the flag drops.
    */
    method UploadSucceeded(response: UploadResponse) returns (r: Result<(), string>)
      modifies this
      ensures response.NoBody? ==> r.Ok? && selectedImages == old(selectedImages) && uploadImageLoadinig == old(uploadImageLoadinig)
      ensures response.Body? && response.imageUrls.None? ==>
        r.Err? && selectedImages == old(selectedImages) && uploadImageLoadinig == old(uploadImageLoadinig)
      ensures response.Body? && response.imageUrls.Some? ==>
        var urls := response.imageUrls.value;
        var first := if urls == [] then None else Some(urls[0]);
        r.Ok? && selectedImages == old(selectedImages) + [Image(first, first)] && !uploadImageLoadinig
      ensures values == old(values) && requests == old(requests) && toasts == old(toasts)
    {
      match response
      case NoBody =>
        r := Ok(());
      case Body(imageUrls) =>
        if imageUrls.None? {
          r := Err("TypeError: cannot read properties of undefined");
        } else {
          var urls := imageUrls.value;
          var first := if urls == [] then None else Some(urls[0]);
          selectedImages := selectedImages + [Image(first, first)];
          uploadImageLoadinig := false;
          r := Ok(());
        }
    }

    /** The upload's error callback: a toast, and the flag drops. */
    method UploadFailed()
      modifies this
      ensures toasts == old(toasts) + [Toast(Some("Image upload failed"), "danger")] && !uploadImageLoadinig
      ensures selectedImages == old(selectedImages) && values == old(values) && requests == old(requests)
    {
      toasts := toasts + [Toast(Some("Image upload failed"), "danger")];
      uploadImageLoadinig := false;
    }

    /** `removeImage(index)`: `splice(index, 1)`. */
    method RemoveImage(index: int)
      modifies this
      ensures selectedImages == SpliceOne(old(selectedImages), index)
      ensures 0 <= index < |old(selectedImages)| ==>
        selectedImages == old(selectedImages)[..index] + old(selectedImages)[index + 1..]
      ensures values == old(values) && requests == old(requests) && uploadImageLoadinig == old(uploadImageLoadinig)
    {
      selectedImages := SpliceOne(selectedImages, index);
    }

    /**
      `onSubmit`. A valid form is POSTed with the images' URLs; the toast of
      the first image's URL then follows, and with no image that read throws
      and the error toast is shown instead (the POST has already gone out).
      An invalid form gets a warning and every control is marked touched.
    */
    method OnSubmit()
      modifies this
      ensures FormValid(old(values)) ==>
        requests == old(requests) + [PostProperty(apiBaseUrl + "/property", PropertyData(old(values), ImageUrls(old(selectedImages))))]
        && touched == old(touched)
        && toasts == old(toasts) + [if selectedImages == [] then SubmitFailed else Toast(selectedImages[0].url, "success")]
      ensures !FormValid(old(values)) ==>
        requests == old(requests) && toasts == old(toasts) + [FillRequired] && touched == old(touched) + AllControlPaths
      ensures values == old(values) && selectedImages == old(selectedImages) && navigations == old(navigations)
    {
      if FormValid(values) {
        var data := PropertyData(values, ImageUrls(selectedImages));
        requests := requests + [PostProperty(apiBaseUrl + "/property", data)];
        if |data.images| == 0 {
          toasts := toasts + [SubmitFailed];
        } else {
          toasts := toasts + [Toast(data.images[0], "success")];
        }
      } else {
        toasts := toasts + [FillRequired];
        touched := touched + AllControlPaths;
      }
    }

    /** The POST's success callback: a toast and navigation home. */
    method PropertyPosted()
      modifies this
      ensures toasts == old(toasts) + [Toast(Some("Property added successfully"), "success")]
      ensures navigations == old(navigations) + [["/home"]]
      ensures values == old(values) && requests == old(requests) && selectedImages == old(selectedImages)
    {
      toasts := toasts + [Toast(Some("Property added successfully"), "success")];
      navigations := navigations + [["/home"]];
    }

    /** `getFieldError(path)`: a message only for a touched control that has an error. */
    function GetFieldError(path: string): (r: Option<string>)
      reads this
      ensures r.Some? <==> path in touched && ErrorsAt(values, path).Some? && HasErrors(ErrorsAt(values, path).value)
    {
      FieldError(values, touched, path)
    }

    /** `getAddressFieldError(name)`: a message only for a touched address control that has an error. */
    function GetAddressFieldError(name: string): (r: string)
      reads this
      ensures r != "" ==> "address." + name in touched && ErrorsAt(values, "address." + name).Some?
                          && HasErrors(ErrorsAt(values, "address." + name).value)
    {
      AddressFieldError(values, touched, name)
    }
  }

  /** After an invalid submit every validated control that has an error shows a message. */
  lemma InvalidSubmitShowsErrors(v: FormValues, touched: set<string>, path: string)
    requires path in ValidatedPaths && HasErrors(ErrorsAt(v, path).value)
    ensures FieldError(v, touched + AllControlPaths, path).Some?
  {
  }
}
