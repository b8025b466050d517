/**
  The property detail page: an image carousel, a favourite flag, the full
  address line, and a contact-the-owner modal with a two-field reactive form
  whose error messages, invalid flags and submit gating the page computes.
*/
module PropertyViewPage {
  import opened Wrappers
  import opened JsString
  import opened Forms

  // ---- JavaScript numbers for the carousel index ----

  /** The carousel index as a JavaScript number: an integer or NaN. */
  datatype JsNumber = Num(n: int) | NaN

  /** JavaScript's `a % b` for b > 0: the remainder takes the sign of `a`. */
  function JsRem(a: int, b: int): (r: int)
    requires b > 0
    ensures a >= 0 ==> r == a % b
    ensures a < 0 ==> r == -((-a) % b)
    ensures -b < r < b
  {
    if a >= 0 then a % b else -((-a) % b)
  }

  /** `nextImage`: `(index + 1) % images.length`; with no images that is NaN. */
  function NextIndex(i: JsNumber, count: nat): (r: JsNumber)
    ensures count == 0 || i == NaN ==> r == NaN
    ensures count > 0 && i.Num? && 0 <= i.n < count ==>
      r == Num(if i.n + 1 == count then 0 else i.n + 1)
  {
    match i
    case NaN => NaN
    case Num(k) => if count == 0 then NaN else Num(JsRem(k + 1, count))
  }

  /** `previousImage`: from 0 to the last image, otherwise one back (NaN stays NaN). */
  function PreviousIndex(i: JsNumber, count: nat): (r: JsNumber)
    ensures i == NaN ==> r == NaN
    ensures count > 0 && i.Num? && 0 <= i.n < count ==>
      r == Num(if i.n == 0 then count - 1 else i.n - 1)
  {
    match i
    case NaN => NaN
    case Num(k) => if k == 0 then Num(count - 1) else Num(k - 1)
  }

  /** Both directions keep an index that is in range in range. */
  lemma IndexStaysInRange(i: int, count: nat)
    requires 0 <= i < count
    ensures NextIndex(Num(i), count).Num? && 0 <= NextIndex(Num(i), count).n < count
    ensures PreviousIndex(Num(i), count).Num? && 0 <= PreviousIndex(Num(i), count).n < count
  {
  }

  /** Back after forward, and forward after back, return to the same image. */
  lemma NextPreviousInverse(i: int, count: nat)
    requires 0 <= i < count
    ensures PreviousIndex(NextIndex(Num(i), count), count) == Num(i)
    ensures NextIndex(PreviousIndex(Num(i), count), count) == Num(i)
  {
  }

  /** `k` presses of the forward button. */
  function NextTimes(i: JsNumber, count: nat, k: nat): JsNumber
    decreases k
  {
    if k == 0 then i else NextTimes(NextIndex(i, count), count, k - 1)
  }

  /** Forward presses that do not reach the last image step one image each. */
  lemma {:induction false} ForwardSteps(i: int, count: nat, k: nat)
    requires 0 <= i && i + k < count
    ensures NextTimes(Num(i), count, k) == Num(i + k)
    decreases k
  {
    if k > 0 {
      assert NextIndex(Num(i), count) == Num(i + 1);
      ForwardSteps(i + 1, count, k - 1);
    }
  }

  /** Pressing `a` times and then `b` times is pressing `a + b` times. */
  lemma {:induction false} NextTimesAdd(x: JsNumber, count: nat, a: nat, b: nat)
    ensures NextTimes(x, count, a + b) == NextTimes(NextTimes(x, count, a), count, b)
    decreases a
  {
    if a > 0 {
      NextTimesAdd(NextIndex(x, count), count, a - 1, b);
    }
  }

  /** A full round of `count` forward presses comes back to the start. */
  lemma FullRound(i: int, count: nat)
    requires 0 <= i < count
    ensures NextTimes(Num(i), count, count) == Num(i)
  {
    var toLast := count - 1 - i;
    ForwardSteps(i, count, toLast);
    NextTimesAdd(Num(i), count, toLast, i + 1);
    NextTimesAdd(Num(count - 1), count, 1, i);
    assert NextTimes(Num(count - 1), count, 1) == Num(0);
    ForwardSteps(0, count, i);
  }

  /** With no images the index becomes NaN, and NaN never leaves. */
  lemma NoImagesGivesNaN(i: int, k: nat)
    ensures NextIndex(Num(i), 0) == NaN
    ensures NextTimes(NaN, 0, k) == NaN
  {
    NaNStays(k);
  }

  lemma {:induction false} NaNStays(k: nat)
    ensures NextTimes(NaN, 0, k) == NaN
    decreases k
  {
    if k > 0 {
      NaNStays(k - 1);
    }
  }

  // ---- the property ----

  datatype Address = Address(
    buildingName: string, street: string, city: string, state: string, pincode: string, landmark: string)

  /** The fields of a property the page's logic reads; images are their URLs. */
  datatype Property = Property(id: string, title: string, rent: int, address: Address, images: seq<string>)

  /** `getFullAddress`: building, street, city and "state pincode", comma-separated; no landmark. */
  function FullAddress(a: Address): (r: string)
    ensures r == Join([a.buildingName, a.street, a.city, a.state + " " + a.pincode], ", ")
  {
    var parts := [a.buildingName, a.street, a.city, a.state + " " + a.pincode];
    assert Join(parts[2..], ", ") == a.city + ", " + (a.state + " " + a.pincode) by {
      assert parts[2..][1..] == parts[3..];
    }
    assert Join(parts[1..], ", ") == a.street + ", " + Join(parts[2..], ", ") by {
      assert parts[1..][1..] == parts[2..];
    }
    a.buildingName + ", " + a.street + ", " + a.city + ", " + a.state + " " + a.pincode
  }

  // ---- the contact form ----

  datatype ContactField = PhoneNumber | MessageField

  /** `^[+]?[0-9]{10,15}$`: an optional plus sign, then 10 to 15 digits. */
  predicate PhonePattern(v: string) {
    var digits := if |v| > 0 && v[0] == '+' then v[1..] else v;
    10 <= |digits| <= 15 && AllDigits(digits)
  }

  /** The errors of the phone control: required, then the pattern (checked only when non-empty). */
  function PhoneErrors(v: string): (e: ControlErrors)
    ensures e.required <==> v == ""
    ensures e.pattern <==> v != "" && !PhonePattern(v)
    ensures e.minlength.None? && e.maxlength.None? && !e.min && !e.email && !e.passwordMismatch
  {
    NoErrors.(required := RequiredFails(v), pattern := v != "" && !PhonePattern(v))
  }

  /** The errors of the message control: required, at least 10 and at most 500 characters. */
  function MessageErrors(v: string): (e: ControlErrors)
    ensures e.required <==> v == ""
    ensures e.minlength.Some? <==> 0 < |v| < 10
    ensures e.maxlength.Some? <==> |v| > 500
    ensures e.minlength.Some? ==> e.minlength.value == 10
    ensures e.maxlength.Some? ==> e.maxlength.value == 500
    ensures !e.pattern && !e.min && !e.email && !e.passwordMismatch
  {
    NoErrors.(required := RequiredFails(v), minlength := MinLengthError(v, 10), maxlength := MaxLengthError(v, 500))
  }

  /** The form is valid: a well-formed phone number and a message of 10 to 500 characters. */
  predicate FormValid(phone: string, message: string) {
    !HasErrors(PhoneErrors(phone)) && !HasErrors(MessageErrors(message))
  }

  lemma FormValidMeaning(phone: string, message: string)
    ensures FormValid(phone, message) <==> PhonePattern(phone) && 10 <= |message| <= 500
  {
    if PhonePattern(phone) {
      assert phone != "";
    }
  }

  /** `getFieldDisplayName`: the two known names, otherwise the name itself. */
  function FieldDisplayName(fieldName: string): (r: string)
    ensures fieldName == "phoneNumber" ==> r == "Phone number"
    ensures fieldName == "message" ==> r == "Message"
    ensures fieldName != "phoneNumber" && fieldName != "message" ==> r == fieldName
  {
    if fieldName == "phoneNumber" then "Phone number"
    else if fieldName == "message" then "Message"
    else fieldName
  }

  /**
    `getErrorMessage` for a control in state `c` (None when the form has no
    such control): nothing unless it has errors and was touched; then the
    first of required, pattern, minlength, maxlength.
  */
  function ErrorMessage(fieldName: string, c: Option<ControlState>): (r: string)
    ensures c.None? || !HasErrors(c.value.errors) || !c.value.touched ==> r == ""
    ensures c.Some? && c.value.touched && c.value.errors.required ==> r == FieldDisplayName(fieldName) + " is required"
    ensures c.Some? && c.value.touched && !c.value.errors.required && c.value.errors.pattern ==>
      r == "Please enter a valid phone number"
    ensures c.Some? && c.value.touched && !c.value.errors.required && !c.value.errors.pattern && c.value.errors.minlength.Some? ==>
      r == "Message must be at least " + NatToString(c.value.errors.minlength.value) + " characters"
    ensures (c.Some? && c.value.touched && !c.value.errors.required && !c.value.errors.pattern
      && c.value.errors.minlength.None? && c.value.errors.maxlength.Some?) ==>
      r == "Message cannot exceed " + NatToString(c.value.errors.maxlength.value) + " characters"
  {
    if c.None? || !HasErrors(c.value.errors) || !c.value.touched then ""
    else
      var e := c.value.errors;
      if e.required then FieldDisplayName(fieldName) + " is required"
      else if e.pattern then "Please enter a valid phone number"
      else if e.minlength.Some? then "Message must be at least " + NatToString(e.minlength.value) + " characters"
      else if e.maxlength.Some? then "Message cannot exceed " + NatToString(e.maxlength.value) + " characters"
      else ""
  }

  /** The control state of a named field of the contact form; other names have none. */
  function ControlOf(fieldName: string, phone: TextField, message: TextField): Option<ControlState> {
    if fieldName == "phoneNumber" then Some(ControlState(PhoneErrors(phone.value), phone.touched, phone.dirty))
    else if fieldName == "message" then Some(ControlState(MessageErrors(message.value), message.touched, message.dirty))
    else None
  }

  /** What a touched phone field shows, from its text alone. */
  lemma PhoneMessages(phone: TextField, message: TextField)
    requires phone.touched
    ensures phone.value == "" ==> ErrorMessage("phoneNumber", ControlOf("phoneNumber", phone, message)) == "Phone number is required"
    ensures phone.value != "" && !PhonePattern(phone.value) ==>
      ErrorMessage("phoneNumber", ControlOf("phoneNumber", phone, message)) == "Please enter a valid phone number"
    ensures PhonePattern(phone.value) ==> ErrorMessage("phoneNumber", ControlOf("phoneNumber", phone, message)) == ""
  {
    if PhonePattern(phone.value) {
      assert phone.value != "";
    }
  }

  /** A touched message field: required when empty, nothing once 10 to 500 characters long. */
  lemma MessageMessages(phone: TextField, message: TextField)
    requires message.touched
    ensures message.value == "" ==> ErrorMessage("message", ControlOf("message", phone, message)) == "Message is required"
    ensures 10 <= |message.value| <= 500 ==> ErrorMessage("message", ControlOf("message", phone, message)) == ""
  {
  }

  /** A touched message that is too short names the minimum of 10. */
  lemma MessageTooShort(phone: TextField, message: TextField)
    requires message.touched && 0 < |message.value| < 10
    ensures ErrorMessage("message", ControlOf("message", phone, message)) == "Message must be at least 10 characters"
  {
    var e := MessageErrors(message.value);
    assert !e.required && !e.pattern && e.minlength == Some(10);
    TenAndFiveHundred();
  }

  /** A touched message that is too long names the maximum of 500. */
  lemma MessageTooLong(phone: TextField, message: TextField)
    requires message.touched && |message.value| > 500
    ensures ErrorMessage("message", ControlOf("message", phone, message)) == "Message cannot exceed 500 characters"
  {
    var e := MessageErrors(message.value);
    assert !e.required && !e.pattern && e.minlength == None && e.maxlength == Some(500);
    TenAndFiveHundred();
  }

  lemma TenAndFiveHundred()
    ensures NatToString(10) == "10" && NatToString(500) == "500"
  {
    assert NatToString(1) == "1";
    assert NatToString(5) == "5";
    assert NatToString(50) == "50";
  }

  // ---- the page ----

  datatype ContactPayload = ContactPayload(propertyId: Option<string>, phone: string, message: string)

  datatype ViewRequest = GetProperty(url: string) | PostContact(url: string, body: ContactPayload)

  const DefaultContactError := "There was an error sending your request. Please try again later."

  /**
    The body of a failed response, as `error.error`: null, or a value whose
    `error` property is a string or missing (a string body has no such property).
  */
  datatype ErrorBody = NullBody | Body(error: Option<string>)

  /** What reading `error.error.error` throws when the body is null. */
  const NullBodyError := "TypeError: Cannot read properties of null (reading 'error')"

  /** The toast text `error.error.error || default` picks, or the exception thrown on a null body. */
  function ContactErrorText(body: ErrorBody): (r: Result<string, string>)
    ensures r.Err? <==> body.NullBody?
    ensures r.Err? ==> r.error == NullBodyError
    ensures r.Ok? ==> r.value != ""
    ensures r.Ok? && body.error.Some? && body.error.value != "" ==> r.value == body.error.value
    ensures r.Ok? && (body.error.None? || body.error.value == "") ==> r.value == DefaultContactError
  {
    match body
    case NullBody => Err(NullBodyError)
    case Body(e) => Ok(if e.Some? && e.value != "" then e.value else DefaultContactError)
  }
  const ContactSentToast := "Your request has been sent. The owner will contact you soon."

  /** A reset control: empty (standing for null), untouched, pristine. */
  const ResetField := TextField("", false, false)

  class PropertyViewPage {
    const apiBaseUrl: string
    var propertyId: Option<string>
    var property: Property
    var currentImageIndex: JsNumber
    var isFavorite: bool
    var isContactModalOpen: bool
    var isSubmitted: bool
    var phone: TextField
    var message: TextField
    var requests: seq<ViewRequest>
    var toasts: seq<string>

    constructor (apiBaseUrl: string, sample: Property)
      ensures this.apiBaseUrl == apiBaseUrl && property == sample && propertyId == None
      ensures currentImageIndex == Num(0) && !isFavorite && !isContactModalOpen && !isSubmitted
      ensures phone == ResetField && message == ResetField && requests == [] && toasts == []
    {
      this.apiBaseUrl := apiBaseUrl;
      propertyId := None;
      property := sample;
      currentImageIndex := Num(0);
      isFavorite := false;
      isContactModalOpen := false;
      isSubmitted := false;
      phone := ResetField;
      message := ResetField;
      requests := [];
      toasts := [];
    }

    /** `ngOnInit`: take the route's id (null when absent) and request the property. */
    method NgOnInit(routeId: Option<string>)
      modifies this
      ensures propertyId == routeId
      ensures requests == old(requests) + [GetProperty(apiBaseUrl + "/property/" + routeId.GetOr("null"))]
      ensures property == old(property) && currentImageIndex == old(currentImageIndex)
    {
      propertyId := routeId;
      requests := requests + [GetProperty(apiBaseUrl + "/property/" + propertyId.GetOr("null"))];
    }

    /** The property response: a truthy response replaces the shown property. */
    method PropertyLoaded(response: Option<Property>)
      modifies this
      ensures property == if response.Some? then response.value else old(property)
      ensures currentImageIndex == old(currentImageIndex) && requests == old(requests)
    {
      if response.Some? {
        property := response.value;
      }
    }

    method NextImage()
      modifies this
      ensures currentImageIndex == NextIndex(old(currentImageIndex), |property.images|)
      ensures property == old(property) && isFavorite == old(isFavorite)
    {
      currentImageIndex := NextIndex(currentImageIndex, |property.images|);
    }

    method PreviousImage()
      modifies this
      ensures currentImageIndex == PreviousIndex(old(currentImageIndex), |property.images|)
      ensures property == old(property) && isFavorite == old(isFavorite)
    {
      currentImageIndex := PreviousIndex(currentImageIndex, |property.images|);
    }

    method ToggleFavorite()
      modifies this
      ensures isFavorite == !old(isFavorite)
      ensures currentImageIndex == old(currentImageIndex) && isContactModalOpen == old(isContactModalOpen)
    {
      isFavorite := !isFavorite;
    }

    /** `resetContactForm`: both controls reset and the submitted flag cleared. */
    method ResetContactForm()
      modifies this
      ensures phone == ResetField && message == ResetField && !isSubmitted
      ensures isContactModalOpen == old(isContactModalOpen) && requests == old(requests) && toasts == old(toasts)
      ensures isFavorite == old(isFavorite) && currentImageIndex == old(currentImageIndex)
    {
      phone := ResetField;
      message := ResetField;
      isSubmitted := false;
    }

    /** `contactOwner`: the modal opens on a fresh form. */
    method ContactOwner()
      modifies this
      ensures isContactModalOpen && !isSubmitted && phone == ResetField && message == ResetField
      ensures requests == old(requests) && toasts == old(toasts) && isFavorite == old(isFavorite)
    {
      isContactModalOpen := true;
      ResetContactForm();
    }

    /** `closeContactModal`: the modal closes and the form resets. */
    method CloseContactModal()
      modifies this
      ensures !isContactModalOpen && !isSubmitted && phone == ResetField && message == ResetField
      ensures requests == old(requests) && toasts == old(toasts) && isFavorite == old(isFavorite)
    {
      isContactModalOpen := false;
      ResetContactForm();
    }

    /** The user types into a control: its value changes and it becomes dirty. */
    method OnInput(field: ContactField, value: string)
      modifies this
      ensures field == PhoneNumber ==> phone == old(phone).(value := value, dirty := true) && message == old(message)
      ensures field == MessageField ==> message == old(message).(value := value, dirty := true) && phone == old(phone)
      ensures isSubmitted == old(isSubmitted) && requests == old(requests) && isContactModalOpen == old(isContactModalOpen)
    {
      if field == PhoneNumber {
        phone := phone.(value := value, dirty := true);
      } else {
        message := message.(value := value, dirty := true);
      }
    }

    /** A control loses focus: it becomes touched. */
    method OnBlur(field: ContactField)
      modifies this
      ensures field == PhoneNumber ==> phone == old(phone).(touched := true) && message == old(message)
      ensures field == MessageField ==> message == old(message).(touched := true) && phone == old(phone)
      ensures isSubmitted == old(isSubmitted) && requests == old(requests) && isContactModalOpen == old(isContactModalOpen)
    {
      if field == PhoneNumber {
        phone := phone.(touched := true);
      } else {
        message := message.(touched := true);
      }
    }

    /** `getErrorMessage(fieldName)`. */
    /** `getErrorMessage(fieldName)`: a message is shown only for a field flagged invalid. */
    function GetErrorMessage(fieldName: string): (r: string)
      reads this
      ensures r != "" ==> IsFieldInvalid(fieldName)
      ensures fieldName != "phoneNumber" && fieldName != "message" ==> r == ""
    {
      ErrorMessage(fieldName, ControlOf(fieldName, phone, message))
    }

    /** `isFieldInvalid(fieldName)`: invalid, and dirty, touched or submitted. */
    function IsFieldInvalid(fieldName: string): (b: bool)
      reads this
      ensures b <==>
        || (fieldName == "phoneNumber" && HasErrors(PhoneErrors(phone.value)) && (phone.dirty || phone.touched || isSubmitted))
        || (fieldName == "message" && HasErrors(MessageErrors(message.value)) && (message.dirty || message.touched || isSubmitted))
    {
      InvalidAndShown(ControlOf(fieldName, phone, message), isSubmitted)
    }

    /** `onContactSubmit`: always marks the form submitted; POSTs only a valid form. */
    method OnContactSubmit()
      modifies this
      ensures isSubmitted && phone == old(phone) && message == old(message)
      ensures FormValid(phone.value, message.value) ==>
        requests == old(requests) + [PostContact(apiBaseUrl + "/contact-request", ContactPayload(propertyId, phone.value, message.value))]
      ensures !FormValid(phone.value, message.value) ==> requests == old(requests)
      ensures isContactModalOpen == old(isContactModalOpen) && toasts == old(toasts)
    {
      isSubmitted := true;
      if FormValid(phone.value, message.value) {
        requests := requests + [PostContact(apiBaseUrl + "/contact-request", ContactPayload(propertyId, phone.value, message.value))];
      }
    }

    /** The contact POST succeeded: a toast, then the modal closes on a reset form. */
    method ContactSent()
      modifies this
      ensures toasts == old(toasts) + [ContactSentToast]
      ensures !isContactModalOpen && !isSubmitted && phone == ResetField && message == ResetField
      ensures requests == old(requests)
    {
      toasts := toasts + [ContactSentToast];
      CloseContactModal();
    }

    /**
      The contact POST failed: the server's message (if non-empty) or the
      default is shown; a null body makes the handler throw before any toast.
    */
    method ContactFailed(body: ErrorBody) returns (thrown: Option<string>)
      modifies this
      ensures thrown.Some? <==> body.NullBody?
      ensures thrown.Some? ==> thrown.value == NullBodyError && toasts == old(toasts)
      ensures thrown.None? ==> toasts == old(toasts) + [ContactErrorText(body).value]
      ensures isContactModalOpen == old(isContactModalOpen) && isSubmitted == old(isSubmitted)
      ensures phone == old(phone) && message == old(message) && requests == old(requests)
    {
      match ContactErrorText(body)
      case Err(e) =>
        thrown := Some(e);
      case Ok(text) =>
        toasts := toasts + [text];
        thrown := None;
    }
  }
}
