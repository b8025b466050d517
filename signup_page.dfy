/**
  The signup page: a four-control form (name, email, password, role), its
  error messages and invalid flags, the password-visibility toggle, and the
  submit path with its loading flag. The POST is logged and its outcome
  arrives in a callback method.
*/
module SignupPage {
  import opened Wrappers
  import opened JsString
  import opened Forms
  import opened Seqs

  // ---- Validators.email ----

  predicate IsAlphaNumeric(c: char) {
    ('a' <= c <= 'z') || ('A' <= c <= 'Z') || ('0' <= c <= '9')
  }

  /** A character allowed in an atom of the local part. */
  predicate IsAtomChar(c: char) {
    IsAlphaNumeric(c) || c in "!#$%&'*+/=?^_`{|}~-"
  }

  /** Atoms separated by single dots: no leading, trailing or doubled dot. */
  predicate IsDotAtom(s: string) {
    |s| > 0 && s[0] != '.' && s[|s| - 1] != '.'
    && (forall i :: 0 <= i < |s| ==> IsAtomChar(s[i]) || s[i] == '.')
    && (forall i :: 0 <= i < |s| - 1 ==> !(s[i] == '.' && s[i + 1] == '.'))
  }

  /**
    Dot-separated labels of letters, digits and hyphens, each 1 to 63
    characters, starting and ending with a letter or digit.
  */
  predicate IsHostName(s: string) {
    |s| > 0 && IsAlphaNumeric(s[0]) && IsAlphaNumeric(s[|s| - 1])
    && (forall i :: 0 <= i < |s| ==> IsAlphaNumeric(s[i]) || s[i] == '-' || s[i] == '.')
    && (forall i :: 0 <= i < |s| - 1 && s[i] == '.' ==> IsAlphaNumeric(s[i + 1]))
    && (forall i :: 0 < i < |s| && s[i] == '.' ==> IsAlphaNumeric(s[i - 1]))
    && (forall i :: 0 <= i <= |s| - 64 ==> DotWithin(s, i))
  }

  /** A dot among the 64 characters from `i`: no label is longer than 63. */
  predicate DotWithin(s: string, i: int)
    requires 0 <= i <= |s| - 64
  {
    '.' in s[i..i + 64]
  }

  /**
    The address Angular's `Validators.email` accepts: at most 254 characters,
    a dot-atom local part of at most 64 characters, one '@', and a host name.
  */
  /** `s` splits at its first '@', index `at`, into a valid local part and host name. */
  predicate SplitsAt(s: string, at: int) {
    0 <= at <= 64 && at < |s| && s[at] == '@' && '@' !in s[..at] && IsDotAtom(s[..at]) && IsHostName(s[at + 1..])
  }

  /** Two indices of `s` that are both the first '@' are the same. */
  lemma FirstAtUnique(s: string, i: int, k: int)
    requires 0 <= i < |s| && s[i] == '@' && '@' !in s[..i]
    requires 0 <= k < |s| && s[k] == '@' && '@' !in s[..k]
    ensures i == k
  {
    assert forall j :: 0 <= j < i ==> s[j] != '@' by {
      forall j | 0 <= j < i ensures s[j] != '@' { assert s[..i][j] == s[j]; }
    }
    assert forall j :: 0 <= j < k ==> s[j] != '@' by {
      forall j | 0 <= j < k ensures s[j] != '@' { assert s[..k][j] == s[j]; }
    }
  }

  function IsEmail(s: string): (b: bool)
    ensures b <==> |s| <= 254 && exists at :: SplitsAt(s, at)
  {
    var at := IndexOf(s, '@');
    if |s| <= 254 && at >= 0 && at <= 64 && IsDotAtom(s[..at]) && IsHostName(s[at + 1..]) then
      assert SplitsAt(s, at);
      true
    else
      assert forall k :: SplitsAt(s, k) ==> k == at by {
        forall k | SplitsAt(s, k) ensures k == at {
          FirstAtUnique(s, at, k);
        }
      }
      false
  }

  lemma SampleEmail()
    ensures IsEmail("a@b.co")
  {
    assert IndexOf("a@b.co", '@') == 1;
    assert "a@b.co"[..1] == "a" && "a@b.co"[2..] == "b.co";
  }

  lemma SampleNonEmails()
    ensures !IsEmail("a@") && !IsEmail("a.@b") && !IsEmail("ab")
  {
    assert IndexOf("a@", '@') == 1;
    assert "a@"[2..] == "";
    assert IndexOf("a.@b", '@') == 2;
    assert "a.@b"[..2] == "a.";
    assert '@' !in "ab";
  }

  // ---- the form ----

  /** `signupForm.get(name)`'s validators, as errors of the typed text. */
  function NameErrors(v: string): ControlErrors {
    NoErrors.(required := RequiredFails(v), minlength := MinLengthError(v, 2))
  }

  function EmailErrors(v: string): ControlErrors {
    NoErrors.(required := RequiredFails(v), email := v != "" && !IsEmail(v))
  }

  function PasswordErrors(v: string): ControlErrors {
    NoErrors.(required := RequiredFails(v), minlength := MinLengthError(v, 8))
  }

  function RoleErrors(v: string): ControlErrors {
    NoErrors.(required := RequiredFails(v))
  }

  datatype SignupValues = SignupValues(name: string, email: string, password: string, role: string)

  /** `signupForm.valid`. */
  predicate FormValid(v: SignupValues) {
    !HasErrors(NameErrors(v.name)) && !HasErrors(EmailErrors(v.email))
    && !HasErrors(PasswordErrors(v.password)) && !HasErrors(RoleErrors(v.role))
  }

  /** The form rules: a name of 2+ characters, a valid email, a password of 8+ characters, a role. */
  lemma FormValidMeaning(v: SignupValues)
    ensures FormValid(v) <==> |v.name| >= 2 && IsEmail(v.email) && |v.password| >= 8 && v.role != ""
  {
    if IsEmail(v.email) {
      assert v.email != "" by {
        assert IndexOf(v.email, '@') >= 0;
      }
    }
  }

  /** `getFieldDisplayName`: the four known names, otherwise the name itself. */
  function FieldDisplayName(fieldName: string): (r: string)
    ensures fieldName == "name" ==> r == "Name"
    ensures fieldName == "email" ==> r == "Email"
    ensures fieldName == "password" ==> r == "Password"
    ensures fieldName == "role" ==> r == "Role"
    ensures fieldName !in {"name", "email", "password", "role"} ==> r == fieldName
  {
    match fieldName
    case "name" => "Name"
    case "email" => "Email"
    case "password" => "Password"
    case "role" => "Role"
    case _ => fieldName
  }

  /**
    `getErrorMessage` for a control in state `c` (None when there is no such
    control): '' unless it has errors and was touched; then required, email,
    minlength (naming the field and the required length), passwordMismatch.
  */
  function ErrorMessage(fieldName: string, c: Option<ControlState>): (r: string)
    ensures c.None? || !HasErrors(c.value.errors) || !c.value.touched ==> r == ""
    ensures c.Some? && c.value.touched && c.value.errors.required ==> r == FieldDisplayName(fieldName) + " is required"
    ensures c.Some? && c.value.touched && !c.value.errors.required && c.value.errors.email ==>
      r == "Please enter a valid email address"
    ensures (c.Some? && c.value.touched && !c.value.errors.required && !c.value.errors.email
      && c.value.errors.minlength.Some?) ==>
      r == FieldDisplayName(fieldName) + " must be at least " + NatToString(c.value.errors.minlength.value) + " characters"
    ensures (c.Some? && c.value.touched && !c.value.errors.required && !c.value.errors.email
      && c.value.errors.minlength.None? && c.value.errors.passwordMismatch) ==>
      r == "Passwords do not match"
  {
    if c.None? || !HasErrors(c.value.errors) || !c.value.touched then ""
    else
      var e := c.value.errors;
      if e.required then FieldDisplayName(fieldName) + " is required"
      else if e.email then "Please enter a valid email address"
      else if e.minlength.Some? then
        FieldDisplayName(fieldName) + " must be at least " + NatToString(e.minlength.value) + " characters"
      else if e.passwordMismatch then "Passwords do not match"
      else ""
  }

  datatype SignupFields = SignupFields(name: TextField, email: TextField, password: TextField, role: TextField)

  function ValuesOf(f: SignupFields): SignupValues {
    SignupValues(f.name.value, f.email.value, f.password.value, f.role.value)
  }

  /** `signupForm.get(fieldName)`: one of the four controls, or None. */
  function ControlOf(fieldName: string, f: SignupFields): Option<ControlState> {
    match fieldName
    case "name" => Some(ControlState(NameErrors(f.name.value), f.name.touched, f.name.dirty))
    case "email" => Some(ControlState(EmailErrors(f.email.value), f.email.touched, f.email.dirty))
    case "password" => Some(ControlState(PasswordErrors(f.password.value), f.password.touched, f.password.dirty))
    case "role" => Some(ControlState(RoleErrors(f.role.value), f.role.touched, f.role.dirty))
    case _ => None
  }

  /** No control has a mismatch validator, so 'Passwords do not match' is never shown. */
  lemma NoMismatchMessage(fieldName: string, f: SignupFields)
    ensures ErrorMessage(fieldName, ControlOf(fieldName, f)) != "Passwords do not match"
  {
    var c := ControlOf(fieldName, f);
    if c.Some? && c.value.touched && HasErrors(c.value.errors) {
      var e := c.value.errors;
      assert !e.passwordMismatch;
      if e.required {
        var m := FieldDisplayName(fieldName) + " is required";
        assert m[|m| - 1] == 'd';
      } else if !e.email && e.minlength.Some? {
        var m := FieldDisplayName(fieldName) + " must be at least " + NatToString(e.minlength.value) + " characters";
        assert m[|m| - 1] == 's';
      }
    }
  }

  /** A touched password: required when empty, nothing once 8 characters long. */
  lemma PasswordMessages(f: SignupFields)
    requires f.password.touched
    ensures f.password.value == "" ==> ErrorMessage("password", ControlOf("password", f)) == "Password is required"
    ensures |f.password.value| >= 8 ==> ErrorMessage("password", ControlOf("password", f)) == ""
  {
  }

  /** A touched password that is too short names the minimum of 8. */
  lemma PasswordTooShort(f: SignupFields)
    requires f.password.touched && 0 < |f.password.value| < 8
    ensures ErrorMessage("password", ControlOf("password", f)) == "Password must be at least 8 characters"
  {
    MinLengthMessage("password", ControlOf("password", f), 8);
    LengthText("Password", 8, "8");
    PasswordLengthLiteral();
  }

  /** A touched control whose first error is minlength names the field and the length. */
  lemma MinLengthMessage(fieldName: string, c: Option<ControlState>, n: nat)
    requires c.Some? && c.value.touched && !c.value.errors.required && !c.value.errors.email
    requires c.value.errors.minlength == Some(n)
    ensures ErrorMessage(fieldName, c) == FieldDisplayName(fieldName) + " must be at least " + NatToString(n) + " characters"
  {
  }

  lemma PasswordLengthLiteral()
    ensures FieldDisplayName("password") + " must be at least " + "8" + " characters" == "Password must be at least 8 characters"
  {
    assert FieldDisplayName("password") == "Password";
    assert "Password" + " must be at least " == "Password must be at least ";
    assert "Password must be at least " + "8" == "Password must be at least 8";
  }

  lemma NameLengthLiteral()
    ensures FieldDisplayName("name") + " must be at least " + "2" + " characters" == "Name must be at least 2 characters"
  {
    assert FieldDisplayName("name") == "Name";
    assert "Name" + " must be at least " == "Name must be at least ";
    assert "Name must be at least " + "2" == "Name must be at least 2";
  }

  /** The length message for a one-digit minimum. */
  lemma LengthText(display: string, n: nat, digits: string)
    requires n < 10 && digits == [DigitChar(n)]
    ensures display + " must be at least " + NatToString(n) + " characters"
      == display + " must be at least " + digits + " characters"
  {
  }

  /** A touched name: required when empty, nothing once 2 characters long. */
  lemma NameMessages(f: SignupFields)
    requires f.name.touched
    ensures f.name.value == "" ==> ErrorMessage("name", ControlOf("name", f)) == "Name is required"
    ensures |f.name.value| >= 2 ==> ErrorMessage("name", ControlOf("name", f)) == ""
  {
  }

  /** A touched one-character name names the minimum of 2. */
  lemma NameTooShort(f: SignupFields)
    requires f.name.touched && |f.name.value| == 1
    ensures ErrorMessage("name", ControlOf("name", f)) == "Name must be at least 2 characters"
  {
    MinLengthMessage("name", ControlOf("name", f), 2);
    LengthText("Name", 2, "2");
    NameLengthLiteral();
  }

  /** A touched email field: required, malformed, or nothing. */
  lemma EmailMessages(f: SignupFields)
    requires f.email.touched
    ensures f.email.value == "" ==> ErrorMessage("email", ControlOf("email", f)) == "Email is required"
    ensures f.email.value != "" && !IsEmail(f.email.value) ==>
      ErrorMessage("email", ControlOf("email", f)) == "Please enter a valid email address"
    ensures IsEmail(f.email.value) ==> ErrorMessage("email", ControlOf("email", f)) == ""
  {
    if IsEmail(f.email.value) {
      assert IndexOf(f.email.value, '@') >= 0;
    }
  }

  datatype SignupField = NameField | EmailField | PasswordField | RoleField

  datatype SignupRequest = SignupRequest(url: string, body: SignupValues)

  const Untouched := TextField("", false, false)

  class SignupPage {
    const apiBaseUrl: string
    var fields: SignupFields
    var showPassword: bool
    var isSubmitted: bool
    var isLoading: bool
    var requests: seq<SignupRequest>
    var navigations: seq<seq<string>>

    constructor (apiBaseUrl: string)
      ensures this.apiBaseUrl == apiBaseUrl
      ensures fields == SignupFields(Untouched, Untouched, Untouched, Untouched)
      ensures !showPassword && !isSubmitted && !isLoading && requests == [] && navigations == []
    {
      this.apiBaseUrl := apiBaseUrl;
      fields := SignupFields(Untouched, Untouched, Untouched, Untouched);
      showPassword := false;
      isSubmitted := false;
      isLoading := false;
      requests := [];
      navigations := [];
    }

    method TogglePasswordVisibility()
      modifies this
      ensures showPassword == !old(showPassword)
      ensures fields == old(fields) && isSubmitted == old(isSubmitted) && isLoading == old(isLoading)
      ensures requests == old(requests)
    {
      showPassword := !showPassword;
    }

    /** The user types into a control: its value changes and it becomes dirty. */
    method OnInput(field: SignupField, value: string)
      modifies this
      ensures field == NameField ==> fields == old(fields).(name := old(fields).name.(value := value, dirty := true))
      ensures field == EmailField ==> fields == old(fields).(email := old(fields).email.(value := value, dirty := true))
      ensures field == PasswordField ==> fields == old(fields).(password := old(fields).password.(value := value, dirty := true))
      ensures field == RoleField ==> fields == old(fields).(role := old(fields).role.(value := value, dirty := true))
      ensures isSubmitted == old(isSubmitted) && isLoading == old(isLoading) && requests == old(requests)
    {
      match field
      case NameField => fields := fields.(name := fields.name.(value := value, dirty := true));
      case EmailField => fields := fields.(email := fields.email.(value := value, dirty := true));
      case PasswordField => fields := fields.(password := fields.password.(value := value, dirty := true));
      case RoleField => fields := fields.(role := fields.role.(value := value, dirty := true));
    }

    /** A control loses focus: it becomes touched. */
    method OnBlur(field: SignupField)
      modifies this
      ensures field == NameField ==> fields == old(fields).(name := old(fields).name.(touched := true))
      ensures field == EmailField ==> fields == old(fields).(email := old(fields).email.(touched := true))
      ensures field == PasswordField ==> fields == old(fields).(password := old(fields).password.(touched := true))
      ensures field == RoleField ==> fields == old(fields).(role := old(fields).role.(touched := true))
      ensures isSubmitted == old(isSubmitted) && isLoading == old(isLoading) && requests == old(requests)
    {
      match field
      case NameField => fields := fields.(name := fields.name.(touched := true));
      case EmailField => fields := fields.(email := fields.email.(touched := true));
      case PasswordField => fields := fields.(password := fields.password.(touched := true));
      case RoleField => fields := fields.(role := fields.role.(touched := true));
    }

    /** `getErrorMessage(fieldName)`: a message is shown only for a field flagged invalid, and never the mismatch text. */
    function GetErrorMessage(fieldName: string): (r: string)
      reads this
      ensures r != "" ==> IsFieldInvalid(fieldName)
      ensures r != "Passwords do not match"
    {
      NoMismatchMessage(fieldName, fields);
      ErrorMessage(fieldName, ControlOf(fieldName, fields))
    }

    /** `isFieldInvalid(fieldName)`: a form control that has an error and is dirty, touched or submitted. */
    function IsFieldInvalid(fieldName: string): (b: bool)
      reads this
      ensures fieldName != "name" && fieldName != "email" && fieldName != "password" && fieldName != "role" ==> !b
      ensures fieldName == "name" ==>
        (b <==> HasErrors(NameErrors(fields.name.value)) && (fields.name.dirty || fields.name.touched || isSubmitted))
      ensures fieldName == "role" ==>
        (b <==> HasErrors(RoleErrors(fields.role.value)) && (fields.role.dirty || fields.role.touched || isSubmitted))
      ensures fieldName == "email" ==>
        (b <==> HasErrors(EmailErrors(fields.email.value)) && (fields.email.dirty || fields.email.touched || isSubmitted))
      ensures fieldName == "password" ==>
        (b <==> HasErrors(PasswordErrors(fields.password.value)) && (fields.password.dirty || fields.password.touched || isSubmitted))
    {
      InvalidAndShown(ControlOf(fieldName, fields), isSubmitted)
    }

    /**
      `onSubmit`: both flags go up; only a valid form is POSTed, so after an
      invalid submit `isLoading` stays true.
    */
    method OnSubmit()
      modifies this
      ensures isLoading && isSubmitted && fields == old(fields) && navigations == old(navigations)
      ensures FormValid(ValuesOf(fields)) ==>
        requests == old(requests) + [SignupRequest(apiBaseUrl + "/signup", ValuesOf(fields))]
      ensures !FormValid(ValuesOf(fields)) ==> requests == old(requests)
    {
      isLoading := true;
      isSubmitted := true;
      if FormValid(ValuesOf(fields)) {
        requests := requests + [SignupRequest(apiBaseUrl + "/signup", ValuesOf(fields))];
      }
    }

    /** The POST succeeded: loading ends and the login page opens. */
    method SignupSucceeded()
      modifies this
      ensures !isLoading && navigations == old(navigations) + [["/login"]]
      ensures fields == old(fields) && isSubmitted == old(isSubmitted) && requests == old(requests)
    {
      isLoading := false;
      navigations := navigations + [["/login"]];
    }

    /** The POST failed: loading ends, nothing else changes. */
    method SignupFailed()
      modifies this
      ensures !isLoading && navigations == old(navigations)
      ensures fields == old(fields) && isSubmitted == old(isSubmitted) && requests == old(requests)
    {
      isLoading := false;
    }

    method GoToSignin()
      modifies this
      ensures navigations == old(navigations) + [["/login"]]
      ensures fields == old(fields) && isLoading == old(isLoading) && requests == old(requests)
    {
      navigations := navigations + [["/login"]];
    }
  }
}
