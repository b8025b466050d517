/**
  Angular reactive-form controls reduced to what the pages read: the errors
  object a control's validators produce, and its touched/dirty flags.
  The validators are written out as predicates on the control's text.
*/
module Forms {
  import opened Wrappers

  /**
    The `errors` object of a control: each field is one validator's key.
    `minlength`/`maxlength` carry the `requiredLength` of the failed rule.
  */
  datatype ControlErrors = ControlErrors(
    required: bool,
    minlength: Option<nat>,
    maxlength: Option<nat>,
    min: bool,
    pattern: bool,
    email: bool,
    passwordMismatch: bool)

  const NoErrors := ControlErrors(false, None, None, false, false, false, false)

  /** `control.errors` is non-null (equivalently `control.invalid`). */
  predicate HasErrors(e: ControlErrors) {
    e.required || e.minlength.Some? || e.maxlength.Some? || e.min || e.pattern || e.email
    || e.passwordMismatch
  }

  /** What `form.get(name)` exposes to the error getters. */
  datatype ControlState = ControlState(errors: ControlErrors, touched: bool, dirty: bool)

  /** A text control's value and interaction flags. */
  datatype TextField = TextField(value: string, touched: bool, dirty: bool)

  /** `Validators.required` on a text value. */
  predicate RequiredFails(v: string) {
    |v| == 0
  }

  /** `Validators.minLength(n)`: empty values are left to `required`. */
  function MinLengthError(v: string, n: nat): (r: Option<nat>)
    ensures r.Some? <==> 0 < |v| < n
    ensures r.Some? ==> r.value == n
  {
    if 0 < |v| < n then Some(n) else None
  }

  /** `Validators.maxLength(n)`. */
  function MaxLengthError(v: string, n: nat): (r: Option<nat>)
    ensures r.Some? <==> |v| > n
    ensures r.Some? ==> r.value == n
  {
    if |v| > n then Some(n) else None
  }

  /** `control.invalid && (control.dirty || control.touched || submitted)`; false for a missing control. */
  function InvalidAndShown(c: Option<ControlState>, submitted: bool): (r: bool)
    ensures r <==> c.Some? && HasErrors(c.value.errors) && (c.value.dirty || c.value.touched || submitted)
  {
    match c
    case None => false
    case Some(s) => HasErrors(s.errors) && (s.dirty || s.touched || submitted)
  }

  predicate AllDigits(s: string) {
    forall i :: 0 <= i < |s| ==> '0' <= s[i] <= '9'
  }
}
