/** What the three forms (book, contact, profile) share: a field-to-message
    error object, cleared field by field as the user types. */
module Forms {
  import opened Common
  import opened Text

  /** `if (errors[name]) setErrors({ ...errors, [name]: '' })`: a field
      whose message is present and non-empty gets the empty message; a
      missing or already empty entry leaves the object as it was. */
  function ClearFieldError<F>(errors: map<F, string>, field: F): (r: map<F, string>)
    ensures r.Keys == errors.Keys
    ensures field in r ==> r[field] == ""
    ensures forall g :: g in errors && g != field ==> r[g] == errors[g]
  {
    if field in errors && errors[field] != "" then errors[field := ""] else errors
  }

  /** `Object.keys(errors).length === 0` */
  predicate NoErrors<F>(errors: map<F, string>) {
    |errors| == 0
  }

  /** One step of `validateForm`: `newErrors[field] = message` when the
      field's check produced a message. */
  function WithError<F(!new)>(errors: map<F, string>, field: F, message: Option<string>): (r: map<F, string>)
    ensures field in r <==> field in errors || message.Some?
    ensures message.Some? ==> r[field] == message.value
    ensures forall g :: g != field ==> (g in r <==> g in errors)
    ensures forall g :: g in errors && g != field ==> r[g] == errors[g]
  {
    if message.Some? then errors[field := message.value] else errors
  }

  /** The pattern shared by the text rules: empty after trimming gives the
      "required" message, shorter than `min` after trimming the "too
      short" one. */
  function RequiredMinLength(value: string, min: nat, required: string, tooShort: string): (r: Option<string>)
    requires min >= 1 && required != tooShort
    ensures r.None? <==> |Trim(value)| >= min
    ensures r == Some(required) <==> Trim(value) == ""
    ensures r.Some? ==> r.value == required || r.value == tooShort
  {
    var t := Trim(value);
    if t == "" then Some(required)
    else if |t| < min then Some(tooShort)
    else None
  }

  /** The e-mail rule of the contact and profile forms: required once
      trimmed, then the pattern is searched in the untrimmed text. A text
      that matches has a non-space character, so the pattern alone decides
      acceptance. */
  ghost function EmailFieldError(email: string): (r: Option<string>)
    ensures r.None? <==> EmailPattern(email)
    ensures r == Some("Email is required") <==> Trim(email) == ""
    ensures r.Some? ==> r.value == "Email is required" || r.value == "Please enter a valid email"
  {
    EmailPatternNotBlank(email);
    if Trim(email) == "" then Some("Email is required")
    else if !EmailPattern(email) then Some("Please enter a valid email")
    else None
  }

  /** The e-mail rule as the forms run it. */
  method CheckEmail(email: string) returns (r: Option<string>)
    ensures r == EmailFieldError(email)
  {
    if Trim(email) == "" {
      r := Some("Email is required");
    } else {
      var matches := TestEmailPattern(email);
      r := if matches then None else Some("Please enter a valid email");
    }
  }
}
