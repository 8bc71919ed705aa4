/** The profile page: the form mirrors the signed-in user, two rules guard
    it, and saving goes through the session store. */
module Profile {
  import opened Common
  import opened Text
  import opened Forms
  import Session

  datatype ProfileField = Name | Email

  datatype ProfileFormData = ProfileFormData(name: string, email: string)

  const Saved: string := "Profile updated successfully!"

  /** `{ name: user.name || '', email: user.email || '' }` */
  function FormFromUser(user: Session.User): (fd: ProfileFormData)
    ensures user.name.Some? ==> fd.name == user.name.value
    ensures user.name.None? ==> fd.name == ""
    ensures user.email.Some? ==> fd.email == user.email.value
    ensures user.email.None? ==> fd.email == ""
  {
    ProfileFormData(OrElse(user.name, ""), OrElse(user.email, ""))
  }

  /** Required and at least two characters once trimmed, then only ASCII
      letters and whitespace. */
  function ProfileNameError(name: string): (r: Option<string>)
    ensures r.None? <==> |Trim(name)| >= 2 && LettersAndSpaces(Trim(name))
    ensures r == Some("Name is required") <==> Trim(name) == ""
    ensures |Trim(name)| == 1 ==> r == Some("Name must be at least 2 characters")
    ensures |Trim(name)| >= 2 && !LettersAndSpaces(Trim(name)) ==>
              r == Some("Name can only contain letters and spaces")
  {
    var base := RequiredMinLength(name, 2, "Name is required", "Name must be at least 2 characters");
    if base.Some? then base
    else if !LettersAndSpaces(Trim(name)) then Some("Name can only contain letters and spaces")
    else None
  }

  /** An accepted name, as saved, begins and ends with a letter. */
  lemma AcceptedNameIsLetterBounded(name: string)
    requires ProfileNameError(name).None?
    ensures var t := Trim(name); IsAsciiLetter(t[0]) && IsAsciiLetter(t[|t| - 1])
  {
    TrimIsCore(name);
  }

  /** The error object `validateForm` builds. */
  ghost function ProfileErrors(fd: ProfileFormData): (e: map<ProfileField, string>)
    ensures Name in e <==> ProfileNameError(fd.name).Some?
    ensures Email in e <==> EmailFieldError(fd.email).Some?
    ensures Name in e ==> e[Name] == ProfileNameError(fd.name).value
    ensures Email in e ==> e[Email] == EmailFieldError(fd.email).value
  {
    WithError(WithError(map[], Name, ProfileNameError(fd.name)), Email, EmailFieldError(fd.email))
  }

  ghost predicate ProfileValid(fd: ProfileFormData) {
    |Trim(fd.name)| >= 2 && LettersAndSpaces(Trim(fd.name)) && EmailPattern(fd.email)
  }

  lemma ProfileNoErrorsIffValid(fd: ProfileFormData)
    ensures NoErrors(ProfileErrors(fd)) <==> ProfileValid(fd)
  {
    var e := ProfileErrors(fd);
    if ProfileValid(fd) {
      forall f: ProfileField ensures f !in e {
        match f
        case Name =>
        case Email =>
      }
      assert e.Keys == {};
    } else if ProfileNameError(fd.name).Some? {
      assert Name in e.Keys;
    } else {
      assert Email in e.Keys;
    }
  }

  /** The rules run in order into a fresh error object. */
  method CollectErrors(fd: ProfileFormData) returns (newErrors: map<ProfileField, string>)
    ensures newErrors == ProfileErrors(fd)
  {
    var emailError := CheckEmail(fd.email);
    newErrors := WithError(map[], Name, ProfileNameError(fd.name));
    newErrors := WithError(newErrors, Email, emailError);
  }

  class ProfileView {
    var formData: ProfileFormData
    var errors: map<ProfileField, string>
    var isSubmitting: bool
    var successMessage: string

    constructor ()
      ensures formData == ProfileFormData("", "") && errors == map[]
      ensures !isSubmitting && successMessage == ""
    {
      formData := ProfileFormData("", "");
      errors := map[];
      isSubmitting := false;
      successMessage := "";
    }

    /** The effect on `user`: a present user refills the form. */
    method SyncFromUser(user: Option<Session.User>)
      modifies this`formData
      ensures user.Some? ==> formData == FormFromUser(user.value)
      ensures user.None? ==> formData == old(formData)
    {
      if user.Some? {
        formData := FormFromUser(user.value);
      }
    }

    /** Mount: the form mirrors the user and the session's error is
        cleared. */
    method Mount(session: Session.SessionStore)
      modifies this`formData, session
      ensures session.State() == old(session.State()).(error := None)
      ensures old(session.user).Some? ==> formData == FormFromUser(old(session.user).value)
      ensures old(session.user).None? ==> formData == old(formData)
    {
      SyncFromUser(session.user);
      session.ClearError();
    }

    /** `handleChange`: the field takes the typed text and its error, if
        present and non-empty, is blanked. */
    method HandleChange(field: ProfileField, value: string)
      modifies this`formData, this`errors
      ensures field == Name ==> formData == old(formData).(name := value)
      ensures field == Email ==> formData == old(formData).(email := value)
      ensures errors == ClearFieldError(old(errors), field)
    {
      if field == Name {
        formData := formData.(name := value);
      } else {
        formData := formData.(email := value);
      }
      errors := ClearFieldError(errors, field);
    }

    /** `validateForm`: the rules' error object replaces the old one. */
    method ValidateForm() returns (valid: bool)
      modifies this`errors
      ensures errors == ProfileErrors(old(formData))
      ensures valid <==> NoErrors(errors)
    {
      var newErrors := CollectErrors(formData);
      errors := newErrors;
      valid := |newErrors| == 0;
    }

    /** `handleSubmit`: an invalid form only shows its errors; a valid one
        saves the trimmed name and the e-mail as typed. */
    method HandleSubmit(session: Session.SessionStore) returns (submitted: bool)
      modifies this`errors, this`isSubmitting, this`successMessage, this`formData, session
      ensures errors == ProfileErrors(old(formData))
      ensures submitted <==> NoErrors(errors)
      ensures submitted ==>
                session.State() ==
                Session.AfterUpdateProfile(old(session.State()), Trim(old(formData).name), old(formData).email)
      ensures submitted ==>
                successMessage == Saved && !isSubmitting &&
                formData == ProfileFormData(Trim(old(formData).name), old(formData).email)
      ensures !submitted ==>
                formData == old(formData) && successMessage == old(successMessage) &&
                isSubmitting == old(isSubmitting) && session.State() == old(session.State())
    {
      submitted := ValidateForm();
      if submitted {
        Save(session);
      }
    }

    /** Saving a validated form. The store's update always succeeds, so the
        success message always shows; the changed user then refills the
        form through the `user` effect, with the name as saved. */
    method Save(session: Session.SessionStore)
      modifies this`isSubmitting, this`successMessage, this`formData, session
      ensures session.State() ==
              Session.AfterUpdateProfile(old(session.State()), Trim(old(formData).name), old(formData).email)
      ensures successMessage == Saved && !isSubmitting
      ensures formData == ProfileFormData(Trim(old(formData).name), old(formData).email)
    {
      var name, email := Trim(formData.name), formData.email;
      isSubmitting := true;
      successMessage := "";
      var result := session.UpdateProfile(name, email);
      if result.Success? {
        successMessage := Saved;
      }
      isSubmitting := false;
      var user := session.user;
      assert user == session.State().user;
      assert user.Some? && user.value.name == Some(name) && user.value.email == Some(email);
      SyncFromUser(user);
    }

    /** `handleCancel`: back to the user's values, no errors, no message. */
    method HandleCancel(user: Option<Session.User>)
      modifies this`formData, this`errors, this`successMessage
      ensures user.Some? ==> formData == FormFromUser(user.value)
      ensures user.None? ==> formData == old(formData)
      ensures errors == map[] && successMessage == ""
    {
      SyncFromUser(user);
      errors := map[];
      successMessage := "";
    }
  }
}
