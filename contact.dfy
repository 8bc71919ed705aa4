/** The contact form: field editing, its four rules and the simulated
    submission, which always succeeds and empties the form. */
module Contact {
  import opened Common
  import opened Text
  import opened Forms

  datatype ContactField = Name | Email | Subject | Message

  datatype ContactFormData = ContactFormData(name: string, email: string, subject: string, message: string)

  const EmptyContact: ContactFormData := ContactFormData("", "", "", "")

  const ThankYou: string := "Thank you for your message! We'll get back to you soon."

  function NameError(name: string): (r: Option<string>)
    ensures r.None? <==> |Trim(name)| >= 2
  {
    RequiredMinLength(name, 2, "Name is required", "Name must be at least 2 characters")
  }

  function SubjectError(subject: string): (r: Option<string>)
    ensures r.None? <==> |Trim(subject)| >= 5
  {
    RequiredMinLength(subject, 5, "Subject is required", "Subject must be at least 5 characters")
  }

  function MessageError(message: string): (r: Option<string>)
    ensures r.None? <==> |Trim(message)| >= 10
  {
    RequiredMinLength(message, 10, "Message is required", "Message must be at least 10 characters")
  }

  /** The error object `validateForm` builds, field by field. */
  ghost function ContactErrors(fd: ContactFormData): (e: map<ContactField, string>)
    ensures Name in e <==> NameError(fd.name).Some?
    ensures Email in e <==> EmailFieldError(fd.email).Some?
    ensures Subject in e <==> SubjectError(fd.subject).Some?
    ensures Message in e <==> MessageError(fd.message).Some?
    ensures Name in e ==> e[Name] == NameError(fd.name).value
    ensures Email in e ==> e[Email] == EmailFieldError(fd.email).value
    ensures Subject in e ==> e[Subject] == SubjectError(fd.subject).value
    ensures Message in e ==> e[Message] == MessageError(fd.message).value
  {
    var e1 := WithError(map[], Name, NameError(fd.name));
    var e2 := WithError(e1, Email, EmailFieldError(fd.email));
    var e3 := WithError(e2, Subject, SubjectError(fd.subject));
    WithError(e3, Message, MessageError(fd.message))
  }

  /** What the four rules accept. */
  ghost predicate ContactValid(fd: ContactFormData) {
    |Trim(fd.name)| >= 2 && EmailPattern(fd.email) &&
    |Trim(fd.subject)| >= 5 && |Trim(fd.message)| >= 10
  }

  lemma ContactNoErrorsIffValid(fd: ContactFormData)
    ensures NoErrors(ContactErrors(fd)) <==> ContactValid(fd)
  {
    var e := ContactErrors(fd);
    if ContactValid(fd) {
      forall f: ContactField ensures f !in e {
        match f
        case Name =>
        case Email =>
        case Subject =>
        case Message =>
      }
      assert e.Keys == {};
    } else if |Trim(fd.name)| < 2 {
      assert Name in e.Keys;
    } else if !EmailPattern(fd.email) {
      assert Email in e.Keys;
    } else if |Trim(fd.subject)| < 5 {
      assert Subject in e.Keys;
    } else {
      assert Message in e.Keys;
    }
  }

  /** The emptied form, validated again, reports every field as required. */
  lemma EmptiedFormIsAllRequired()
    ensures ContactErrors(EmptyContact) ==
            map[Name := "Name is required", Email := "Email is required",
                Subject := "Subject is required", Message := "Message is required"]
  {
    var e := ContactErrors(EmptyContact);
    assert Trim("") == "";
    assert e.Keys == {Name, Email, Subject, Message};
  }

  /** The rules run in order into a fresh error object. */
  method CollectErrors(fd: ContactFormData) returns (newErrors: map<ContactField, string>)
    ensures newErrors == ContactErrors(fd)
  {
    var emailError := CheckEmail(fd.email);
    newErrors := WithError(map[], Name, NameError(fd.name));
    newErrors := WithError(newErrors, Email, emailError);
    newErrors := WithError(newErrors, Subject, SubjectError(fd.subject));
    newErrors := WithError(newErrors, Message, MessageError(fd.message));
  }

  class ContactView {
    var formData: ContactFormData
    var errors: map<ContactField, string>
    var isSubmitting: bool
    var submitMessage: string

    constructor ()
      ensures formData == EmptyContact && errors == map[] && !isSubmitting && submitMessage == ""
    {
      formData := EmptyContact;
      errors := map[];
      isSubmitting := false;
      submitMessage := "";
    }

    /** `handleChange`: the field takes the typed text and its error, if
        present and non-empty, is blanked. */
    method HandleChange(field: ContactField, value: string)
      modifies this`formData, this`errors
      ensures formData == match field
                          case Name => old(formData).(name := value)
                          case Email => old(formData).(email := value)
                          case Subject => old(formData).(subject := value)
                          case Message => old(formData).(message := value)
      ensures errors == ClearFieldError(old(errors), field)
    {
      match field {
        case Name => formData := formData.(name := value);
        case Email => formData := formData.(email := value);
        case Subject => formData := formData.(subject := value);
        case Message => formData := formData.(message := value);
      }
      errors := ClearFieldError(errors, field);
    }

    /** `validateForm`: the rules' error object replaces the old one. */
    method ValidateForm() returns (valid: bool)
      modifies this`errors
      ensures errors == ContactErrors(old(formData))
      ensures valid <==> NoErrors(errors)
    {
      var newErrors := CollectErrors(formData);
      errors := newErrors;
      valid := |newErrors| == 0;
    }

    /** `handleSubmit`: an invalid form only shows its errors. A valid one
        is "sent" after a delay that cannot fail: the thank-you message is
        shown and the fields are emptied. */
    method HandleSubmit() returns (submitted: bool)
      modifies this`errors, this`isSubmitting, this`submitMessage, this`formData
      ensures errors == ContactErrors(old(formData))
      ensures submitted <==> NoErrors(errors)
      ensures submitted ==> formData == EmptyContact && submitMessage == ThankYou && !isSubmitting
      ensures !submitted ==>
                formData == old(formData) && submitMessage == old(submitMessage) &&
                isSubmitting == old(isSubmitting)
    {
      submitted := ValidateForm();
      if submitted {
        Send();
      }
    }

    /** The simulated sending of a valid form. */
    method Send()
      modifies this`isSubmitting, this`submitMessage, this`formData
      ensures formData == EmptyContact && submitMessage == ThankYou && !isSubmitting
    {
      isSubmitting := true;
      submitMessage := "";
      submitMessage := ThankYou;
      formData := EmptyContact;
      isSubmitting := false;
    }
  }
}
