/**
 * The contact form: its record, validation (the subject is never checked),
 * single-field updates, submission and the "new message" reset.
 */
module ContactPage {
  import opened Wrappers
  import opened Text
  import opened Email
  import opened Forms

  datatype ContactData = ContactData(name: string, email: string, subject: string, message: string, consent: bool)

  /** The initial record, also restored by "new message": empty strings, consent off. */
  const Initial := ContactData("", "", "", "", false)

  const MessageRequired := "Bitte gib eine Nachricht ein"

  datatype Field = Name | EmailAddress | Subject | Message | Consent

  /** The input's `name` attribute, the key of the record and of the error map. */
  function FieldName(f: Field): string {
    match f
    case Name => "name"
    case EmailAddress => "email"
    case Subject => "subject"
    case Message => "message"
    case Consent => "consent"
  }

  /** The value a field holds. */
  function Get(d: ContactData, f: Field): Value {
    match f
    case Name => Text(d.name)
    case EmailAddress => Text(d.email)
    case Subject => Text(d.subject)
    case Message => Text(d.message)
    case Consent => Checked(d.consent)
  }

  /** `{...prev, [name]: type === 'checkbox' ? checked : value}`: the consent box is the only checkbox. */
  function WithField(d: ContactData, f: Field, value: string, checked: bool): (r: ContactData)
    ensures Get(r, f) == if f == Consent then Checked(checked) else Text(value)
    ensures forall g :: g != f ==> Get(r, g) == Get(d, g)
  {
    match f
    case Name => d.(name := value)
    case EmailAddress => d.(email := value)
    case Subject => d.(subject := value)
    case Message => d.(message := value)
    case Consent => d.(consent := checked)
  }

  /** The error map `validateForm` builds: an entry for exactly the failing fields. */
  function Errors(d: ContactData): (m: map<Field, string>)
    ensures Name in m <==> Blank(d.name)
    ensures EmailAddress in m <==> !EmailLike(d.email)
    ensures Message in m <==> Blank(d.message)
    ensures Consent in m <==> !d.consent
    ensures m.Keys <= {Name, EmailAddress, Message, Consent}
    ensures EmailAddress in m ==> Some(m[EmailAddress]) == EmailError(d.email)
    ensures NonEmptyMessages(m)
  {
    var m := Flag(map[], Blank(d.name), Name, NameRequired);
    var m := Flag(m, EmailError(d.email).Some?, EmailAddress, EmailError(d.email).GetOr(""));
    var m := Flag(m, Blank(d.message), Message, MessageRequired);
    Flag(m, !d.consent, Consent, ConsentRequired)
  }

  /** The form is valid exactly when name and message are not blank, the email passes and consent is given. */
  lemma ValidIff(d: ContactData)
    ensures Errors(d) == map[] <==> !Blank(d.name) && EmailLike(d.email) && !Blank(d.message) && d.consent
  {
    if !Blank(d.name) && EmailLike(d.email) && !Blank(d.message) && d.consent {
      assert Errors(d).Keys == {};
    }
  }

  /** The subject never affects validation. */
  lemma SubjectNeverChecked(d: ContactData, subject: string)
    ensures Errors(d.(subject := subject)) == Errors(d)
  {
  }

  class ContactForm {
    var formData: ContactData
    var formErrors: map<Field, string>
    var formSubmitted: bool

    constructor ()
      ensures formData == Initial && formErrors == map[] && !formSubmitted
    {
      formData := Initial;
      formErrors := map[];
      formSubmitted := false;
    }

    /** `handleChange`: writes one field and deletes only that field's error. */
    method HandleChange(f: Field, value: string, checked: bool)
      modifies this
      ensures formData == WithField(old(formData), f, value, checked)
      ensures formErrors == ClearError(old(formErrors), f)
      ensures formSubmitted == old(formSubmitted)
    {
      formData := WithField(formData, f, value, checked);
      if f in formErrors && formErrors[f] != "" {
        formErrors := formErrors - {f};
      }
    }

    /**
     * `validateForm`: builds the error map field by field (a blank check
     * stands for `!x.trim()`, see `TrimEmptyIffBlank`) and replaces the old
     * map with it.
     */
    method ValidateForm() returns (valid: bool)
      modifies this
      ensures formErrors == Errors(formData)
      ensures valid <==> formErrors == map[]
      ensures formData == old(formData) && formSubmitted == old(formSubmitted)
    {
      var d := formData;
      var errors: map<Field, string> := map[];
      if Blank(d.name) {
        errors := errors[Name := NameRequired];
      }
      var emailError := EmailError(d.email);
      if emailError.Some? {
        errors := errors[EmailAddress := emailError.value];
      }
      if Blank(d.message) {
        errors := errors[Message := MessageRequired];
      }
      if !d.consent {
        errors := errors[Consent := ConsentRequired];
      }
      formErrors := errors;
      valid := errors == map[];
    }

    /** `handleSubmit`: validates and sets `formSubmitted` only when the form is valid. */
    method HandleSubmit()
      modifies this
      ensures formErrors == Errors(old(formData))
      ensures formSubmitted == (old(formSubmitted) || Errors(old(formData)) == map[])
      ensures formData == old(formData)
    {
      var valid := ValidateForm();
      if !valid {
        return;
      }
      formSubmitted := true;
    }

    /** "New message": the initial record again, and the form shown. */
    method NewMessage()
      modifies this
      ensures formData == Initial && !formSubmitted
      ensures formErrors == old(formErrors)
    {
      formSubmitted := false;
      formData := Initial;
    }
  }

  /** An invalid submit leaves the record and the submitted flag as they were. */
  method InvalidSubmitChangesNoData(form: ContactForm)
    requires Blank(form.formData.message)
    modifies form
    ensures form.formData == old(form.formData) && form.formSubmitted == old(form.formSubmitted)
    ensures Message in form.formErrors
  {
    form.HandleSubmit();
  }
}
