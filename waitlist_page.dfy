/**
 * The waitlist form: its record, validation (statement and newsletter are
 * optional), single-field updates, submission and the delayed reset, which is
 * an explicit event here.
 */
module WaitlistPage {
  import opened Wrappers
  import opened Text
  import opened Email
  import opened Forms

  datatype WaitlistData = WaitlistData(name: string, email: string, statement: string, consent: bool, newsletter: bool)

  /** The initial record, also restored by the reset. */
  const Initial := WaitlistData("", "", "", false, false)

  datatype Field = Name | EmailAddress | Statement | Consent | Newsletter

  /** The two boxes are the form's checkboxes. */
  predicate IsCheckbox(f: Field) {
    f == Consent || f == Newsletter
  }

  /** The value a field holds. */
  function Get(d: WaitlistData, f: Field): Value {
    match f
    case Name => Text(d.name)
    case EmailAddress => Text(d.email)
    case Statement => Text(d.statement)
    case Consent => Checked(d.consent)
    case Newsletter => Checked(d.newsletter)
  }

  /** `{...prev, [name]: type === 'checkbox' ? checked : value}`. */
  function WithField(d: WaitlistData, f: Field, value: string, checked: bool): (r: WaitlistData)
    ensures Get(r, f) == if IsCheckbox(f) then Checked(checked) else Text(value)
    ensures forall g :: g != f ==> Get(r, g) == Get(d, g)
  {
    match f
    case Name => d.(name := value)
    case EmailAddress => d.(email := value)
    case Statement => d.(statement := value)
    case Consent => d.(consent := checked)
    case Newsletter => d.(newsletter := checked)
  }

  /** The error map `validateForm` builds: an entry for exactly the failing fields. */
  function Errors(d: WaitlistData): (m: map<Field, string>)
    ensures Name in m <==> Blank(d.name)
    ensures EmailAddress in m <==> !EmailLike(d.email)
    ensures Consent in m <==> !d.consent
    ensures m.Keys <= {Name, EmailAddress, Consent}
    ensures EmailAddress in m ==> Some(m[EmailAddress]) == EmailError(d.email)
    ensures NonEmptyMessages(m)
  {
    var m := Flag(map[], Blank(d.name), Name, NameRequired);
    var m := Flag(m, EmailError(d.email).Some?, EmailAddress, EmailError(d.email).GetOr(""));
    Flag(m, !d.consent, Consent, ConsentRequired)
  }

  /** Valid exactly when the name is not blank, the email passes and consent is given. */
  lemma ValidIff(d: WaitlistData)
    ensures Errors(d) == map[] <==> !Blank(d.name) && EmailLike(d.email) && d.consent
  {
    if !Blank(d.name) && EmailLike(d.email) && d.consent {
      assert Errors(d).Keys == {};
    }
  }

  /** Statement and newsletter are optional. */
  lemma OptionalFields(d: WaitlistData, statement: string, newsletter: bool)
    ensures Errors(d.(statement := statement, newsletter := newsletter)) == Errors(d)
  {
  }

  class WaitlistForm {
    var formData: WaitlistData
    var formSubmitted: bool
    var formErrors: map<Field, string>
    /** Resets scheduled by valid submits that have not fired yet. */
    var pendingResets: nat

    constructor ()
      ensures formData == Initial && formErrors == map[] && !formSubmitted && pendingResets == 0
    {
      formData := Initial;
      formSubmitted := false;
      formErrors := map[];
      pendingResets := 0;
    }

    /** `handleChange`: writes one field and deletes only that field's error. */
    method HandleChange(f: Field, value: string, checked: bool)
      modifies this
      ensures formData == WithField(old(formData), f, value, checked)
      ensures formErrors == ClearError(old(formErrors), f)
      ensures formSubmitted == old(formSubmitted) && pendingResets == old(pendingResets)
    {
      formData := WithField(formData, f, value, checked);
      if f in formErrors && formErrors[f] != "" {
        formErrors := formErrors - {f};
      }
    }

    /** `validateForm`: builds the error map field by field and replaces the old map with it. */
    method ValidateForm() returns (valid: bool)
      modifies this
      ensures formErrors == Errors(formData)
      ensures valid <==> formErrors == map[]
      ensures formData == old(formData) && formSubmitted == old(formSubmitted)
      ensures pendingResets == old(pendingResets)
    {
      var d := formData;
      var errors: map<Field, string> := map[];
      if Blank(d.name) {
        errors := errors[Name := NameRequired];
      }
      var emailError := EmailError(d.email);
      if emailError.Some? {
        errors := errors[EmailAddress := emailError.value];
      }
      if !d.consent {
        errors := errors[Consent := ConsentRequired];
      }
      formErrors := errors;
      valid := errors == map[];
    }

    /**
     * `handleSubmit`: a valid submit sets `formSubmitted` and schedules one
     * reset; an invalid one changes nothing but the errors.
     */
    method HandleSubmit()
      modifies this
      ensures formErrors == Errors(old(formData))
      ensures formData == old(formData)
      ensures Errors(old(formData)) == map[] ==> formSubmitted && pendingResets == old(pendingResets) + 1
      ensures Errors(old(formData)) != map[] ==>
        formSubmitted == old(formSubmitted) && pendingResets == old(pendingResets)
    {
      var valid := ValidateForm();
      if !valid {
        return;
      }
      formSubmitted := true;
      pendingResets := pendingResets + 1;
    }

    /** A scheduled reset fires: the initial record again and the form shown; errors are kept. */
    method ResetFired()
      requires pendingResets > 0
      modifies this
      ensures formData == Initial && !formSubmitted
      ensures pendingResets == old(pendingResets) - 1
      ensures formErrors == old(formErrors)
    {
      formData := Initial;
      formSubmitted := false;
      pendingResets := pendingResets - 1;
    }
  }

  /** A valid submit followed by its reset leaves an empty form, not submitted. */
  method SubmitThenReset(form: WaitlistForm)
    requires Errors(form.formData) == map[]
    modifies form
    ensures form.formData == Initial && !form.formSubmitted
    ensures form.pendingResets == old(form.pendingResets) && form.formErrors == map[]
  {
    form.HandleSubmit();
    form.ResetFired();
  }
}
