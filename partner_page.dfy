/**
 * The partner form: its record, validation (the message is optional, the
 * partnership type is only checked for being non-empty), single-field updates
 * and submission. Nothing resets `formSubmitted`.
 */
module PartnerPage {
  import opened Wrappers
  import opened Text
  import opened Email
  import opened Forms

  datatype PartnerData = PartnerData(
    name: string, email: string, organization: string, message: string, partnerType: string, consent: bool)

  const Initial := PartnerData("", "", "", "", "", false)

  const OrganizationRequired := "Bitte gib den Namen deiner Organisation ein"
  const PartnerTypeRequired := "Bitte wähle eine Partnerschaftsart aus"

  /** The ids of the four partnership types offered by the radio buttons. */
  const PartnerTypeIds: seq<string> := ["tech", "service", "reseller", "NGO"]

  datatype Field = Name | EmailAddress | Organization | Message | PartnerType | Consent

  /** The value a field holds. */
  function Get(d: PartnerData, f: Field): Value {
    match f
    case Name => Text(d.name)
    case EmailAddress => Text(d.email)
    case Organization => Text(d.organization)
    case Message => Text(d.message)
    case PartnerType => Text(d.partnerType)
    case Consent => Checked(d.consent)
  }

  /** `{...prev, [name]: type === 'checkbox' ? checked : value}`: the consent box is the only checkbox. */
  function WithField(d: PartnerData, f: Field, value: string, checked: bool): (r: PartnerData)
    ensures Get(r, f) == if f == Consent then Checked(checked) else Text(value)
    ensures forall g :: g != f ==> Get(r, g) == Get(d, g)
  {
    match f
    case Name => d.(name := value)
    case EmailAddress => d.(email := value)
    case Organization => d.(organization := value)
    case Message => d.(message := value)
    case PartnerType => d.(partnerType := value)
    case Consent => d.(consent := checked)
  }

  /** The error map `validateForm` builds: an entry for exactly the failing fields. */
  function Errors(d: PartnerData): (m: map<Field, string>)
    ensures Name in m <==> Blank(d.name)
    ensures EmailAddress in m <==> !EmailLike(d.email)
    ensures Organization in m <==> Blank(d.organization)
    ensures PartnerType in m <==> d.partnerType == ""
    ensures Consent in m <==> !d.consent
    ensures m.Keys <= {Name, EmailAddress, Organization, PartnerType, Consent}
    ensures EmailAddress in m ==> Some(m[EmailAddress]) == EmailError(d.email)
    ensures NonEmptyMessages(m)
  {
    var m := Flag(map[], Blank(d.name), Name, NameRequired);
    var m := Flag(m, EmailError(d.email).Some?, EmailAddress, EmailError(d.email).GetOr(""));
    var m := Flag(m, Blank(d.organization), Organization, OrganizationRequired);
    var m := Flag(m, d.partnerType == "", PartnerType, PartnerTypeRequired);
    Flag(m, !d.consent, Consent, ConsentRequired)
  }

  /** Valid exactly when name and organization are not blank, the email passes, a type is chosen and consent is given. */
  lemma ValidIff(d: PartnerData)
    ensures Errors(d) == map[] <==>
      !Blank(d.name) && EmailLike(d.email) && !Blank(d.organization) && d.partnerType != "" && d.consent
  {
    if !Blank(d.name) && EmailLike(d.email) && !Blank(d.organization) && d.partnerType != "" && d.consent {
      assert Errors(d).Keys == {};
    }
  }

  /** The message is optional: it never affects validation. */
  lemma MessageNeverChecked(d: PartnerData, message: string)
    ensures Errors(d.(message := message)) == Errors(d)
  {
  }

  /** A blank or unknown partnership type passes: there is no trim and no check against the offered ids. */
  lemma PartnerTypeOnlyNonEmpty(d: PartnerData)
    ensures PartnerType !in Errors(d.(partnerType := " "))
    ensures " " !in PartnerTypeIds
    ensures PartnerType !in Errors(d.(partnerType := "freelance")) && "freelance" !in PartnerTypeIds
  {
  }

  class PartnerForm {
    var formData: PartnerData
    var formErrors: map<Field, string>
    var formSubmitted: bool

    constructor ()
      ensures formData == Initial && formErrors == map[] && !formSubmitted
    {
      formData := Initial;
      formErrors := map[];
      formSubmitted := false;
    }

    /** `handleChange`: writes one field and deletes only that field's error. */
    method HandleChange(f: Field, value: string, checked: bool)
      modifies this
      ensures formData == WithField(old(formData), f, value, checked)
      ensures formErrors == ClearError(old(formErrors), f)
      ensures formSubmitted == old(formSubmitted)
    {
      formData := WithField(formData, f, value, checked);
      if f in formErrors && formErrors[f] != "" {
        formErrors := formErrors - {f};
      }
    }

    /** `validateForm`: builds the error map field by field and replaces the old map with it. */
    method ValidateForm() returns (valid: bool)
      modifies this
      ensures formErrors == Errors(formData)
      ensures valid <==> formErrors == map[]
      ensures formData == old(formData) && formSubmitted == old(formSubmitted)
    {
      var d := formData;
      var errors: map<Field, string> := map[];
      if Blank(d.name) {
        errors := errors[Name := NameRequired];
      }
      var emailError := EmailError(d.email);
      if emailError.Some? {
        errors := errors[EmailAddress := emailError.value];
      }
      if Blank(d.organization) {
        errors := errors[Organization := OrganizationRequired];
      }
      if d.partnerType == "" {
        errors := errors[PartnerType := PartnerTypeRequired];
      }
      if !d.consent {
        errors := errors[Consent := ConsentRequired];
      }
      formErrors := errors;
      valid := errors == map[];
    }

    /** `handleSubmit`: validates and sets `formSubmitted` only when the form is valid; it never clears it. */
    method HandleSubmit()
      modifies this
      ensures formErrors == Errors(old(formData))
      ensures formSubmitted == (old(formSubmitted) || Errors(old(formData)) == map[])
      ensures formData == old(formData)
    {
      var valid := ValidateForm();
      if !valid {
        return;
      }
      formSubmitted := true;
    }
  }
}
