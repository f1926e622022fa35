/**
 * The story form: its record, validation (only the story, the email and the
 * contact consent are checked), single-field updates and submission. Nothing
 * resets `formSubmitted`.
 */
module StoryPage {
  import opened Wrappers
  import opened Text
  import opened Email
  import opened Forms

  datatype StoryData = StoryData(
    name: string, email: string, industry: string, story: string, wishList: string,
    shareConsent: bool, contactConsent: bool)

  const Initial := StoryData("", "", "", "", "", false, false)

  const StoryRequired := "Bitte teile deine Geschichte mit uns"
  const ContactConsentRequired := "Bitte erlaube uns, dich zu kontaktieren"

  datatype Field = Name | EmailAddress | Industry | Story | WishList | ShareConsent | ContactConsent

  /** The two consent boxes are the form's checkboxes. */
  predicate IsCheckbox(f: Field) {
    f == ShareConsent || f == ContactConsent
  }

  /** The value a field holds. */
  function Get(d: StoryData, f: Field): Value {
    match f
    case Name => Text(d.name)
    case EmailAddress => Text(d.email)
    case Industry => Text(d.industry)
    case Story => Text(d.story)
    case WishList => Text(d.wishList)
    case ShareConsent => Checked(d.shareConsent)
    case ContactConsent => Checked(d.contactConsent)
  }

  /** `{...prev, [name]: type === 'checkbox' ? checked : value}`. */
  function WithField(d: StoryData, f: Field, value: string, checked: bool): (r: StoryData)
    ensures Get(r, f) == if IsCheckbox(f) then Checked(checked) else Text(value)
    ensures forall g :: g != f ==> Get(r, g) == Get(d, g)
  {
    match f
    case Name => d.(name := value)
    case EmailAddress => d.(email := value)
    case Industry => d.(industry := value)
    case Story => d.(story := value)
    case WishList => d.(wishList := value)
    case ShareConsent => d.(shareConsent := checked)
    case ContactConsent => d.(contactConsent := checked)
  }

  /** The error map `validateForm` builds: an entry for exactly the failing fields. */
  function Errors(d: StoryData): (m: map<Field, string>)
    ensures Story in m <==> Blank(d.story)
    ensures EmailAddress in m <==> !EmailLike(d.email)
    ensures ContactConsent in m <==> !d.contactConsent
    ensures m.Keys <= {Story, EmailAddress, ContactConsent}
    ensures EmailAddress in m ==> Some(m[EmailAddress]) == EmailError(d.email)
    ensures NonEmptyMessages(m)
  {
    var m := Flag(map[], Blank(d.story), Story, StoryRequired);
    var m := Flag(m, EmailError(d.email).Some?, EmailAddress, EmailError(d.email).GetOr(""));
    Flag(m, !d.contactConsent, ContactConsent, ContactConsentRequired)
  }

  /** Valid exactly when the story is not blank, the email passes and contact consent is given. */
  lemma ValidIff(d: StoryData)
    ensures Errors(d) == map[] <==> !Blank(d.story) && EmailLike(d.email) && d.contactConsent
  {
    if !Blank(d.story) && EmailLike(d.email) && d.contactConsent {
      assert Errors(d).Keys == {};
    }
  }

  /** Name, industry, wish list and share consent never affect validation. */
  lemma UncheckedFields(d: StoryData, name: string, industry: string, wishList: string, shareConsent: bool)
    ensures Errors(d.(name := name, industry := industry, wishList := wishList, shareConsent := shareConsent)) == Errors(d)
  {
  }

  class StoryForm {
    var formData: StoryData
    var formErrors: map<Field, string>
    var formSubmitted: bool

    constructor ()
      ensures formData == Initial && formErrors == map[] && !formSubmitted
    {
      formData := Initial;
      formErrors := map[];
      formSubmitted := false;
    }

    /** `handleChange`: writes one field and deletes only that field's error. */
    method HandleChange(f: Field, value: string, checked: bool)
      modifies this
      ensures formData == WithField(old(formData), f, value, checked)
      ensures formErrors == ClearError(old(formErrors), f)
      ensures formSubmitted == old(formSubmitted)
    {
      formData := WithField(formData, f, value, checked);
      if f in formErrors && formErrors[f] != "" {
        formErrors := formErrors - {f};
      }
    }

    /** `validateForm`: builds the error map field by field and replaces the old map with it. */
    method ValidateForm() returns (valid: bool)
      modifies this
      ensures formErrors == Errors(formData)
      ensures valid <==> formErrors == map[]
      ensures formData == old(formData) && formSubmitted == old(formSubmitted)
    {
      var d := formData;
      var errors: map<Field, string> := map[];
      if Blank(d.story) {
        errors := errors[Story := StoryRequired];
      }
      var emailError := EmailError(d.email);
      if emailError.Some? {
        errors := errors[EmailAddress := emailError.value];
      }
      if !d.contactConsent {
        errors := errors[ContactConsent := ContactConsentRequired];
      }
      formErrors := errors;
      valid := errors == map[];
    }

    /** `handleSubmit`: validates and sets `formSubmitted` only when the form is valid; it never clears it. */
    method HandleSubmit()
      modifies this
      ensures formErrors == Errors(old(formData))
      ensures formSubmitted == (old(formSubmitted) || Errors(old(formData)) == map[])
      ensures formData == old(formData)
    {
      var valid := ValidateForm();
      if !valid {
        return;
      }
      formSubmitted := true;
    }
  }
}
