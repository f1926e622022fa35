/**
 * What the contact, partner, story and waitlist forms share: the error
 * messages, the two-message email rule, the values a field holds, and the
 * error-map update `handleChange` performs.
 */
module Forms {
  import opened Wrappers
  import opened Text
  import opened Email

  const NameRequired := "Bitte gib deinen Namen ein"
  const EmailRequired := "Bitte gib deine E-Mail-Adresse ein"
  const EmailInvalid := "Bitte gib eine gültige E-Mail-Adresse ein"
  const ConsentRequired := "Bitte stimme der Datenschutzerklärung zu"

  /** The value `handleChange` writes: `value` for text inputs, `checked` for checkboxes. */
  datatype Value = Text(text: string) | Checked(on: bool)

  /**
   * The email rule of the forms: "required" when the trimmed address is
   * empty, otherwise "invalid" when the unanchored pattern fails on the
   * untrimmed address, otherwise no error.
   */
  function EmailError(email: string): (r: Option<string>)
    ensures Blank(email) ==> r == Some(EmailRequired)
    ensures !Blank(email) && !EmailLike(email) ==> r == Some(EmailInvalid)
    ensures r == None <==> EmailLike(email)
  {
    if Blank(email) then Some(EmailRequired)
    else if !TestEmail(email) then Some(EmailInvalid)
    else
      None
  }

  /** A witness: an address padded with spaces passes, since the pattern is not anchored and the test sees the untrimmed text. */
  lemma PaddedAddressPasses()
    ensures EmailError(" a@b.c ") == None
  {
    var s := " a@b.c ";
    assert MatchAt(s, 2, 4);
  }

  /** Every message in the map is a non-empty string, so `if (formErrors[name])` means "has an error". */
  predicate NonEmptyMessages<K>(errors: map<K, string>) {
    forall k :: k in errors ==> errors[k] != ""
  }

  /** The error map with `key` set to `msg` when `failed`, otherwise unchanged. */
  function Flag<K>(errors: map<K, string>, failed: bool, key: K, msg: string): map<K, string> {
    if failed then errors[key := msg] else errors
  }

  /**
   * The error update of `handleChange`: the entry of the edited field is
   * deleted when it holds a truthy message; no other entry changes.
   */
  function ClearError<K(!new)>(errors: map<K, string>, key: K): (r: map<K, string>)
    ensures NonEmptyMessages(errors) ==> key !in r
    ensures forall k :: k != key ==> (k in r <==> k in errors)
    ensures forall k :: k in r ==> k in errors && r[k] == errors[k]
  {
    if key in errors && errors[key] != "" then errors - {key} else errors
  }
}
