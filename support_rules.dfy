/**
 * The support-ticket rules of `SupportModal`: the contact-number filter and the checks
 * `validate` runs on subject, description and contact number.
 */
module SupportRules {
  import opened Wrappers
  import opened Text
  import opened Pattern

  /** The text inputs of the ticket form. */
  datatype TicketField = Subject | Description | ContactNumber

  /** The keys of the ticket's error map: the three inputs, the screenshot, and the submit failure. */
  datatype ErrorKey = FieldKey(field: TicketField) | ScreenshotKey | SubmitKey

  datatype TicketDraft = TicketDraft(subject: string, description: string, contactNumber: string) {
    function Get(f: TicketField): string {
      match f
      case Subject => subject
      case Description => description
      case ContactNumber => contactNumber
    }

    /** `{ ...formData, [f]: v }` */
    function Set(f: TicketField, v: string): (t: TicketDraft)
      ensures t.Get(f) == v
      ensures forall g | g != f :: t.Get(g) == Get(g)
    {
      match f
      case Subject => this.(subject := v)
      case Description => this.(description := v)
      case ContactNumber => this.(contactNumber := v)
    }
  }

  const EMPTY_TICKET := TicketDraft("", "", "")

  const SUBJECT_REQUIRED := "Subject is required"
  const SUBJECT_TOO_SHORT := "Subject must be at least 5 characters"
  const SUBJECT_TOO_LONG := "Subject cannot exceed 100 characters"
  const DESCRIPTION_REQUIRED := "Description is required"
  const DESCRIPTION_TOO_SHORT := "Description must be at least 10 characters"
  const DESCRIPTION_TOO_LONG := "Description cannot exceed 1000 characters"
  const CONTACT_REQUIRED := "Contact number is required"
  const CONTACT_INVALID := "Contact number must be exactly 10 digits"
  const SUBMIT_FAILED := "Failed to submit support request. Please try again."

  const SUBJECT_MIN := 5
  const SUBJECT_MAX := 100
  const DESCRIPTION_MIN := 10
  const DESCRIPTION_MAX := 1000
  const CONTACT_DIGITS := 10

  /** `^[0-9]{10}$` */
  const CONTACT_NUMBER: seq<Atom> := [Repeat(Digit, 10, AtMost(10))]

  /** `value.replace(/\D/g, '').slice(0, 10)`; the digits are one code unit each, so `slice` counts characters here. */
  function ContactDigits(value: string): (r: string)
    ensures AllDigits(r) && |r| <= CONTACT_DIGITS
  {
    var digits := DigitsOnly(value);
    if |digits| <= CONTACT_DIGITS then digits else digits[..CONTACT_DIGITS]
  }

  /**
   * A required text with bounds on the `length` of its trimmed value: empty, too short,
   * too long, in that order.
   */
  function BoundedTextError(value: string, min: nat, max: nat, required: string, short: string, long: string): (r: Option<string>)
    ensures r == None || r == Some(required) || r == Some(short) || r == Some(long)
    ensures IsBlank(value) ==> r == Some(required)
  {
    TrimEmptyIffBlank(value);
    var t := Trim(value);
    if t == [] then Some(required)
    else if Utf16Length(t) < min then Some(short)
    else if Utf16Length(t) > max then Some(long)
    else None
  }

  function SubjectError(subject: string): (r: Option<string>)
    ensures r == None || r == Some(SUBJECT_REQUIRED) || r == Some(SUBJECT_TOO_SHORT) || r == Some(SUBJECT_TOO_LONG)
    ensures r == Some(SUBJECT_REQUIRED) <==> IsBlank(subject)
  {
    BoundedTextError(subject, SUBJECT_MIN, SUBJECT_MAX, SUBJECT_REQUIRED, SUBJECT_TOO_SHORT, SUBJECT_TOO_LONG)
  }

  function DescriptionError(description: string): (r: Option<string>)
    ensures r == None || r == Some(DESCRIPTION_REQUIRED) || r == Some(DESCRIPTION_TOO_SHORT) || r == Some(DESCRIPTION_TOO_LONG)
    ensures r == Some(DESCRIPTION_REQUIRED) <==> IsBlank(description)
  {
    BoundedTextError(description, DESCRIPTION_MIN, DESCRIPTION_MAX,
      DESCRIPTION_REQUIRED, DESCRIPTION_TOO_SHORT, DESCRIPTION_TOO_LONG)
  }

  /** The pattern is tested on the untrimmed value. */
  function ContactError(contact: string): (r: Option<string>)
    ensures r == None || r == Some(CONTACT_REQUIRED) || r == Some(CONTACT_INVALID)
    ensures r == Some(CONTACT_REQUIRED) <==> IsBlank(contact)
  {
    TrimEmptyIffBlank(contact);
    if Trim(contact) == [] then Some(CONTACT_REQUIRED)
    else if !FullMatch(CONTACT_NUMBER, contact) then Some(CONTACT_INVALID)
    else None
  }

  function TicketFieldError(t: TicketDraft, f: TicketField): Option<string> {
    match f
    case Subject => SubjectError(t.subject)
    case Description => DescriptionError(t.description)
    case ContactNumber => ContactError(t.contactNumber)
  }

  const INPUT_KEYS: set<ErrorKey> := {FieldKey(Subject), FieldKey(Description), FieldKey(ContactNumber)}

  /** The error map `validate` builds: one entry per failing input. */
  function TicketErrors(t: TicketDraft): (r: map<ErrorKey, string>)
    ensures ScreenshotKey !in r && SubmitKey !in r
  {
    map k | k in INPUT_KEYS && TicketFieldError(t, k.field).Some? :: TicketFieldError(t, k.field).value
  }
}
