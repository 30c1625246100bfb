/** What the support-ticket rules promise. */
module SupportRuleProperties {
  import opened Wrappers
  import opened Text
  import opened Pattern
  import opened SupportRules

  /** The stored contact number is the first ten digits of the input, in order. */
  lemma ContactDigitsPrefix(value: string)
    ensures var r := ContactDigits(value);
      |r| == (if |DigitsOnly(value)| <= CONTACT_DIGITS then |DigitsOnly(value)| else CONTACT_DIGITS)
      && r == DigitsOnly(value)[..|r|]
  {
  }

  /** Filtering the stored value again changes nothing. */
  lemma ContactDigitsIdempotent(value: string)
    ensures ContactDigits(ContactDigits(value)) == ContactDigits(value)
  {
    DigitsOnlyFixesDigits(ContactDigits(value));
  }

  /**
   * A bounded text: blank is "required"; otherwise a trimmed length below `min` is "too
   * short", then one above `max` is "too long", and it passes exactly within the bounds.
   */
  lemma BoundedTextCases(value: string, min: nat, max: nat, required: string, short: string, long: string)
    requires 1 <= min
    ensures IsBlank(value) ==> BoundedTextError(value, min, max, required, short, long) == Some(required)
    ensures !IsBlank(value) && Utf16Length(Trim(value)) < min
      ==> BoundedTextError(value, min, max, required, short, long) == Some(short)
    ensures min <= Utf16Length(Trim(value)) && max < Utf16Length(Trim(value))
      ==> BoundedTextError(value, min, max, required, short, long) == Some(long)
    ensures BoundedTextError(value, min, max, required, short, long) == None
      <==> min <= Utf16Length(Trim(value)) <= max
  {
    TrimEmptyIffBlank(value);
  }

  /** Subject: required, then at least 5, then at most 100 code units once trimmed. */
  lemma SubjectErrorCases(subject: string)
    ensures IsBlank(subject) ==> SubjectError(subject) == Some(SUBJECT_REQUIRED)
    ensures !IsBlank(subject) && Utf16Length(Trim(subject)) < SUBJECT_MIN ==> SubjectError(subject) == Some(SUBJECT_TOO_SHORT)
    ensures Utf16Length(Trim(subject)) > SUBJECT_MAX ==> SubjectError(subject) == Some(SUBJECT_TOO_LONG)
    ensures SubjectError(subject) == None <==> SUBJECT_MIN <= Utf16Length(Trim(subject)) <= SUBJECT_MAX
  {
    BoundedTextCases(subject, SUBJECT_MIN, SUBJECT_MAX, SUBJECT_REQUIRED, SUBJECT_TOO_SHORT, SUBJECT_TOO_LONG);
  }

  /** Description: required, then at least 10, then at most 1000 code units once trimmed. */
  lemma DescriptionErrorCases(description: string)
    ensures IsBlank(description) ==> DescriptionError(description) == Some(DESCRIPTION_REQUIRED)
    ensures !IsBlank(description) && Utf16Length(Trim(description)) < DESCRIPTION_MIN
      ==> DescriptionError(description) == Some(DESCRIPTION_TOO_SHORT)
    ensures Utf16Length(Trim(description)) > DESCRIPTION_MAX ==> DescriptionError(description) == Some(DESCRIPTION_TOO_LONG)
    ensures DescriptionError(description) == None
      <==> DESCRIPTION_MIN <= Utf16Length(Trim(description)) <= DESCRIPTION_MAX
  {
    BoundedTextCases(description, DESCRIPTION_MIN, DESCRIPTION_MAX,
      DESCRIPTION_REQUIRED, DESCRIPTION_TOO_SHORT, DESCRIPTION_TOO_LONG);
  }

  /** `^[0-9]{10}$` accepts exactly the strings of ten digits. */
  lemma ContactPatternShape(contact: string)
    ensures FullMatch(CONTACT_NUMBER, contact) <==> |contact| == CONTACT_DIGITS && AllDigits(contact)
  {
    var p := CONTACT_NUMBER;
    if FullMatch(p, contact) {
      var j := RepeatStep(p, contact, 0);
    }
    if |contact| == CONTACT_DIGITS && AllDigits(contact) {
      assert PieceMatches(p, contact, [0, |contact|], 0);
      MatchedBy(p, contact, [0, |contact|]);
    }
  }

  /** A contact number passes exactly when it is ten digits; a blank one is "required". */
  lemma ContactErrorCases(contact: string)
    ensures IsBlank(contact) ==> ContactError(contact) == Some(CONTACT_REQUIRED)
    ensures ContactError(contact) == None <==> |contact| == CONTACT_DIGITS && AllDigits(contact)
  {
    TrimEmptyIffBlank(contact);
    ContactPatternShape(contact);
    if |contact| == CONTACT_DIGITS && AllDigits(contact) {
      assert IsDigit(contact[0]);
    }
  }

  /** On what the form stores (digits only), the check is "empty" or "not ten long". */
  lemma StoredContactError(value: string)
    ensures var c := ContactDigits(value);
      ContactError(c) == (if c == [] then Some(CONTACT_REQUIRED)
                          else if |c| != CONTACT_DIGITS then Some(CONTACT_INVALID) else None)
  {
    var c := ContactDigits(value);
    TrimOfDigits(c);
    ContactPatternShape(c);
  }

  lemma InputKeysListed(f: TicketField)
    ensures FieldKey(f) in INPUT_KEYS
  {
    match f
    case Subject =>
    case Description =>
    case ContactNumber =>
  }

  /** A key of the error map is an input key whose check fails, holding that check's message. */
  lemma TicketErrorsAt(t: TicketDraft, k: ErrorKey)
    ensures k in TicketErrors(t) <==> k.FieldKey? && TicketFieldError(t, k.field).Some?
    ensures k in TicketErrors(t) ==> TicketErrors(t)[k] == TicketFieldError(t, k.field).value
  {
    if k.FieldKey? {
      InputKeysListed(k.field);
    }
  }

  /** The map `validate` installs holds only input messages: an earlier screenshot or submit message is dropped. */
  lemma TicketErrorsOnlyInputs(t: TicketDraft)
    ensures ScreenshotKey !in TicketErrors(t) && SubmitKey !in TicketErrors(t)
    ensures forall f :: (FieldKey(f) in TicketErrors(t) <==> TicketFieldError(t, f).Some?)
  {
    TicketErrorsAt(t, ScreenshotKey);
    TicketErrorsAt(t, SubmitKey);
    forall f ensures FieldKey(f) in TicketErrors(t) <==> TicketFieldError(t, f).Some? {
      TicketErrorsAt(t, FieldKey(f));
    }
  }

  /** `validate` succeeds exactly when all three inputs pass. */
  lemma TicketErrorsEmptyIff(t: TicketDraft)
    ensures TicketErrors(t) == map[] <==> forall f :: TicketFieldError(t, f) == None
  {
    if TicketErrors(t) == map[] {
      forall f ensures TicketFieldError(t, f) == None {
        TicketErrorsAt(t, FieldKey(f));
      }
    } else {
      var k :| k in TicketErrors(t);
      TicketErrorsAt(t, k);
    }
  }
}
