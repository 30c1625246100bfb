/**
 * The support dialog (`SupportModal`): the ticket draft, the chosen screenshot and its
 * preview URL, the error map, and the two flags. `handleSubmit` is split at its first
 * `await`: `BeginSubmit` validates and marks the submission in flight, `SubmitSettled`
 * runs the rest with the upload and submit outcomes as inputs and says which backend
 * calls were made, in order.
 */
module SupportModal {
  import opened Wrappers
  import opened Text
  import opened Forms
  import opened ImageFile
  import opened SupportRules
  import SupportRuleProperties

  /** The body of `submitSupportRequest`; the e-mail is always the signed-in user's. */
  datatype SupportRequest = SupportRequest(
    userId: string, email: string, subject: string, description: string,
    contactNumber: string, screenshot: string)

  datatype Call = UploadFile(file: FileInfo) | Submit(request: SupportRequest)

  /** What the synchronous part of `handleSubmit` did. */
  datatype SubmitStart =
    | SubmitBlocked                                               // a submission is in flight or done: no button
    | SubmitInvalid                                               // `validate()` failed
    | SubmitStarted(draft: TicketDraft, screenshot: Option<FileInfo>)

  function RequestFor(userId: string, email: string, t: TicketDraft, screenshotUrl: string): SupportRequest {
    SupportRequest(userId, email, t.subject, t.description, t.contactNumber, screenshotUrl)
  }

  /**
   * The backend calls of one submission: the screenshot's upload if there is one, then
   * the ticket carrying the uploaded URL, or `''` when there is no screenshot. A failed
   * upload (`uploadedUrl == None`) ends the submission before the ticket is sent.
   */
  function SubmitCalls(userId: string, email: string, t: TicketDraft, shot: Option<FileInfo>, uploadedUrl: Option<string>): (calls: seq<Call>)
    ensures shot == None ==> calls == [Submit(RequestFor(userId, email, t, []))]
    ensures shot.Some? ==> |calls| >= 1 && calls[0] == UploadFile(shot.value)
    ensures shot.Some? ==> (|calls| == 2 <==> uploadedUrl.Some?)
    ensures forall i, j | 0 <= i < j < |calls| :: calls[i].UploadFile? && calls[j].Submit?
    ensures forall i | 0 <= i < |calls| && calls[i].Submit? ::
      calls[i].request == RequestFor(userId, email, t, if shot.Some? && uploadedUrl.Some? then uploadedUrl.value else [])
  {
    match shot
    case None => [Submit(RequestFor(userId, email, t, []))]
    case Some(file) =>
      [UploadFile(file)] + (if uploadedUrl.Some? then [Submit(RequestFor(userId, email, t, uploadedUrl.value))] else [])
  }

  /** Whether a submission ends in success: every call it makes succeeds. */
  predicate Succeeds(shot: Option<FileInfo>, uploadedUrl: Option<string>, accepted: bool) {
    (shot == None || uploadedUrl.Some?) && accepted
  }

  class Modal {
    const userId: string
    const userEmail: string
    var formData: TicketDraft
    var screenshot: Option<FileInfo>
    var screenshotUrl: string
    var errors: map<ErrorKey, string>
    var isSubmitting: bool
    var submitSuccess: bool
    /** The draft and screenshot `handleSubmit` captured when its submission started. */
    ghost var pendingDraft: TicketDraft
    ghost var pendingShot: Option<FileInfo>

    constructor(userId: string, userEmail: string)
      ensures this.userId == userId && this.userEmail == userEmail
      ensures IsReset() && !isSubmitting
    {
      this.userId := userId;
      this.userEmail := userEmail;
      formData := EMPTY_TICKET;
      screenshot := None;
      screenshotUrl := [];
      errors := map[];
      isSubmitting := false;
      submitSuccess := false;
      pendingDraft := EMPTY_TICKET;
      pendingShot := None;
    }

    /** The state a fresh or closed dialog starts from. */
    predicate IsReset()
      reads this
    {
      formData == EMPTY_TICKET && screenshot == None && screenshotUrl == [] && errors == map[] && !submitSuccess
    }

    /** The contact number holds at most ten digits and nothing else. */
    predicate ContactWellFormed()
      reads this
    {
      AllDigits(formData.contactNumber) && |formData.contactNumber| <= CONTACT_DIGITS
    }

    /** `handleChange`: the contact number keeps its first ten digits; the edited input's message is cleared. */
    method HandleChange(f: TicketField, value: string)
      modifies this
      ensures pendingDraft == old(pendingDraft) && pendingShot == old(pendingShot)
      ensures formData == old(formData).Set(f, if f == ContactNumber then ContactDigits(value) else value)
      ensures errors == ClearFieldError(old(errors), FieldKey(f))
      ensures old(ContactWellFormed()) ==> ContactWellFormed()
      ensures screenshot == old(screenshot) && screenshotUrl == old(screenshotUrl)
      ensures isSubmitting == old(isSubmitting) && submitSuccess == old(submitSuccess)
    {
      if f == ContactNumber {
        formData := formData.Set(f, ContactDigits(value));
      } else {
        formData := formData.Set(f, value);
      }
      errors := ClearFieldError(errors, FieldKey(f));
    }

    /**
     * `handleFileChange` with the picked file and the preview URL the browser would
     * create for it. A refused file only sets the screenshot message; an accepted one
     * replaces the screenshot and its preview and clears that message.
     */
    method HandleFileChange(file: Option<FileInfo>, previewUrl: string)
      modifies this
      ensures pendingDraft == old(pendingDraft) && pendingShot == old(pendingShot)
      ensures file == None ==>
        errors == old(errors) && screenshot == old(screenshot) && screenshotUrl == old(screenshotUrl)
      ensures file.Some? && ImageError(file.value).Some? ==>
        errors == old(errors)[ScreenshotKey := ImageError(file.value).value]
        && screenshot == old(screenshot) && screenshotUrl == old(screenshotUrl)
      ensures file.Some? && ImageError(file.value) == None ==>
        errors == ClearFieldError(old(errors), ScreenshotKey) && screenshot == file && screenshotUrl == previewUrl
      ensures formData == old(formData) && isSubmitting == old(isSubmitting) && submitSuccess == old(submitSuccess)
    {
      if file.Some? {
        var e := ImageError(file.value);
        if e.Some? {
          errors := errors[ScreenshotKey := e.value];
          return;
        }
        screenshot := file;
        screenshotUrl := previewUrl;
        errors := ClearFieldError(errors, ScreenshotKey);
      }
    }

    /** `removeScreenshot`: drops the screenshot and returns the preview URL it revokes, if any. */
    method RemoveScreenshot() returns (revoked: Option<string>)
      modifies this
      ensures pendingDraft == old(pendingDraft) && pendingShot == old(pendingShot)
      ensures screenshot == None && screenshotUrl == []
      ensures revoked == if old(screenshotUrl) != [] then Some(old(screenshotUrl)) else None
      ensures formData == old(formData) && errors == old(errors)
      ensures isSubmitting == old(isSubmitting) && submitSuccess == old(submitSuccess)
    {
      screenshot := None;
      revoked := None;
      if screenshotUrl != [] {
        revoked := Some(screenshotUrl);
        screenshotUrl := [];
      }
    }

    /** `validate`: the error map becomes the draft's input messages, and nothing else. */
    method Validate() returns (ok: bool)
      modifies this
      ensures pendingDraft == old(pendingDraft) && pendingShot == old(pendingShot)
      ensures errors == TicketErrors(formData)
      ensures ok <==> errors == map[]
      ensures formData == old(formData) && screenshot == old(screenshot) && screenshotUrl == old(screenshotUrl)
      ensures isSubmitting == old(isSubmitting) && submitSuccess == old(submitSuccess)
    {
      var t := formData;
      var newErrors := CollectErrors(Checks(t));
      InOrderIsTicketErrors(t);
      NoKeysIsEmpty(newErrors);
      errors := newErrors;
      ok := |newErrors.Keys| == 0;
    }

    /** The synchronous part of `handleSubmit`: nothing is uploaded or sent unless validation passes. */
    method BeginSubmit() returns (start: SubmitStart)
      modifies this
      ensures start.SubmitStarted? ==> pendingDraft == start.draft && pendingShot == start.screenshot
      ensures !start.SubmitStarted? ==> pendingDraft == old(pendingDraft) && pendingShot == old(pendingShot)
      ensures old(isSubmitting) || old(submitSuccess) ==> start == SubmitBlocked && errors == old(errors)
      ensures !old(isSubmitting) && !old(submitSuccess) ==> errors == TicketErrors(formData)
      ensures !old(isSubmitting) && !old(submitSuccess) && TicketErrors(formData) != map[] ==> start == SubmitInvalid
      ensures !old(isSubmitting) && !old(submitSuccess) && TicketErrors(formData) == map[] ==>
        start == SubmitStarted(formData, screenshot)
      ensures isSubmitting == (old(isSubmitting) || start.SubmitStarted?)
      ensures formData == old(formData) && screenshot == old(screenshot) && screenshotUrl == old(screenshotUrl)
      ensures submitSuccess == old(submitSuccess)
    {
      if isSubmitting || submitSuccess {
        return SubmitBlocked;
      }
      var ok := Validate();
      if !ok {
        return SubmitInvalid;
      }
      isSubmitting := true;
      pendingDraft, pendingShot := formData, screenshot;
      start := SubmitStarted(formData, screenshot);
    }

    /**
     * The rest of `handleSubmit` for the draft and screenshot `BeginSubmit` captured.
     * `uploadedUrl` is what the upload returned (`None` if it failed) and `accepted` says
     * whether the ticket was accepted. On success the dialog shows its confirmation; on
     * any failure the error map is replaced by the single submit message.
     */
    method SubmitSettled(draft: TicketDraft, shot: Option<FileInfo>, uploadedUrl: Option<string>, accepted: bool)
      returns (calls: seq<Call>)
      requires isSubmitting && draft == pendingDraft && shot == pendingShot
      modifies this
      ensures pendingDraft == old(pendingDraft) && pendingShot == old(pendingShot)
      ensures calls == SubmitCalls(userId, userEmail, draft, shot, uploadedUrl)
      ensures submitSuccess == (old(submitSuccess) || Succeeds(shot, uploadedUrl, accepted))
      ensures errors == if Succeeds(shot, uploadedUrl, accepted) then old(errors) else map[SubmitKey := SUBMIT_FAILED]
      ensures !isSubmitting
      ensures formData == old(formData) && screenshot == old(screenshot) && screenshotUrl == old(screenshotUrl)
    {
      calls := [];
      var uploaded: string := [];
      var failed := false;
      if shot.Some? {
        calls := calls + [UploadFile(shot.value)];
        if uploadedUrl.Some? {
          uploaded := uploadedUrl.value;
        } else {
          failed := true;
        }
      }
      if !failed {
        calls := calls + [Submit(RequestFor(userId, userEmail, draft, uploaded))];
        if accepted {
          submitSuccess := true;
        } else {
          failed := true;
        }
      }
      if failed {
        errors := map[SubmitKey := SUBMIT_FAILED];
      }
      isSubmitting := false;
    }

    /**
     * `handleSubmit` run to its end with no other handler in between, given what the
     * upload and ticket calls would return: a blocked or invalid submission makes no call;
     * a valid one makes the calls of `SubmitCalls` for the draft and screenshot of that
     * moment.
     */
    method HandleSubmit(uploadedUrl: Option<string>, accepted: bool) returns (start: SubmitStart, calls: seq<Call>)
      modifies this
      ensures start.SubmitStarted? <==> !old(isSubmitting) && !old(submitSuccess) && TicketErrors(old(formData)) == map[]
      ensures !start.SubmitStarted? ==> calls == [] && isSubmitting == old(isSubmitting)
      ensures !old(isSubmitting) && !old(submitSuccess) && TicketErrors(old(formData)) != map[] ==>
        errors == TicketErrors(old(formData))
      ensures start.SubmitStarted? ==>
        calls == SubmitCalls(userId, userEmail, old(formData), old(screenshot), uploadedUrl) && !isSubmitting
        && submitSuccess == Succeeds(old(screenshot), uploadedUrl, accepted)
      ensures formData == old(formData) && screenshot == old(screenshot) && screenshotUrl == old(screenshotUrl)
    {
      start := BeginSubmit();
      calls := [];
      if start.SubmitStarted? {
        calls := SubmitSettled(start.draft, start.screenshot, uploadedUrl, accepted);
      }
    }

    /** The reset both close handlers perform. */
    method Reset()
      modifies this
      ensures pendingDraft == old(pendingDraft) && pendingShot == old(pendingShot)
      ensures IsReset()
      ensures isSubmitting == old(isSubmitting)
    {
      formData := EMPTY_TICKET;
      var _ := RemoveScreenshot();
      errors := map[];
      submitSuccess := false;
    }

    /** `handleClose`: ignored while a submission is in flight or its confirmation is shown. */
    method HandleClose() returns (closed: bool)
      modifies this
      ensures pendingDraft == old(pendingDraft) && pendingShot == old(pendingShot)
      ensures closed <==> !old(isSubmitting) && !old(submitSuccess)
      ensures closed ==> IsReset()
      ensures !closed ==>
        formData == old(formData) && screenshot == old(screenshot) && screenshotUrl == old(screenshotUrl)
        && errors == old(errors) && submitSuccess == old(submitSuccess)
      ensures isSubmitting == old(isSubmitting)
    {
      closed := !isSubmitting && !submitSuccess;
      if closed {
        Reset();
      }
    }

    /** `handleSuccessClose`: always closes and resets. */
    method HandleSuccessClose()
      modifies this
      ensures pendingDraft == old(pendingDraft) && pendingShot == old(pendingShot)
      ensures IsReset() && isSubmitting == old(isSubmitting)
    {
      Reset();
    }
  }

  /** `if (error) newErrors[k] = message` */
  function Insert(m: map<ErrorKey, string>, k: ErrorKey, e: Option<string>): map<ErrorKey, string> {
    if e.Some? then m[k := e.value] else m
  }

  /** The error map built by running `check` on subject, description and contact number, in `validate`'s order. */
  function InOrder(check: TicketField -> Option<string>): map<ErrorKey, string> {
    var m1 := Insert(map[], FieldKey(Subject), check(Subject));
    var m2 := Insert(m1, FieldKey(Description), check(Description));
    Insert(m2, FieldKey(ContactNumber), check(ContactNumber))
  }

  lemma InOrderKeys(check: TicketField -> Option<string>, k: ErrorKey)
    ensures k in InOrder(check) <==> k.FieldKey? && check(k.field).Some?
    ensures k in InOrder(check) ==> InOrder(check)[k] == check(k.field).value
  {
    if k.FieldKey? {
      match k.field
      case Subject =>
      case Description =>
      case ContactNumber =>
    }
  }

  /** At a single key, the map built in order agrees with the ticket's error map. */
  lemma InOrderAgreesAt(t: TicketDraft, check: TicketField -> Option<string>, k: ErrorKey)
    requires forall f :: check(f) == TicketFieldError(t, f)
    ensures k in InOrder(check) <==> k in TicketErrors(t)
    ensures k in TicketErrors(t) ==> InOrder(check)[k] == TicketErrors(t)[k]
  {
    InOrderKeys(check, k);
    SupportRuleProperties.TicketErrorsAt(t, k);
    if k.FieldKey? {
      assert check(k.field) == TicketFieldError(t, k.field);
    }
  }

  /** The body of `validate`: starting from an empty map, each input's message is recorded in turn. */
  method CollectErrors(check: TicketField -> Option<string>) returns (newErrors: map<ErrorKey, string>)
    ensures newErrors == InOrder(check)
  {
    newErrors := map[];
    newErrors := Insert(newErrors, FieldKey(Subject), check(Subject));
    newErrors := Insert(newErrors, FieldKey(Description), check(Description));
    newErrors := Insert(newErrors, FieldKey(ContactNumber), check(ContactNumber));
  }

  /** The check `validate` runs on each input of ticket `t`. */
  function Checks(t: TicketDraft): TicketField -> Option<string> {
    f => TicketFieldError(t, f)
  }

  /** `Object.keys(m).length === 0` holds exactly for the empty map. */
  lemma NoKeysIsEmpty(m: map<ErrorKey, string>)
    ensures |m.Keys| == 0 <==> m == map[]
  {
    if |m.Keys| == 0 {
      assert m.Keys == {};
    }
  }

  /** Built in order, the map is the ticket's error map. */
  lemma InOrderIsTicketErrors(t: TicketDraft)
    ensures InOrder(Checks(t)) == TicketErrors(t)
  {
    var check := Checks(t);
    assert forall f :: check(f) == TicketFieldError(t, f);
    forall k ensures (k in InOrder(check) <==> k in TicketErrors(t))
      && (k in TicketErrors(t) ==> InOrder(check)[k] == TicketErrors(t)[k])
    {
      InOrderAgreesAt(t, check, k);
    }
  }
}
