/**
 * The dashboard's profile editor (`DashboardPage`): the draft, the error map and the
 * flags it keeps, and the handlers that change them. Each asynchronous handler is split
 * at its first `await`: a `Begin` step runs the synchronous part and says which backend
 * call it makes, and a `Settled` step runs the continuation with the call's outcome as
 * input. A continuation that spreads the draft uses the draft its closure captured,
 * which the caller passes in.
 */
module ProfileEditor {
  import opened Wrappers
  import opened Text
  import opened Forms
  import opened ImageFile
  import opened ProfileRules
  import opened ProfileSync
  import ProfileRuleProperties

  const SAVE_UPDATED := "Profile updated successfully!"
  const SAVE_CREATED := "Profile saved successfully!"
  const SAVE_FAILED := "Failed to save profile. Please try again."
  const VALIDATION_ERRORS := "Validation errors:\n"
  const PHOTO_UPDATED := "Profile photo updated successfully!"
  const UPLOAD_FAILED := "Failed to upload photo. Please try again."
  const PHOTO_REMOVED := "Profile photo removed successfully!"
  const REMOVE_FAILED := "Failed to remove photo. Please try again."

  /** What the synchronous part of `handleSave` did. */
  datatype SaveStart =
    | SaveBlocked                                   // a save is in flight: the button is disabled
    | SaveInvalid                                   // `validateForm()` failed
    | NoUser                                        // no `user_id`: nothing is sent
    | SaveSent(userId: string, payload: ProfilePayload)

  /**
   * How `updateUserProfile` settled. A failure carries the error's message and, when
   * that message is JSON text for an array, the array's elements.
   */
  datatype SaveOutcome = SaveSucceeded | SaveFailed(message: Option<string>, parsedList: Option<seq<string>>)

  /** `list.join(sep)` */
  function Join(list: seq<string>, sep: string): (r: string)
    ensures list == [] ==> r == []
    ensures |list| == 1 ==> r == list[0]
    ensures |list| >= 1 ==> StartsWith(r, list[0])
    decreases |list|
  {
    if list == [] then []
    else if |list| == 1 then list[0]
    else list[0] + sep + Join(list[1..], sep)
  }

  /** An occurrence in `b` is one in `a + b`, shifted by `|a|`. */
  lemma OccursAfter(a: string, b: string, t: string, k: nat)
    requires OccursAt(b, t, k)
    ensures OccursAt(a + b, t, |a| + k)
  {
    assert (a + b)[|a| + k..|a| + k + |t|] == b[k..k + |t|];
  }

  /** Every element of the list occurs in its join, whatever the separator. */
  lemma {:induction false} JoinContainsEach(list: seq<string>, sep: string)
    ensures forall i | 0 <= i < |list| :: Contains(Join(list, sep), list[i])
    decreases |list|
  {
    if |list| >= 2 {
      var rest := Join(list[1..], sep);
      JoinContainsEach(list[1..], sep);
      assert Join(list, sep) == list[0] + sep + rest;
      forall i | 0 <= i < |list| ensures Contains(Join(list, sep), list[i]) {
        if i == 0 {
          assert OccursAt(Join(list, sep), list[0], 0);
        } else {
          assert list[i] == list[1..][i - 1];
          var k :| 0 <= k <= |rest| - |list[i]| && OccursAt(rest, list[i], k);
          OccursAfter(list[0] + sep, rest, list[i], k);
        }
      }
    } else if |list| == 1 {
      assert OccursAt(Join(list, sep), list[0], 0);
    }
  }

  /** The alert `handleSave` shows once the call settles. */
  function SaveNotice(o: SaveOutcome, existed: bool): (r: string)
    ensures o.SaveSucceeded? ==> r == (if existed then SAVE_UPDATED else SAVE_CREATED)
    ensures o.SaveFailed? && (o.message == None || !Contains(o.message.value, "[") || o.parsedList == None)
      ==> r == Or(o.message, SAVE_FAILED)
    ensures o.SaveFailed? && o.message.Some? && Contains(o.message.value, "[") && o.parsedList.Some? ==>
      StartsWith(r, VALIDATION_ERRORS) && r[|VALIDATION_ERRORS|..] == Join(o.parsedList.value, "\n")
  {
    match o
    case SaveSucceeded => if existed then SAVE_UPDATED else SAVE_CREATED
    case SaveFailed(m, parsed) =>
      if m.Some? && Contains(m.value, "[") && parsed.Some? then VALIDATION_ERRORS + Join(parsed.value, "\n")
      else Or(m, SAVE_FAILED)
  }

  /**
   * The alert `handlePhotoChange` shows once its calls settle: none when the upload
   * succeeded but there is no user to link it to, the success text once the link call
   * returned, and otherwise (a call threw) the error's message or the fallback.
   */
  function UploadNotice(uploaded: bool, userKnown: bool, linked: bool, failure: Option<string>): (r: Option<string>)
    ensures r == None <==> uploaded && !userKnown
    ensures uploaded && userKnown && linked ==> r == Some(PHOTO_UPDATED)
    ensures !uploaded || (userKnown && !linked) ==> r == Some(Or(failure, UPLOAD_FAILED))
    ensures r.Some? ==> r.value != []
  {
    if !uploaded then Some(Or(failure, UPLOAD_FAILED))
    else if !userKnown then None
    else if linked then Some(PHOTO_UPDATED)
    else Some(Or(failure, UPLOAD_FAILED))
  }

  /** The alert `handleRemovePhoto` shows once its delete call settles; it is never empty. */
  function RemoveNotice(deleted: bool, failure: Option<string>): (r: string)
    ensures deleted ==> r == PHOTO_REMOVED
    ensures !deleted ==> r == Or(failure, REMOVE_FAILED)
    ensures r != []
  {
    if deleted then PHOTO_REMOVED else Or(failure, REMOVE_FAILED)
  }

  /** What the synchronous part of `handlePhotoChange` did. */
  datatype PhotoStart =
    | PhotoBlocked              // an upload is in flight: the input is disabled
    | NoFile                    // the picker was cancelled
    | PhotoRejected(message: string)
    | UploadStarted(file: FileInfo)

  /** `if (error) errors.f = message` */
  function Record(m: map<Field, string>, f: Field, e: Option<string>): map<Field, string> {
    if e.Some? then m[f := e.value] else m
  }

  /** The error map built by running `check` on the eight checked fields in `validateForm`'s order. */
  function InOrder(check: Field -> Option<string>): map<Field, string> {
    var m0: map<Field, string> := map[];
    var m1 := Record(m0, Name, check(Name));
    var m2 := Record(m1, Gender, check(Gender));
    var m3 := Record(m2, Phone, check(Phone));
    var m4 := Record(m3, About, check(About));
    var m5 := Record(m4, Linkedin, check(Linkedin));
    var m6 := Record(m5, Website, check(Website));
    var m7 := Record(m6, Instagram, check(Instagram));
    Record(m7, Youtube, check(Youtube))
  }

  /** One recording step: field `f` is added with its message, or the map is left alone. */
  lemma RecordAt(m: map<Field, string>, f: Field, e: Option<string>, g: Field)
    ensures g in Record(m, f, e) <==> (g == f && e.Some?) || g in m
    ensures g in Record(m, f, e) ==> Record(m, f, e)[g] == if g == f && e.Some? then e.value else m[g]
  {
  }

  /** Each field is recorded once, so the order of the checks does not matter. */
  lemma InOrderKeys(check: Field -> Option<string>, f: Field)
    requires check(Email) == None && check(Dob) == None && check(ProfilePhoto) == None
    ensures f in InOrder(check) <==> check(f).Some?
    ensures f in InOrder(check) ==> InOrder(check)[f] == check(f).value
  {
    var m0: map<Field, string> := map[];
    var m1 := Record(m0, Name, check(Name));
    var m2 := Record(m1, Gender, check(Gender));
    var m3 := Record(m2, Phone, check(Phone));
    var m4 := Record(m3, About, check(About));
    var m5 := Record(m4, Linkedin, check(Linkedin));
    var m6 := Record(m5, Website, check(Website));
    var m7 := Record(m6, Instagram, check(Instagram));
    assert InOrder(check) == Record(m7, Youtube, check(Youtube));
    RecordAt(m0, Name, check(Name), f);
    RecordAt(m1, Gender, check(Gender), f);
    RecordAt(m2, Phone, check(Phone), f);
    RecordAt(m3, About, check(About), f);
    RecordAt(m4, Linkedin, check(Linkedin), f);
    RecordAt(m5, Website, check(Website), f);
    RecordAt(m6, Instagram, check(Instagram), f);
    RecordAt(m7, Youtube, check(Youtube), f);
  }

  /** `Object.keys(m).length === 0` holds exactly for the empty map. */
  lemma NoKeysIsEmpty(m: map<Field, string>)
    ensures |m.Keys| == 0 <==> m == map[]
  {
    if |m.Keys| == 0 {
      assert m.Keys == {};
    }
  }

  /** The body of `validateForm`: starting from an empty map, each checked field's message is recorded in turn. */
  method CollectErrors(check: Field -> Option<string>) returns (errors: map<Field, string>)
    ensures errors == InOrder(check)
  {
    errors := map[];
    errors := Record(errors, Name, check(Name));
    errors := Record(errors, Gender, check(Gender));
    errors := Record(errors, Phone, check(Phone));
    errors := Record(errors, About, check(About));
    errors := Record(errors, Linkedin, check(Linkedin));
    errors := Record(errors, Website, check(Website));
    errors := Record(errors, Instagram, check(Instagram));
    errors := Record(errors, Youtube, check(Youtube));
  }

  /** The check `validateForm` runs on each field of draft `d`. */
  function Checks(d: ProfileData): Field -> Option<string> {
    f => FieldError(d, f)
  }

  /** Built in order, the map is the draft's error map. */
  lemma InOrderIsFormErrors(d: ProfileData)
    ensures InOrder(Checks(d)) == FormErrors(d)
  {
    var check := Checks(d);
    assert check(Email) == None && check(Dob) == None && check(ProfilePhoto) == None;
    forall f ensures (f in InOrder(check) <==> f in FormErrors(d)) && (f in FormErrors(d) ==> InOrder(check)[f] == FormErrors(d)[f]) {
      InOrderKeys(check, f);
      ProfileRuleProperties.AllFieldsListed(f);
    }
  }

  /** The error map of draft `d`, built field by field, and whether it has no keys. */
  method CheckDraft(d: ProfileData) returns (errors: map<Field, string>, ok: bool)
    ensures errors == FormErrors(d)
    ensures ok <==> errors == map[]
  {
    errors := CollectErrors(Checks(d));
    InOrderIsFormErrors(d);
    NoKeysIsEmpty(errors);
    ok := |errors.Keys| == 0;
  }

  class Editor {
    var formData: ProfileData
    var validationErrors: map<Field, string>
    var userId: string
    var isLoading: bool
    var isSaving: bool
    var profileExists: bool
    var isUploadingPhoto: bool
    /** The delete calls of `handleRemovePhoto` that were made and have not returned yet. */
    ghost var pendingDeletes: nat
    /** The draft `handlePhotoChange`'s closure captured when its upload started. */
    ghost var photoDraft: ProfileData

    constructor()
      ensures formData == BlankDraft([], []) && validationErrors == map[] && userId == []
      ensures isLoading && !isSaving && !profileExists && !isUploadingPhoto && pendingDeletes == 0
    {
      formData := BlankDraft([], []);
      validationErrors := map[];
      userId := [];
      isLoading := true;
      isSaving := false;
      profileExists := false;
      isUploadingPhoto := false;
      pendingDeletes := 0;
      photoDraft := BlankDraft([], []);
    }

    /** The phone field holds at most ten digits and nothing else. */
    predicate PhoneWellFormed()
      reads this
    {
      AllDigits(formData.phone) && |formData.phone| <= PHONE_DIGITS
    }

    /** `loadUserData` after its backend calls settled. */
    method Load(isoString: string -> Option<string>, o: LoadOutcome)
      modifies this
      ensures var l := LoadedState(isoString, o);
        formData == l.draft && userId == l.userId
        && profileExists == (if l.profileExists.Some? then l.profileExists.value else old(profileExists))
      ensures !isLoading && validationErrors == old(validationErrors)
      ensures isSaving == old(isSaving) && isUploadingPhoto == old(isUploadingPhoto)
      ensures pendingDeletes == old(pendingDeletes) && photoDraft == old(photoDraft)
    {
      var l := LoadedState(isoString, o);
      userId := l.userId;
      formData := l.draft;
      if l.profileExists.Some? {
        profileExists := l.profileExists.value;
      }
      isLoading := false;
    }

    /**
     * `handleChange` for the input named `f`. A phone edit keeps only the digits and is
     * dropped when they are more than ten (digits are one UTF-16 code unit each, so their
     * `length` is their count); any accepted edit clears the field's message. The handler
     * is attached only to the text inputs: the e-mail input is read-only, the gender has
     * its own `Select` handler and the photo its own file handler.
     */
    method HandleChange(f: Field, value: string)
      requires f != Email && f != Gender && f != ProfilePhoto
      modifies this
      ensures f == Phone && |DigitsOnly(value)| > PHONE_DIGITS ==>
        formData == old(formData) && validationErrors == old(validationErrors)
      ensures f == Phone && |DigitsOnly(value)| <= PHONE_DIGITS ==>
        formData == old(formData).Set(Phone, DigitsOnly(value))
        && validationErrors == ClearFieldError(old(validationErrors), Phone)
      ensures f != Phone ==>
        formData == old(formData).Set(f, value) && validationErrors == ClearFieldError(old(validationErrors), f)
      ensures old(PhoneWellFormed()) ==> PhoneWellFormed()
      ensures f == Phone ==> PhoneWellFormed() || formData == old(formData)
      ensures userId == old(userId) && isLoading == old(isLoading) && isSaving == old(isSaving)
      ensures profileExists == old(profileExists) && isUploadingPhoto == old(isUploadingPhoto)
      ensures pendingDeletes == old(pendingDeletes) && photoDraft == old(photoDraft)
    {
      if f == Phone {
        var digits := DigitsOnly(value);
        if |digits| <= PHONE_DIGITS {
          formData := formData.Set(Phone, digits);
          validationErrors := ClearFieldError(validationErrors, Phone);
        }
        return;
      }
      formData := formData.Set(f, value);
      validationErrors := ClearFieldError(validationErrors, f);
    }

    /** The gender `Select`: sets the value and, unlike `handleChange`, leaves its message in place. */
    method SelectGender(value: string)
      modifies this
      ensures formData == old(formData).Set(Gender, value) && validationErrors == old(validationErrors)
      ensures userId == old(userId) && isLoading == old(isLoading) && isSaving == old(isSaving)
      ensures profileExists == old(profileExists) && isUploadingPhoto == old(isUploadingPhoto)
      ensures pendingDeletes == old(pendingDeletes) && photoDraft == old(photoDraft)
    {
      formData := formData.Set(Gender, value);
    }

    /** `validateForm`: rebuilds the error map from the draft, one field at a time, and reports whether it is empty. */
    method ValidateForm() returns (ok: bool)
      modifies this
      ensures validationErrors == FormErrors(formData)
      ensures ok <==> validationErrors == map[]
      ensures formData == old(formData) && userId == old(userId) && isLoading == old(isLoading)
      ensures isSaving == old(isSaving) && profileExists == old(profileExists)
      ensures isUploadingPhoto == old(isUploadingPhoto)
      ensures pendingDeletes == old(pendingDeletes) && photoDraft == old(photoDraft)
    {
      var errors;
      errors, ok := CheckDraft(formData);
      validationErrors := errors;
    }
    /**
     * The synchronous part of `handleSave`: validation first; only a valid draft of a
     * known user is sent, as the payload built from it, and only then is `isSaving` left set.
     */
    method BeginSave() returns (start: SaveStart)
      modifies this
      ensures old(isSaving) ==> start == SaveBlocked && isSaving && validationErrors == old(validationErrors)
      ensures !old(isSaving) ==> validationErrors == FormErrors(formData)
      ensures !old(isSaving) && FormErrors(formData) != map[] ==> start == SaveInvalid && !isSaving
      ensures !old(isSaving) && FormErrors(formData) == map[] && userId == [] ==> start == NoUser && !isSaving
      ensures !old(isSaving) && FormErrors(formData) == map[] && userId != [] ==>
        start == SaveSent(userId, ToPayload(formData)) && isSaving
      ensures formData == old(formData) && userId == old(userId) && isLoading == old(isLoading)
      ensures profileExists == old(profileExists) && isUploadingPhoto == old(isUploadingPhoto)
      ensures pendingDeletes == old(pendingDeletes) && photoDraft == old(photoDraft)
    {
      if isSaving {
        return SaveBlocked;
      }
      var ok := ValidateForm();
      if !ok {
        return SaveInvalid;
      }
      isSaving := true;
      if userId != [] {
        start := SaveSent(userId, ToPayload(formData));
      } else {
        start := NoUser;
        isSaving := false;
      }
    }

    /** The continuation of `handleSave`: a stored profile exists from now on; `isSaving` is cleared either way. */
    method SaveSettled(o: SaveOutcome) returns (notice: string)
      requires isSaving
      modifies this
      ensures notice == SaveNotice(o, old(profileExists))
      ensures profileExists == (old(profileExists) || o.SaveSucceeded?) && !isSaving
      ensures formData == old(formData) && validationErrors == old(validationErrors) && userId == old(userId)
      ensures isLoading == old(isLoading) && isUploadingPhoto == old(isUploadingPhoto)
      ensures pendingDeletes == old(pendingDeletes) && photoDraft == old(photoDraft)
    {
      notice := SaveNotice(o, profileExists);
      if o.SaveSucceeded? {
        profileExists := true;
      }
      isSaving := false;
    }

    /** The synchronous part of `handlePhotoChange`: only a file that passes the image gate is uploaded. */
    method BeginPhotoChange(file: Option<FileInfo>) returns (start: PhotoStart)
      modifies this
      ensures old(isUploadingPhoto) ==> start == PhotoBlocked
      ensures !old(isUploadingPhoto) && file == None ==> start == NoFile
      ensures !old(isUploadingPhoto) && file.Some? && ImageError(file.value).Some? ==>
        start == PhotoRejected(ImageError(file.value).value)
      ensures !old(isUploadingPhoto) && file.Some? && ImageError(file.value) == None ==> start == UploadStarted(file.value)
      ensures isUploadingPhoto == (old(isUploadingPhoto) || start.UploadStarted?)
      ensures formData == old(formData) && validationErrors == old(validationErrors) && userId == old(userId)
      ensures isLoading == old(isLoading) && isSaving == old(isSaving) && profileExists == old(profileExists)
      ensures pendingDeletes == old(pendingDeletes)
      ensures photoDraft == if start.UploadStarted? then formData else old(photoDraft)
    {
      if isUploadingPhoto {
        return PhotoBlocked;
      }
      if file == None {
        return NoFile;
      }
      var e := ImageError(file.value);
      if e.Some? {
        return PhotoRejected(e.value);
      }
      isUploadingPhoto := true;
      photoDraft := formData;
      start := UploadStarted(file.value);
    }

    /**
     * The continuation of `handlePhotoChange`. `uploadedUrl` is the URL `uploadFile`
     * returned (`None` when it failed); the photo is linked to the profile only for a
     * known user, and the draft the handler captured takes the new URL only once the
     * link call succeeded. `failure` is the message of the error either call threw, and
     * `notice` the alert shown at the end (`None` for no alert).
     */
    method PhotoSettled(captured: ProfileData, uploadedUrl: Option<string>, linked: bool, failure: Option<string>)
      returns (linkCalled: bool, notice: Option<string>)
      requires isUploadingPhoto && captured == photoDraft
      modifies this
      ensures linkCalled <==> uploadedUrl.Some? && userId != []
      ensures notice == UploadNotice(uploadedUrl.Some?, userId != [], linked, failure)
      ensures formData == if linkCalled && linked then captured.Set(ProfilePhoto, uploadedUrl.value) else old(formData)
      ensures !isUploadingPhoto && validationErrors == old(validationErrors) && userId == old(userId)
      ensures isLoading == old(isLoading) && isSaving == old(isSaving) && profileExists == old(profileExists)
      ensures pendingDeletes == old(pendingDeletes) && photoDraft == old(photoDraft)
    {
      linkCalled := uploadedUrl.Some? && userId != [];
      notice := UploadNotice(uploadedUrl.Some?, userId != [], linked, failure);
      if linkCalled && linked {
        formData := captured.Set(ProfilePhoto, uploadedUrl.value);
      }
      isUploadingPhoto := false;
    }

    /**
     * `handlePhotoChange` run to its end with no other handler in between, given what the
     * upload and link calls would return: a missing or refused file, or an upload already
     * running, changes nothing; otherwise the photo becomes the uploaded URL exactly when
     * both calls returned for a known user.
     */
    method PhotoChange(file: Option<FileInfo>, uploadedUrl: Option<string>, linked: bool, failure: Option<string>)
      returns (start: PhotoStart, notice: Option<string>)
      modifies this
      ensures old(isUploadingPhoto) || file == None || ImageError(file.value).Some? ==>
        formData == old(formData) && !start.UploadStarted?
      ensures start.UploadStarted? <==> !old(isUploadingPhoto) && file.Some? && ImageError(file.value) == None
      ensures start.UploadStarted? ==>
        formData == (if uploadedUrl.Some? && old(userId) != [] && linked
                     then old(formData).Set(ProfilePhoto, uploadedUrl.value) else old(formData))
        && notice == UploadNotice(uploadedUrl.Some?, old(userId) != [], linked, failure) && !isUploadingPhoto
      ensures !start.UploadStarted? ==> notice == None && isUploadingPhoto == old(isUploadingPhoto)
      ensures validationErrors == old(validationErrors) && userId == old(userId)
      ensures isLoading == old(isLoading) && isSaving == old(isSaving) && profileExists == old(profileExists)
      ensures pendingDeletes == old(pendingDeletes)
    {
      var captured := formData;
      start := BeginPhotoChange(file);
      notice := None;
      if start.UploadStarted? {
        var _, text := PhotoSettled(captured, uploadedUrl, linked, failure);
        notice := text;
      }
    }

    /**
     * The synchronous part of `handleRemovePhoto`: the delete call is made only after
     * confirmation, for a known user, and is then outstanding; nothing else changes.
     */
    method BeginRemovePhoto(confirmed: bool) returns (deleteCalled: bool)
      modifies this
      ensures deleteCalled <==> confirmed && userId != []
      ensures pendingDeletes == old(pendingDeletes) + (if deleteCalled then 1 else 0)
      ensures photoDraft == old(photoDraft)
      ensures formData == old(formData) && validationErrors == old(validationErrors) && userId == old(userId)
      ensures isLoading == old(isLoading) && isSaving == old(isSaving) && profileExists == old(profileExists)
      ensures isUploadingPhoto == old(isUploadingPhoto)
    {
      deleteCalled := confirmed && userId != [];
      if deleteCalled {
        pendingDeletes := pendingDeletes + 1;
      }
    }

    /**
     * The continuation of `handleRemovePhoto`, which exists only for a delete call that was
     * made: the captured draft loses its photo only when that call returned normally, and
     * the alert says so or gives the error's message (`failure`) or the fallback.
     */
    method RemovePhotoSettled(captured: ProfileData, deleted: bool, failure: Option<string>) returns (notice: string)
      requires pendingDeletes > 0
      modifies this
      ensures notice == RemoveNotice(deleted, failure)
      ensures pendingDeletes == old(pendingDeletes) - 1
      ensures photoDraft == old(photoDraft)
      ensures formData == if deleted then captured.Set(ProfilePhoto, []) else old(formData)
      ensures validationErrors == old(validationErrors) && userId == old(userId) && isLoading == old(isLoading)
      ensures isSaving == old(isSaving) && profileExists == old(profileExists)
      ensures isUploadingPhoto == old(isUploadingPhoto)
    {
      pendingDeletes := pendingDeletes - 1;
      notice := RemoveNotice(deleted, failure);
      if deleted {
        formData := captured.Set(ProfilePhoto, []);
      }
    }

    /**
     * `handleRemovePhoto` run to its end with no other handler in between: the photo is
     * cleared exactly when the user confirmed, the user id was known and the delete call
     * returned normally; otherwise nothing changes. An alert is shown exactly when the
     * delete call was made.
     */
    method RemovePhoto(confirmed: bool, deleted: bool, failure: Option<string>) returns (notice: Option<string>)
      modifies this
      ensures notice == if confirmed && old(userId) != [] then Some(RemoveNotice(deleted, failure)) else None
      ensures formData == if confirmed && old(userId) != [] && deleted then old(formData).Set(ProfilePhoto, []) else old(formData)
      ensures pendingDeletes == old(pendingDeletes) && photoDraft == old(photoDraft)
      ensures validationErrors == old(validationErrors) && userId == old(userId) && isLoading == old(isLoading)
      ensures isSaving == old(isSaving) && profileExists == old(profileExists)
      ensures isUploadingPhoto == old(isUploadingPhoto)
    {
      var captured := formData;
      var called := BeginRemovePhoto(confirmed);
      notice := None;
      if called {
        var text := RemovePhotoSettled(captured, deleted, failure);
        notice := Some(text);
      }
    }
  }

  /**
   * What a sent payload carries: a name, a gender and an about text that are not blank,
   * a ten-character phone number with the fixed country code, and `null` for an empty
   * date of birth.
   */
  lemma SentPayloadIsComplete(d: ProfileData)
    requires FormErrors(d) == map[]
    ensures !IsBlank(ToPayload(d).name) && !IsBlank(ToPayload(d).gender) && !IsBlank(ToPayload(d).about)
    ensures Utf16Length(ToPayload(d).phoneNumber) == PHONE_DIGITS && ToPayload(d).countryCode == "+91"
    ensures ToPayload(d).dateOfBirth == None <==> d.dob == []
  {
    ProfileRuleProperties.EmptyErrorsIffAllPass(d);
    ProfileRuleProperties.ValidNameAndGender(d);
    ProfileRuleProperties.ValidPhone(d);
    ProfileRuleProperties.ValidAbout(d);
  }
}
