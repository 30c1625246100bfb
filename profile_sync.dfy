/**
 * The two conversions between the editor's draft and the backend profile record: the
 * payload `handleSave` sends, and the draft `loadUserData` builds from what the backend
 * returns (or from the e-mail alone when there is no profile).
 */
module ProfileSync {
  import opened Wrappers
  import opened Text
  import opened Forms
  import opened ProfileRules
  import ProfileRuleProperties

  /** The `socialMedia` object of a stored profile; any key may be missing. */
  datatype SocialRecord = SocialRecord(
    linkedin: Option<string>, website: Option<string>,
    instagram: Option<string>, youtube: Option<string>)

  /** A profile as the backend returns it; any key may be missing or null. */
  datatype ProfileRecord = ProfileRecord(
    name: Option<string>, profilePhoto: Option<string>, dateOfBirth: Option<string>,
    gender: Option<string>, phoneNumber: Option<string>, about: Option<string>,
    socialMedia: Option<SocialRecord>)

  datatype SocialPayload = SocialPayload(linkedin: string, website: string, instagram: string, youtube: string)

  /** The body of `updateUserProfile`; `None` stands for `null`. */
  datatype ProfilePayload = ProfilePayload(
    name: string, email: string, profilePhoto: Option<string>, dateOfBirth: Option<string>,
    gender: string, phoneNumber: string, countryCode: string, about: string,
    socialMedia: SocialPayload)

  const COUNTRY_CODE := "+91"

  /** `x || null` */
  function OrNull(x: string): (r: Option<string>)
    ensures r == None <==> x == []
    ensures r.Some? ==> r.value == x
  {
    if x == [] then None else Some(x)
  }

  /** The payload `handleSave` builds from the draft. */
  function ToPayload(d: ProfileData): (p: ProfilePayload)
    ensures p.name == d.name && p.email == d.email && p.gender == d.gender && p.about == d.about
    ensures p.phoneNumber == d.phone && p.countryCode == COUNTRY_CODE
    ensures p.profilePhoto == None <==> d.profilePhoto == []
    ensures p.dateOfBirth == None <==> d.dob == []
    ensures p.socialMedia == SocialPayload(d.linkedin, d.website, d.instagram, d.youtube)
  {
    ProfilePayload(
      d.name, d.email, OrNull(d.profilePhoto), OrNull(d.dob), d.gender, d.phone, COUNTRY_CODE,
      d.about, SocialPayload(d.linkedin, d.website, d.instagram, d.youtube))
  }

  /** The draft with every field `''` except the given name and e-mail. */
  function BlankDraft(name: string, email: string): (d: ProfileData)
    ensures d.name == name && d.email == email
    ensures forall f | f != Name && f != Email :: d.Get(f) == []
  {
    ProfileData(name, email, "", "", "", "", "", "", "", "", "")
  }

  /** `email.split('@')[0]`: the default display name. */
  function EmailName(email: string): (r: string)
    ensures StartsWith(email, r) && '@' !in r
  {
    BeforeFirst(email, '@')
  }

  /**
   * `new Date(x).toISOString().split('T')[0]`: the calendar day of a stored date, or
   * `None` when the conversion throws (an unparsable date makes `toISOString` throw).
   */
  function DayOf(isoString: string -> Option<string>, x: string): (r: Option<string>)
    ensures r.Some? <==> isoString(x).Some?
    ensures r.Some? ==> 'T' !in r.value
  {
    match isoString(x)
    case Some(iso) => Some(BeforeFirst(iso, 'T'))
    case None => None
  }

  /** The draft built from a stored profile, or `None` when building it throws. */
  function DraftFromRecord(isoString: string -> Option<string>, email: string, p: ProfileRecord): (r: Option<ProfileData>)
    ensures r.Some? ==> r.value.email == email && r.value.name == Or(p.name, EmailName(email))
    ensures r.Some? <==> (p.dateOfBirth == None || p.dateOfBirth == Some([]) || DayOf(isoString, p.dateOfBirth.value).Some?)
  {
    var social := p.socialMedia.GetOr(SocialRecord(None, None, None, None));
    var dob :=
      if p.dateOfBirth == None || p.dateOfBirth == Some([]) then Some([])
      else DayOf(isoString, p.dateOfBirth.value);
    if dob == None then None
    else Some(ProfileData(
      Or(p.name, EmailName(email)), email, dob.value, Or(p.gender, ""), Or(p.phoneNumber, ""),
      Or(p.about, ""), Or(social.linkedin, ""), Or(social.website, ""), Or(social.instagram, ""),
      Or(social.youtube, ""), Or(p.profilePhoto, "")))
  }

  /** What `loadUserData` learned from the backend. */
  datatype LoadOutcome =
    | /** `getMe` failed: only the user record kept in the browser is known. */
      MeFailed(localUserId: Option<string>, localEmail: Option<string>)
    | /** `getMe` succeeded but `getUserProfile` failed. */
      ProfileMissing(userId: string, email: string)
    | /** Both calls succeeded. */
      ProfileFound(userId: string, email: string, profile: ProfileRecord)

  /** The editor state `loadUserData` leaves behind. */
  datatype Loaded = Loaded(userId: string, profileExists: Option<bool>, draft: ProfileData)

  /**
   * `profileExists` is `Some(b)` when the loader sets it and `None` when it leaves it
   * alone (the `getMe` failure path). A profile whose draft cannot be built counts as
   * missing: the conversion error lands in the same `catch`.
   */
  function LoadedState(isoString: string -> Option<string>, o: LoadOutcome): (r: Loaded)
    ensures o.MeFailed? ==>
      r.profileExists == None && r.draft == BlankDraft(EmailName(Or(o.localEmail, "")), Or(o.localEmail, ""))
    ensures o.ProfileMissing? ==> r.profileExists == Some(false) && r.draft == BlankDraft(EmailName(o.email), o.email)
    ensures !o.MeFailed? ==> r.userId == o.userId && r.draft.email == o.email
    ensures o.ProfileFound? ==> r.profileExists == Some(DraftFromRecord(isoString, o.email, o.profile).Some?)
    ensures o.ProfileFound? && DraftFromRecord(isoString, o.email, o.profile).Some? ==>
      r.draft == DraftFromRecord(isoString, o.email, o.profile).value
    ensures o.ProfileFound? && DraftFromRecord(isoString, o.email, o.profile) == None ==>
      r.draft == BlankDraft(EmailName(o.email), o.email)
  {
    match o
    case MeFailed(localId, localEmail) =>
      // `parsedUser.email?.split('@')[0] || ''` equals `EmailName` of `email || ''`.
      Loaded(Or(localId, ""), None, BlankDraft(EmailName(Or(localEmail, "")), Or(localEmail, "")))
    case ProfileMissing(id, email) =>
      Loaded(id, Some(false), BlankDraft(EmailName(email), email))
    case ProfileFound(id, email, p) =>
      match DraftFromRecord(isoString, email, p)
      case Some(d) => Loaded(id, Some(true), d)
      case None => Loaded(id, Some(false), BlankDraft(EmailName(email), email))
  }

  /** The record the backend holds after storing a payload. */
  function Stored(p: ProfilePayload): ProfileRecord {
    ProfileRecord(
      Some(p.name), p.profilePhoto, p.dateOfBirth, Some(p.gender), Some(p.phoneNumber), Some(p.about),
      Some(SocialRecord(
        Some(p.socialMedia.linkedin), Some(p.socialMedia.website),
        Some(p.socialMedia.instagram), Some(p.socialMedia.youtube))))
  }

  /** The date conversion gives back a day unchanged. */
  predicate KeepsDay(isoString: string -> Option<string>, day: string) {
    DayOf(isoString, day) == Some(day)
  }

  /**
   * Saving and reloading is the identity on a draft with a name, whose e-mail is the
   * account's and whose date of birth, if any, survives the date conversion: every `''`
   * sent as `null` or kept as `''` comes back as `''`.
   */
  lemma ReloadAfterSave(isoString: string -> Option<string>, d: ProfileData, id: string)
    requires d.name != []
    requires d.dob == [] || KeepsDay(isoString, d.dob)
    ensures LoadedState(isoString, ProfileFound(id, d.email, Stored(ToPayload(d)))) == Loaded(id, Some(true), d)
  {
    var p := Stored(ToPayload(d));
    assert DraftFromRecord(isoString, d.email, p) == Some(d);
  }

  /** A draft that passed validation has a name, so only its date decides whether it reloads unchanged. */
  lemma ValidDraftReloads(isoString: string -> Option<string>, d: ProfileData, id: string)
    requires FormErrors(d) == map[]
    requires d.dob == [] || KeepsDay(isoString, d.dob)
    ensures LoadedState(isoString, ProfileFound(id, d.email, Stored(ToPayload(d)))) == Loaded(id, Some(true), d)
  {
    ProfileRuleProperties.EmptyErrorsIffAllPass(d);
    ProfileRuleProperties.ValidNameAndGender(d);
    ReloadAfterSave(isoString, d, id);
  }
}
