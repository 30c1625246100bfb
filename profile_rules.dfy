/**
 * The profile editor's validation rules (`validateForm` in the dashboard page): the
 * required fields, the phone and "about" bounds, and the four social-link checks with
 * their regular expressions.
 */
module ProfileRules {
  import opened Wrappers
  import opened Text
  import opened Pattern

  /** The keys of the profile draft (`ProfileData`). */
  datatype Field =
    | Name | Email | Dob | Gender | Phone | About
    | Linkedin | Website | Instagram | Youtube | ProfilePhoto

  /** The draft held by the editor; every field is a string, `''` when unset. */
  datatype ProfileData = ProfileData(
    name: string, email: string, dob: string, gender: string, phone: string, about: string,
    linkedin: string, website: string, instagram: string, youtube: string, profilePhoto: string)
  {
    /** `formData[f]` */
    function Get(f: Field): string {
      match f
      case Name => name
      case Email => email
      case Dob => dob
      case Gender => gender
      case Phone => phone
      case About => about
      case Linkedin => linkedin
      case Website => website
      case Instagram => instagram
      case Youtube => youtube
      case ProfilePhoto => profilePhoto
    }

    /** `{ ...formData, [f]: v }`: field `f` becomes `v`, every other field is kept. */
    function Set(f: Field, v: string): (d: ProfileData)
      ensures d.Get(f) == v
      ensures forall g | g != f :: d.Get(g) == Get(g)
    {
      match f
      case Name => this.(name := v)
      case Email => this.(email := v)
      case Dob => this.(dob := v)
      case Gender => this.(gender := v)
      case Phone => this.(phone := v)
      case About => this.(about := v)
      case Linkedin => this.(linkedin := v)
      case Website => this.(website := v)
      case Instagram => this.(instagram := v)
      case Youtube => this.(youtube := v)
      case ProfilePhoto => this.(profilePhoto := v)
    }
  }

  const NAME_REQUIRED := "Name is required"
  const GENDER_REQUIRED := "Gender is required"
  const PHONE_REQUIRED := "Phone number is required"
  const PHONE_LENGTH := "Phone number must be exactly 10 digits"
  const ABOUT_REQUIRED := "About section is required"
  const ABOUT_TOO_LONG := "About section cannot exceed 500 characters"
  const LINKEDIN_INVALID := "Invalid LinkedIn URL format"
  const WEBSITE_INVALID := "Invalid website URL format (must start with http:// or https://)"
  const INSTAGRAM_URL_INVALID := "Invalid Instagram URL format"
  const INSTAGRAM_USERNAME_INVALID := "Invalid Instagram username format"
  const YOUTUBE_URL_INVALID := "Invalid YouTube URL format"
  const YOUTUBE_HANDLE_INVALID := "Invalid YouTube handle format"

  const ABOUT_MAX := 500
  const PHONE_DIGITS := 10

  /** `^https?:\/\/(www\.)?linkedin\.com\/(in|company)\/[\w-]+\/?$` */
  const LINKEDIN_URL: seq<Atom> := [
    Lit("http"), Opt("s"), Lit("://"), Opt("www."), Lit("linkedin.com/"),
    OneOf(["in", "company"]), Lit("/"), Repeat(WordDash, 1, Unbounded), Opt("/")]

  /** `^https?:\/\/(www\.)?[-a-zA-Z0-9@:%._\+~#=]{1,256}\.[a-zA-Z0-9()]{1,6}\b([-a-zA-Z0-9()@:%_\+.~#?&//=]*)$` */
  const WEBSITE_URL: seq<Atom> := [
    Lit("http"), Opt("s"), Lit("://"), Opt("www."), Repeat(HostChar, 1, AtMost(256)),
    Lit("."), Repeat(TldChar, 1, AtMost(6)), WordBoundary, Repeat(PathChar, 0, Unbounded)]

  /** `^https?:\/\/(www\.)?instagram\.com\/[\w.-]+\/?$` */
  const INSTAGRAM_URL: seq<Atom> := [
    Lit("http"), Opt("s"), Lit("://"), Opt("www."), Lit("instagram.com/"),
    Repeat(WordDotDash, 1, Unbounded), Opt("/")]

  /** `^[\w.-]+$` */
  const INSTAGRAM_USERNAME: seq<Atom> := [Repeat(WordDotDash, 1, Unbounded)]

  /** `^https?:\/\/(www\.)?youtube\.com\/(c|channel|@)[\w-]+\/?$` (no `/` after `c` or `channel`) */
  const YOUTUBE_URL: seq<Atom> := [
    Lit("http"), Opt("s"), Lit("://"), Opt("www."), Lit("youtube.com/"),
    OneOf(["c", "channel", "@"]), Repeat(WordDash, 1, Unbounded), Opt("/")]

  /** `^@[\w-]+$` */
  const YOUTUBE_HANDLE: seq<Atom> := [Lit("@"), Repeat(WordDash, 1, Unbounded)]

  /** `!v || v.trim() === ''` gives `message`. */
  function RequiredError(v: string, message: string): (r: Option<string>)
    ensures r == None || r == Some(message)
    ensures r.Some? <==> IsBlank(v)
  {
    TrimEmptyIffBlank(v);
    if Trim(v) == [] then Some(message) else None
  }

  /** Presence first, then `phone.length !== 10`. */
  function PhoneError(phone: string): (r: Option<string>)
    ensures r == None || r == Some(PHONE_REQUIRED) || r == Some(PHONE_LENGTH)
    ensures r == Some(PHONE_REQUIRED) <==> IsBlank(phone)
  {
    TrimEmptyIffBlank(phone);
    if Trim(phone) == [] then Some(PHONE_REQUIRED)
    else if Utf16Length(phone) != PHONE_DIGITS then Some(PHONE_LENGTH)
    else None
  }

  /** Presence first, then `about.length > 500`. */
  function AboutError(about: string): (r: Option<string>)
    ensures r == None || r == Some(ABOUT_REQUIRED) || r == Some(ABOUT_TOO_LONG)
    ensures r == Some(ABOUT_REQUIRED) <==> IsBlank(about)
  {
    TrimEmptyIffBlank(about);
    if Trim(about) == [] then Some(ABOUT_REQUIRED)
    else if Utf16Length(about) > ABOUT_MAX then Some(ABOUT_TOO_LONG)
    else None
  }

  /** Only a value mentioning `linkedin.com` is checked against the URL pattern. */
  function LinkedinError(v: string): (r: Option<string>)
    ensures r == None || r == Some(LINKEDIN_INVALID)
    ensures r.Some? ==> Contains(v, "linkedin.com")
  {
    if v != [] && Contains(v, "linkedin.com") && !FullMatch(LINKEDIN_URL, v) then Some(LINKEDIN_INVALID)
    else None
  }

  /** Any non-empty website is checked against the URL pattern. */
  function WebsiteError(v: string): (r: Option<string>)
    ensures r == None || r == Some(WEBSITE_INVALID)
    ensures v == [] ==> r == None
  {
    if v != [] && !FullMatch(WEBSITE_URL, v) then Some(WEBSITE_INVALID) else None
  }

  /** A value mentioning `instagram.com` must be a profile URL, anything else a bare username. */
  function InstagramError(v: string): (r: Option<string>)
    ensures r == None || r == Some(INSTAGRAM_URL_INVALID) || r == Some(INSTAGRAM_USERNAME_INVALID)
    ensures r == Some(INSTAGRAM_URL_INVALID) ==> Contains(v, "instagram.com")
    ensures r == Some(INSTAGRAM_USERNAME_INVALID) ==> v != [] && !Contains(v, "instagram.com")
  {
    if v == [] then None
    else if Contains(v, "instagram.com") then
      (if FullMatch(INSTAGRAM_URL, v) then None else Some(INSTAGRAM_URL_INVALID))
    else if FullMatch(INSTAGRAM_USERNAME, v) then None
    else Some(INSTAGRAM_USERNAME_INVALID)
  }

  /** A value mentioning `youtube.com` must be a channel URL, one starting with `@` a handle; the rest pass. */
  function YoutubeError(v: string): (r: Option<string>)
    ensures r == None || r == Some(YOUTUBE_URL_INVALID) || r == Some(YOUTUBE_HANDLE_INVALID)
    ensures r == Some(YOUTUBE_URL_INVALID) ==> Contains(v, "youtube.com")
    ensures r == Some(YOUTUBE_HANDLE_INVALID) ==> StartsWith(v, "@") && !Contains(v, "youtube.com")
  {
    if v == [] then None
    else if Contains(v, "youtube.com") then
      (if FullMatch(YOUTUBE_URL, v) then None else Some(YOUTUBE_URL_INVALID))
    else if StartsWith(v, "@") then
      (if FullMatch(YOUTUBE_HANDLE, v) then None else Some(YOUTUBE_HANDLE_INVALID))
    else None
  }

  /** The message `validateForm` records for field `f`, if any; email, date of birth and photo are not checked. */
  function FieldError(d: ProfileData, f: Field): (r: Option<string>)
    ensures f == Email || f == Dob || f == ProfilePhoto ==> r == None
    ensures r.Some? ==> r.value != []
  {
    match f
    case Name => RequiredError(d.name, NAME_REQUIRED)
    case Gender => RequiredError(d.gender, GENDER_REQUIRED)
    case Phone => PhoneError(d.phone)
    case About => AboutError(d.about)
    case Linkedin => LinkedinError(d.linkedin)
    case Website => WebsiteError(d.website)
    case Instagram => InstagramError(d.instagram)
    case Youtube => YoutubeError(d.youtube)
    case Email | Dob | ProfilePhoto => None
  }

  const ALL_FIELDS: set<Field> :=
    {Name, Email, Dob, Gender, Phone, About, Linkedin, Website, Instagram, Youtube, ProfilePhoto}

  /** The error map of a draft: one key per failing field, holding that field's message. */
  function FormErrors(d: ProfileData): (r: map<Field, string>)
    ensures Email !in r && Dob !in r && ProfilePhoto !in r
  {
    map f | f in ALL_FIELDS && FieldError(d, f).Some? :: FieldError(d, f).value
  }

  /** The live counter under the "about" box: `500 - formData.about.length`, in code units. */
  function CharactersRemaining(about: string): (r: int)
    ensures r < 0 <==> Utf16Length(about) > ABOUT_MAX
    ensures r == ABOUT_MAX <==> about == []
  {
    ABOUT_MAX - Utf16Length(about)
  }
}
