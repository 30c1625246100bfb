/**
 * What the profile validation rules promise: which messages each field can get and in
 * what order of precedence, what a value must look like to pass, and the loose cases
 * the social-link checks deliberately let through.
 */
module ProfileRuleProperties {
  import opened Wrappers
  import opened Text
  import opened Pattern
  import opened ProfileRules

  /** Name, gender and about are "required" exactly when they are blank. */
  lemma RequiredIffBlank(v: string, message: string)
    ensures RequiredError(v, message) == (if IsBlank(v) then Some(message) else None)
  {
    TrimEmptyIffBlank(v);
  }

  /** Phone: a blank value is "required" whatever its length; otherwise it must be exactly ten code units long. */
  lemma PhoneErrorCases(phone: string)
    ensures IsBlank(phone) ==> PhoneError(phone) == Some(PHONE_REQUIRED)
    ensures !IsBlank(phone) && Utf16Length(phone) != PHONE_DIGITS ==> PhoneError(phone) == Some(PHONE_LENGTH)
    ensures PhoneError(phone) == None <==> !IsBlank(phone) && Utf16Length(phone) == PHONE_DIGITS
  {
    TrimEmptyIffBlank(phone);
  }

  /** For a digits-only phone (what the editor stores), the check is just "ten digits". */
  lemma DigitPhoneError(phone: string)
    requires AllDigits(phone)
    ensures phone == [] ==> PhoneError(phone) == Some(PHONE_REQUIRED)
    ensures phone != [] && |phone| != PHONE_DIGITS ==> PhoneError(phone) == Some(PHONE_LENGTH)
    ensures PhoneError(phone) == None <==> |phone| == PHONE_DIGITS
  {
    TrimOfDigits(phone);
    Utf16LengthOfDigits(phone);
  }

  /**
   * About: blank is "required" even when over-long; a non-blank text passes exactly when
   * the live counter is not negative.
   */
  lemma AboutErrorCases(about: string)
    ensures IsBlank(about) ==> AboutError(about) == Some(ABOUT_REQUIRED)
    ensures !IsBlank(about) && Utf16Length(about) > ABOUT_MAX ==> AboutError(about) == Some(ABOUT_TOO_LONG)
    ensures AboutError(about) == None <==> !IsBlank(about) && CharactersRemaining(about) >= 0
  {
    TrimEmptyIffBlank(about);
  }

  /**
   * The limit counts UTF-16 code units: more than 250 characters above U+FFFF (emoji, say)
   * are too long, and the counter shows 500 minus twice their number.
   */
  lemma AboutCountsCodeUnits(about: string)
    requires |about| > ABOUT_MAX / 2 && forall i | 0 <= i < |about| :: about[i] as int > 0xFFFF
    ensures AboutError(about) == Some(ABOUT_TOO_LONG)
    ensures CharactersRemaining(about) == ABOUT_MAX - 2 * |about| < 0
  {
    Utf16LengthAboveBmp(about);
    assert !IsSpace(about[0]);
    AboutErrorCases(about);
  }

  /** An empty social field never produces an error. */
  lemma SocialFieldsOptional(d: ProfileData)
    ensures d.linkedin == [] ==> FieldError(d, Linkedin) == None
    ensures d.website == [] ==> FieldError(d, Website) == None
    ensures d.instagram == [] ==> FieldError(d, Instagram) == None
    ensures d.youtube == [] ==> FieldError(d, Youtube) == None
  {
  }

  /** A LinkedIn value that does not mention `linkedin.com` is accepted unchecked. */
  lemma LinkedinLoose(v: string)
    requires !Contains(v, "linkedin.com")
    ensures LinkedinError(v) == None
  {
  }

  /** A YouTube value that neither mentions `youtube.com` nor starts with `@` is accepted unchecked. */
  lemma YoutubeLoose(v: string)
    requires !Contains(v, "youtube.com") && !StartsWith(v, "@")
    ensures YoutubeError(v) == None
  {
  }

  predicate HasHttpScheme(s: string) {
    StartsWith(s, "http://") || StartsWith(s, "https://")
  }

  /** Every pattern that opens with `https?:\/\/` matches only strings that start with `http://` or `https://`. */
  lemma SchemeRequired(p: seq<Atom>, s: string)
    requires |p| >= 3 && p[0] == Lit("http") && p[1] == Opt("s") && p[2] == Lit("://")
    requires FullMatch(p, s)
    ensures HasHttpScheme(s)
  {
    LitStep(p, s, 0);
    assert p[1..][0] == Opt("s") && p[1..][1..] == p[2..];
    OptStep(p[1..], s, 4);
    assert p[2..][0] == Lit("://");
    if MatchesFrom(p[2..], s, 4) {
      LitStep(p[2..], s, 4);
      assert s[..7] == s[0..4] + s[4..7];
    } else {
      LitStep(p[2..], s, 5);
      assert s[..8] == s[0..4] + s[4..5] + s[5..8];
    }
  }

  /** A LinkedIn value that mentions `linkedin.com` passes only as an http(s) URL. */
  lemma LinkedinUrlNeedsScheme(v: string)
    requires Contains(v, "linkedin.com") && LinkedinError(v) == None
    ensures HasHttpScheme(v)
  {
    SchemeRequired(LINKEDIN_URL, v);
  }

  /** A non-empty website passes only as an http(s) URL, as its message says. */
  lemma WebsiteNeedsScheme(v: string)
    requires v != [] && WebsiteError(v) == None
    ensures HasHttpScheme(v)
  {
    SchemeRequired(WEBSITE_URL, v);
  }

  /** `^[\w.-]+$`: non-empty and made of word characters, dots and dashes. */
  lemma InstagramUsernameShape(v: string)
    ensures FullMatch(INSTAGRAM_USERNAME, v) <==> v != [] && forall i | 0 <= i < |v| :: InClass(WordDotDash, v[i])
  {
    var p := INSTAGRAM_USERNAME;
    if FullMatch(p, v) {
      var j := RepeatStep(p, v, 0);
    }
    if v != [] && forall i | 0 <= i < |v| :: InClass(WordDotDash, v[i]) {
      assert PieceMatches(p, v, [0, |v|], 0);
      MatchedBy(p, v, [0, |v|]);
    }
  }

  /** A matched handle is an `@` and then a run of `[\w-]`. */
  lemma HandleMatchHasShape(p: seq<Atom>, v: string)
    requires p == YOUTUBE_HANDLE && FullMatch(p, v)
    ensures |v| >= 2 && v[0] == '@' && forall i | 1 <= i < |v| :: InClass(WordDash, v[i])
  {
    LitStep(p, v, 0);
    assert v[0] == v[0..1][0];
    var q := p[1..];
    assert q == [Repeat(WordDash, 1, Unbounded)];
    var j := RepeatStep(q, v, 1);
    assert q[1..] == [];
  }

  /** An `@` and then a run of `[\w-]` is a matched handle. */
  lemma ShapeMatchesHandle(p: seq<Atom>, v: string)
    requires p == YOUTUBE_HANDLE
    requires |v| >= 2 && v[0] == '@' && forall i | 1 <= i < |v| :: InClass(WordDash, v[i])
    ensures FullMatch(p, v)
  {
    var cuts: seq<nat> := [0, 1, |v|];
    assert v[0..1] == [v[0]];
    assert PieceMatches(p, v, cuts, 0);
    assert PieceMatches(p, v, cuts, 1);
    MatchedBy(p, v, cuts);
  }

  /** `^@[\w-]+$`: an `@` followed by at least one word character or dash. */
  lemma YoutubeHandleShape(v: string)
    ensures FullMatch(YOUTUBE_HANDLE, v)
      <==> |v| >= 2 && v[0] == '@' && forall i | 1 <= i < |v| :: InClass(WordDash, v[i])
  {
    if FullMatch(YOUTUBE_HANDLE, v) {
      HandleMatchHasShape(YOUTUBE_HANDLE, v);
    }
    if |v| >= 2 && v[0] == '@' && forall i | 1 <= i < |v| :: InClass(WordDash, v[i]) {
      ShapeMatchesHandle(YOUTUBE_HANDLE, v);
    }
  }

  /** A value without `instagram.com` is a username: it passes exactly when it is made of `[\w.-]`. */
  lemma InstagramUsernameRule(v: string)
    requires v != [] && !Contains(v, "instagram.com")
    ensures InstagramError(v) == None <==> forall i | 0 <= i < |v| :: InClass(WordDotDash, v[i])
    ensures InstagramError(v) != None ==> InstagramError(v) == Some(INSTAGRAM_USERNAME_INVALID)
  {
    InstagramUsernameShape(v);
  }

  /** A value starting with `@` and without `youtube.com` is a handle: `@` then one or more `[\w-]`. */
  lemma YoutubeHandleRule(v: string)
    requires StartsWith(v, "@") && !Contains(v, "youtube.com")
    ensures YoutubeError(v) == None <==> |v| >= 2 && forall i | 1 <= i < |v| :: InClass(WordDash, v[i])
  {
    YoutubeHandleShape(v);
    assert v[..1] == "@";
  }

  /** A value mentioning `instagram.com` passes exactly when it matches the profile-URL pattern. */
  lemma InstagramUrlRule(v: string)
    requires Contains(v, "instagram.com")
    ensures InstagramError(v) == (if FullMatch(INSTAGRAM_URL, v) then None else Some(INSTAGRAM_URL_INVALID))
  {
  }

  /** A value mentioning `youtube.com` passes exactly when it matches the channel-URL pattern. */
  lemma YoutubeUrlRule(v: string)
    requires Contains(v, "youtube.com")
    ensures YoutubeError(v) == (if FullMatch(YOUTUBE_URL, v) then None else Some(YOUTUBE_URL_INVALID))
  {
  }

  /**
   * The common head `https?:\/\/(www\.)?host` of the LinkedIn, Instagram and YouTube
   * patterns: the host literal ends at index `i`, between 7 and 12 characters past its
   * own length, and the rest of the pattern matches from there.
   */
  lemma HostPrefix(p: seq<Atom>, s: string) returns (i: nat)
    requires |p| >= 5 && p[0] == Lit("http") && p[1] == Opt("s") && p[2] == Lit("://")
    requires p[3] == Opt("www.") && p[4].Lit?
    requires FullMatch(p, s)
    ensures 7 + |p[4].text| <= i <= 12 + |p[4].text| && i <= |s|
    ensures OccursAt(s, p[4].text, i - |p[4].text|) && MatchesFrom(p[5..], s, i)
  {
    LitStep(p, s, 0);
    assert p[1..][1..] == p[2..];
    OptStep(p[1..], s, 4);
    var k: nat := if MatchesFrom(p[2..], s, 4) then 4 else 5;
    assert p[2..][1..] == p[3..];
    LitStep(p[2..], s, k);
    assert p[3..][1..] == p[4..];
    OptStep(p[3..], s, k + 3);
    var l: nat := if MatchesFrom(p[4..], s, k + 3) then k + 3 else k + 7;
    assert p[4..][1..] == p[5..];
    LitStep(p[4..], s, l);
    i := l + |p[4].text|;
  }

  lemma NoSlashInChoice(w: string)
    requires w in ["c", "channel", "@"]
    ensures forall m | 0 <= m < |w| :: w[m] != '/'
  {
  }

  /** A trailing `\/?` leaves at most one character for itself. */
  lemma TrailingSlashOnly(p: seq<Atom>, s: string, j: nat)
    requires p == [Opt("/")] && j <= |s| && MatchesFrom(p, s, j)
    ensures |s| - 1 <= j
  {
    OptStep(p, s, j);
  }

  /** `[\w-]+\/?` matched from `k`: no `/` before the last character. */
  lemma RunHasNoSlash(q: seq<Atom>, s: string, k: nat)
    requires q == [Repeat(WordDash, 1, Unbounded), Opt("/")]
    requires k <= |s| && MatchesFrom(q, s, k)
    ensures forall m | k <= m < |s| - 1 :: s[m] != '/'
  {
    var j := RepeatStep(q, s, k);
    TrailingSlashOnly(q[1..], s, j);
    forall m | k <= m < |s| - 1 ensures s[m] != '/' {
      assert InClass(WordDash, s[m]);
    }
  }

  /** A slash-free text found at `i` puts no `/` there. */
  lemma OccurrenceHasNoSlash(s: string, w: string, i: int)
    requires OccursAt(s, w, i) && forall m | 0 <= m < |w| :: w[m] != '/'
    ensures forall m | i <= m < i + |w| :: s[m] != '/'
  {
    forall m | i <= m < i + |w| ensures s[m] != '/' {
      assert s[m] == s[i..i + |w|][m - i];
    }
  }

  /** `(c|channel|@)[\w-]+\/?` matched from `i`: no `/` before the last character. */
  lemma ChannelTailHasNoSlash(p: seq<Atom>, s: string, i: nat)
    requires |p| == 3 && p[0] == OneOf(["c", "channel", "@"])
    requires p[1] == Repeat(WordDash, 1, Unbounded) && p[2] == Opt("/")
    requires i <= |s| && MatchesFrom(p, s, i)
    ensures forall m | i <= m < |s| - 1 :: s[m] != '/'
  {
    OneOfStep(p, s, i);
    var w :| w in p[0].choices && OccursAt(s, w, i) && MatchesFrom(p[1..], s, i + |w|);
    NoSlashInChoice(w);
    assert p[1..] == [Repeat(WordDash, 1, Unbounded), Opt("/")];
    RunHasNoSlash(p[1..], s, i + |w|);
    OccurrenceHasNoSlash(s, w, i);
  }

  /**
   * An accepted YouTube URL has `youtube.com/` right after `http://`, `https://` or a
   * `www.` form of them (at index 7 to 12), and no `/` after it except possibly a trailing
   * one: the pattern has no `/` after `c` or `channel`, so `youtube.com/channel/ID` and
   * `youtube.com/c/NAME` are rejected.
   */
  lemma YoutubeUrlShape(s: string)
    requires FullMatch(YOUTUBE_URL, s)
    ensures exists k | 7 <= k <= 12 :: OccursAt(s, "youtube.com/", k) && forall m | k + 12 <= m < |s| - 1 :: s[m] != '/'
    ensures forall m | 24 <= m < |s| - 1 :: s[m] != '/'
  {
    var i := HostPrefix(YOUTUBE_URL, s);
    ChannelTailHasNoSlash(YOUTUBE_URL[5..], s, i);
    assert OccursAt(s, "youtube.com/", i - 12);
  }

  lemma AllFieldsListed(f: Field)
    ensures f in ALL_FIELDS
  {
  }

  /** `Object.keys(errors).length === 0` exactly when no field fails. */
  lemma FormErrorsEmptyIff(d: ProfileData)
    ensures FormErrors(d) == map[] <==> forall f :: FieldError(d, f) == None
  {
    if FormErrors(d) == map[] {
      forall f ensures FieldError(d, f) == None {
        AllFieldsListed(f);
        assert f !in FormErrors(d);
      }
    } else {
      var f :| f in FormErrors(d);
    }
  }

  /** Every checked field passes its own validator. */
  predicate AllFieldsPass(d: ProfileData) {
    RequiredError(d.name, NAME_REQUIRED) == None && RequiredError(d.gender, GENDER_REQUIRED) == None
    && PhoneError(d.phone) == None && AboutError(d.about) == None
    && LinkedinError(d.linkedin) == None && WebsiteError(d.website) == None
    && InstagramError(d.instagram) == None && YoutubeError(d.youtube) == None
  }

  /** A draft whose error map is empty has no failing field. */
  lemma FieldPasses(d: ProfileData, f: Field)
    requires FormErrors(d) == map[]
    ensures FieldError(d, f) == None
  {
    AllFieldsListed(f);
    assert f !in FormErrors(d);
  }

  // `FieldError` dispatches each checked field to its validator, one field at a time.

  lemma NameDispatch(d: ProfileData)
    requires FieldError(d, Name) == None
    ensures RequiredError(d.name, NAME_REQUIRED) == None
  {
  }

  lemma GenderDispatch(d: ProfileData)
    requires FieldError(d, Gender) == None
    ensures RequiredError(d.gender, GENDER_REQUIRED) == None
  {
  }

  lemma PhoneDispatch(d: ProfileData)
    requires FieldError(d, Phone) == None
    ensures PhoneError(d.phone) == None
  {
  }

  lemma AboutDispatch(d: ProfileData)
    requires FieldError(d, About) == None
    ensures AboutError(d.about) == None
  {
  }

  lemma LinkedinDispatch(d: ProfileData)
    requires FieldError(d, Linkedin) == None
    ensures LinkedinError(d.linkedin) == None
  {
  }

  lemma WebsiteDispatch(d: ProfileData)
    requires FieldError(d, Website) == None
    ensures WebsiteError(d.website) == None
  {
  }

  lemma InstagramDispatch(d: ProfileData)
    requires FieldError(d, Instagram) == None
    ensures InstagramError(d.instagram) == None
  {
  }

  lemma YoutubeDispatch(d: ProfileData)
    requires FieldError(d, Youtube) == None
    ensures YoutubeError(d.youtube) == None
  {
  }

  /** A draft whose error map is empty passes every validator. */
  lemma EmptyErrorsAllPass(d: ProfileData)
    requires FormErrors(d) == map[]
    ensures AllFieldsPass(d)
  {
    FieldPasses(d, Name);
    NameDispatch(d);
    FieldPasses(d, Gender);
    GenderDispatch(d);
    FieldPasses(d, Phone);
    PhoneDispatch(d);
    FieldPasses(d, About);
    AboutDispatch(d);
    FieldPasses(d, Linkedin);
    LinkedinDispatch(d);
    FieldPasses(d, Website);
    WebsiteDispatch(d);
    FieldPasses(d, Instagram);
    InstagramDispatch(d);
    FieldPasses(d, Youtube);
    YoutubeDispatch(d);
  }

  /** A field that is checked at all is checked by one of the validators `AllFieldsPass` lists. */
  lemma PassingFieldHasNoError(d: ProfileData, f: Field)
    requires AllFieldsPass(d)
    ensures FieldError(d, f) == None
  {
    match f
    case Name =>
    case Gender =>
    case Phone =>
    case About =>
    case Linkedin =>
    case Website =>
    case Instagram =>
    case Youtube =>
    case Email =>
    case Dob =>
    case ProfilePhoto =>
  }

  /** `validateForm` returns `true` exactly when each checked field passes its validator. */
  lemma EmptyErrorsIffAllPass(d: ProfileData)
    ensures FormErrors(d) == map[] <==> AllFieldsPass(d)
  {
    if AllFieldsPass(d) {
      forall f ensures FieldError(d, f) == None {
        PassingFieldHasNoError(d, f);
      }
      FormErrorsEmptyIff(d);
    } else if FormErrors(d) == map[] {
      EmptyErrorsAllPass(d);
    }
  }

  /**
   * A draft that passes validation has what saving requires: name, gender and about
   * filled in, a ten-character phone, an about text within 500 characters, and social
   * links of the accepted shapes.
   */
  lemma ValidDraftIsComplete(d: ProfileData)
    requires AllFieldsPass(d)
    ensures !IsBlank(d.name) && !IsBlank(d.gender)
    ensures !IsBlank(d.phone) && Utf16Length(d.phone) == PHONE_DIGITS
    ensures !IsBlank(d.about) && Utf16Length(d.about) <= ABOUT_MAX
    ensures Contains(d.linkedin, "linkedin.com") ==> HasHttpScheme(d.linkedin)
    ensures d.website == [] || HasHttpScheme(d.website)
    ensures d.instagram != [] && !Contains(d.instagram, "instagram.com")
      ==> forall i | 0 <= i < |d.instagram| :: InClass(WordDotDash, d.instagram[i])
    ensures StartsWith(d.youtube, "@") && !Contains(d.youtube, "youtube.com")
      ==> |d.youtube| >= 2 && forall i | 1 <= i < |d.youtube| :: InClass(WordDash, d.youtube[i])
  {
    ValidNameAndGender(d);
    ValidPhone(d);
    ValidAbout(d);
    ValidLinkedin(d);
    ValidWebsite(d);
    ValidInstagram(d);
    ValidYoutube(d);
  }

  // One lemma per field keeps each proof to a single validator; a passing draft passes each field.

  lemma ValidNameAndGender(d: ProfileData)
    requires RequiredError(d.name, NAME_REQUIRED) == None && RequiredError(d.gender, GENDER_REQUIRED) == None
    ensures !IsBlank(d.name) && !IsBlank(d.gender)
  {
    RequiredIffBlank(d.name, NAME_REQUIRED);
    RequiredIffBlank(d.gender, GENDER_REQUIRED);
  }

  lemma ValidPhone(d: ProfileData)
    requires PhoneError(d.phone) == None
    ensures !IsBlank(d.phone) && Utf16Length(d.phone) == PHONE_DIGITS
  {
    PhoneErrorCases(d.phone);
  }

  lemma ValidAbout(d: ProfileData)
    requires AboutError(d.about) == None
    ensures !IsBlank(d.about) && Utf16Length(d.about) <= ABOUT_MAX
  {
    AboutErrorCases(d.about);
  }

  lemma ValidLinkedin(d: ProfileData)
    requires LinkedinError(d.linkedin) == None
    ensures Contains(d.linkedin, "linkedin.com") ==> HasHttpScheme(d.linkedin)
  {
    if Contains(d.linkedin, "linkedin.com") {
      LinkedinUrlNeedsScheme(d.linkedin);
    }
  }

  lemma ValidWebsite(d: ProfileData)
    requires WebsiteError(d.website) == None
    ensures d.website == [] || HasHttpScheme(d.website)
  {
    if d.website != [] {
      WebsiteNeedsScheme(d.website);
    }
  }

  lemma ValidInstagram(d: ProfileData)
    requires InstagramError(d.instagram) == None
    ensures d.instagram != [] && !Contains(d.instagram, "instagram.com")
      ==> forall i | 0 <= i < |d.instagram| :: InClass(WordDotDash, d.instagram[i])
  {
    if d.instagram != [] && !Contains(d.instagram, "instagram.com") {
      InstagramUsernameRule(d.instagram);
    }
  }

  lemma ValidYoutube(d: ProfileData)
    requires YoutubeError(d.youtube) == None
    ensures StartsWith(d.youtube, "@") && !Contains(d.youtube, "youtube.com")
      ==> |d.youtube| >= 2 && forall i | 1 <= i < |d.youtube| :: InClass(WordDash, d.youtube[i])
  {
    if StartsWith(d.youtube, "@") && !Contains(d.youtube, "youtube.com") {
      YoutubeHandleRule(d.youtube);
    }
  }
}
