/**
 * What the credential checks accept: the e-mail pattern against a direct description
 * of its shape, the password rules of the two pages side by side, and where a failed
 * sign-up's message is shown.
 */
module CredentialProperties {
  import opened Wrappers
  import opened Text
  import opened Pattern
  import opened Forms
  import opened Credentials

  predicate NoSpace(s: string) { forall i | 0 <= i < |s| :: !IsSpace(s[i]) }

  /** Index `at` holds the one and only `@` of `s`. */
  predicate OnlyAtSignAt(s: string, at: int) {
    0 <= at < |s| && s[at] == '@' && forall i | 0 <= i < |s| && i != at :: s[i] != '@'
  }

  /**
   * An address as the e-mail pattern describes it: no whitespace, exactly one `@` with
   * something before it, and a `.` after the `@` with something on either side of it.
   */
  predicate WellFormedEmail(s: string) {
    NoSpace(s) && exists at, dot | 0 < at && at + 1 < dot < |s| - 1 :: OnlyAtSignAt(s, at) && s[dot] == '.'
  }

  /** Pins the five atoms of the e-mail pattern for the step lemmas. */
  predicate IsEmailPattern(p: seq<Atom>) {
    |p| == 5 && p[0] == Repeat(NonSpaceNonAt, 1, Unbounded) && p[1] == Lit("@")
    && p[2] == Repeat(NonSpaceNonAt, 1, Unbounded) && p[3] == Lit(".") && p[4] == Repeat(NonSpaceNonAt, 1, Unbounded)
  }

  lemma EmailPatternPinned()
    ensures IsEmailPattern(EMAIL)
  {
  }

  /** A string the pattern accepts has the described shape. */
  lemma MatchIsWellFormed(p: seq<Atom>, s: string)
    requires IsEmailPattern(p) && FullMatch(p, s)
    ensures WellFormedEmail(s)
  {
    var j1 := RepeatStep(p, s, 0);
    assert p[1..][0] == Lit("@");
    LitStep(p[1..], s, j1);
    assert p[1..][1..] == p[2..];
    assert p[2..][0] == Repeat(NonSpaceNonAt, 1, Unbounded);
    var j2 := RepeatStep(p[2..], s, j1 + 1);
    assert p[2..][1..] == p[3..] && p[3..][0] == Lit(".");
    LitStep(p[3..], s, j2);
    assert p[3..][1..] == p[4..] && p[4..][0] == Repeat(NonSpaceNonAt, 1, Unbounded);
    var j3 := RepeatStep(p[4..], s, j2 + 1);
    assert p[4..][1..] == [];
    assert j3 == |s|;
    assert s[j1] == s[j1..j1 + 1][0];
    assert s[j2] == s[j2..j2 + 1][0];
    forall i | 0 <= i < |s| ensures !IsSpace(s[i]) && (i != j1 ==> s[i] != '@') {
      if i < j1 {
        assert InClass(NonSpaceNonAt, s[i]);
      } else if j1 < i < j2 {
        assert InClass(NonSpaceNonAt, s[i]);
      } else if j2 < i {
        assert InClass(NonSpaceNonAt, s[i]);
      }
    }
    assert OnlyAtSignAt(s, j1) && s[j2] == '.';
  }

  /** A string of the described shape is accepted, cut at its `@` and at the chosen `.`. */
  lemma WellFormedMatches(p: seq<Atom>, s: string)
    requires IsEmailPattern(p) && WellFormedEmail(s)
    ensures FullMatch(p, s)
  {
    var at, dot :| 0 < at && at + 1 < dot < |s| - 1 && OnlyAtSignAt(s, at) && s[dot] == '.';
    var cuts: seq<nat> := [0, at, at + 1, dot, dot + 1, |s|];
    assert PieceMatches(p, s, cuts, 0) by {
      forall m | 0 <= m < at ensures InClass(NonSpaceNonAt, s[m]) { }
    }
    assert PieceMatches(p, s, cuts, 1) by { assert s[at..at + 1] == [s[at]]; }
    assert PieceMatches(p, s, cuts, 2) by {
      forall m | at + 1 <= m < dot ensures InClass(NonSpaceNonAt, s[m]) { }
    }
    assert PieceMatches(p, s, cuts, 3) by { assert s[dot..dot + 1] == [s[dot]]; }
    assert PieceMatches(p, s, cuts, 4) by {
      forall m | dot + 1 <= m < |s| ensures InClass(NonSpaceNonAt, s[m]) { }
    }
    MatchedBy(p, s, cuts);
  }

  /** `validateEmail` passes exactly the well-formed addresses, and names the reason otherwise. */
  lemma EmailErrorCases(s: string)
    ensures EmailError(s) == [] <==> WellFormedEmail(s)
    ensures s == [] ==> EmailError(s) == EMAIL_REQUIRED
    ensures s != [] && !WellFormedEmail(s) ==> EmailError(s) == EMAIL_INVALID
  {
    EmailPatternPinned();
    if FullMatch(EMAIL, s) {
      MatchIsWellFormed(EMAIL, s);
    }
    if WellFormedEmail(s) {
      WellFormedMatches(EMAIL, s);
    }
  }

  /**
   * `length` counts UTF-16 code units: three emoji make a password of length 6, which the
   * login page lets through.
   */
  lemma LoginPasswordCountsCodeUnits(p: string)
    requires p == "\U{1F600}\U{1F600}\U{1F600}"
    ensures |p| == 3 && LoginPasswordError(p) == []
  {
    Utf16LengthAboveBmp(p);
  }

  /** A password the sign-up page accepts is accepted by the login page too. */
  lemma SignupStricterThanLogin(password: string)
    ensures SignupPasswordError(password) == [] ==> LoginPasswordError(password) == []
  {
  }

  /** Six characters are not enough for sign-up: each missing kind of character is reported, in order. */
  lemma SignupPasswordExamples(good: string, noUpper: string, noLower: string, noDigit: string)
    requires good == "Abc123" && noUpper == "abc123" && noLower == "ABC123" && noDigit == "Abcdef"
    ensures SignupPasswordError(good) == [] && LoginPasswordError(good) == []
    ensures SignupPasswordError(noUpper) == PASSWORD_NO_UPPER && LoginPasswordError(noUpper) == []
    ensures SignupPasswordError(noLower) == PASSWORD_NO_LOWER
    ensures SignupPasswordError(noDigit) == PASSWORD_NO_DIGIT
  {
    assert IsUpper(good[0]) && IsLower(good[1]) && IsDigit(good[3]);
    assert IsLower(noUpper[0]) && IsDigit(noUpper[3]);
    assert forall i | 0 <= i < |noUpper| :: !IsUpper(noUpper[i]);
    assert forall i | 0 <= i < |noLower| :: !IsLower(noLower[i]);
    assert IsUpper(noDigit[0]) && IsLower(noDigit[1]);
    assert forall i | 0 <= i < |noDigit| :: !IsDigit(noDigit[i]);
  }

  /** The three phrases the sign-up page treats as a duplicate account. */
  predicate DuplicatePhrase(t: string) {
    t == "already exists" || t == "duplicate" || t == "already registered"
  }

  /** A failure message containing one of the (lower-case) phrases as it is lands on the e-mail field. */
  lemma DuplicateGoesToEmail(m: string, phrase: string)
    requires DuplicatePhrase(phrase) && Contains(m, phrase)
    ensures SignupFailureErrors(Some(m)) == CredentialErrors(DUPLICATE_EMAIL, [], [])
  {
    ContainsToLower(m, phrase);
    assert ToLower(phrase) == phrase;
    assert m != [];
  }

  /** A non-empty message in which, lower-cased, no phrase occurs anywhere is shown as it is, above the form. */
  lemma OtherFailureIsGeneral(m: string)
    requires m != []
    requires forall phrase, k | DuplicatePhrase(phrase) && 0 <= k :: !OccursAt(ToLower(m), phrase, k)
    ensures SignupFailureErrors(Some(m)) == CredentialErrors([], [], m)
  {
    assert !MentionsDuplicate(ToLower(m));
  }

  /** A failure message that mentions a phrase after lower-casing lands on the e-mail field. */
  lemma LowerMentionGoesToEmail(m: string, phrase: string, k: nat)
    requires DuplicatePhrase(phrase) && OccursAt(ToLower(m), phrase, k)
    ensures SignupFailureErrors(Some(m)) == CredentialErrors(DUPLICATE_EMAIL, [], [])
  {
    assert Contains(ToLower(m), phrase);
    assert m != [];
  }

  /** The phrases are recognised whatever their letter case. */
  lemma UpperCaseDuplicate(m: string)
    requires m == "Duplicate Email"
    ensures SignupFailureErrors(Some(m)).email == DUPLICATE_EMAIL
  {
    var lower := ToLower(m);
    assert lower[0..9] == "duplicate" by {
      forall i | 0 <= i < 9 ensures lower[i] == "duplicate"[i] {
        assert lower[i] == LowerChar(m[i]);
      }
    }
    LowerMentionGoesToEmail(m, "duplicate", 0);
  }
}
