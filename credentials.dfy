/**
 * The credential checks of the sign-up and login pages (`validateEmail`,
 * `validatePassword`) and the sign-up page's reading of a failed sign-up. Each
 * validator returns `''` for a valid value and the message to show otherwise.
 */
module Credentials {
  import opened Wrappers
  import opened Text
  import opened Pattern
  import opened Forms

  /** The two inputs of both pages. */
  datatype CredentialField = EmailField | PasswordField

  /** The `errors` state of both pages. */
  datatype CredentialErrors = CredentialErrors(email: string, password: string, general: string) {
    function Get(f: CredentialField): string {
      match f
      case EmailField => email
      case PasswordField => password
    }

    /** `{ ...errors, [f]: message }` */
    function With(f: CredentialField, message: string): (r: CredentialErrors)
      ensures r.Get(f) == message && r.general == general
      ensures forall g | g != f :: r.Get(g) == Get(g)
    {
      match f
      case EmailField => this.(email := message)
      case PasswordField => this.(password := message)
    }
  }

  const NO_ERRORS := CredentialErrors("", "", "")

  const EMAIL_REQUIRED := "Email is required"
  const EMAIL_INVALID := "Please enter a valid email address"
  const PASSWORD_REQUIRED := "Password is required"
  const PASSWORD_TOO_SHORT := "Password must be at least 6 characters long"
  const PASSWORD_NO_LOWER := "Password must contain at least one lowercase letter"
  const PASSWORD_NO_UPPER := "Password must contain at least one uppercase letter"
  const PASSWORD_NO_DIGIT := "Password must contain at least one number"
  const DUPLICATE_EMAIL := "This email is already registered. Please use a different email or login."
  const SIGNUP_FAILED := "Signup failed. Please try again."
  const LOGIN_FAILED := "Invalid email or password. Please try again."

  const PASSWORD_MIN := 6

  /** `^[^\s@]+@[^\s@]+\.[^\s@]+$` */
  const EMAIL: seq<Atom> := [
    Repeat(NonSpaceNonAt, 1, Unbounded), Lit("@"), Repeat(NonSpaceNonAt, 1, Unbounded), Lit("."),
    Repeat(NonSpaceNonAt, 1, Unbounded)]

  /** `validateEmail` (the same on both pages). */
  function EmailError(email: string): (r: string)
    ensures r == [] || r == EMAIL_REQUIRED || r == EMAIL_INVALID
    ensures r == EMAIL_REQUIRED <==> email == []
  {
    if email == [] then EMAIL_REQUIRED
    else if !FullMatch(EMAIL, email) then EMAIL_INVALID
    else []
  }

  /** The login page's `validatePassword`: presence, then `length` (in UTF-16 code units). */
  function LoginPasswordError(password: string): (r: string)
    ensures r == [] <==> Utf16Length(password) >= PASSWORD_MIN
    ensures password == [] ==> r == PASSWORD_REQUIRED
    ensures password != [] && Utf16Length(password) < PASSWORD_MIN ==> r == PASSWORD_TOO_SHORT
  {
    if password == [] then PASSWORD_REQUIRED
    else if Utf16Length(password) < PASSWORD_MIN then PASSWORD_TOO_SHORT
    else []
  }

  /** `/(?=.*[a-z])/.test(p)`: some position starts a lookahead that reaches a lower-case letter, i.e. one occurs. */
  predicate HasLower(p: string) { exists i | 0 <= i < |p| :: IsLower(p[i]) }

  predicate HasUpper(p: string) { exists i | 0 <= i < |p| :: IsUpper(p[i]) }

  /** `/(?=.*\d)/.test(p)` */
  predicate HasDigit(p: string) { exists i | 0 <= i < |p| :: IsDigit(p[i]) }

  /** The sign-up page's `validatePassword`: the login checks, then one lower-case letter, one upper-case letter and one digit. */
  function SignupPasswordError(password: string): (r: string)
    ensures r == [] <==> Utf16Length(password) >= PASSWORD_MIN && HasLower(password) && HasUpper(password) && HasDigit(password)
    ensures LoginPasswordError(password) != [] ==> r == LoginPasswordError(password)
    ensures Utf16Length(password) >= PASSWORD_MIN && !HasLower(password) ==> r == PASSWORD_NO_LOWER
    ensures Utf16Length(password) >= PASSWORD_MIN && HasLower(password) && !HasUpper(password) ==> r == PASSWORD_NO_UPPER
    ensures Utf16Length(password) >= PASSWORD_MIN && HasLower(password) && HasUpper(password) && !HasDigit(password)
      ==> r == PASSWORD_NO_DIGIT
  {
    if password == [] then PASSWORD_REQUIRED
    else if Utf16Length(password) < PASSWORD_MIN then PASSWORD_TOO_SHORT
    else if !HasLower(password) then PASSWORD_NO_LOWER
    else if !HasUpper(password) then PASSWORD_NO_UPPER
    else if !HasDigit(password) then PASSWORD_NO_DIGIT
    else []
  }

  /** The server messages the sign-up page reads as "this e-mail is taken". */
  predicate MentionsDuplicate(lower: string) {
    Contains(lower, "already exists") || Contains(lower, "duplicate") || Contains(lower, "already registered")
  }

  /**
   * The errors after a failed `api.signup`: a message that, lower-cased, mentions a
   * duplicate goes to the e-mail field as the fixed duplicate message; any other goes to
   * `general`, with the fallback for a missing or empty one.
   */
  function SignupFailureErrors(message: Option<string>): (r: CredentialErrors)
    ensures r.password == []
    ensures (r.email == [] && r.general == Or(message, SIGNUP_FAILED)) || (r.email == DUPLICATE_EMAIL && r.general == [])
  {
    var m := Or(message, SIGNUP_FAILED);
    if MentionsDuplicate(ToLower(m)) then CredentialErrors(DUPLICATE_EMAIL, [], [])
    else CredentialErrors([], [], m)
  }

  /** The errors after a failed `api.login`: only `general` is set, to the message or the fallback. */
  function LoginFailureErrors(message: Option<string>): (r: CredentialErrors)
    ensures r.email == [] && r.password == [] && r.general != []
    ensures message.Some? && message.value != [] ==> r.general == message.value
    ensures message == None || message == Some([]) ==> r.general == LOGIN_FAILED
  {
    CredentialErrors([], [], Or(message, LOGIN_FAILED))
  }

  /** `localStorage.getItem('user')` is truthy: both pages then send the visitor on to the dashboard. */
  predicate HasStoredUser(storage: map<string, string>) {
    "user" in storage && storage["user"] != []
  }
}
