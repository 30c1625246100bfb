/**
 * The sign-up page (`SignUpPage`): the two inputs, the error record and the loading
 * flag. `handleSubmit` is split at its `await`: `BeginSubmit` validates and sends,
 * `SubmitSettled` takes the outcome of `api.signup` as an input.
 */
module Signup {
  import opened Wrappers
  import opened Credentials
  import Text
  import CredentialProperties

  /** The message `handleBlur` records for an input of this page. */
  function SignupFieldError(f: CredentialField, value: string): string {
    match f
    case EmailField => EmailError(value)
    case PasswordField => SignupPasswordError(value)
  }

  /** What the synchronous part of `handleSubmit` did. */
  datatype SignupStart =
    | SignupBlocked                              // a request is in flight: the button is disabled
    | SignupInvalid                              // a validator failed; nothing was sent
    | SignupSent(email: string, password: string)

  /** How `api.signup` settled; a rejection may carry the server's message. */
  datatype SignupOutcome = SignupCreated | SignupRejected(message: Option<string>)

  class SignupPage {
    var email: string
    var password: string
    var errors: CredentialErrors
    var isLoading: bool

    constructor()
      ensures email == [] && password == [] && errors == NO_ERRORS && !isLoading
    {
      email := [];
      password := [];
      errors := NO_ERRORS;
      isLoading := false;
    }

    /** `handleChange`: the edited input takes the value; its message and the general one are cleared. */
    method HandleChange(f: CredentialField, value: string)
      modifies this
      ensures f == EmailField ==> email == value && password == old(password)
      ensures f == PasswordField ==> password == value && email == old(email)
      ensures errors == old(errors).With(f, []).(general := [])
      ensures isLoading == old(isLoading)
    {
      if f == EmailField {
        email := value;
      } else {
        password := value;
      }
      errors := errors.With(f, []).(general := []);
    }

    /** `handleBlur`: the input's message becomes its validator's verdict on the value; the others stay. */
    method HandleBlur(f: CredentialField, value: string)
      modifies this
      ensures errors == old(errors).With(f, SignupFieldError(f, value))
      ensures errors.Get(f) == [] <==> SignupFieldError(f, value) == []
      ensures email == old(email) && password == old(password) && isLoading == old(isLoading)
    {
      errors := errors.With(f, SignupFieldError(f, value));
    }

    /**
     * The part of `handleSubmit` before `await api.signup(...)`: both validators run; on a
     * failure their messages replace the error record, otherwise the record is cleared,
     * the page starts loading and the credentials are sent.
     */
    method BeginSubmit() returns (start: SignupStart)
      modifies this
      ensures old(isLoading) ==> start == SignupBlocked && errors == old(errors) && isLoading
      ensures !old(isLoading) && (EmailError(email) != [] || SignupPasswordError(password) != []) ==>
        start == SignupInvalid && errors == CredentialErrors(EmailError(email), SignupPasswordError(password), []) && !isLoading
      ensures !old(isLoading) && EmailError(email) == [] && SignupPasswordError(password) == [] ==>
        start == SignupSent(email, password) && errors == NO_ERRORS && isLoading
      ensures start.SignupSent? ==>
        CredentialProperties.WellFormedEmail(start.email) && Text.Utf16Length(start.password) >= PASSWORD_MIN
        && HasLower(start.password) && HasUpper(start.password) && HasDigit(start.password)
      ensures email == old(email) && password == old(password)
    {
      if isLoading {
        return SignupBlocked;
      }
      var emailError := EmailError(email);
      var passwordError := SignupPasswordError(password);
      if emailError != [] || passwordError != [] {
        errors := CredentialErrors(emailError, passwordError, []);
        return SignupInvalid;
      }
      CredentialProperties.EmailErrorCases(email);
      isLoading := true;
      errors := NO_ERRORS;
      start := SignupSent(email, password);
    }

    /**
     * The rest of `handleSubmit`, which runs only while the request `BeginSubmit` sent is
     * in flight (`isLoading`): a created account leads to the login page with the
     * errors left clear; a rejection is classified by `SignupFailureErrors`. Loading ends
     * either way. Returns whether the page moves on to `/login`.
     */
    method SubmitSettled(o: SignupOutcome) returns (toLogin: bool)
      requires isLoading
      modifies this
      ensures toLogin <==> o.SignupCreated?
      ensures o.SignupCreated? ==> errors == old(errors)
      ensures o.SignupRejected? ==> errors == SignupFailureErrors(o.message)
      ensures !isLoading && email == old(email) && password == old(password)
    {
      toLogin := o.SignupCreated?;
      if o.SignupRejected? {
        errors := SignupFailureErrors(o.message);
      }
      isLoading := false;
    }
  }
}
