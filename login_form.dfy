/**
 * The login page (`LoginPage`): the two inputs and the "remember me" box, the error
 * record, the loading flag, and the browser's `localStorage` as a string map.
 * `handleSubmit` is split at its `await` like the sign-up page's.
 */
module Login {
  import opened Wrappers
  import opened Credentials
  import Text
  import CredentialProperties

  /** The message `handleBlur` records for an input of this page. */
  function LoginFieldError(f: CredentialField, value: string): string {
    match f
    case EmailField => EmailError(value)
    case PasswordField => LoginPasswordError(value)
  }

  /** A change event: a text input's new value or the checkbox's new state. */
  datatype LoginEdit = EditText(field: CredentialField, value: string) | SetRememberMe(checked: bool)

  /** What the synchronous part of `handleSubmit` did; a sent request keeps the box's state of that moment. */
  datatype LoginStart =
    | LoginBlocked
    | LoginInvalid
    | LoginSent(email: string, password: string, rememberMe: bool)

  /**
   * How `api.login` settled. On success, `user` is the JSON text of the response's
   * `user` member when it has one and `response` that of the whole response.
   */
  datatype LoginOutcome = LoggedIn(user: Option<string>, response: string) | LoginRejected(message: Option<string>)

  /** The two `localStorage.setItem` calls of a successful login. */
  function StoreLogin(storage: map<string, string>, userJson: string, rememberMe: bool): (r: map<string, string>)
    ensures "user" in r && r["user"] == userJson
    ensures rememberMe ==> "rememberMe" in r && r["rememberMe"] == "true"
    ensures r.Keys == storage.Keys + {"user"} + (if rememberMe then {"rememberMe"} else {})
    ensures forall k | k in storage && k != "user" && (k != "rememberMe" || !rememberMe) :: r[k] == storage[k]
  {
    var withUser := storage["user" := userJson];
    if rememberMe then withUser["rememberMe" := "true"] else withUser
  }

  class LoginPage {
    var email: string
    var password: string
    var rememberMe: bool
    var errors: CredentialErrors
    var isLoading: bool
    var storage: map<string, string>
    /** The box's state `handleSubmit` captured when it sent the request. */
    ghost var pendingRemember: bool

    /** A fresh page over the browser's current storage. */
    constructor(storage: map<string, string>)
      ensures email == [] && password == [] && !rememberMe && errors == NO_ERRORS && !isLoading
      ensures this.storage == storage
    {
      email := [];
      password := [];
      rememberMe := false;
      errors := NO_ERRORS;
      isLoading := false;
      this.storage := storage;
      pendingRemember := false;
    }

    /** The mount effect: a stored user sends the visitor to the dashboard. */
    method MountRedirect() returns (toDashboard: bool)
      ensures toDashboard <==> HasStoredUser(storage)
    {
      toDashboard := "user" in storage && storage["user"] != [];
    }

    /** `handleChange`: a text input takes its value and clears its message and the general one; the checkbox clears nothing. */
    method HandleChange(edit: LoginEdit)
      modifies this
      ensures pendingRemember == old(pendingRemember)
      ensures edit.EditText? && edit.field == EmailField ==> email == edit.value && password == old(password)
      ensures edit.EditText? && edit.field == PasswordField ==> password == edit.value && email == old(email)
      ensures edit.EditText? ==> rememberMe == old(rememberMe) && errors == old(errors).With(edit.field, []).(general := [])
      ensures edit.SetRememberMe? ==>
        rememberMe == edit.checked && email == old(email) && password == old(password) && errors == old(errors)
      ensures isLoading == old(isLoading) && storage == old(storage)
    {
      match edit
      case EditText(f, value) =>
        if f == EmailField {
          email := value;
        } else {
          password := value;
        }
        errors := errors.With(f, []).(general := []);
      case SetRememberMe(checked) =>
        rememberMe := checked;
    }

    /** `handleBlur`: the input's message becomes its validator's verdict on the value. */
    method HandleBlur(f: CredentialField, value: string)
      modifies this
      ensures pendingRemember == old(pendingRemember)
      ensures errors == old(errors).With(f, LoginFieldError(f, value))
      ensures errors.Get(f) == [] <==> LoginFieldError(f, value) == []
      ensures email == old(email) && password == old(password) && rememberMe == old(rememberMe)
      ensures isLoading == old(isLoading) && storage == old(storage)
    {
      errors := errors.With(f, LoginFieldError(f, value));
    }

    /** The part of `handleSubmit` before `await api.login(...)`. */
    method BeginSubmit() returns (start: LoginStart)
      modifies this
      ensures pendingRemember == if start.LoginSent? then start.rememberMe else old(pendingRemember)
      ensures old(isLoading) ==> start == LoginBlocked && errors == old(errors) && isLoading
      ensures !old(isLoading) && (EmailError(email) != [] || LoginPasswordError(password) != []) ==>
        start == LoginInvalid && errors == CredentialErrors(EmailError(email), LoginPasswordError(password), []) && !isLoading
      ensures !old(isLoading) && EmailError(email) == [] && LoginPasswordError(password) == [] ==>
        start == LoginSent(email, password, rememberMe) && errors == NO_ERRORS && isLoading
      ensures start.LoginSent? ==> CredentialProperties.WellFormedEmail(start.email) && Text.Utf16Length(start.password) >= PASSWORD_MIN
      ensures email == old(email) && password == old(password) && rememberMe == old(rememberMe)
      ensures storage == old(storage)
    {
      if isLoading {
        return LoginBlocked;
      }
      var emailError := EmailError(email);
      var passwordError := LoginPasswordError(password);
      if emailError != [] || passwordError != [] {
        errors := CredentialErrors(emailError, passwordError, []);
        return LoginInvalid;
      }
      CredentialProperties.EmailErrorCases(email);
      isLoading := true;
      errors := NO_ERRORS;
      pendingRemember := rememberMe;
      start := LoginSent(email, password, rememberMe);
    }

    /**
     * The rest of `handleSubmit`, which runs only while the request `BeginSubmit` sent is
     * in flight (`isLoading`), with the box's state captured when it was sent:
     * a success stores the user record (and the preference when the box was ticked) and
     * leads to the dashboard; a rejection shows its message, or the fallback, as the
     * general error. Returns whether the page moves on to `/dashboard`.
     */
    method SubmitSettled(remembered: bool, o: LoginOutcome) returns (toDashboard: bool)
      requires isLoading && remembered == pendingRemember
      modifies this
      ensures pendingRemember == old(pendingRemember)
      ensures toDashboard <==> o.LoggedIn?
      ensures o.LoggedIn? ==>
        storage == StoreLogin(old(storage), o.user.GetOr(o.response), remembered) && errors == old(errors)
      ensures o.LoginRejected? ==> storage == old(storage) && errors == LoginFailureErrors(o.message)
      ensures !isLoading && email == old(email) && password == old(password) && rememberMe == old(rememberMe)
    {
      toDashboard := o.LoggedIn?;
      if o.LoggedIn? {
        storage := StoreLogin(storage, o.user.GetOr(o.response), remembered);
      } else {
        errors := LoginFailureErrors(o.message);
      }
      isLoading := false;
    }
  }

  /** After a successful login with a non-empty user record, the next visit to either page redirects. */
  lemma LoginLeavesStoredUser(storage: map<string, string>, userJson: string, rememberMe: bool)
    requires userJson != []
    ensures HasStoredUser(StoreLogin(storage, userJson, rememberMe))
  {
  }

  /** Logging in with the box cleared never removes a preference stored by an earlier login. */
  lemma RememberMeIsSticky(storage: map<string, string>, userJson: string, rememberMe: bool)
    requires "rememberMe" in storage && storage["rememberMe"] == "true"
    ensures "rememberMe" in StoreLogin(storage, userJson, rememberMe)
    ensures StoreLogin(storage, userJson, rememberMe)["rememberMe"] == "true"
  {
  }
}
