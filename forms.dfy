/** The e-mail test shared by the sign-up and sign-in forms. */
module Validation {
  import opened Base
  import opened Text

  /** `/\S+@\S+\.\S+/.test(s)`, unanchored: somewhere in `s` an '@' preceded by a
      non-space, then a non-empty run of non-spaces, then a '.' followed by a non-space. */
  predicate LooseEmail(s: string)
  {
    exists a, d :: 1 <= a && a + 1 < d && d + 1 < |s| && Shape(s, a, d)
  }

  /** The '@' sits at `a` and the '.' at `d`, with non-spaces on both sides of each. */
  predicate Shape(s: string, a: int, d: int)
    requires 1 <= a && a + 1 < d && d + 1 < |s|
  {
    s[a] == '@' && s[d] == '.' && !IsSpace(s[a - 1]) && !IsSpace(s[d + 1])
    && forall k :: a < k < d ==> !IsSpace(s[k])
  }

  /** Records `err` under `key` when there is one, as each check of a form does. */
  function Put(errors: map<string, string>, key: string, err: Option<string>): (r: map<string, string>)
    ensures r.Keys == errors.Keys + (if err.Some? then {key} else {})
    ensures err.Some? ==> r[key] == err.value
    ensures forall k :: k in errors && k != key ==> r[k] == errors[k]
  {
    if err.Some? then errors[key := err.value] else errors
  }

  /** `Object.keys(errors).length === 0` holds exactly for the empty map. */
  lemma NoErrorsIsEmpty(errors: map<string, string>)
    ensures |errors| == 0 <==> errors == map[]
  {
    if |errors| != 0 {
      assert exists k :: k in errors;
    }
  }

  /** An address that passes holds an '@' and a '.', so it is not blank either. */
  lemma LooseEmailHasAtAndDot(s: string)
    requires LooseEmail(s)
    ensures '@' in s && '.' in s && !Blank(s)
  {
    var a, d :| 1 <= a && a + 1 < d && d + 1 < |s| && Shape(s, a, d);
    assert s[a] == '@' && s[d] == '.';
    assert !IsSpace(s[a]);
  }

  /** A blank value never passes. */
  lemma BlankFails(s: string)
    ensures Blank(s) ==> !LooseEmail(s)
  {
    if LooseEmail(s) {
      LooseEmailHasAtAndDot(s);
    }
  }

  /** The test is unanchored: text before and after a passing address does not matter. */
  lemma LooseEmailInContext(pre: string, s: string, post: string)
    requires LooseEmail(s)
    ensures LooseEmail(pre + s + post)
  {
    var a, d :| 1 <= a && a + 1 < d && d + 1 < |s| && Shape(s, a, d);
    var t := pre + s + post;
    var n := |pre|;
    forall i | 0 <= i < |s| ensures t[n + i] == s[i] { }
    assert Shape(t, n + a, n + d) by {
      forall k | n + a < k < n + d ensures !IsSpace(t[k]) {
        assert t[k] == s[k - n];
      }
    }
  }

  /** A plain address passes. */
  lemma PlainAddressPasses()
    ensures LooseEmail("ann@mail.com")
  {
    var s := "ann@mail.com";
    assert Shape(s, 3, 8);
  }

  /** Without a '.' after the '@' the address fails. */
  lemma NoDotFails()
    ensures !LooseEmail("ann@mail")
  {
    var s := "ann@mail";
    forall a, d | 1 <= a && a + 1 < d && d + 1 < |s| ensures !Shape(s, a, d) {
      assert s[d] != '.';
    }
  }
}

/** The "Create Account" form: its checks, its editing and its submission. */
module CreateAccount {
  import opened Base
  import opened Text
  import opened Entities
  import opened AuthService
  import opened Auth
  import opened Validation

  /** The message for the user name, if any. */
  function UsernameError(username: string): (r: Option<string>)
    ensures r.None? <==> !Blank(username) && |username| >= 3
    ensures Blank(username) ==> r == Some("Username is required")
  {
    if Blank(username) then Some("Username is required")
    else if |username| < 3 then Some("Username must be at least 3 characters")
    else None
  }

  /** The message for the e-mail address, if any: blank is told apart from malformed. */
  function EmailError(email: string): (r: Option<string>)
    ensures r.None? <==> LooseEmail(email)
    ensures r == Some("Email is invalid") <==> !Blank(email) && !LooseEmail(email)
  {
    BlankFails(email);
    if Blank(email) then Some("Email is required")
    else if !LooseEmail(email) then Some("Email is invalid")
    else None
  }

  /** The message for the password, if any. */
  function PasswordError(password: string): (r: Option<string>)
    ensures r.None? <==> |password| >= 6
    ensures r == Some("Password is required") <==> password == ""
  {
    if password == "" then Some("Password is required")
    else if |password| < 6 then Some("Password must be at least 6 characters")
    else None
  }

  /** The confirmation check depends on the two passwords only. */
  function ConfirmError(password: string, confirmPassword: string): (r: Option<string>)
    ensures r.Some? <==> password != confirmPassword
    ensures r.Some? ==> r.value == "Passwords do not match"
  {
    if password != confirmPassword then Some("Passwords do not match") else None
  }

  /** The form passes: a user name of at least three characters that is not all blank, a
      passing address, a password of at least six characters, and a matching confirmation. */
  predicate SignupFormValid(username: string, email: string, password: string, confirmPassword: string)
  {
    !Blank(username) && |username| >= 3 && LooseEmail(email) && |password| >= 6
    && password == confirmPassword
  }

  /** `errors` shows `err` under `key`, and nothing there when `err` is `None`. */
  predicate Reports(errors: map<string, string>, key: string, err: Option<string>)
  {
    (key in errors <==> err.Some?) && (err.Some? ==> errors[key] == err.value)
  }

  const SignupKeys: set<string> := {"username", "email", "password", "confirmPassword"}

  /** `validateForm`'s error map: the four checks in turn, each adding its message if any. */
  function SignupErrors(username: string, email: string, password: string, confirmPassword: string)
    : (r: map<string, string>)
    ensures r.Keys <= SignupKeys
    ensures r == map[] ==> UsernameError(username).None? && EmailError(email).None?
  {
    var e0 := Put(map[], "username", UsernameError(username));
    var e1 := Put(e0, "email", EmailError(email));
    var e2 := Put(e1, "password", PasswordError(password));
    Put(e2, "confirmPassword", ConfirmError(password, confirmPassword))
  }

  /** Each field's check decides that field's entry alone; no other key appears. */
  lemma SignupErrorsReport(username: string, email: string, password: string, confirmPassword: string)
    ensures var e := SignupErrors(username, email, password, confirmPassword);
      e.Keys <= SignupKeys
      && Reports(e, "username", UsernameError(username))
      && Reports(e, "email", EmailError(email))
      && Reports(e, "password", PasswordError(password))
      && Reports(e, "confirmPassword", ConfirmError(password, confirmPassword))
  {
  }

  /** The error map is empty exactly when the form passes. */
  lemma SignupErrorsEmpty(username: string, email: string, password: string, confirmPassword: string)
    ensures SignupErrors(username, email, password, confirmPassword) == map[]
            <==> SignupFormValid(username, email, password, confirmPassword)
  {
    var e := SignupErrors(username, email, password, confirmPassword);
    if !SignupFormValid(username, email, password, confirmPassword) {
      SignupErrorsReport(username, email, password, confirmPassword);
      assert exists k :: k in e;
    }
  }

  /** The message shown on the sign-in page after an account is created. */
  function CreatedMessage(role: string): string
  {
    "Account created successfully! Please sign in with your " + role + " account."
  }

  datatype SignupField = UsernameField | EmailField | PasswordField | ConfirmField | RoleField

  /** The input's `name` attribute. */
  function SignupKey(f: SignupField): (k: string)
    ensures f != RoleField <==> k in SignupKeys
  {
    match f
    case UsernameField => "username"
    case EmailField => "email"
    case PasswordField => "password"
    case ConfirmField => "confirmPassword"
    case RoleField => "role"
  }

  class SignupPage {
    var username: string
    var email: string
    var password: string
    var confirmPassword: string
    var role: string
    var errors: map<string, string>
    var isSubmitting: bool
    const auth: AuthStore

    /** Mounting starts from empty fields with the role "buyer" and clears the store's error. */
    constructor (auth: AuthStore)
      modifies auth
      ensures this.auth == auth
      ensures username == "" && email == "" && password == "" && confirmPassword == "" && role == "buyer"
      ensures errors == map[] && !isSubmitting
      ensures auth.error == None
      ensures auth.isAuthenticated == old(auth.isAuthenticated) && auth.user == old(auth.user)
              && auth.token == old(auth.token) && auth.loading == old(auth.loading)
    {
      this.auth := auth;
      username, email, password, confirmPassword, role := "", "", "", "", "buyer";
      errors := map[];
      isSubmitting := false;
      new;
      auth.ClearError();
    }

    /** `handleInputChange`: store the value; blank out that field's error if one is shown,
        and clear the store's error if there is one. No other error changes. */
    method HandleInputChange(f: SignupField, value: string)
      modifies this, auth
      ensures username == (if f == UsernameField then value else old(username))
      ensures email == (if f == EmailField then value else old(email))
      ensures password == (if f == PasswordField then value else old(password))
      ensures confirmPassword == (if f == ConfirmField then value else old(confirmPassword))
      ensures role == (if f == RoleField then value else old(role))
      ensures errors.Keys == old(errors).Keys
      ensures forall k :: k in errors && k != SignupKey(f) ==> errors[k] == old(errors)[k]
      ensures SignupKey(f) in errors ==> errors[SignupKey(f)] == ""
      ensures old(auth.error).Some? && old(auth.error).value != "" ==> auth.error == None
      ensures !(old(auth.error).Some? && old(auth.error).value != "") ==> auth.error == old(auth.error)
      ensures auth.isAuthenticated == old(auth.isAuthenticated) && auth.user == old(auth.user)
              && auth.token == old(auth.token) && auth.loading == old(auth.loading)
      ensures isSubmitting == old(isSubmitting)
    {
      match f {
        case UsernameField => username := value;
        case EmailField => email := value;
        case PasswordField => password := value;
        case ConfirmField => confirmPassword := value;
        case RoleField => role := value;
      }
      var key := SignupKey(f);
      if key in errors && errors[key] != "" {
        errors := errors[key := ""];
      }
      if auth.error.Some? && auth.error.value != "" {
        auth.ClearError();
      }
    }

    /** `validateForm`: the error map is rebuilt, one check after the other, and the form
        passes when it is empty. */
    method ValidateForm() returns (valid: bool)
      modifies this
      ensures errors == SignupErrors(username, email, password, confirmPassword)
      ensures valid <==> errors == map[]
      ensures valid <==> SignupFormValid(username, email, password, confirmPassword)
      ensures username == old(username) && email == old(email) && password == old(password)
              && confirmPassword == old(confirmPassword) && role == old(role)
              && isSubmitting == old(isSubmitting)
    {
      var e := SignupErrors(username, email, password, confirmPassword);
      valid := |e| == 0;
      NoErrorsIsEmpty(e);
      SignupErrorsEmpty(username, email, password, confirmPassword);
      errors := e;
    }

    /** `handleSubmit`: a failing form stops at the checks and never calls the sign-up
        endpoint; a passing one sends the fields and, once the account exists, goes to the
        sign-in page with a message naming the chosen role. Returns the body sent, if any,
        and the navigation. */
    method HandleSubmit(outcome: Result<(), RequestError>)
      returns (sent: Option<SignupBody>, navigate: Option<(string, string)>)
      requires auth.Valid()
      modifies this, auth
      ensures sent.Some? <==> SignupFormValid(username, email, password, confirmPassword)
      ensures sent.Some? ==> sent.value == SignupRequest(SignupData(username, email, password, Some(role)))
      ensures sent.None? ==> navigate.None? && auth.error == old(auth.error) && auth.loading == old(auth.loading)
      ensures sent.Some? && outcome.Ok? ==> navigate == Some(("/signin", CreatedMessage(role))) && auth.error == None
      ensures sent.Some? && outcome.Err? ==>
                navigate.None? && auth.error == Some(RejectedPayload(SignupCall, Thrown(SignupCall, outcome.error)))
      ensures auth.Valid()
      ensures sent.Some? ==> !isSubmitting && !auth.loading
      ensures sent.None? ==> isSubmitting == old(isSubmitting)
      ensures auth.isAuthenticated == old(auth.isAuthenticated) && auth.user == old(auth.user)
              && auth.token == old(auth.token)
      ensures username == old(username) && email == old(email) && password == old(password)
              && confirmPassword == old(confirmPassword) && role == old(role)
      ensures errors == SignupErrors(username, email, password, confirmPassword)
      ensures errors == map[] <==> sent.Some?
    {
      var valid := ValidateForm();
      if !valid {
        return None, None;
      }
      isSubmitting := true;
      sent := Some(SignupRequest(SignupData(username, email, password, Some(role))));
      auth.Signup(outcome);
      isSubmitting := false;
      if outcome.Ok? {
        navigate := Some(("/signin", CreatedMessage(role)));
      } else {
        navigate := None;
      }
    }
  }
}

/** The "Sign in" form. */
module SignIn {
  import opened Base
  import opened Text
  import opened Entities
  import opened Storage
  import opened AuthService
  import opened Auth
  import opened Validation
  import CreateAccount

  /** Only the presence of a password is checked here, not its length. */
  function LoginPasswordError(password: string): (r: Option<string>)
    ensures r.Some? <==> password == ""
    ensures r.Some? ==> r.value == "Password is required"
  {
    if password == "" then Some("Password is required") else None
  }

  predicate LoginFormValid(email: string, password: string)
  {
    LooseEmail(email) && password != ""
  }

  /** Every password the sign-up form accepts is accepted here, but not the converse. */
  lemma SignupPasswordsSignIn(password: string)
    ensures CreateAccount.PasswordError(password).None? ==> LoginPasswordError(password).None?
    ensures LoginPasswordError("abc").None? && CreateAccount.PasswordError("abc").Some?
  {
  }

  const LoginKeys: set<string> := {"email", "password"}

  /** The sign-in page's error map. */
  function LoginErrors(email: string, password: string): (r: map<string, string>)
    ensures r.Keys <= LoginKeys
    ensures "password" in r <==> password == ""
  {
    Put(Put(map[], "email", CreateAccount.EmailError(email)), "password", LoginPasswordError(password))
  }

  lemma LoginErrorsReport(email: string, password: string)
    ensures var e := LoginErrors(email, password);
      e.Keys <= LoginKeys
      && CreateAccount.Reports(e, "email", CreateAccount.EmailError(email))
      && CreateAccount.Reports(e, "password", LoginPasswordError(password))
  {
  }

  /** The sign-in form passes exactly when its error map is empty. */
  lemma LoginErrorsEmpty(email: string, password: string)
    ensures LoginErrors(email, password) == map[] <==> LoginFormValid(email, password)
  {
    var e := LoginErrors(email, password);
    if !LoginFormValid(email, password) {
      LoginErrorsReport(email, password);
      assert exists k :: k in e;
    }
  }

  /** Where the page sends a visitor who is already signed in. */
  function RedirectTarget(isAuthenticated: bool): (r: Option<string>)
    ensures r.Some? <==> isAuthenticated
    ensures r.Some? ==> r.value == "/"
  {
    if isAuthenticated then Some("/") else None
  }

  datatype LoginField = EmailInput | PasswordInput

  function LoginKey(f: LoginField): (k: string)
    ensures k in LoginKeys
  {
    match f
    case EmailInput => "email"
    case PasswordInput => "password"
  }

  class LoginPage {
    var email: string
    var password: string
    var errors: map<string, string>
    const auth: AuthStore

    constructor (auth: AuthStore)
      modifies auth
      ensures this.auth == auth && email == "" && password == "" && errors == map[]
      ensures auth.error == None
      ensures auth.isAuthenticated == old(auth.isAuthenticated) && auth.user == old(auth.user)
              && auth.token == old(auth.token) && auth.loading == old(auth.loading)
    {
      this.auth := auth;
      email, password, errors := "", "", map[];
      new;
      auth.ClearError();
    }

    /** `handleInputChange`: unlike the sign-up form it leaves the store's error alone. */
    method HandleInputChange(f: LoginField, value: string)
      modifies this
      ensures email == (if f == EmailInput then value else old(email))
      ensures password == (if f == PasswordInput then value else old(password))
      ensures errors.Keys == old(errors).Keys
      ensures forall k :: k in errors && k != LoginKey(f) ==> errors[k] == old(errors)[k]
      ensures LoginKey(f) in errors ==> errors[LoginKey(f)] == ""
    {
      match f {
        case EmailInput => email := value;
        case PasswordInput => password := value;
      }
      var key := LoginKey(f);
      if key in errors && errors[key] != "" {
        errors := errors[key := ""];
      }
    }

    /** `validateForm` of the sign-in page. */
    method ValidateForm() returns (valid: bool)
      modifies this
      ensures errors == LoginErrors(email, password)
      ensures valid <==> errors == map[]
      ensures valid <==> LoginFormValid(email, password)
      ensures email == old(email) && password == old(password)
    {
      var e := LoginErrors(email, password);
      valid := |e| == 0;
      NoErrorsIsEmpty(e);
      LoginErrorsEmpty(email, password);
      errors := e;
    }

    /** `handleSubmit`: a failing form never calls the sign-in endpoint; a successful
        sign-in goes to the home page, signed in as the user the endpoint returned. Returns
        the credentials sent, if any, and the navigation. */
    method HandleSubmit(outcome: Result<User, RequestError>)
      returns (sent: Option<(string, string)>, navigate: Option<string>)
      requires auth.Valid()
      modifies this, auth, auth.storage
      ensures sent.Some? <==> LoginFormValid(email, password)
      ensures sent.Some? ==> sent.value == (email, password)
      ensures sent.None? ==>
                navigate.None? && auth.error == old(auth.error) && auth.loading == old(auth.loading)
                && auth.isAuthenticated == old(auth.isAuthenticated) && auth.user == old(auth.user)
                && auth.token == old(auth.token) && auth.storage.items == old(auth.storage.items)
      ensures sent.Some? && outcome.Ok? ==>
                navigate == Some("/") && auth.isAuthenticated && auth.user == Some(outcome.value)
                && auth.token == Some(outcome.value.accessToken) && auth.error == None
                && auth.storage.items == old(auth.storage.items)[TokenKey := TokenJson(outcome.value.accessToken)]
                                                                [UserKey := UserJson(outcome.value)]
      ensures sent.Some? && outcome.Err? ==>
                navigate.None? && auth.isAuthenticated == old(auth.isAuthenticated)
                && auth.user == old(auth.user) && auth.token == old(auth.token)
                && auth.error == Some(RejectedPayload(LoginCall, Thrown(LoginCall, outcome.error)))
                && auth.storage.items == old(auth.storage.items)
      ensures auth.Valid()
      ensures email == old(email) && password == old(password)
      ensures errors == LoginErrors(email, password)
      ensures sent.Some? ==> !auth.loading
    {
      var valid := ValidateForm();
      if !valid {
        return None, None;
      }
      sent := Some((email, password));
      auth.Login(outcome);
      navigate := if outcome.Ok? then Some("/") else None;
    }
  }
}
