/** AuthActivity: the sign-in/registration screen. Its validators are `when`
    chains whose first failing branch sets one field's error; a successful
    response is written to the session store. `isValidEmail` relies on a
    platform regular expression and is the parameter `isEmail`. */
module Auth {
  import opened Text
  import opened Net
  import opened Model
  import opened Validation
  import opened Extensions
  import opened Session

  /** The input fields that can carry an error. */
  datatype Field = NameField | EmailField | PasswordField | ConfirmField

  /** The error strings (string resources) the validators set. */
  datatype FieldError = EmptyName | EmptyEmail | InvalidEmail | EmptyPassword | ShortPassword | PasswordMismatch

  /** The field each error is shown on. */
  function FieldOf(e: FieldError): Field {
    match e
    case EmptyName => NameField
    case EmptyEmail | InvalidEmail => EmailField
    case EmptyPassword | ShortPassword => PasswordField
    case PasswordMismatch => ConfirmField
  }

  /** The error labels after a validator ran: a failure sets its own
      field's error and leaves the other labels as they were; a pass clears
      the `checked` fields' errors. */
  function ErrorsAfter(before: map<Field, FieldError>, err: Option<FieldError>, checked: set<Field>)
    : (after: map<Field, FieldError>)
    ensures err == None ==> after.Keys == before.Keys - checked
    ensures err.Some? ==> after.Keys == before.Keys + {FieldOf(err.value)} && after[FieldOf(err.value)] == err.value
    ensures forall f :: f in after && (err == None || f != FieldOf(err.value)) ==> after[f] == before[f]
  {
    if err == None then before - checked else before[FieldOf(err.value) := err.value]
  }

  /** The branches of `validateLoginInputs`, in order. */
  function LoginChecks(email: string, password: string, isEmail: string -> bool): seq<Check<FieldError>> {
    [Check(email == [], EmptyEmail), Check(!isEmail(email), InvalidEmail), Check(password == [], EmptyPassword)]
  }

  /** The error `validateLoginInputs` reports, if any. */
  function LoginError(email: string, password: string, isEmail: string -> bool): (r: Option<FieldError>)
    ensures r == None <==> email != [] && isEmail(email) && password != []
    ensures r == Some(EmptyEmail) <==> email == []
    ensures r == Some(InvalidEmail) <==> email != [] && !isEmail(email)
    ensures r == Some(EmptyPassword) <==> email != [] && isEmail(email) && password == []
  {
    var checks := LoginChecks(email, password, isEmail);
    var k := if email == [] then 0 else if !isEmail(email) then 1 else if password == [] then 2 else 3;
    if k == 3 then FirstFailure(checks)
    else EarlierFailureWins(checks, k); FirstFailure(checks)
  }

  /** The branches of `validateRegisterInputs`, in order. */
  function RegisterChecks(name: string, email: string, password: string, confirm: string,
                          isEmail: string -> bool): seq<Check<FieldError>> {
    [ Check(name == [], EmptyName), Check(email == [], EmptyEmail), Check(!isEmail(email), InvalidEmail),
      Check(password == [], EmptyPassword), Check(!IsValidPassword(password), ShortPassword),
      Check(password != confirm, PasswordMismatch) ]
  }

  /** The error `validateRegisterInputs` reports, if any. */
  function RegisterError(name: string, email: string, password: string, confirm: string,
                         isEmail: string -> bool): (r: Option<FieldError>)
    ensures r == None <==> (name != [] && email != [] && isEmail(email)
                            && IsValidPassword(password) && password == confirm)
    ensures r == Some(EmptyName) <==> name == []
    ensures r == Some(EmptyEmail) <==> name != [] && email == []
    ensures r == Some(InvalidEmail) <==> name != [] && email != [] && !isEmail(email)
    ensures r == Some(EmptyPassword) <==> name != [] && email != [] && isEmail(email) && password == []
    ensures r == Some(ShortPassword) <==> name != [] && email != [] && isEmail(email) && 0 < |password| < 6
    ensures r == Some(PasswordMismatch) <==> (name != [] && email != [] && isEmail(email)
                                              && IsValidPassword(password) && password != confirm)
  {
    var checks := RegisterChecks(name, email, password, confirm, isEmail);
    var k := if name == [] then 0 else if email == [] then 1 else if !isEmail(email) then 2
             else if password == [] then 3 else if !IsValidPassword(password) then 4
             else if password != confirm then 5 else 6;
    if k == 6 then FirstFailure(checks)
    else EarlierFailureWins(checks, k); FirstFailure(checks)
  }

  /** Whatever else is wrong, an empty email is reported in either mode as
      long as the name (when there is one) is present. */
  lemma {:induction false} EmptyEmailReportedFirst(name: string, password: string, confirm: string,
                                                   isEmail: string -> bool)
    ensures LoginError([], password, isEmail) == Some(EmptyEmail)
    ensures name != [] ==> RegisterError(name, [], password, confirm, isEmail) == Some(EmptyEmail)
  {
    if name != [] {
      EarlierFailureWins(RegisterChecks(name, [], password, confirm, isEmail), 1);
    }
  }

  /** A request the screen sends. */
  datatype AuthRequest =
    | LoginRequest(email: string, password: string)
    | RegisterRequest(name: string, email: string, password: string)

  /** The login request the typed texts lead to: none when validation fails. */
  function LoginRequestFor(emailText: string, passwordText: string, isEmail: string -> bool): (r: Option<AuthRequest>)
    ensures r.Some? <==> Trim(emailText) != [] && isEmail(Trim(emailText)) && passwordText != []
    ensures r.Some? ==> r.value == LoginRequest(Trim(emailText), passwordText)
  {
    if LoginError(Trim(emailText), passwordText, isEmail) == None
    then Some(LoginRequest(Trim(emailText), passwordText)) else None
  }

  /** The register request the typed texts lead to: none when validation fails. */
  function RegisterRequestFor(nameText: string, emailText: string, passwordText: string, confirmText: string,
                              isEmail: string -> bool): (r: Option<AuthRequest>)
    ensures r.Some? <==> (Trim(nameText) != [] && Trim(emailText) != [] && isEmail(Trim(emailText))
                          && |passwordText| >= 6 && passwordText == confirmText)
    ensures r.Some? ==> r.value == RegisterRequest(Trim(nameText), Trim(emailText), passwordText)
  {
    if RegisterError(Trim(nameText), Trim(emailText), passwordText, confirmText, isEmail) == None
    then Some(RegisterRequest(Trim(nameText), Trim(emailText), passwordText)) else None
  }

  /** A blank email never reaches the server, whatever surrounds it. */
  lemma {:induction false} BlankEmailNeverSent(nameText: string, emailText: string, passwordText: string,
                                               confirmText: string, isEmail: string -> bool)
    requires Blank(emailText)
    ensures LoginRequestFor(emailText, passwordText, isEmail) == None
    ensures RegisterRequestFor(nameText, emailText, passwordText, confirmText, isEmail) == None
  {
    TrimEmptyIffBlank(emailText);
  }

  /** What the screen does when a login or register call completes. */
  datatype AuthEffect = AuthEffect(save: Option<AuthData>, toast: Option<Toast>,
                                   navigate: bool, hideLoading: bool)

  /** The completion of `performLogin` (`login`) or `performRegister`. */
  function AuthResult(o: Outcome<Envelope<AuthData>>, login: bool): (e: AuthEffect)
    ensures e.save.Some? <==> Succeeded(o) && Payload(o).Some?
    ensures e.save.Some? ==> e.save == Payload(o) && e.navigate && !e.hideLoading
    ensures e.navigate <==> e.save.Some?
    ensures e.hideLoading <==> !Succeeded(o)
    ensures Succeeded(o) && Payload(o) == None ==> e == AuthEffect(None, None, false, false)
    ensures o.Transport? ==> e.toast == Some(Say("Error: " + o.message.GetOr("Network error")))
    ensures !Succeeded(o) && !o.Transport? ==>
      e.toast == Some(Say(BodyMessage(o).GetOr(if login then "Login failed" else "Registration failed")))
  {
    if Succeeded(o) then
      match Payload(o)
      case None => AuthEffect(None, None, false, false)
      case Some(d) =>
        var greeting := if login then "Welcome back, " + d.name + "!" else "Registration successful!";
        AuthEffect(Some(d), Some(Say(greeting)), true, false)
    else if o.Transport? then
      AuthEffect(None, Some(Say("Error: " + o.message.GetOr("Network error"))), false, true)
    else
      var fallback := if login then "Login failed" else "Registration failed";
      AuthEffect(None, Some(Say(BodyMessage(o).GetOr(fallback))), false, true)
  }

  /** The sign-in screen's state. `errors` holds the error shown on each
      field (absent: none); `loading` is the progress bar with the disabled
      submit button. */
  class AuthScreen {
    var isLoginMode: bool
    var errors: map<Field, FieldError>
    var loading: bool

    constructor ()
      ensures isLoginMode && errors == map[] && !loading
    {
      isLoginMode, errors, loading := true, map[], false;
    }

    /** Either toggle control flips the mode; a second toggle restores it. */
    method ToggleMode()
      modifies this`isLoginMode
      ensures isLoginMode == !old(isLoginMode)
    {
      isLoginMode := !isLoginMode;
    }

    /** `validateLoginInputs`: a failure sets its own field's error and leaves
        the others as they were; success clears the email and password errors. */
    method ValidateLoginInputs(email: string, password: string, isEmail: string -> bool) returns (ok: bool)
      modifies this`errors
      ensures ok <==> LoginError(email, password, isEmail) == None
      ensures errors == ErrorsAfter(old(errors), LoginError(email, password, isEmail), {EmailField, PasswordField})
    {
      var r := LoginError(email, password, isEmail);
      errors := ErrorsAfter(errors, r, {EmailField, PasswordField});
      ok := r == None;
    }

    /** `validateRegisterInputs`: as for login, over all four fields. */
    method ValidateRegisterInputs(name: string, email: string, password: string, confirm: string,
                                  isEmail: string -> bool) returns (ok: bool)
      modifies this`errors
      ensures ok <==> RegisterError(name, email, password, confirm, isEmail) == None
      ensures errors == ErrorsAfter(old(errors), RegisterError(name, email, password, confirm, isEmail),
                                    {NameField, EmailField, PasswordField, ConfirmField})
    {
      var r := RegisterError(name, email, password, confirm, isEmail);
      errors := ErrorsAfter(errors, r, {NameField, EmailField, PasswordField, ConfirmField});
      ok := r == None;
    }

    /** `performLogin` up to the request: the email is trimmed, the password
        is not; invalid input sends nothing and leaves the progress bar as it
        was. */
    method PerformLogin(emailText: string, passwordText: string, isEmail: string -> bool)
      returns (request: Option<AuthRequest>)
      modifies this`errors, this`loading
      ensures request == LoginRequestFor(emailText, passwordText, isEmail)
      ensures errors == ErrorsAfter(old(errors), LoginError(Trim(emailText), passwordText, isEmail),
                                    {EmailField, PasswordField})
      ensures loading == (old(loading) || request.Some?)
    {
      var email := Trim(emailText);
      var ok := ValidateLoginInputs(email, passwordText, isEmail);
      request := None;
      if ok {
        loading := true;
        request := Some(LoginRequest(email, passwordText));
      }
    }

    /** `performRegister` up to the request: name and email are trimmed, the
        passwords are not. */
    method PerformRegister(nameText: string, emailText: string, passwordText: string, confirmText: string,
                           isEmail: string -> bool) returns (request: Option<AuthRequest>)
      modifies this`errors, this`loading
      ensures request == RegisterRequestFor(nameText, emailText, passwordText, confirmText, isEmail)
      ensures errors == ErrorsAfter(old(errors), RegisterError(Trim(nameText), Trim(emailText), passwordText,
                                                               confirmText, isEmail),
                                    {NameField, EmailField, PasswordField, ConfirmField})
      ensures loading == (old(loading) || request.Some?)
    {
      var name := Trim(nameText);
      var email := Trim(emailText);
      var ok := ValidateRegisterInputs(name, email, passwordText, confirmText, isEmail);
      request := None;
      if ok {
        loading := true;
        request := Some(RegisterRequest(name, email, passwordText));
      }
    }

    /** The submit button: login or registration, by mode. */
    method Submit(nameText: string, emailText: string, passwordText: string, confirmText: string,
                  isEmail: string -> bool) returns (request: Option<AuthRequest>)
      modifies this`errors, this`loading
      ensures request == if isLoginMode then LoginRequestFor(emailText, passwordText, isEmail)
                         else RegisterRequestFor(nameText, emailText, passwordText, confirmText, isEmail)
      ensures isLoginMode ==>
        errors == ErrorsAfter(old(errors), LoginError(Trim(emailText), passwordText, isEmail),
                              {EmailField, PasswordField})
      ensures !isLoginMode ==>
        errors == ErrorsAfter(old(errors), RegisterError(Trim(nameText), Trim(emailText), passwordText,
                                                         confirmText, isEmail),
                              {NameField, EmailField, PasswordField, ConfirmField})
      ensures loading == (old(loading) || request.Some?)
    {
      if isLoginMode {
        request := PerformLogin(emailText, passwordText, isEmail);
      } else {
        request := PerformRegister(nameText, emailText, passwordText, confirmText, isEmail);
      }
    }

    /** The completion of the login (`login`) or register call: a successful
        response with data is saved to the session store. */
    method CompleteAuth(o: Outcome<Envelope<AuthData>>, login: bool, store: PreferenceManager)
      returns (toast: Option<Toast>, navigate: bool)
      requires store.Valid()
      modifies this`loading, store
      ensures store.Valid()
      ensures AuthResult(o, login).save == None ==> store.prefs == old(store.prefs)
      ensures AuthResult(o, login).save.Some? ==>
        var d := AuthResult(o, login).save.value;
        store.prefs == Saved(old(store.prefs), d.token, d.id, d.name, d.email, d.role)
      ensures toast == AuthResult(o, login).toast && navigate == AuthResult(o, login).navigate
      ensures loading == (old(loading) && !AuthResult(o, login).hideLoading)
    {
      var effect := AuthResult(o, login);
      if effect.save.Some? {
        var d := effect.save.value;
        store.SaveAuthData(d.token, d.id, d.name, d.email, d.role);
      }
      if effect.hideLoading {
        loading := false;
      }
      toast, navigate := effect.toast, effect.navigate;
    }
  }
}
