/** The sign-in form: both fields must be non-empty (no trimming and no format check here),
    a successful sign-in starts the session and opens the dashboard, a failed one replaces
    every message with a single general one. */
module LoginPage {
  import opened Common
  import opened Forms
  import AuthContext

  datatype Field = Email | Password

  function FieldName(f: Field): string {
    match f
    case Email => "email"
    case Password => "password"
  }

  datatype AuthResponse = AuthResponse(token: string, user: AuthContext.User)

  datatype Effect = RequestLogin(email: string, password: string) | Navigate(path: string)

  const LoginFailed := "Login failed. Please try again."

  /** The messages of `handleSubmit`'s required-field check. */
  function LoginErrors(email: string, password: string): (r: Errors)
    ensures r.Keys <= {"email", "password"}
    ensures "email" in r <==> email == ""
    ensures "password" in r <==> password == ""
    ensures "email" in r ==> r["email"] == EmailRequired
    ensures "password" in r ==> r["password"] == "Password is required"
  {
    var e := if email == "" then map["email" := EmailRequired] else map[];
    if password == "" then e["password" := "Password is required"] else e
  }

  /** The form may be sent exactly when both fields are non-empty. */
  lemma LoginGate(email: string, password: string)
    ensures !HasErrors(LoginErrors(email, password)) <==> email != "" && password != ""
  {
    if email == "" {
      assert "email" in LoginErrors(email, password).Keys;
    } else if password == "" {
      assert "password" in LoginErrors(email, password).Keys;
    }
  }

  class Page {
    var email: string
    var password: string
    var errors: Errors
    var isLoading: bool

    constructor()
      ensures email == "" && password == "" && errors == map[] && !isLoading
    {
      email := "";
      password := "";
      errors := map[];
      isLoading := false;
    }

    /** `handleChange`: the edited field takes the value and only its message is cleared. */
    method HandleChange(f: Field, value: string)
      modifies this`email, this`password, this`errors
      ensures f == Email ==> email == value && password == old(password)
      ensures f == Password ==> password == value && email == old(email)
      ensures errors == ClearError(old(errors), FieldName(f))
    {
      match f {
        case Email => email := value;
        case Password => password := value;
      }
      errors := ClearError(errors, FieldName(f));
    }

    /** `handleSubmit`. With a missing field the messages are shown and nothing is sent.
        Otherwise the credentials are sent; success stores token and user before going to the
        dashboard, failure leaves one general message. */
    method HandleSubmit(answer: Outcome<AuthResponse>, session: AuthContext.AuthSession)
      returns (effects: seq<Effect>)
      modifies this`errors, this`isLoading, session`user, session.store
      ensures !isLoading
      ensures HasErrors(LoginErrors(email, password)) ==>
                errors == LoginErrors(email, password) && effects == []
                && session.user == old(session.user) && session.store.token == old(session.store.token)
      ensures !HasErrors(LoginErrors(email, password)) && answer.Ok? ==>
                session.store.token == Some(answer.value.token) && session.user == Some(answer.value.user)
                && errors == old(errors)
                && effects == [RequestLogin(email, password), Navigate("/dashboard")]
      ensures !HasErrors(LoginErrors(email, password)) && answer.Err? ==>
                errors == map["general" := ErrorText(answer, LoginFailed)]
                && session.user == old(session.user) && session.store.token == old(session.store.token)
                && effects == [RequestLogin(email, password)]
    {
      isLoading := true;
      var newErrors := LoginErrors(email, password);
      if HasErrors(newErrors) {
        errors := newErrors;
        isLoading := false;
        return [];
      }
      effects := [RequestLogin(email, password)];
      match answer {
        case Ok(response) =>
          session.Login(response.token, response.user);
          effects := effects + [Navigate("/dashboard")];
        case Err(_) =>
          errors := map["general" := ErrorText(answer, LoginFailed)];
      }
      isLoading := false;
    }
  }
}
