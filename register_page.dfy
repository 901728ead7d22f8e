/** The registration form: a name that is not blank, an email of the shape
    `\S+@\S+\.\S+`, a password of at least six characters and a matching confirmation; a
    successful registration starts the session and opens the dashboard. */
module RegisterPage {
  import opened Common
  import opened JsText
  import opened Forms
  import AuthContext

  datatype Field = Name | Email | Password | ConfirmPassword

  function FieldName(f: Field): string {
    match f
    case Name => "name"
    case Email => "email"
    case Password => "password"
    case ConfirmPassword => "confirmPassword"
  }

  datatype Form = Form(name: string, email: string, password: string, confirmPassword: string)

  datatype AuthResponse = AuthResponse(token: string, user: AuthContext.User)

  datatype Effect = RequestRegister(name: string, email: string, password: string) | Navigate(path: string)

  const NameRequired := "Name is required"
  const RegistrationFailed := "Registration failed. Please try again."

  /** `validateForm`: one message per failing field, the 'required' wording taking
      precedence. Only the name is trimmed. */
  function RegisterErrors(f: Form): (r: Errors)
    ensures r.Keys <= {"name", "email", "password", "confirmPassword"}
    ensures "name" in r <==> Blank(f.name)
    ensures "email" in r <==> !EmailShaped(f.email)
    ensures "password" in r <==> |f.password| < MinPasswordLength
    ensures "confirmPassword" in r <==> f.confirmPassword == "" || f.confirmPassword != f.password
    ensures "name" in r ==> r["name"] == NameRequired
    ensures "email" in r ==> r["email"] == (if f.email == "" then EmailRequired else EmailInvalid)
    ensures "password" in r ==>
              r["password"] == (if f.password == "" then "Password is required" else PasswordTooShort)
    ensures "confirmPassword" in r ==>
              r["confirmPassword"] == (if f.confirmPassword == "" then ConfirmRequired else PasswordsDiffer)
  {
    var e0: Errors := if Blank(f.name) then map["name" := NameRequired] else map[];
    var e1 := WithProblem(e0, "email", EmailProblem(f.email));
    var e2 := WithProblem(e1, "password", PasswordProblem(f.password, "Password is required"));
    WithProblem(e2, "confirmPassword", ConfirmProblem(f.password, f.confirmPassword))
  }

  /** The form is accepted exactly when the name has a non-space character, the email has
      the required shape, the password has at least six characters and the confirmation
      equals it. */
  lemma RegisterValidIff(f: Form)
    ensures !HasErrors(RegisterErrors(f)) <==>
              !AllSpace(f.name) && EmailShaped(f.email) && |f.password| >= MinPasswordLength
              && f.confirmPassword == f.password
  {
    var r := RegisterErrors(f);
    if Blank(f.name) { assert "name" in r.Keys; }
    if !EmailShaped(f.email) { assert "email" in r.Keys; }
    if |f.password| < MinPasswordLength { assert "password" in r.Keys; }
    if f.confirmPassword != f.password { assert "confirmPassword" in r.Keys; }
  }

  /** A password of six spaces passes while a name of spaces does not. */
  lemma OnlyNameIsTrimmed()
    ensures var f := Form("  ", "a@b.c", "      ", "      ");
            "name" in RegisterErrors(f) && "password" !in RegisterErrors(f)
            && "confirmPassword" !in RegisterErrors(f)
  {
  }

  class Page {
    var form: Form
    var errors: Errors
    var isLoading: bool

    constructor()
      ensures form == Form("", "", "", "") && errors == map[] && !isLoading
    {
      form := Form("", "", "", "");
      errors := map[];
      isLoading := false;
    }

    /** `handleChange`: the edited field takes the value and only its message is cleared. */
    method HandleChange(f: Field, value: string)
      modifies this`form, this`errors
      ensures form == match f
                      case Name => old(form).(name := value)
                      case Email => old(form).(email := value)
                      case Password => old(form).(password := value)
                      case ConfirmPassword => old(form).(confirmPassword := value)
      ensures errors == ClearError(old(errors), FieldName(f))
    {
      match f {
        case Name => form := form.(name := value);
        case Email => form := form.(email := value);
        case Password => form := form.(password := value);
        case ConfirmPassword => form := form.(confirmPassword := value);
      }
      errors := ClearError(errors, FieldName(f));
    }

    /** `handleSubmit`: an invalid form shows its messages and sends nothing; a valid one is
        sent, and success stores token and user before opening the dashboard while failure
        leaves one general message. */
    method HandleSubmit(answer: Outcome<AuthResponse>, session: AuthContext.AuthSession)
      returns (effects: seq<Effect>)
      modifies this`errors, this`isLoading, session`user, session.store
      ensures !isLoading
      ensures HasErrors(RegisterErrors(form)) ==>
                errors == RegisterErrors(form) && effects == []
                && session.user == old(session.user) && session.store.token == old(session.store.token)
      ensures !HasErrors(RegisterErrors(form)) && answer.Ok? ==>
                session.store.token == Some(answer.value.token) && session.user == Some(answer.value.user)
                && errors == old(errors)
                && effects == [RequestRegister(form.name, form.email, form.password), Navigate("/dashboard")]
      ensures !HasErrors(RegisterErrors(form)) && answer.Err? ==>
                errors == map["general" := ErrorText(answer, RegistrationFailed)]
                && session.user == old(session.user) && session.store.token == old(session.store.token)
                && effects == [RequestRegister(form.name, form.email, form.password)]
    {
      isLoading := true;
      var newErrors := RegisterErrors(form);
      if HasErrors(newErrors) {
        errors := newErrors;
        isLoading := false;
        return [];
      }
      effects := [RequestRegister(form.name, form.email, form.password)];
      match answer {
        case Ok(response) =>
          session.Login(response.token, response.user);
          effects := effects + [Navigate("/dashboard")];
        case Err(_) =>
          errors := map["general" := ErrorText(answer, RegistrationFailed)];
      }
      isLoading := false;
    }

    /** The three checks under the password field; the length check lights exactly when
        submitting would raise no password message. */
    function Indicators(): (r: Forms.Indicators)
      reads this
      ensures r.longEnough <==> "password" !in RegisterErrors(form)
    {
      PasswordIndicators(form.password)
    }
  }
}
