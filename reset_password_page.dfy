/** The page a password-reset link opens. Without a token in the link it only explains that
    the link is invalid; otherwise it asks for a new password and its confirmation, sends
    them with the token, and on success shows a confirmation instead of the form. */
module ResetPasswordPage {
  import opened Common
  import opened Forms

  datatype Field = NewPassword | ConfirmPassword

  function FieldName(f: Field): string {
    match f
    case NewPassword => "newPassword"
    case ConfirmPassword => "confirmPassword"
  }

  datatype View = InvalidLink | Done | FormView

  datatype Effect = RequestReset(token: string, newPassword: string)

  const NewPasswordRequired := "New password is required"
  const ResetFailed := "Failed to reset password. Please try again."

  /** `validateForm`. */
  function ResetErrors(newPassword: string, confirmPassword: string): (r: Errors)
    ensures r.Keys <= {"newPassword", "confirmPassword"}
    ensures "newPassword" in r <==> |newPassword| < MinPasswordLength
    ensures "confirmPassword" in r <==> confirmPassword == "" || confirmPassword != newPassword
    ensures "newPassword" in r ==>
              r["newPassword"] == (if newPassword == "" then NewPasswordRequired else PasswordTooShort)
    ensures "confirmPassword" in r ==>
              r["confirmPassword"] == (if confirmPassword == "" then ConfirmRequired else PasswordsDiffer)
  {
    var e := WithProblem(map[], "newPassword", PasswordProblem(newPassword, NewPasswordRequired));
    WithProblem(e, "confirmPassword", ConfirmProblem(newPassword, confirmPassword))
  }

  /** The new password is accepted exactly when it has at least six characters and the
      confirmation repeats it. */
  lemma ResetValidIff(newPassword: string, confirmPassword: string)
    ensures !HasErrors(ResetErrors(newPassword, confirmPassword)) <==>
              |newPassword| >= MinPasswordLength && confirmPassword == newPassword
  {
    var r := ResetErrors(newPassword, confirmPassword);
    if |newPassword| < MinPasswordLength { assert "newPassword" in r.Keys; }
    if confirmPassword != newPassword { assert "confirmPassword" in r.Keys; }
  }

  /** Which screen is drawn: the token is checked before success. */
  function ViewFor(token: Option<string>, isSuccess: bool): (v: View)
    ensures v == InvalidLink <==> !Truthy(token)
    ensures v == Done <==> Truthy(token) && isSuccess
  {
    if !Truthy(token) then InvalidLink
    else if isSuccess then Done
    else FormView
  }

  class Page {
    /** The link's `token` query parameter. */
    const token: Option<string>
    var newPassword: string
    var confirmPassword: string
    var errors: Errors
    var isLoading: bool
    var isSuccess: bool

    constructor(token: Option<string>)
      ensures this.token == token && newPassword == "" && confirmPassword == ""
      ensures errors == map[] && !isLoading && !isSuccess
    {
      this.token := token;
      newPassword := "";
      confirmPassword := "";
      errors := map[];
      isLoading := false;
      isSuccess := false;
    }

    function CurrentView(): View
      reads this
    {
      ViewFor(token, isSuccess)
    }

    /** The three checks under the new-password field; the length check lights exactly
        when submitting would raise no new-password message. */
    function Indicators(): (r: Forms.Indicators)
      reads this
      ensures r.longEnough <==> "newPassword" !in ResetErrors(newPassword, confirmPassword)
    {
      PasswordIndicators(newPassword)
    }

    /** `handleChange`. */
    method HandleChange(f: Field, value: string)
      modifies this`newPassword, this`confirmPassword, this`errors
      ensures f == NewPassword ==> newPassword == value && confirmPassword == old(confirmPassword)
      ensures f == ConfirmPassword ==> confirmPassword == value && newPassword == old(newPassword)
      ensures errors == ClearError(old(errors), FieldName(f))
    {
      match f {
        case NewPassword => newPassword := value;
        case ConfirmPassword => confirmPassword := value;
      }
      errors := ClearError(errors, FieldName(f));
    }

    /** `handleSubmit`, reachable only from the form. Invalid input shows its messages and
        sends nothing; the request carries the link's token; only success shows the
        confirmation, and failure leaves one general message. */
    method HandleSubmit(answer: Outcome<Unit>) returns (effects: seq<Effect>)
      requires CurrentView() == FormView
      modifies this`errors, this`isLoading, this`isSuccess
      ensures !isLoading
      ensures HasErrors(ResetErrors(newPassword, confirmPassword)) ==>
                errors == ResetErrors(newPassword, confirmPassword) && effects == [] && !isSuccess
      ensures !HasErrors(ResetErrors(newPassword, confirmPassword)) ==>
                effects == [RequestReset(token.value, newPassword)]
                && (isSuccess <==> answer.Ok?)
                && (answer.Ok? ==> errors == old(errors) && CurrentView() == Done)
                && (answer.Err? ==> errors == map["general" := ErrorText(answer, ResetFailed)])
    {
      isLoading := true;
      var newErrors := ResetErrors(newPassword, confirmPassword);
      if HasErrors(newErrors) {
        errors := newErrors;
        isLoading := false;
        return [];
      }
      effects := [RequestReset(token.value, newPassword)];
      if answer.Ok? {
        isSuccess := true;
      } else {
        errors := map["general" := ErrorText(answer, ResetFailed)];
      }
      isLoading := false;
    }
  }
}
