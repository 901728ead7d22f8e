/** What the sign-in, registration and password pages share: a record of error messages
    keyed by field name (`general` for a server failure), how editing a field clears its
    message, and the email, password and confirmation rules with their messages. */
module Forms {
  import opened Common
  import opened JsText

  type Errors = map<string, string>

  const EmailRequired := "Email is required"
  const EmailInvalid := "Please enter a valid email address"
  const PasswordTooShort := "Password must be at least 6 characters"
  const ConfirmRequired := "Please confirm your password"
  const PasswordsDiffer := "Passwords do not match"

  const MinPasswordLength := 6

  /** `Object.keys(errors).length > 0`. */
  predicate HasErrors(errors: Errors) {
    errors.Keys != {}
  }

  /** The error record after the user edits field `name`: a non-empty message of that field
      becomes empty (the key stays); every other entry is left alone. */
  function ClearError(errors: Errors, name: string): (r: Errors)
    ensures r.Keys == errors.Keys
    ensures forall k :: k in errors && k != name ==> r[k] == errors[k]
    ensures name in r ==> r[name] == ""
  {
    if name in errors && errors[name] != "" then errors[name := ""] else errors
  }

  /** Records `problem`, if any, as the message of `key`. */
  function WithProblem(errors: Errors, key: string, problem: Option<string>): (r: Errors)
    ensures problem.None? ==> r == errors
    ensures problem.Some? ==> r == errors[key := problem.value]
  {
    match problem
    case None => errors
    case Some(message) => errors[key := message]
  }

  /** The email rule of registration and of the forgotten-password form: missing first,
      then the `\S+@\S+\.\S+` shape. */
  function EmailProblem(email: string): (r: Option<string>)
    ensures r.None? <==> EmailShaped(email)
    ensures email == "" ==> r == Some(EmailRequired)
    ensures email != "" && !EmailShaped(email) ==> r == Some(EmailInvalid)
  {
    if email == "" then Some(EmailRequired)
    else if !EmailShaped(email) then Some(EmailInvalid)
    else None
  }

  /** The password rule: missing first (with the page's own wording), then shorter than six
      characters. Nothing is trimmed, so six spaces are a valid password. */
  function PasswordProblem(password: string, requiredMessage: string): (r: Option<string>)
    ensures r.None? <==> |password| >= MinPasswordLength
    ensures password == "" ==> r == Some(requiredMessage)
    ensures password != "" && |password| < MinPasswordLength ==> r == Some(PasswordTooShort)
  {
    if password == "" then Some(requiredMessage)
    else if |password| < MinPasswordLength then Some(PasswordTooShort)
    else None
  }

  /** The confirmation rule: missing first, then different from the password. */
  function ConfirmProblem(password: string, confirm: string): (r: Option<string>)
    ensures r.None? <==> confirm != "" && confirm == password
    ensures confirm == "" ==> r == Some(ConfirmRequired)
    ensures confirm != "" && confirm != password ==> r == Some(PasswordsDiffer)
  {
    if confirm == "" then Some(ConfirmRequired)
    else if password != confirm then Some(PasswordsDiffer)
    else None
  }

  /** The three checks shown under a password field. */
  datatype Indicators = Indicators(longEnough: bool, lettersAndDigits: bool, special: bool)

  function PasswordIndicators(password: string): (r: Indicators)
    ensures password == "" ==> !r.longEnough && !r.lettersAndDigits && !r.special
    ensures |password| >= MinPasswordLength && !r.special ==>
              forall i :: 0 <= i < |password| ==> IsAsciiLetter(password[i]) || IsAsciiDigit(password[i])
  {
    Indicators(|password| >= MinPasswordLength,
               HasLetter(password) && HasDigit(password),
               HasSpecial(password))
  }

  /** The length check lights up exactly when the password rule is satisfied; the other two
      are advice only: a password can pass the rule with both of them dark. */
  lemma IndicatorsAgainstRule(password: string, requiredMessage: string)
    ensures PasswordIndicators(password).longEnough <==> PasswordProblem(password, requiredMessage).None?
    ensures var p := "aaaaaa";
            PasswordProblem(p, requiredMessage).None?
            && !PasswordIndicators(p).lettersAndDigits && !PasswordIndicators(p).special
  {
    var p := "aaaaaa";
    assert forall i :: 0 <= i < |p| ==> p[i] == 'a';
  }

  /** Typing more never turns a check off: each indicator lit for a password stays lit for
      any longer password that starts with it. */
  lemma {:induction false} IndicatorsStayLit(password: string, more: string)
    ensures var before := PasswordIndicators(password);
            var after := PasswordIndicators(password + more);
            (before.longEnough ==> after.longEnough)
            && (before.lettersAndDigits ==> after.lettersAndDigits)
            && (before.special ==> after.special)
  {
    var t := password + more;
    if HasLetter(password) {
      var i :| 0 <= i < |password| && IsAsciiLetter(password[i]);
      assert t[i] == password[i];
    }
    if HasDigit(password) {
      var i :| 0 <= i < |password| && IsAsciiDigit(password[i]);
      assert t[i] == password[i];
    }
    if HasSpecial(password) {
      var i :| 0 <= i < |password| && !IsAsciiLetter(password[i]) && !IsAsciiDigit(password[i]);
      assert t[i] == password[i];
    }
  }
}
