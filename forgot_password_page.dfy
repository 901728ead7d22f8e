/** The form asking for a password-reset email: the address must be present and of the
    shape `\S+@\S+\.\S+` before anything is sent; success replaces the form with a notice. */
module ForgotPasswordPage {
  import opened Common
  import opened JsText
  import opened Forms

  datatype Effect = RequestResetEmail(email: string)

  const SendFailed := "Failed to send reset email. Please try again."

  class Page {
    var email: string
    var error: string
    var isLoading: bool
    var isSuccess: bool

    constructor()
      ensures email == "" && error == "" && !isLoading && !isSuccess
    {
      email := "";
      error := "";
      isLoading := false;
      isSuccess := false;
    }

    /** `handleChange`: any edit clears the message. */
    method HandleChange(value: string)
      modifies this`email, this`error
      ensures email == value && error == ""
    {
      email := value;
      if error != "" {
        error := "";
      }
    }

    /** `handleSubmit`: an empty address, then a malformed one, stop with a message and send
        nothing; otherwise the address is sent, success shows the notice and failure the
        server's message or the fallback. Loading ends on every path. */
    method HandleSubmit(answer: Outcome<Unit>) returns (effects: seq<Effect>)
      modifies this`error, this`isLoading, this`isSuccess
      ensures !isLoading
      ensures !EmailShaped(email) ==>
                effects == [] && isSuccess == old(isSuccess) && error == EmailProblem(email).value
      ensures email == "" ==> error == EmailRequired
      ensures email != "" && !EmailShaped(email) ==> error == EmailInvalid
      ensures EmailShaped(email) ==> effects == [RequestResetEmail(email)]
      ensures EmailShaped(email) && answer.Ok? ==> isSuccess && error == old(error)
      ensures EmailShaped(email) && answer.Err? ==>
                isSuccess == old(isSuccess) && error == ErrorText(answer, SendFailed)
    {
      isLoading := true;
      if email == "" {
        error := EmailRequired;
        isLoading := false;
        return [];
      }
      if !EmailShaped(email) {
        error := EmailInvalid;
        isLoading := false;
        return [];
      }
      effects := [RequestResetEmail(email)];
      if answer.Ok? {
        isSuccess := true;
      } else {
        error := ErrorText(answer, SendFailed);
      }
      isLoading := false;
    }
  }
}
