/** The dialog for adding a member to a project by email with a role ('developer' unless
    another is picked). The email is trimmed before it is sent; a blank one is never sent. */
module AddMemberModal {
  import opened Common
  import opened JsText

  const DefaultRole := "developer"

  datatype MemberData = MemberData(userEmail: string, role: string)

  datatype Effect = Submitted(data: MemberData) | Closed

  /** The submit button is enabled unless a request is running or the email is blank. */
  predicate SubmitEnabled(isLoading: bool, userEmail: string)
    ensures SubmitEnabled(isLoading, userEmail) ==> !isLoading && userEmail != ""
  {
    !(isLoading || Trim(userEmail) == "")
  }

  /** The button is enabled exactly when nothing is loading and the email has a character
      that is not white space, which is also what `handleSubmit` asks. */
  lemma SubmitEnabledIff(isLoading: bool, userEmail: string)
    ensures SubmitEnabled(isLoading, userEmail) <==> !isLoading && !AllSpace(userEmail)
  {
    BlankIffAllSpace(userEmail);
  }

  class Modal {
    var userEmail: string
    var selectedRole: string

    constructor()
      ensures userEmail == "" && selectedRole == DefaultRole
    {
      userEmail := "";
      selectedRole := DefaultRole;
    }

    method SetEmail(value: string)
      modifies this`userEmail
      ensures userEmail == value
    {
      userEmail := value;
    }

    method SetRole(value: string)
      modifies this`selectedRole
      ensures selectedRole == value
    {
      selectedRole := value;
    }

    /** `handleSubmit`: nothing for a blank email; otherwise the trimmed email, which is
        non-empty and starts and ends with a non-space character, and the selected role. */
    method HandleSubmit() returns (effects: seq<Effect>)
      ensures AllSpace(userEmail) ==> effects == []
      ensures !AllSpace(userEmail) ==>
                effects == [Submitted(MemberData(Trim(userEmail), selectedRole))]
      ensures !AllSpace(userEmail) ==>
                var sent := Trim(userEmail);
                sent != "" && !IsSpace(sent[0]) && !IsSpace(sent[|sent| - 1])
    {
      if Blank(userEmail) {
        return [];
      }
      BlankIffAllSpace(userEmail);
      TrimIsMiddle(userEmail);
      effects := [Submitted(MemberData(Trim(userEmail), selectedRole))];
    }

    /** `handleClose`: email and role are reset, then the parent is told. */
    method HandleClose() returns (effects: seq<Effect>)
      modifies this
      ensures userEmail == "" && selectedRole == DefaultRole && effects == [Closed]
    {
      userEmail := "";
      selectedRole := DefaultRole;
      effects := [Closed];
    }
  }
}
