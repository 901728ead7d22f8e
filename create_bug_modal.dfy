/** The dialog for reporting a bug: title, description, a priority starting at 'medium' and
    an optional assignee. Sending passes the form on (an empty assignee meaning unassigned)
    without clearing it; closing resets it and then tells the parent. */
module CreateBugModal {
  import opened Common

  datatype Form = Form(title: string, description: string, priority: string, assignedTo: string)

  const Initial := Form("", "", "medium", "")

  datatype BugDraft = BugDraft(title: string, description: string, priority: string,
                               assignedTo: Option<string>)

  datatype Effect = Submitted(draft: BugDraft) | Closed

  /** The submitted record: the form as typed, with `assignedTo || undefined`. */
  function Draft(f: Form): (d: BugDraft)
    ensures d.title == f.title && d.description == f.description && d.priority == f.priority
    ensures d.assignedTo.None? <==> f.assignedTo == ""
  {
    BugDraft(f.title, f.description, f.priority, if f.assignedTo == "" then None else Some(f.assignedTo))
  }

  /** Nothing of the form is lost in the draft: the form can be read back from it. */
  lemma DraftRoundTrip(f: Form)
    ensures var d := Draft(f); Form(d.title, d.description, d.priority, d.assignedTo.GetOr("")) == f
  {
  }

  /** The form's inputs. */
  datatype Field = Title | Description | Priority | AssignedTo

  class Modal {
    var form: Form

    constructor()
      ensures form == Initial
    {
      form := Initial;
    }

    /** The inputs' change handlers: one field takes the new value. */
    method SetField(field: Field, value: string)
      modifies this
      ensures form == match field
                      case Title => old(form).(title := value)
                      case Description => old(form).(description := value)
                      case Priority => old(form).(priority := value)
                      case AssignedTo => old(form).(assignedTo := value)
    {
      match field {
        case Title => form := form.(title := value);
        case Description => form := form.(description := value);
        case Priority => form := form.(priority := value);
        case AssignedTo => form := form.(assignedTo := value);
      }
    }

    /** `handleSubmit`: sends the draft and keeps the form as it is. */
    method HandleSubmit() returns (effects: seq<Effect>)
      ensures effects == [Submitted(Draft(form))]
    {
      effects := [Submitted(Draft(form))];
    }

    /** `handleClose`: the form returns to its initial values, then the parent is told. */
    method HandleClose() returns (effects: seq<Effect>)
      modifies this
      ensures form == Initial && effects == [Closed]
    {
      form := Initial;
      effects := [Closed];
    }
  }
}
