/** The dialog for creating a project: a required name (blank after trimming is refused) and
    a free description. */
module CreateProjectModal {
  import opened Common
  import opened JsText
  import opened Forms

  datatype Form = Form(name: string, description: string)

  datatype Field = Name | Description

  function FieldName(f: Field): string {
    match f
    case Name => "name"
    case Description => "description"
  }

  datatype Effect = Submitted(form: Form) | Closed

  const NameRequired := "Project name is required"

  class Modal {
    var form: Form
    var errors: Errors

    constructor()
      ensures form == Form("", "") && errors == map[]
    {
      form := Form("", "");
      errors := map[];
    }

    /** `handleChange`: the edited field takes the value and only its message is cleared. */
    method HandleChange(f: Field, value: string)
      modifies this
      ensures f == Name ==> form == old(form).(name := value)
      ensures f == Description ==> form == old(form).(description := value)
      ensures errors == ClearError(old(errors), FieldName(f))
    {
      match f {
        case Name => form := form.(name := value);
        case Description => form := form.(description := value);
      }
      errors := ClearError(errors, FieldName(f));
    }

    /** `handleSubmit`: a name of white space only sets the name message and sends nothing;
        otherwise the form goes to the parent exactly as typed. The description plays no
        part in the decision. */
    method HandleSubmit() returns (effects: seq<Effect>)
      modifies this`errors
      ensures AllSpace(form.name) ==> errors == map["name" := NameRequired] && effects == []
      ensures !AllSpace(form.name) ==> errors == old(errors) && effects == [Submitted(form)]
    {
      if Blank(form.name) {
        errors := map["name" := NameRequired];
        return [];
      }
      effects := [Submitted(form)];
    }

    /** `handleClose`: form and messages are reset, then the parent is told. */
    method HandleClose() returns (effects: seq<Effect>)
      modifies this
      ensures form == Form("", "") && errors == map[] && effects == [Closed]
    {
      form := Form("", "");
      errors := map[];
      effects := [Closed];
    }
  }
}
