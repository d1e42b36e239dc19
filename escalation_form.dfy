/** The "Contact Human Support" form (src/components/EscalationForm.tsx):
    a three-field record edited one field at a time, and a submit guard that
    needs a name and an email. */
module EscalationForm {

  datatype FormData = FormData(name: string, email: string, message: string)

  /** The keys of `formData` that `handleChange` is given. */
  datatype Field = Name | Email | Message

  function Get(f: FormData, field: Field): string {
    match field
    case Name => f.name
    case Email => f.email
    case Message => f.message
  }

  /** `{ ...prev, [field]: value }`: that one field takes the new value and
      the other two keep theirs. */
  function With(f: FormData, field: Field, value: string): (r: FormData)
    ensures Get(r, field) == value
    ensures forall other :: other != field ==> Get(r, other) == Get(f, other)
  {
    match field
    case Name => f.(name := value)
    case Email => f.(email := value)
    case Message => f.(message := value)
  }

  /** What the form does to its parent: nothing, `onSubmit(record)`, or `onCancel()`. */
  datatype Outcome = NoCall | Submitted(data: FormData) | Cancelled

  class Form {
    var formData: FormData

    constructor ()
      ensures formData == FormData("", "", "")
    {
      formData := FormData("", "", "");
    }

    /** `handleChange(field)` applied to an input event carrying `value`. */
    method HandleChange(field: Field, value: string)
      modifies this
      ensures formData == With(old(formData), field, value)
    {
      formData := With(formData, field, value);
    }

    /** `handleSubmit`: `onSubmit` receives the current record exactly when
        both name and email are non-empty; the message may be empty. The
        form itself is left as it is. */
    method HandleSubmit() returns (outcome: Outcome)
      ensures outcome.Submitted? <==> formData.name != "" && formData.email != ""
      ensures outcome.Submitted? ==> outcome.data == formData
      ensures !outcome.Submitted? ==> outcome == NoCall
    {
      if formData.name != "" && formData.email != "" {
        outcome := Submitted(formData);
      } else {
        outcome := NoCall;
      }
    }

    /** The Cancel button calls `onCancel` and never `onSubmit`; the form is
        left as it is. */
    method Cancel() returns (outcome: Outcome)
      ensures outcome == Cancelled
    {
      outcome := Cancelled;
    }
  }

  /** Filling in name and email, in either order and with no message, is
      enough for the form to submit exactly what was typed. */
  method FillAndSubmit(name: string, email: string)
    requires name != "" && email != ""
  {
    var form := new Form();
    var outcome := form.HandleSubmit();
    assert outcome == NoCall;
    form.HandleChange(Email, email);
    form.HandleChange(Name, name);
    outcome := form.HandleSubmit();
    assert outcome == Submitted(FormData(name, email, ""));
  }
}
