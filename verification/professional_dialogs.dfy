/** The create and edit dialogs for professionals (staff accounts). */
module ProfessionalDialogs {
  import opened Base
  import Text
  import Services
  import Dialogs

  /** The dialog form; the phone is optional and the password is write-only. */
  datatype Form = Form(name: string, email: string, password: string, position: string, phoneNumber: string)

  const Empty: Form := Form("", "", "", "", "")

  const CreateFailed: string := "Erro ao criar profissional"
  const UpdateFailed: string := "Erro ao atualizar profissional"
  const LoadFailed: string := "Erro ao carregar dados do profissional"

  /** The create body: the whole form, phone included even when empty. */
  function CreatePayload(f: Form): Services.JsonObject {
    map["name" := Services.JStr(f.name), "email" := Services.JStr(f.email), "password" := Services.JStr(f.password),
        "position" := Services.JStr(f.position), "phone_number" := Services.JStr(f.phoneNumber)]
  }

  /** The create dialog's `handleSubmit`: the call is made only with name,
      email, password and position filled in; success empties the form,
      closes and notifies; failure keeps everything and alerts. */
  function SubmitCreate(f: Form, outcome: Dialogs.Outcome): (r: Dialogs.Submitted<Form>)
    ensures r.call.Some? <==> f.name != "" && f.email != "" && f.password != "" && f.position != ""
    ensures r.call.None? ==> r == Dialogs.Submitted(f, None, [Dialogs.Alert(Dialogs.RequiredFieldsAlert)])
    ensures r.call.Some? ==> r.call.value == Services.Create(Services.Professionals, CreatePayload(f))
    ensures r.call.Some? && outcome.Succeeded? ==> r.form == Empty && r.effects == [Dialogs.Close, Dialogs.NotifySuccess]
    ensures outcome.Failed? ==> r.form == f
    ensures Dialogs.ClosesOnlyOnSuccess(r, outcome)
  {
    if f.name == "" || f.email == "" || f.password == "" || f.position == "" then
      Dialogs.Rejected(f, Dialogs.RequiredFieldsAlert)
    else
      Dialogs.AfterCall(f, Empty, Services.Create(Services.Professionals, CreatePayload(f)), outcome, CreateFailed)
  }

  /** The update body: name, email, position and phone as in the form, and
      the password only when it is not blank. A non-blank password is sent
      untrimmed. */
  function UpdatePayload(f: Form): (p: Services.JsonObject)
    ensures "password" in p <==> Text.Trim(f.password) != ""
    ensures "password" in p ==> p["password"] == Services.JStr(f.password)
    ensures p.Keys - {"password"} == {"name", "email", "position", "phone_number"}
    ensures p["name"] == Services.JStr(f.name) && p["email"] == Services.JStr(f.email)
    ensures p["position"] == Services.JStr(f.position) && p["phone_number"] == Services.JStr(f.phoneNumber)
  {
    var base := map["name" := Services.JStr(f.name), "email" := Services.JStr(f.email),
                    "position" := Services.JStr(f.position), "phone_number" := Services.JStr(f.phoneNumber)];
    if f.password != "" && Text.Trim(f.password) != "" then base["password" := Services.JStr(f.password)] else base
  }

  /** The edit dialog's `handleSubmit`: nothing at all without an id; then
      the required fields (the password is not one); then the update.
      Success closes and notifies without touching the form. */
  function SubmitEdit(id: Option<int>, f: Form, outcome: Dialogs.Outcome): (r: Dialogs.Submitted<Form>)
    ensures !Dialogs.IdGiven(id) ==> r == Dialogs.Submitted(f, None, [])
    ensures r.call.Some? <==> Dialogs.IdGiven(id) && f.name != "" && f.email != "" && f.position != ""
    ensures Dialogs.IdGiven(id) && r.call.None? ==> r == Dialogs.Rejected(f, Dialogs.RequiredFieldsAlert)
    ensures r.call.Some? ==> r.call.value == Services.Update(Services.Professionals, id.value, UpdatePayload(f))
    ensures r.form == f
    ensures Dialogs.ClosesOnlyOnSuccess(r, outcome)
  {
    if !Dialogs.IdGiven(id) then Dialogs.Submitted(f, None, [])
    else if f.name == "" || f.email == "" || f.position == "" then Dialogs.Rejected(f, Dialogs.RequiredFieldsAlert)
    else Dialogs.AfterCall(f, f, Services.Update(Services.Professionals, id.value, UpdatePayload(f)), outcome, UpdateFailed)
  }

  /** The form filled from a fetched professional: the password is never
      loaded and a missing phone becomes empty. */
  function FormOf(p: Services.Professional): (f: Form)
    ensures f.password == ""
    ensures f.phoneNumber == (if p.phoneNumber.Some? then p.phoneNumber.value else "")
    ensures f.name == p.name && f.email == p.email && f.position == p.position
  {
    Form(p.name, p.email, "", p.position, if Truthy(p.phoneNumber) then p.phoneNumber.value else "")
  }

  /** `loadProfessionalData`, run when the dialog opens with an id. */
  function Load(open: bool, id: Option<int>, f: Form, reply: Result<Services.Professional>): (r: Dialogs.Loaded<Form>)
    ensures r.call.Some? <==> open && Dialogs.IdGiven(id)
    ensures r.call.Some? ==> r.call.value == Services.GetById(Services.Professionals, id.value)
    ensures r.call.Some? && reply.Ok? ==> r.form == FormOf(reply.value) && r.effects == []
    ensures r.call.Some? && reply.Err? ==> r.form == f && r.effects == [Dialogs.Alert("Erro ao carregar dados do profissional"), Dialogs.Close]
    ensures r.call.None? ==> r.form == f && r.effects == []
  {
    Dialogs.LoadInto(open, Services.Professionals, id, f, reply, FormOf, LoadFailed)
  }

  /** A password made only of spaces, tabs or line breaks is not sent, and
      any other password is. */
  lemma BlankPasswordOmitted(f: Form)
    ensures "password" in UpdatePayload(f) <==> !Text.AllWhitespace(f.password)
  {
    Text.TrimBlank(f.password);
  }

  /** Saving a freshly loaded professional unchanged sends back its own
      fields, with the phone defaulted, and leaves the password alone. */
  lemma LoadThenSaveKeepsPassword(p: Services.Professional, id: int, outcome: Dialogs.Outcome)
    requires id != 0 && p.name != "" && p.email != "" && p.position != ""
    ensures var f := Load(true, Some(id), Empty, Ok(p)).form;
      var r := SubmitEdit(Some(id), f, outcome);
      && r.call.Some?
      && "password" !in r.call.value.data
      && r.call.value.data == map["name" := Services.JStr(p.name), "email" := Services.JStr(p.email),
           "position" := Services.JStr(p.position),
           "phone_number" := Services.JStr(if p.phoneNumber.Some? then p.phoneNumber.value else "")]
  {
    var f := FormOf(p);
    assert Load(true, Some(id), Empty, Ok(p)).form == f;
    assert f.password == "";
    assert UpdatePayload(f) == map["name" := Services.JStr(f.name), "email" := Services.JStr(f.email),
                                   "position" := Services.JStr(f.position), "phone_number" := Services.JStr(f.phoneNumber)];
  }

  /** After a successful create the emptied form cannot be submitted again
      without new input. */
  lemma CreatedFormCannotResubmit(f: Form, first: Dialogs.Outcome, second: Dialogs.Outcome)
    requires SubmitCreate(f, first).call.Some? && first.Succeeded?
    ensures SubmitCreate(SubmitCreate(f, first).form, second).call.None?
  {
  }
}
