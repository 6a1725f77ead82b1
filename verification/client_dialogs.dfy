/** The create and edit dialogs for clients (customers). */
module ClientDialogs {
  import opened Base
  import Services
  import Dialogs

  /** The dialog form; the document is the one optional field. */
  datatype Form = Form(name: string, phone: string, address: string, document: string, email: string)

  const Empty: Form := Form("", "", "", "", "")

  const CreateFailed: string := "Erro ao criar cliente"
  const UpdateFailed: string := "Erro ao atualizar cliente"
  const LoadFailed: string := "Erro ao carregar dados do cliente"

  /** Name, phone, email and address filled in. */
  predicate Complete(f: Form) {
    f.name != "" && f.phone != "" && f.email != "" && f.address != ""
  }

  /** The body of both calls: the whole form, document included even when
      empty. */
  function Payload(f: Form): Services.JsonObject {
    map["name" := Services.JStr(f.name), "phone" := Services.JStr(f.phone), "address" := Services.JStr(f.address),
        "document" := Services.JStr(f.document), "email" := Services.JStr(f.email)]
  }

  /** The create dialog's `handleSubmit`. */
  function SubmitCreate(f: Form, outcome: Dialogs.Outcome): (r: Dialogs.Submitted<Form>)
    ensures r.call.Some? <==> f.name != "" && f.phone != "" && f.email != "" && f.address != ""
    ensures r.call.None? ==> r == Dialogs.Rejected(f, Dialogs.RequiredFieldsAlert)
    ensures r.call.Some? ==> r.call.value == Services.Create(Services.Clients, Payload(f))
    ensures r.call.Some? && outcome.Succeeded? ==> r.form == Empty && r.effects == [Dialogs.Close, Dialogs.NotifySuccess]
    ensures outcome.Failed? ==> r.form == f
    ensures Dialogs.ClosesOnlyOnSuccess(r, outcome)
  {
    if !Complete(f) then Dialogs.Rejected(f, Dialogs.RequiredFieldsAlert)
    else Dialogs.AfterCall(f, Empty, Services.Create(Services.Clients, Payload(f)), outcome, CreateFailed)
  }

  /** The edit dialog's `handleSubmit`. */
  function SubmitEdit(id: Option<int>, f: Form, outcome: Dialogs.Outcome): (r: Dialogs.Submitted<Form>)
    ensures !Dialogs.IdGiven(id) ==> r == Dialogs.Submitted(f, None, [])
    ensures r.call.Some? <==> Dialogs.IdGiven(id) && f.name != "" && f.phone != "" && f.email != "" && f.address != ""
    ensures Dialogs.IdGiven(id) && r.call.None? ==> r == Dialogs.Rejected(f, Dialogs.RequiredFieldsAlert)
    ensures r.call.Some? ==> r.call.value == Services.Update(Services.Clients, id.value, Payload(f))
    ensures r.form == f
    ensures Dialogs.ClosesOnlyOnSuccess(r, outcome)
  {
    if !Dialogs.IdGiven(id) then Dialogs.Submitted(f, None, [])
    else if !Complete(f) then Dialogs.Rejected(f, Dialogs.RequiredFieldsAlert)
    else Dialogs.AfterCall(f, f, Services.Update(Services.Clients, id.value, Payload(f)), outcome, UpdateFailed)
  }

  /** The form filled from a fetched client: a missing document becomes
      empty, every other field is copied. */
  function FormOf(c: Services.Client): (f: Form)
    ensures f.document == (if c.document.Some? then c.document.value else "")
    ensures f.name == c.name && f.phone == c.phone && f.address == c.address && f.email == c.email
  {
    Form(c.name, c.phone, c.address, if Truthy(c.document) then c.document.value else "", c.email)
  }

  /** `loadClientData`, run when the dialog opens with an id. */
  function Load(open: bool, id: Option<int>, f: Form, reply: Result<Services.Client>): (r: Dialogs.Loaded<Form>)
    ensures r.call.Some? <==> open && Dialogs.IdGiven(id)
    ensures r.call.Some? ==> r.call.value == Services.GetById(Services.Clients, id.value)
    ensures r.call.Some? && reply.Ok? ==> r.form == FormOf(reply.value) && r.effects == []
    ensures r.call.Some? && reply.Err? ==> r.form == f && r.effects == [Dialogs.Alert("Erro ao carregar dados do cliente"), Dialogs.Close]
    ensures r.call.None? ==> r.form == f && r.effects == []
  {
    Dialogs.LoadInto(open, Services.Clients, id, f, reply, FormOf, LoadFailed)
  }

  /** Saving a freshly loaded, complete client unchanged sends back exactly
      its own fields, with an empty document when it had none. */
  lemma LoadThenSaveRoundTrip(c: Services.Client, id: int, outcome: Dialogs.Outcome)
    requires id != 0 && c.name != "" && c.phone != "" && c.email != "" && c.address != ""
    ensures var r := SubmitEdit(Some(id), Load(true, Some(id), Empty, Ok(c)).form, outcome);
      && r.call == Some(Services.Update(Services.Clients, id, Payload(FormOf(c))))
      && Payload(FormOf(c))["document"] == Services.JStr(if c.document.Some? then c.document.value else "")
      && Payload(FormOf(c))["phone"] == Services.JStr(c.phone)
  {
    assert Load(true, Some(id), Empty, Ok(c)).form == FormOf(c);
  }

  /** After a successful create the emptied form cannot be submitted again
      without new input. */
  lemma CreatedFormCannotResubmit(f: Form, first: Dialogs.Outcome, second: Dialogs.Outcome)
    requires SubmitCreate(f, first).call.Some? && first.Succeeded?
    ensures SubmitCreate(SubmitCreate(f, first).form, second).call.None?
  {
  }
}
