/** The create and edit dialogs for products. The price input yields a
    number (`parseFloat(value) || 0`), so the form's price is always a
    number and never NaN. */
module ProductDialogs {
  import opened Base
  import Services
  import Dialogs

  datatype Form = Form(name: string, price: real, category: string, notes: string, size: bool)

  const Empty: Form := Form("", 0.0, "", "", false)

  const PriceAlert: string := "O preço deve ser maior que zero"
  const CreateFailed: string := "Erro ao criar produto"
  const UpdateFailed: string := "Erro ao atualizar produto"
  const LoadFailed: string := "Erro ao carregar dados do produto"

  /** The body of both calls: the whole form. */
  function Payload(f: Form): Services.JsonObject {
    map["name" := Services.JStr(f.name), "price" := Services.JNum(f.price), "category" := Services.JStr(f.category),
        "notes" := Services.JStr(f.notes), "size" := Services.JBool(f.size)]
  }

  /** The two local checks, in order: `!name || !price || !category` (a zero
      price counts as missing), then `price <= 0`. */
  function Check(f: Form): (e: Option<string>)
    ensures e.None? <==> f.name != "" && f.category != "" && f.price > 0.0
    ensures f.name == "" || f.category == "" || f.price == 0.0 ==> e == Some("Por favor, preencha todos os campos obrigatórios")
    ensures f.name != "" && f.category != "" && f.price < 0.0 ==> e == Some("O preço deve ser maior que zero")
  {
    if f.name == "" || f.price == 0.0 || f.category == "" then Some(Dialogs.RequiredFieldsAlert)
    else if f.price <= 0.0 then Some(PriceAlert)
    else None
  }

  /** The create dialog's `handleSubmit`. */
  function SubmitCreate(f: Form, outcome: Dialogs.Outcome): (r: Dialogs.Submitted<Form>)
    ensures r.call.Some? <==> f.name != "" && f.category != "" && f.price > 0.0
    ensures r.call.None? ==> r == Dialogs.Rejected(f, Check(f).value)
    ensures r.call.Some? ==> r.call.value == Services.Create(Services.Products, Payload(f))
    ensures r.call.Some? && outcome.Succeeded? ==> r.form == Empty && r.effects == [Dialogs.Close, Dialogs.NotifySuccess]
    ensures outcome.Failed? ==> r.form == f
    ensures Dialogs.ClosesOnlyOnSuccess(r, outcome)
  {
    match Check(f)
    case Some(e) => Dialogs.Rejected(f, e)
    case None => Dialogs.AfterCall(f, Empty, Services.Create(Services.Products, Payload(f)), outcome, CreateFailed)
  }

  /** The edit dialog's `handleSubmit`. Its price check reads
      `price && price <= 0`, which is the create dialog's check once a zero
      price has been rejected. */
  function SubmitEdit(id: Option<int>, f: Form, outcome: Dialogs.Outcome): (r: Dialogs.Submitted<Form>)
    ensures !Dialogs.IdGiven(id) ==> r == Dialogs.Submitted(f, None, [])
    ensures r.call.Some? <==> Dialogs.IdGiven(id) && f.name != "" && f.category != "" && f.price > 0.0
    ensures Dialogs.IdGiven(id) && r.call.None? ==> r == Dialogs.Rejected(f, Check(f).value)
    ensures r.call.Some? ==> r.call.value == Services.Update(Services.Products, id.value, Payload(f))
    ensures r.form == f
    ensures Dialogs.ClosesOnlyOnSuccess(r, outcome)
  {
    if !Dialogs.IdGiven(id) then Dialogs.Submitted(f, None, [])
    else if f.name == "" || f.price == 0.0 || f.category == "" then Dialogs.Rejected(f, Dialogs.RequiredFieldsAlert)
    else if f.price != 0.0 && f.price <= 0.0 then Dialogs.Rejected(f, PriceAlert)
    else Dialogs.AfterCall(f, f, Services.Update(Services.Products, id.value, Payload(f)), outcome, UpdateFailed)
  }

  /** The form filled from a fetched product: missing notes become empty and
      a missing size becomes false. */
  function FormOf(p: Services.Product): (f: Form)
    ensures f.notes == (if p.notes.Some? then p.notes.value else "")
    ensures f.size == (p.size == Some(true))
    ensures f.name == p.name && f.price == p.price && f.category == p.category
  {
    Form(p.name, p.price, p.category,
         if Truthy(p.notes) then p.notes.value else "",
         if p.size.Some? && p.size.value then true else false)
  }

  /** `loadProductData`, run when the dialog opens with an id. */
  function Load(open: bool, id: Option<int>, f: Form, reply: Result<Services.Product>): (r: Dialogs.Loaded<Form>)
    ensures r.call.Some? <==> open && Dialogs.IdGiven(id)
    ensures r.call.Some? ==> r.call.value == Services.GetById(Services.Products, id.value)
    ensures r.call.Some? && reply.Ok? ==> r.form == FormOf(reply.value) && r.effects == []
    ensures r.call.Some? && reply.Err? ==> r.form == f && r.effects == [Dialogs.Alert("Erro ao carregar dados do produto"), Dialogs.Close]
    ensures r.call.None? ==> r.form == f && r.effects == []
  {
    Dialogs.LoadInto(open, Services.Products, id, f, reply, FormOf, LoadFailed)
  }

  /** A zero price is reported as a missing field, never reaching the price
      check; a negative one is reported by the price check. Both dialogs
      agree. */
  lemma PriceRejections(name: string, category: string, notes: string, size: bool, negative: real, id: int, outcome: Dialogs.Outcome)
    requires name != "" && category != "" && negative < 0.0 && id != 0
    ensures SubmitCreate(Form(name, 0.0, category, notes, size), outcome).effects == [Dialogs.Alert("Por favor, preencha todos os campos obrigatórios")]
    ensures SubmitCreate(Form(name, negative, category, notes, size), outcome).effects == [Dialogs.Alert("O preço deve ser maior que zero")]
    ensures SubmitEdit(Some(id), Form(name, negative, category, notes, size), outcome).effects == [Dialogs.Alert("O preço deve ser maior que zero")]
  {
  }

  /** With an id, the edit dialog accepts exactly what the create dialog
      accepts and rejects with the same alert. */
  lemma EditChecksAsCreate(id: int, f: Form, outcome: Dialogs.Outcome)
    requires id != 0
    ensures SubmitEdit(Some(id), f, outcome).call.Some? <==> SubmitCreate(f, outcome).call.Some?
    ensures SubmitCreate(f, outcome).call.None? ==> SubmitEdit(Some(id), f, outcome) == SubmitCreate(f, outcome)
  {
  }

  /** A loaded product with a positive price, a name and a category can be
      saved unchanged. */
  lemma LoadedProductSaves(p: Services.Product, id: int, outcome: Dialogs.Outcome)
    requires id != 0 && p.name != "" && p.category != "" && p.price > 0.0
    ensures var f := Load(true, Some(id), Empty, Ok(p)).form;
      SubmitEdit(Some(id), f, outcome).call == Some(Services.Update(Services.Products, id, Payload(FormOf(p))))
  {
    assert Load(true, Some(id), Empty, Ok(p)).form == FormOf(p);
  }
}
