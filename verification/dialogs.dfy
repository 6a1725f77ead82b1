/** What the create and edit dialogs share: the effects a submission has
    besides changing the form, the alert shown when a service call fails,
    and the rule that a dialog closes and notifies its parent only after
    its call succeeded. */
module Dialogs {
  import opened Base
  import Services

  const RequiredFieldsAlert: string := "Por favor, preencha todos os campos obrigatórios"

  /** `alert(message)`, `onOpenChange(false)` and `onSuccess()`, in the order
      they happen. */
  datatype Effect = Alert(message: string) | Close | NotifySuccess

  /** How an awaited service call settled, as the dialog's `catch` sees it:
      the HTTP response body of a failure may carry a `message`. */
  datatype Outcome = Succeeded | Failed(responseMessage: Option<string>)

  /** `error.response?.data?.message || fallback` */
  function FailureAlert(responseMessage: Option<string>, fallback: string): (m: string)
    ensures Truthy(responseMessage) ==> m == responseMessage.value
    ensures !Truthy(responseMessage) ==> m == fallback
    ensures fallback != "" ==> m != ""
  {
    if Truthy(responseMessage) then responseMessage.value else fallback
  }

  /** `!id` is false: an id was given and it is not zero. */
  predicate IdGiven(id: Option<int>) {
    id.Some? && id.value != 0
  }

  /** A submission: the form afterwards, the service call made (if any) and
      the effects in order. */
  datatype Submitted<F> = Submitted(form: F, call: Option<Services.Call>, effects: seq<Effect>)

  /** A submission stopped by a local check: an alert and nothing else. */
  function Rejected<F>(form: F, message: string): (r: Submitted<F>)
    ensures r.call.None? && r.form == form && r.effects == [Alert(message)]
  {
    Submitted(form, None, [Alert(message)])
  }

  /** A submission whose call was made: on success the form becomes `after`
      (the empty form for a create, the same form for an edit), then the
      dialog closes and notifies; on failure the form is kept and the
      failure is alerted. */
  function AfterCall<F>(form: F, after: F, call: Services.Call, outcome: Outcome, fallback: string): (r: Submitted<F>)
    ensures r.call == Some(call)
    ensures outcome.Succeeded? ==> r.form == after && r.effects == [Close, NotifySuccess]
    ensures outcome.Failed? ==> r.form == form && r.effects == [Alert(FailureAlert(outcome.responseMessage, fallback))]
  {
    match outcome
    case Succeeded => Submitted(after, Some(call), [Close, NotifySuccess])
    case Failed(m) => Submitted(form, Some(call), [Alert(FailureAlert(m, fallback))])
  }

  /** The dialog closes exactly when it notifies its parent, which is
      exactly when a call was made and succeeded. */
  predicate ClosesOnlyOnSuccess<F>(r: Submitted<F>, outcome: Outcome) {
    && (Close in r.effects <==> r.call.Some? && outcome.Succeeded?)
    && (NotifySuccess in r.effects <==> r.call.Some? && outcome.Succeeded?)
  }

  lemma AfterCallClosesOnlyOnSuccess<F>(form: F, after: F, call: Services.Call, outcome: Outcome, fallback: string)
    ensures ClosesOnlyOnSuccess(AfterCall(form, after, call, outcome, fallback), outcome)
  {
  }

  /** Loading an entity into an edit dialog: the form afterwards, the fetch
      made (if any) and the effects. */
  datatype Loaded<F> = Loaded(form: F, call: Option<Services.Call>, effects: seq<Effect>)

  /** The edit dialogs' load effect, common to all three: nothing happens
      unless the dialog is open with an id; a fetched entity replaces the
      form; a failed fetch alerts and closes the dialog, keeping the form. */
  function LoadInto<E, F>(open: bool, resource: Services.Resource, id: Option<int>, form: F,
                          reply: Result<E>, formOf: E -> F, failure: string): (r: Loaded<F>)
    ensures r.call.Some? <==> open && IdGiven(id)
    ensures r.call.Some? ==> r.call.value == Services.GetById(resource, id.value)
    ensures r.call.None? ==> r.form == form && r.effects == []
    ensures r.call.Some? && reply.Ok? ==> r.form == formOf(reply.value) && r.effects == []
    ensures r.call.Some? && reply.Err? ==> r.form == form && r.effects == [Alert(failure), Close]
  {
    if !(open && IdGiven(id)) then Loaded(form, None, [])
    else
      var call := Services.GetById(resource, id.value);
      match reply
      case Ok(e) => Loaded(formOf(e), Some(call), [])
      case Err(_) => Loaded(form, Some(call), [Alert(failure), Close])
  }
}
