/** The controller logic the list screens share: loading the list through
    a service, confirming and deleting an entry, and opening the edit dialog
    for one entry. */
module Screens {
  import opened Base
  import Services

  /** An effect of a screen handler, in order: a service call or an alert. */
  datatype Effect = Call(call: Services.Call) | Alert(message: string)

  /** A list screen's state: the entries shown, the loading flag, and the
      edit dialog with the entry it edits. */
  datatype ListScreen<E> = ListScreen(items: seq<E>, loading: bool, selectedId: Option<int>, editOpen: bool)

  /** A list load (`loadClients`, `loadProfessionals`): a successful fetch
      replaces the entries, a failure is only logged; loading is over either
      way. */
  function LoadList<E>(s: ListScreen<E>, reply: Result<seq<E>>): (r: ListScreen<E>)
    ensures !r.loading
    ensures reply.Ok? ==> r.items == reply.value
    ensures reply.Err? ==> r.items == s.items
    ensures r.selectedId == s.selectedId && r.editOpen == s.editOpen
  {
    match reply
    case Ok(items) => s.(items := items, loading := false)
    case Err(_) => s.(loading := false)
  }

  /** `handleEdit(id)`: remember the entry and open its edit dialog. */
  function HandleEdit<E>(s: ListScreen<E>, id: int): (r: ListScreen<E>)
    ensures r.selectedId == Some(id) && r.editOpen
    ensures r.items == s.items && r.loading == s.loading
  {
    s.(selectedId := Some(id), editOpen := true)
  }

  /** `handleDelete(id)`: nothing unless the user confirms; then the delete
      call; then, only if it succeeded, the reload (whose own failures never
      reach this handler); otherwise an alert. */
  function HandleDelete(resource: Services.Resource, id: int, confirmed: bool, deleted: bool,
                        reload: Services.Call, failure: string): (effects: seq<Effect>)
    ensures !confirmed ==> effects == []
    ensures confirmed ==> |effects| == 2 && effects[0] == Call(Services.Remove(resource, id))
    ensures confirmed && deleted ==> effects[1] == Call(reload)
    ensures confirmed && !deleted ==> effects[1] == Alert(failure)
  {
    if !confirmed then []
    else
      var remove := Call(Services.Remove(resource, id));
      if deleted then [remove, Call(reload)] else [remove, Alert(failure)]
  }

  /** The delete controller's order: the list is reloaded exactly when the
      delete was confirmed and succeeded, and then only after the delete
      call; an alert appears exactly when a confirmed delete failed. */
  lemma DeleteOrder(resource: Services.Resource, id: int, confirmed: bool, deleted: bool,
                    reload: Services.Call, failure: string)
    requires !reload.Remove?
    ensures var effects := HandleDelete(resource, id, confirmed, deleted, reload, failure);
      && (Call(reload) in effects <==> confirmed && deleted)
      && (Alert(failure) in effects <==> confirmed && !deleted)
      && (Call(Services.Remove(resource, id)) in effects <==> confirmed)
      && (forall i, j ::
            (0 <= i < |effects| && 0 <= j < |effects| && effects[i] == Call(reload)
             && effects[j] == Call(Services.Remove(resource, id))) ==> j < i)
  {
  }
}
