/** The clients screen (`/clientes`): loading the list with the search
    term, deleting a client, and opening the edit dialog. */
module ClientsScreen {
  import opened Base
  import Services
  import Screens

  const DeleteFailed: string := "Erro ao deletar cliente"

  type Screen = Screens.ListScreen<Services.Client>

  /** The screen as first rendered: no clients, loading, no dialog. */
  const Initial: Screen := Screens.ListScreen([], true, None, false)

  /** The call `loadClients` makes: the client list, filtered by the search
      term only when one was typed. */
  function LoadCall(searchTerm: string): (c: Services.Call)
    ensures c == Services.ListClients(Some(searchTerm))
    ensures Services.Build(c).path == "/clients" && Services.Build(c).verb == Get
    ensures Services.Build(c).params == if searchTerm == "" then map[] else map["term" := searchTerm]
  {
    Services.ListClients(Some(searchTerm))
  }

  /** `loadClients()`: the list call, then the fetched clients replace the
      shown ones, or a failure is only logged; either way loading ends. */
  function LoadClients(s: Screen, searchTerm: string, reply: Result<seq<Services.Client>>): (r: (Screen, Services.Call))
    ensures r.1 == LoadCall(searchTerm)
    ensures !r.0.loading
    ensures reply.Ok? ==> r.0.items == reply.value
    ensures reply.Err? ==> r.0.items == s.items
    ensures r.0.selectedId == s.selectedId && r.0.editOpen == s.editOpen
  {
    (Screens.LoadList(s, reply), LoadCall(searchTerm))
  }

  /** `handleDelete(id)`: confirm, delete, then reload with the current
      search term; a failed delete alerts instead of reloading. */
  function HandleDelete(id: int, confirmed: bool, deleted: bool, searchTerm: string): (effects: seq<Screens.Effect>)
    ensures !confirmed ==> effects == []
    ensures confirmed ==> |effects| == 2 && effects[0] == Screens.Call(Services.Remove(Services.Clients, id))
    ensures Screens.Call(Services.Remove(Services.Clients, id)) in effects <==> confirmed
    ensures Screens.Call(LoadCall(searchTerm)) in effects <==> confirmed && deleted
    ensures Screens.Alert("Erro ao deletar cliente") in effects <==> confirmed && !deleted
  {
    Screens.DeleteOrder(Services.Clients, id, confirmed, deleted, LoadCall(searchTerm), DeleteFailed);
    Screens.HandleDelete(Services.Clients, id, confirmed, deleted, LoadCall(searchTerm), DeleteFailed)
  }

  /** The first load leaves the screen showing the fetched clients with
      loading over, and asks for every client of the tenant with no search
      filter. */
  lemma FirstLoad(clients: seq<Services.Client>)
    ensures var (s, c) := LoadClients(Initial, "", Ok(clients));
      && s == Screens.ListScreen(clients, false, None, false)
      && Services.Build(c).params == map[]
      && Services.Build(c).headers == map["company_id" := "2"]
  {
  }

  /** The reload after a successful delete is the same call as the screen's
      own load with the same search term. */
  lemma DeleteReloadsLikeLoad(s: Screen, id: int, searchTerm: string, reply: Result<seq<Services.Client>>)
    ensures HandleDelete(id, true, true, searchTerm)[1] == Screens.Call(LoadClients(s, searchTerm, reply).1)
  {
  }
}
