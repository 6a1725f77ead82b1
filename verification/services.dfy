/** The three resource services (professionals, clients, products). Each
    call is the HTTP request it makes through the shared HTTP client: a
    path, the fixed tenant header, query parameters and a JSON body. The
    client itself is not modelled; a call's reply is an input of whoever
    awaits it. */
module Services {
  import opened Base

  /** The tenant every service call is made for. */
  const CompanyId: string := "2"

  /** The product-category filter value that stands for "no filter". */
  const AllCategories: string := "Todos"

  /** A JSON scalar as the dialogs send it. */
  datatype Json = JStr(s: string) | JNum(n: real) | JBool(b: bool)

  type JsonObject = map<string, Json>

  /** The entities as the services return them; optional members may be
      absent. */
  datatype Professional = Professional(id: int, name: string, email: string, position: string, phoneNumber: Option<string>)

  datatype Client = Client(id: int, name: string, phone: string, address: string, document: Option<string>, email: string)

  datatype Product = Product(id: int, name: string, price: real, category: string, notes: Option<string>, size: Option<bool>)

  datatype Request = Request(
    verb: Method,
    path: string,
    headers: map<string, string>,
    params: map<string, string>,
    body: Option<JsonObject>)

  datatype Resource = Professionals | Clients | Products

  function Collection(r: Resource): string {
    match r
    case Professionals => "/professionals"
    case Clients => "/clients"
    case Products => "/products"
  }

  /** The path of one entity, `${collection}/${id}`. */
  function EntityPath(r: Resource, id: int): string {
    Collection(r) + "/" + IntToString(id)
  }

  /** Every service call the screens and dialogs make. */
  datatype Call =
    | ListProfessionals(term: Option<string>)
    | ListClients(term: Option<string>)
    | ListProducts(term: Option<string>, category: Option<string>)
    | GetById(resource: Resource, id: int)
    | GetCategories
    | GetClientByDocument(document: string)
    | GetClientByPhone(phone: string)
    | Create(resource: Resource, data: JsonObject)
    | Update(resource: Resource, id: int, data: JsonObject)
    | Remove(resource: Resource, id: int)

  /** `term ? { term } : {}` */
  function TermParams(term: Option<string>): (p: map<string, string>)
    ensures "term" in p <==> Truthy(term)
    ensures "term" in p ==> p["term"] == term.value
    ensures p.Keys <= {"term"}
  {
    if Truthy(term) then map["term" := term.value] else map[]
  }

  /** The product list's parameters: the term when truthy, and the category
      when truthy and not the all-categories value. */
  function ProductParams(term: Option<string>, category: Option<string>): (p: map<string, string>)
    ensures "term" in p <==> Truthy(term)
    ensures "term" in p ==> p["term"] == term.value
    ensures "category" in p <==> Truthy(category) && category.value != "Todos"
    ensures "category" in p ==> p["category"] == category.value
    ensures p.Keys <= {"term", "category"}
  {
    var withTerm := TermParams(term);
    if Truthy(category) && category.value != AllCategories then withTerm["category" := category.value] else withTerm
  }

  /** The request a call makes. */
  function Build(c: Call): (r: Request)
    ensures r.headers == map["company_id" := "2"]
    ensures r.body.Some? <==> c.Create? || c.Update?
    ensures r.body.Some? ==> r.body.value == c.data
    ensures r.params != map[] ==> c.ListProfessionals? || c.ListClients? || c.ListProducts?
    ensures r.verb == Get <==> !(c.Create? || c.Update? || c.Remove?)
    ensures r.verb == Post <==> c.Create?
    ensures r.verb == Put <==> c.Update?
    ensures r.verb == Delete <==> c.Remove?
    ensures c.GetById? || c.Update? || c.Remove? ==> r.path == EntityPath(c.resource, c.id)
    ensures c.Create? ==> r.path == Collection(c.resource)
  {
    var tenant := map["company_id" := CompanyId];
    match c
    case ListProfessionals(term) => Request(Get, Collection(Professionals), tenant, TermParams(term), None)
    case ListClients(term) => Request(Get, Collection(Clients), tenant, TermParams(term), None)
    case ListProducts(term, category) => Request(Get, Collection(Products), tenant, ProductParams(term, category), None)
    case GetById(res, id) => Request(Get, EntityPath(res, id), tenant, map[], None)
    case GetCategories => Request(Get, "/products/categories", tenant, map[], None)
    case GetClientByDocument(document) => Request(Get, "/clients/document/" + document, tenant, map[], None)
    case GetClientByPhone(phone) => Request(Get, "/clients/phone/" + phone, tenant, map[], None)
    case Create(res, data) => Request(Post, Collection(res), tenant, map[], Some(data))
    case Update(res, id, data) => Request(Put, EntityPath(res, id), tenant, map[], Some(data))
    case Remove(res, id) => Request(Delete, EntityPath(res, id), tenant, map[], None)
  }

  /** An update reply's `data`: the object-valued members it carries, and the
      data itself read as the entity. */
  datatype UpdateData<E> = UpdateData(members: map<string, E>, whole: E)

  /** The member under which each service's update reply wraps the entity. */
  function WrapperKey(r: Resource): string {
    match r
    case Professionals => "user"
    case Clients => "client"
    case Products => "product"
  }

  /** `update(...)`'s result: `data[key] || data`. */
  function Unwrap<E>(r: Resource, d: UpdateData<E>): (e: E)
    ensures WrapperKey(r) in d.members ==> e == d.members[WrapperKey(r)]
    ensures WrapperKey(r) !in d.members ==> e == d.whole
  {
    var key := WrapperKey(r);
    if key in d.members then d.members[key] else d.whole
  }

  /** A reply that wraps the entity under the service's key yields the
      wrapped entity, and a reply that wraps nothing is the entity itself;
      a professional wrapped as `client` is not recognised. */
  lemma UnwrapCases<E>(r: Resource, e: E, whole: E)
    ensures Unwrap(r, UpdateData(map[WrapperKey(r) := e], whole)) == e
    ensures Unwrap(r, UpdateData(map[], whole)) == whole
    ensures Unwrap(Professionals, UpdateData(map["client" := e], whole)) == whole
  {
  }

  // ---------------------------------------------------------------------
  // Paths
  // ---------------------------------------------------------------------

  /** Two entities of one resource share a path only when they are the same
      entity. */
  lemma EntityPathInjective(r: Resource, a: int, b: int)
    ensures EntityPath(r, a) == EntityPath(r, b) ==> a == b
  {
    var prefix := Collection(r) + "/";
    if EntityPath(r, a) == EntityPath(r, b) {
      assert EntityPath(r, a)[|prefix|..] == IntToString(a);
      assert EntityPath(r, b)[|prefix|..] == IntToString(b);
      IntToStringInjective(a, b);
    }
  }

  /** The character right after `${collection}/` in an entity path is a
      digit or a minus sign. */
  lemma EntityPathSegmentStart(r: Resource, id: int)
    ensures |EntityPath(r, id)| > |Collection(r)| + 1
    ensures var c := EntityPath(r, id)[|Collection(r)| + 1]; IsDigit(c) || c == '-'
  {
    IntToStringAlphabet(id);
    assert EntityPath(r, id)[|Collection(r)| + 1] == IntToString(id)[0];
  }

  /** The categories path, the client lookups by document and by phone,
      and the entity paths never collide, whatever the id, document or phone. */
  lemma LookupPathsDistinct(id: int, document: string, phone: string)
    ensures Build(GetCategories).path != EntityPath(Products, id)
    ensures Build(GetClientByDocument(document)).path != EntityPath(Clients, id)
    ensures Build(GetClientByPhone(phone)).path != EntityPath(Clients, id)
    ensures Build(GetClientByDocument(document)).path != Build(GetClientByPhone(phone)).path
  {
    EntityPathSegmentStart(Products, id);
    EntityPathSegmentStart(Clients, id);
    assert Build(GetCategories).path[10] == 'c';
    assert Build(GetClientByDocument(document)).path[9] == 'd';
    assert Build(GetClientByPhone(phone)).path[9] == 'p';
  }

  /** Every call, whatever its kind, is made for the fixed tenant, and only
      list calls carry query parameters. */
  lemma EveryCallCarriesTenant(c: Call)
    ensures Build(c).headers["company_id"] == "2"
    ensures Build(c).headers.Keys == {"company_id"}
  {
  }

  /** The product list with the all-categories value, or with no category,
      asks for the same thing as with no filter at all. */
  lemma AllCategoriesIsNoFilter(term: Option<string>)
    ensures Build(ListProducts(term, Some("Todos"))) == Build(ListProducts(term, None))
    ensures Build(ListProducts(term, Some(""))) == Build(ListProducts(term, None))
  {
  }
}
