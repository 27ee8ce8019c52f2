/** `applications.service.ts`: the four calls on the applications resource
    and the request each one sends. */
module ApplicationsService {
  import opened Wrappers
  import opened Strings
  import opened ClientTypes
  import opened ApiService

  const CollectionPath: string := "/api/applications"

  /** A call of the service, with the access token it is made with. */
  datatype ServiceCall =
    | GetAll(token: string)
    | Create(data: FormData, token: string)
    | Update(id: int, data: FormData, token: string)
    | Remove(id: int, token: string)

  /** The path of one application: the collection, "/", and the id as
      `${id}` writes it. */
  function ItemPath(id: int): (p: string)
    ensures CollectionPath + "/" <= p
  {
    CollectionPath + "/" + IntToDecimal(id)
  }

  /** The endpoint a call addresses: the collection for `getAll` and
      `create`, one application for `update` and `delete`. No call adds a
      query string. */
  function Endpoint(c: ServiceCall): (p: string)
    ensures p == CollectionPath <==> c.GetAll? || c.Create?
    ensures c.Update? || c.Remove? ==> p == ItemPath(c.id)
  {
    match c
    case GetAll(_) => CollectionPath
    case Create(_, _) => CollectionPath
    case Update(id, _, _) => ItemPath(id)
    case Remove(id, _) => ItemPath(id)
  }

  /** The request a call sends: GET and POST on the collection, PATCH and
      DELETE on the item, the form as body for POST and PATCH only. */
  function ToRequest(env: Option<string>, c: ServiceCall): (r: HttpRequest)
    ensures c.GetAll? ==> r == Get(env, CollectionPath, c.token)
    ensures c.Create? ==> r == Post(env, CollectionPath, c.data, c.token)
    ensures c.Update? ==> r == Patch(env, ItemPath(c.id), c.data, c.token)
    ensures c.Remove? ==> r == Delete(env, ItemPath(c.id), c.token)
  {
    match c
    case GetAll(token) => Get(env, Endpoint(c), token)
    case Create(data, token) => Post(env, Endpoint(c), data, token)
    case Update(_, data, token) => Patch(env, Endpoint(c), data, token)
    case Remove(_, token) => Delete(env, Endpoint(c), token)
  }

  /** Different ids address different applications. */
  lemma ItemPathInjective(a: int, b: int)
    requires ItemPath(a) == ItemPath(b)
    ensures a == b
  {
    var prefix := CollectionPath + "/";
    assert IntToDecimal(a) == ItemPath(a)[|prefix|..];
    assert IntToDecimal(b) == ItemPath(b)[|prefix|..];
    IntToDecimalInjective(a, b);
  }

  /** The collection path is never an item path, and the list request has
      no query string. */
  lemma CollectionIsNotAnItem(id: int)
    ensures ItemPath(id) != CollectionPath
    ensures '?' !in CollectionPath
  {
    assert |ItemPath(id)| > |CollectionPath|;
  }

  /** A call's request carries the call's token as a bearer credential. */
  lemma CallsCarryToken(env: Option<string>, c: ServiceCall)
    requires c.token != ""
    ensures ToRequest(env, c).headers["Authorization"] == "Bearer " + c.token
  {
  }
}
