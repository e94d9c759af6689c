/** UserLister: the /users collection. `get` stands for ApiClient::get. */
module UserLister {
  import opened Wrappers
  import opened PhpValues
  import opened QueryParams
  import opened Api
  import Listing

  const Endpoint := "/users"

  /** all($filters, $perPage, $page) */
  function All(get: Transport, filters: Entries, perPage: int, page: int): (r: Result<Value, Error>)
    ensures r == get(Endpoint, Query(filters, perPage, page))
  {
    get(Endpoint, Query(filters, perPage, page))
  }

  /** find($id): the record, or null on any exception */
  function Find(get: Transport, id: string): (r: Value)
    ensures get("/users/" + id, NoParams).Failure? ==> r == Null
    ensures get("/users/" + id, NoParams).Success? ==> r == get("/users/" + id, NoParams).value
  {
    Listing.OrNull(get("/users/" + id, NoParams))
  }

  /** byUsername($username): one page of one user filtered by username, then the first of data */
  function ByUsername(get: Transport, username: string): (r: Result<Value, Error>)
    ensures get(Endpoint, Paging(1, 1, Only("username", Str(username)))).Failure? ==>
      r == Failure(get(Endpoint, Paging(1, 1, Only("username", Str(username)))).error)
    ensures get(Endpoint, Paging(1, 1, Only("username", Str(username)))).Success? ==>
      r == Success(Listing.FirstOfData(get(Endpoint, Paging(1, 1, Only("username", Str(username)))).value))
  {
    SingleFilter("username", Str(username), 1, 1);
    match All(get, [("username", Str(username))], 1, 1)
    case Failure(e) => Failure(e)
    case Success(users) => Success(Listing.FirstOfData(users))
  }

  /** byEmail($email): the same rule with key email */
  function ByEmail(get: Transport, email: string): (r: Result<Value, Error>)
    ensures get(Endpoint, Paging(1, 1, Only("email", Str(email)))).Failure? ==>
      r == Failure(get(Endpoint, Paging(1, 1, Only("email", Str(email)))).error)
    ensures get(Endpoint, Paging(1, 1, Only("email", Str(email)))).Success? ==>
      r == Success(Listing.FirstOfData(get(Endpoint, Paging(1, 1, Only("email", Str(email)))).value))
  {
    SingleFilter("email", Str(email), 1, 1);
    match All(get, [("email", Str(email))], 1, 1)
    case Failure(e) => Failure(e)
    case Success(users) => Success(Listing.FirstOfData(users))
  }

  /** active($filters, $perPage): array_merge forces status = 'ACTIVE' over the caller's value */
  function Active(get: Transport, filters: Entries, perPage: int): (r: Result<Value, Error>)
    requires DistinctKeys(filters)
    ensures var sent := Query(Merge(filters, [("status", Str("ACTIVE"))]), perPage, 1);
      r == get(Endpoint, sent) && Overrides(sent, Query(filters, perPage, 1), "status", Str("ACTIVE"))
  {
    MergeOverride(filters, "status", Str("ACTIVE"), perPage, 1);
    All(get, Merge(filters, [("status", Str("ACTIVE"))]), perPage, 1)
  }

  /** byGroup($groupId, $perPage): all(['group_id' => $groupId], $perPage) */
  function ByGroup(get: Transport, groupId: Value, perPage: int): (r: Result<Value, Error>)
    ensures r == All(get, [("group_id", groupId)], perPage, 1)
    ensures r == get(Endpoint, Paging(perPage, 1, Only("group_id", groupId)))
  {
    SingleFilter("group_id", groupId, perPage, 1);
    All(get, [("group_id", groupId)], perPage, 1)
  }

  /** search($search, $perPage): the term goes out as filter[filter]; '' sends no filter at all */
  function Search(get: Transport, search: string, perPage: int): (r: Result<Value, Error>)
    ensures search != "" ==> r == get(Endpoint, Paging(perPage, 1, [("filter", Str(search))]))
    ensures search == "" ==> r == get(Endpoint, Paging(perPage, 1, []))
  {
    SingleFilter("filter", Str(search), perPage, 1);
    All(get, [("filter", Str(search))], perPage, 1)
  }

  /** count: the shared count rule on this collection; its fallback request is all(filters, 0) */
  function Count(get: Transport, filters: Entries): (r: Result<int, Error>)
    ensures r == Listing.Count(get, Endpoint, filters)
    ensures All(get, filters, 0, 1) == get(Endpoint, Query(filters, 0, 1))
  {
    Listing.Count(get, Endpoint, filters)
  }

  // ----- byUsername and byEmail against the API's wrapped responses -----

  /**
   * As written, byUsername looks for `data` inside what ApiClient::get returns,
   * which for a body {"data": [...]} is already the bare list: the user is never found.
   */
  lemma ByUsernameMissesWrappedUser(c: HttpClient, env: Env, http: Http, username: string, users: seq<Value>)
    requires http(c, GetRequest(Endpoint, Query([("username", Str(username))], 1, 1)))
          == Decoded(Assoc([("data", List(users))]))
    ensures ByUsername(ApiTransport(Some(c), env, http), username) == Success(Null)
  {
  }

  lemma ByEmailMissesWrappedUser(c: HttpClient, env: Env, http: Http, email: string, users: seq<Value>)
    requires http(c, GetRequest(Endpoint, Query([("email", Str(email))], 1, 1)))
          == Decoded(Assoc([("data", List(users))]))
    ensures ByEmail(ApiTransport(Some(c), env, http), email) == Success(Null)
  {
  }

  /** byUsername taking the first element of the list ApiClient::get returns */
  function ByUsernameFromList(get: Transport, username: string): Result<Value, Error> {
    match All(get, [("username", Str(username))], 1, 1)
    case Failure(e) => Failure(e)
    case Success(users) => Success(Listing.FirstOfList(users))
  }

  /** byEmail taking the first element of the list ApiClient::get returns */
  function ByEmailFromList(get: Transport, email: string): Result<Value, Error> {
    match All(get, [("email", Str(email))], 1, 1)
    case Failure(e) => Failure(e)
    case Success(users) => Success(Listing.FirstOfList(users))
  }

  /** Corrected, the first user of a wrapped response is found, and an empty list gives null */
  lemma ByUsernameFromListFindsWrappedUser(c: HttpClient, env: Env, http: Http, username: string, users: seq<Value>)
    requires http(c, GetRequest(Endpoint, Query([("username", Str(username))], 1, 1)))
          == Decoded(Assoc([("data", List(users))]))
    ensures ByUsernameFromList(ApiTransport(Some(c), env, http), username)
         == Success(if users == [] then Null else users[0])
  {
  }

  lemma ByEmailFromListFindsWrappedUser(c: HttpClient, env: Env, http: Http, email: string, users: seq<Value>)
    requires http(c, GetRequest(Endpoint, Query([("email", Str(email))], 1, 1)))
          == Decoded(Assoc([("data", List(users))]))
    ensures ByEmailFromList(ApiTransport(Some(c), env, http), email)
         == Success(if users == [] then Null else users[0])
  {
  }
}
