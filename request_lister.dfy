/** RequestLister: the /requests collection. `get` stands for ApiClient::get. */
module RequestLister {
  import opened Wrappers
  import opened PhpValues
  import opened QueryParams
  import opened Api
  import Listing

  const Endpoint := "/requests"

  /** all($filters, $perPage, $page) */
  function All(get: Transport, filters: Entries, perPage: int, page: int): (r: Result<Value, Error>)
    ensures r == get(Endpoint, Query(filters, perPage, page))
  {
    get(Endpoint, Query(filters, perPage, page))
  }

  /** find($id): the record, or null on any exception */
  function Find(get: Transport, id: string): (r: Value)
    ensures get("/requests/" + id, NoParams).Failure? ==> r == Null
    ensures get("/requests/" + id, NoParams).Success? ==> r == get("/requests/" + id, NoParams).value
  {
    Listing.OrNull(get("/requests/" + id, NoParams))
  }

  /** byStatus($status, $perPage): only filter[status]; '' sends no filter at all */
  function ByStatus(get: Transport, status: string, perPage: int): (r: Result<Value, Error>)
    ensures r == All(get, [("status", Str(status))], perPage, 1)
    ensures status != "" ==> r == get(Endpoint, Paging(perPage, 1, [("status", Str(status))]))
    ensures status == "" ==> r == get(Endpoint, Paging(perPage, 1, []))
  {
    SingleFilter("status", Str(status), perPage, 1);
    All(get, [("status", Str(status))], perPage, 1)
  }

  /** byProcess($processId, $perPage): only filter[process_id] */
  function ByProcess(get: Transport, processId: Value, perPage: int): (r: Result<Value, Error>)
    ensures r == All(get, [("process_id", processId)], perPage, 1)
    ensures r == get(Endpoint, Paging(perPage, 1, Only("process_id", processId)))
  {
    SingleFilter("process_id", processId, perPage, 1);
    All(get, [("process_id", processId)], perPage, 1)
  }

  /** byUser($userId, $perPage): only filter[user_id] */
  function ByUser(get: Transport, userId: Value, perPage: int): (r: Result<Value, Error>)
    ensures r == All(get, [("user_id", userId)], perPage, 1)
    ensures r == get(Endpoint, Paging(perPage, 1, Only("user_id", userId)))
  {
    SingleFilter("user_id", userId, perPage, 1);
    All(get, [("user_id", userId)], perPage, 1)
  }

  /** count: the shared count rule on this collection; its fallback request is all(filters, 0) */
  function Count(get: Transport, filters: Entries): (r: Result<int, Error>)
    ensures r == Listing.Count(get, Endpoint, filters)
    ensures All(get, filters, 0, 1) == get(Endpoint, Query(filters, 0, 1))
  {
    Listing.Count(get, Endpoint, filters)
  }
}
