/** TaskLister: the /tasks collection. `get` stands for ApiClient::get. */
module TaskLister {
  import opened Wrappers
  import opened PhpValues
  import opened QueryParams
  import opened Api
  import Listing

  const Endpoint := "/tasks"

  /** all($filters, $perPage, $page) */
  function All(get: Transport, filters: Entries, perPage: int, page: int): (r: Result<Value, Error>)
    ensures r == get(Endpoint, Query(filters, perPage, page))
  {
    get(Endpoint, Query(filters, perPage, page))
  }

  /** find($id): the record, or null on any exception */
  function Find(get: Transport, id: string): (r: Value)
    ensures get("/tasks/" + id, NoParams).Failure? ==> r == Null
    ensures get("/tasks/" + id, NoParams).Success? ==> r == get("/tasks/" + id, NoParams).value
  {
    Listing.OrNull(get("/tasks/" + id, NoParams))
  }

  /** active($filters, $perPage): status = 'ACTIVE' whatever the caller's status was */
  function Active(get: Transport, filters: Entries, perPage: int): (r: Result<Value, Error>)
    requires DistinctKeys(filters)
    ensures var sent := Query(Merge(filters, [("status", Str("ACTIVE"))]), perPage, 1);
      r == get(Endpoint, sent) && Overrides(sent, Query(filters, perPage, 1), "status", Str("ACTIVE"))
  {
    MergeOverride(filters, "status", Str("ACTIVE"), perPage, 1);
    All(get, Merge(filters, [("status", Str("ACTIVE"))]), perPage, 1)
  }

  /** completed($filters, $perPage): status = 'COMPLETED' whatever the caller's status was */
  function Completed(get: Transport, filters: Entries, perPage: int): (r: Result<Value, Error>)
    requires DistinctKeys(filters)
    ensures var sent := Query(Merge(filters, [("status", Str("COMPLETED"))]), perPage, 1);
      r == get(Endpoint, sent) && Overrides(sent, Query(filters, perPage, 1), "status", Str("COMPLETED"))
  {
    MergeOverride(filters, "status", Str("COMPLETED"), perPage, 1);
    All(get, Merge(filters, [("status", Str("COMPLETED"))]), perPage, 1)
  }

  /** byUser($userId, $perPage): only filter[user_id] */
  function ByUser(get: Transport, userId: Value, perPage: int): (r: Result<Value, Error>)
    ensures r == All(get, [("user_id", userId)], perPage, 1)
    ensures r == get(Endpoint, Paging(perPage, 1, Only("user_id", userId)))
  {
    SingleFilter("user_id", userId, perPage, 1);
    All(get, [("user_id", userId)], perPage, 1)
  }

  /** byRequest($requestId, $perPage): only filter[process_request_id] */
  function ByRequest(get: Transport, requestId: Value, perPage: int): (r: Result<Value, Error>)
    ensures r == All(get, [("process_request_id", requestId)], perPage, 1)
    ensures r == get(Endpoint, Paging(perPage, 1, Only("process_request_id", requestId)))
  {
    SingleFilter("process_request_id", requestId, perPage, 1);
    All(get, [("process_request_id", requestId)], perPage, 1)
  }

  /** overdue($filters, $perPage): filter[overdue] = true, over any caller value */
  function Overdue(get: Transport, filters: Entries, perPage: int): (r: Result<Value, Error>)
    requires DistinctKeys(filters)
    ensures var sent := Query(Merge(filters, [("overdue", Bool(true))]), perPage, 1);
      r == get(Endpoint, sent) && Overrides(sent, Query(filters, perPage, 1), "overdue", Bool(true))
  {
    MergeOverride(filters, "overdue", Bool(true), perPage, 1);
    All(get, Merge(filters, [("overdue", Bool(true))]), perPage, 1)
  }

  /** count: the shared count rule on this collection; its fallback request is all(filters, 0) */
  function Count(get: Transport, filters: Entries): (r: Result<int, Error>)
    ensures r == Listing.Count(get, Endpoint, filters)
    ensures All(get, filters, 0, 1) == get(Endpoint, Query(filters, 0, 1))
  {
    Listing.Count(get, Endpoint, filters)
  }
}
