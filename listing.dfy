/**
 * The logic the three listers share: find's catch-all, count's meta.total rule
 * with its fetch-everything fallback, and the first-element rule of
 * byUsername/byEmail. Each lister passes its own endpoint.
 */
module Listing {
  import opened Wrappers
  import opened PhpValues
  import opened QueryParams
  import opened Api

  /** find's catch-all: any failure of the request becomes null, a success passes through */
  function OrNull(r: Result<Value, Error>): (v: Value)
    ensures r.Failure? ==> v == Null
    ensures r.Success? ==> v == r.value
  {
    match r
    case Success(x) => x
    case Failure(_) => Null
  }

  /** The total under meta, cast to an integer, when it is set and not null */
  function MetaTotal(result: Value): Option<int> {
    var total := Field(Field(result, "meta"), "total");
    if total != Null then Some(ToInt(total)) else None
  }

  /** The number of elements of an array response, and 0 for anything else */
  function CountOf(all: Value): nat {
    if IsArray(all) then Size(all) else 0
  }

  /**
   * count against the collection at endpoint: the first request asks for one
   * record; a total it reports is the answer, otherwise a second, unpaginated
   * request is counted. A failure of either request is the result.
   */
  function Count(get: Transport, endpoint: string, filters: Entries): (r: Result<int, Error>)
    ensures var first, all := get(endpoint, Query(filters, 1, 1)), get(endpoint, Query(filters, 0, 1));
      && (first.Failure? ==> r == Failure(first.error))
      && (first.Success? && MetaTotal(first.value).Some? ==> r == Success(MetaTotal(first.value).value))
      && (first.Success? && MetaTotal(first.value).None? && all.Failure? ==> r == Failure(all.error))
      && (first.Success? && MetaTotal(first.value).None? && all.Success? ==> r == Success(CountOf(all.value)))
  {
    match get(endpoint, Query(filters, 1, 1))
    case Failure(e) => Failure(e)
    case Success(result) =>
      match MetaTotal(result)
      case Some(total) => Success(total)
      case None =>
        match get(endpoint, Query(filters, 0, 1))
        case Failure(e) => Failure(e)
        case Success(all) => Success(CountOf(all))
  }

  /**
   * count sends at most two requests: the first one page of one record, the
   * fallback no pagination at all, both with the same filters and ordering;
   * nothing else the transport might answer can change the result.
   */
  lemma CountRequests(get: Transport, other: Transport, endpoint: string, filters: Entries)
    requires other(endpoint, Query(filters, 1, 1)) == get(endpoint, Query(filters, 1, 1))
    requires other(endpoint, Query(filters, 0, 1)) == get(endpoint, Query(filters, 0, 1))
    ensures Count(other, endpoint, filters) == Count(get, endpoint, filters)
    ensures Query(filters, 1, 1).perPage == Some(1) && Query(filters, 1, 1).page == Some(1)
    ensures Query(filters, 0, 1).perPage == None && Query(filters, 0, 1).page == None
    ensures Query(filters, 0, 1).filter == Query(filters, 1, 1).filter
    ensures Query(filters, 0, 1).orderBy == Query(filters, 1, 1).orderBy
    ensures Query(filters, 0, 1).orderDirection == Query(filters, 1, 1).orderDirection
  {
  }

  /** A total given as a JSON integer, or as its decimal text, is read back as that number */
  lemma TotalRead(result: Value, n: int)
    requires Field(Field(result, "meta"), "total") in {Int(n), Str(DecimalText(n))}
    ensures MetaTotal(result) == Some(n)
  {
    DecimalTextRoundTrip(n);
  }

  /** The element at index 0 of the data member when that is a non-empty array, else null */
  function FirstOfData(users: Value): (r: Value)
    ensures !IsArray(Field(users, "data")) ==> r == Null
    ensures Field(users, "data") == List([]) || Field(users, "data") == Assoc([]) ==> r == Null
    ensures Field(users, "data").List? && Field(users, "data").items != [] ==> r == Field(users, "data").items[0]
    ensures Field(users, "data").Assoc? && Field(users, "data").entries != [] ==>
      r == (match Lookup(Field(users, "data").entries, "0") case Some(x) => x case None => Null)
  {
    var data := Field(users, "data");
    if data != Null && IsArray(data) && Size(data) > 0 then ElementZero(data) else Null
  }

  /** find turns a failed configuration into null as it does any other exception */
  lemma FindHidesConfigError(env: Env, http: Http, path: string)
    requires Falsy(Getenv(env, "API_HOST")) || Falsy(Getenv(env, "API_TOKEN"))
    ensures OrNull(ApiTransport(None, env, http)(path, NoParams)) == Null
  {
  }

  // ----- what byUsername/byEmail and count evidently intend -----

  /** The first element of the list that ApiClient::get returns (data already unwrapped), else null */
  function FirstOfList(users: Value): (r: Value)
    ensures users.List? && users.items != [] ==> r == users.items[0]
    ensures !IsArray(users) || users == List([]) || users == Assoc([]) ==> r == Null
  {
    if IsArray(users) && Size(users) > 0 then ElementZero(users) else Null
  }

  /** One GET from a client state, handing back the whole decoded body instead of its data member */
  function PerformWhole(client: Option<HttpClient>, env: Env, http: Http, req: Request): Result<Value, Error> {
    match (if client.Some? then Success(client.value) else InitClient(env))
    case Failure(e) => Failure(e)
    case Success(c) =>
      match http(c, req)
      case TransportFailure => Failure(RequestFailed)
      case Decoded(body) => Success(body)
  }

  /** ApiClient::get, but returning whole bodies */
  function BodyTransport(client: Option<HttpClient>, env: Env, http: Http): Transport {
    (endpoint: string, params: Params) => PerformWhole(client, env, http, GetRequest(endpoint, params))
  }

  /** count with meta.total read from the whole body, and the fallback counted on its data */
  function CountFromBody(fetch: Transport, endpoint: string, filters: Entries): Result<int, Error> {
    match fetch(endpoint, Query(filters, 1, 1))
    case Failure(e) => Failure(e)
    case Success(body) =>
      match MetaTotal(body)
      case Some(total) => Success(total)
      case None =>
        match fetch(endpoint, Query(filters, 0, 1))
        case Failure(e) => Failure(e)
        case Success(all) => Success(CountOf(Unwrap(all)))
  }

  /** A response in the API's own shape: the records under data, the total under meta */
  function Page(items: seq<Value>, total: int): Value {
    Assoc([("data", List(items)), ("meta", Assoc([("total", Int(total))]))])
  }

  /**
   * As written, count never sees meta.total of a response that carries data:
   * ApiClient::get has already replaced the body by its data list, so count
   * falls back and counts whatever list the second request returns.
   */
  lemma CountMissesWrappedTotal(c: HttpClient, env: Env, http: Http, endpoint: string, filters: Entries,
                                items: seq<Value>, total: int)
    requires forall q :: http(c, GetRequest(endpoint, q)) == Decoded(Page(items, total))
    ensures Count(ApiTransport(Some(c), env, http), endpoint, filters) == Success(|items|)
  {
    var body := Page(items, total);
    assert Unwrap(body) == List(items) by {
      assert Lookup(body.entries, "data") == Some(List(items));
    }
  }

  /** Read from the whole body, the total is the one the API reports */
  lemma CountFromBodyReadsTotal(c: HttpClient, env: Env, http: Http, endpoint: string, filters: Entries,
                                items: seq<Value>, total: int)
    requires forall q :: http(c, GetRequest(endpoint, q)) == Decoded(Page(items, total))
    ensures CountFromBody(BodyTransport(Some(c), env, http), endpoint, filters) == Success(total)
  {
    var body := Page(items, total);
    assert http(c, GetRequest(endpoint, Query(filters, 1, 1))) == Decoded(body);
    assert BodyTransport(Some(c), env, http)(endpoint, Query(filters, 1, 1)) == Success(body);
    assert Field(body, "meta") == Assoc([("total", Int(total))]);
    TotalRead(body, total);
  }

  /**
   * Without data in the body the two readings agree: the as-written count and
   * the corrected one return the same result on every response.
   */
  lemma CountFromBodyAgreesOnBareBodies(c: HttpClient, env: Env, http: Http, endpoint: string, filters: Entries)
    requires forall q :: http(c, GetRequest(endpoint, q)).Decoded? ==> Field(http(c, GetRequest(endpoint, q)).body, "data") == Null
    ensures CountFromBody(BodyTransport(Some(c), env, http), endpoint, filters)
         == Count(ApiTransport(Some(c), env, http), endpoint, filters)
  {
    var api := ApiTransport(Some(c), env, http);
    var raw := BodyTransport(Some(c), env, http);
    var q1, q2 := Query(filters, 1, 1), Query(filters, 0, 1);
    var first := http(c, GetRequest(endpoint, q1));
    var rest := http(c, GetRequest(endpoint, q2));
    if first.Decoded? {
      assert Unwrap(first.body) == first.body;
      assert api(endpoint, q1) == raw(endpoint, q1) == Success(first.body);
    } else {
      assert api(endpoint, q1) == raw(endpoint, q1) == Failure(RequestFailed);
    }
    if rest.Decoded? {
      assert Unwrap(rest.body) == rest.body;
      assert api(endpoint, q2) == raw(endpoint, q2) == Success(rest.body);
    } else {
      assert api(endpoint, q2) == raw(endpoint, q2) == Failure(RequestFailed);
    }
  }
}
