/**
 * ApiClient: the lazily built HTTP client (getClient) and the get/post calls
 * that unwrap the `data` key of a decoded response body. The environment is a
 * map parameter and the HTTP exchange, including JSON decoding, is a function
 * parameter.
 */
module Api {
  import opened Wrappers
  import opened PhpValues
  import opened QueryParams

  /** Why ApiClient::get or ApiClient::post did not return */
  datatype Error =
    | MissingHost    // RuntimeException from getClient: API_HOST unset or falsy
    | MissingToken   // RuntimeException from getClient: API_TOKEN unset or falsy
    | RequestFailed  // a GuzzleException, rethrown as \Exception('API request failed: ...')

  /** The configured HTTP client: base URI and bearer token */
  datatype HttpClient = HttpClient(baseUri: string, token: string)

  datatype Request =
    | GetRequest(endpoint: string, query: Params)
    | PostRequest(endpoint: string, json: Value)

  /** What the HTTP exchange yields: a Guzzle failure, or the body as json_decode returns it */
  datatype Response = TransportFailure | Decoded(body: Value)

  /** The HTTP library, seen from outside */
  type Http = (HttpClient, Request) -> Response

  /** The process environment */
  type Env = map<string, string>

  /** ApiClient::get with the client state fixed: an endpoint and parameters to a result */
  type Transport = (string, Params) -> Result<Value, Error>

  /** getenv: the variable's text, or false (None) when it is unset */
  function Getenv(env: Env, name: string): Option<string> {
    if name in env then Some(env[name]) else None
  }

  /** PHP's negation of a getenv result: unset, the empty text and "0" count as false */
  predicate Falsy(x: Option<string>) {
    x == None || x == Some("") || x == Some("0")
  }

  /** The checks and the construction getClient performs while no client exists */
  function Configure(host: Option<string>, token: Option<string>): (r: Result<HttpClient, Error>)
    ensures r.Success? <==> !Falsy(host) && !Falsy(token)
    ensures Falsy(host) ==> r == Failure(MissingHost)
    ensures !Falsy(host) && Falsy(token) ==> r == Failure(MissingToken)
    ensures r.Success? ==> r.value == HttpClient(host.value, token.value)
  {
    if Falsy(host) then Failure(MissingHost)
    else if Falsy(token) then Failure(MissingToken)
    else Success(HttpClient(host.value, token.value))
  }

  function InitClient(env: Env): Result<HttpClient, Error> {
    Configure(Getenv(env, "API_HOST"), Getenv(env, "API_TOKEN"))
  }

  /** The client getClient stores when it runs with env, if it gets that far */
  function Built(env: Env): Option<HttpClient> {
    match InitClient(env)
    case Success(c) => Some(c)
    case Failure(_) => None
  }

  /** The data member of a decoded body when it is set and not null, else the whole body */
  function Unwrap(body: Value): (r: Value)
    ensures body.Assoc? && Lookup(body.entries, "data").Some? && Lookup(body.entries, "data").value != Null
            ==> r == Lookup(body.entries, "data").value
    ensures !body.Assoc? || Lookup(body.entries, "data").None? || Lookup(body.entries, "data") == Some(Null)
            ==> r == body
  {
    var data := Field(body, "data");
    if data != Null then data else body
  }

  /** One HTTP exchange with a built client; only Guzzle failures are wrapped */
  function Send(http: Http, client: HttpClient, req: Request): Result<Value, Error> {
    match http(client, req)
    case TransportFailure => Failure(RequestFailed)
    case Decoded(body) => Success(Unwrap(body))
  }

  /** get/post from a given client state: build the client when there is none, then send */
  function Perform(client: Option<HttpClient>, env: Env, http: Http, req: Request): Result<Value, Error> {
    match (if client.Some? then Success(client.value) else InitClient(env))
    case Failure(e) => Failure(e)
    case Success(c) => Send(http, c, req)
  }

  /** ApiClient::get as a function of endpoint and parameters, for one client state */
  function ApiTransport(client: Option<HttpClient>, env: Env, http: Http): Transport {
    (endpoint: string, params: Params) => Perform(client, env, http, GetRequest(endpoint, params))
  }

  /** The static fields of ApiClient, as one object */
  class ApiClient {
    var client: Option<HttpClient>
    var apiToken: Option<string>
    var apiHost: Option<string>

    /** A client exists only when it was built from the host and token stored beside it */
    ghost predicate Valid()
      reads this
    {
      client.Some? ==>
        apiHost.Some? && apiToken.Some? && !Falsy(apiHost) && !Falsy(apiToken)
        && client.value == HttpClient(apiHost.value, apiToken.value)
    }

    /** All three static fields start out null */
    constructor ()
      ensures Valid()
      ensures client == None && apiToken == None && apiHost == None
    {
      client := None;
      apiToken := None;
      apiHost := None;
    }

    /** getClient */
    method GetClient(env: Env) returns (r: Result<HttpClient, Error>)
      requires Valid()
      modifies this
      ensures Valid()
      ensures old(client).Some? ==>
        r == Success(old(client).value) && client == old(client)
        && apiHost == old(apiHost) && apiToken == old(apiToken)
      ensures old(client).None? ==>
        apiToken == Getenv(env, "API_TOKEN") && apiHost == Getenv(env, "API_HOST")
        && r == InitClient(env)
      ensures r.Success? ==> client == Some(r.value)
      ensures r.Success? ==> apiHost.Some? && apiToken.Some? && r.value == HttpClient(apiHost.value, apiToken.value)
      ensures r.Failure? ==> client == None
    {
      if client == None {
        apiToken := Getenv(env, "API_TOKEN");
        apiHost := Getenv(env, "API_HOST");
        if Falsy(apiHost) {
          return Failure(MissingHost);
        }
        if Falsy(apiToken) {
          return Failure(MissingToken);
        }
        client := Some(HttpClient(apiHost.value, apiToken.value));
      }
      r := Success(client.value);
    }

    /** get: the configuration exception passes through unwrapped, a Guzzle one is wrapped */
    method Get(env: Env, http: Http, endpoint: string, params: Params) returns (r: Result<Value, Error>)
      requires Valid()
      modifies this
      ensures Valid()
      ensures r == Perform(old(client), env, http, GetRequest(endpoint, params))
      ensures old(client).Some? ==> client == old(client) && apiHost == old(apiHost) && apiToken == old(apiToken)
      ensures old(client).None? ==> apiHost == Getenv(env, "API_HOST") && apiToken == Getenv(env, "API_TOKEN")
      ensures old(client).None? ==> client == Built(env)
    {
      var c := GetClient(env);
      match c {
        case Failure(e) =>
          r := Failure(e);
        case Success(hc) =>
          r := Send(http, hc, GetRequest(endpoint, params));
      }
    }

    /** post: same shape as get, with the data sent as a JSON payload */
    method Post(env: Env, http: Http, endpoint: string, data: Value) returns (r: Result<Value, Error>)
      requires Valid()
      modifies this
      ensures Valid()
      ensures r == Perform(old(client), env, http, PostRequest(endpoint, data))
      ensures old(client).Some? ==> client == old(client) && apiHost == old(apiHost) && apiToken == old(apiToken)
      ensures old(client).None? ==> apiHost == Getenv(env, "API_HOST") && apiToken == Getenv(env, "API_TOKEN")
      ensures old(client).None? ==> client == Built(env)
    {
      var c := GetClient(env);
      match c {
        case Failure(e) =>
          r := Failure(e);
        case Success(hc) =>
          r := Send(http, hc, PostRequest(endpoint, data));
      }
    }
  }

  /** The client state after one get or post from state `client` under env */
  function After(client: Option<HttpClient>, env: Env): Option<HttpClient> {
    if client.Some? then client else Built(env)
  }

  /**
   * One state per lister call: after a built client the environment is never read
   * again and every later request behaves as it would have from the first state;
   * without one, every request fails with the configuration error, unwrapped.
   */
  lemma OneStatePerCall(client: Option<HttpClient>, env: Env, http: Http)
    ensures After(client, env).Some? ==>
      forall later: Env, req: Request ::
        Perform(After(client, env), later, http, req) == Perform(client, env, http, req)
    ensures After(client, env).None? ==>
      forall req: Request ::
        Perform(client, env, http, req) == Failure(InitClient(env).error)
        && Perform(client, env, http, req).error != RequestFailed
  {
  }

  /**
   * Two getClient calls on a fresh ApiClient: a success is reused whatever the
   * environment says later; a failure leaves nothing behind, so the second call
   * reads the environment afresh.
   */
  method InitOnceThenReuse(env: Env, later: Env) returns (first: Result<HttpClient, Error>, second: Result<HttpClient, Error>)
    ensures first == InitClient(env)
    ensures first.Success? ==> second == first
    ensures first.Failure? ==> second == InitClient(later)
  {
    var api := new ApiClient();
    first := api.GetClient(env);
    second := api.GetClient(later);
  }
}
