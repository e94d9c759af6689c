# ProcessMaker script helpers: API lister core in Dafny

This project models the API-backed core of the ProcessMaker script helpers:

- `ApiClient::buildQueryParams` turns an ordered filter array plus pagination into the query parameters of a GET request.
- `ApiClient::getClient` builds the HTTP client lazily from `API_HOST` and `API_TOKEN` and then reuses it.
- `ApiClient::get` and `ApiClient::post` return `$body['data'] ?? $body`.
- The three listers (`UserLister`, `TaskLister`, `RequestLister`) are fixed compositions of those pieces: `all`, `find`, `count` and their convenience filters.

Layout, one module per file:

- `wrappers.dfy` (`Wrappers`): `Option` and `Result`.
- `php_values.dfy` (`PhpValues`): decoded JSON values and ordered string-keyed PHP arrays. It covers lookup, `$a[$k] = $v`, `array_merge`, `count`, `isset`-style reads and the `(int)` cast.
- `query_params.dfy` (`QueryParams`): `buildQueryParams`. `Query` is the declarative definition. `BuildQueryParams` is the source's `foreach` loop, proved equal to it.
- `api.dfy` (`Api`): the static fields of `ApiClient` as the class `Api.ApiClient`, with `GetClient`, `Get` and `Post`.
  - The environment is a parameter: a map from variable names to text.
  - The HTTP library, including JSON decoding, is a parameter `http`: it maps a client and a request to a Guzzle failure or a decoded body.
  - `ApiTransport(client, env, http)` is `ApiClient::get` for a given client state, written as a function.
- `listing.dfy` (`Listing`): the logic shared by the three listers: find's catch-all, the count rule and the first-of-data rule.
- `user_lister.dfy`, `task_lister.dfy`, `request_lister.dfy`: the three listers.
  - Each lister function takes `get: Transport` (endpoint and parameters to a result). This is `ApiClient::get` seen from one client state.
  - `Api.OneStatePerCall` proves this abstraction is sound. Once a request has succeeded, every later request behaves as it would have from the first state, and the environment is no longer read. If configuration fails, every request fails with that configuration error.

On these points the model follows the code:

- Pagination is omitted for every `perPage <= 0`, not only for 0.
- A body that is not valid JSON is not an error. `json_decode` gives null, and `get` returns null.
- `API_HOST` or `API_TOKEN` set to `"0"` counts as missing, because PHP treats `"0"` as false.
- `byUsername`/`byEmail` read `data` from the value `get` returns. See Findings.

## Model

| member | source | states |
|---|---|---|
| PhpValues.PutLookup | src/ApiClient.php:116 | `$a[$k] = $v` stores v under k and leaves every other key's value unchanged |
| PhpValues.PutInPlace | src/TaskLister.php:49 | writing a key that is already present keeps every key at its position (array_merge of an existing `status`) |
| PhpValues.MergeLookup | src/TaskLister.php:49 | array_merge with string keys: a key has the second array's value when it has one, and the first array's otherwise |
| PhpValues.DecimalTextRoundTrip | src/UserLister.php:125 | the `(int)` cast reads the decimal text of any integer back as that integer |
| QueryParams.BuildQueryParams | src/ApiClient.php:101-121 | the single `foreach` pass, with its in-place writes to `$params['filter']`, returns exactly `Query(filters, perPage, page)` |
| QueryParams.Pagination | src/ApiClient.php:106-109 | per_page and page are sent, with the caller's values, exactly when perPage > 0; negative perPage sends neither |
| QueryParams.OrderKeysVerbatim | src/ApiClient.php:113-114 | order_by and order_direction are copied to the top level verbatim, null and '' included, and never appear under filter |
| QueryParams.ForwardedEntries | src/ApiClient.php:115-116 | an entry is under filter if and only if it is an input entry whose key is not reserved and whose value is neither null nor '' |
| QueryParams.FilterLookup | src/ApiClient.php:115-116 | filter[key] is the caller's value for the key, or absent when the key is reserved, missing, or its value is null or '' (false, 0 and true are kept) |
| QueryParams.ForwardedInOrder | src/ApiClient.php:112-118 | the filter entries appear in input order (a subsequence of the input) and their keys stay distinct |
| QueryParams.QueryKeys | src/ApiClient.php:103-120 | top-level keys are a subset of the five; each order key is present if and only if the input has it; filter is present if and only if some non-reserved value is neither null nor '', so all-empty filters send no filter |
| QueryParams.SingleFilter | src/ApiClient.php:112-117 | a one-key filter array sends exactly that key under filter, or no filter when its value is null or '' |
| QueryParams.MergeOverride | src/UserLister.php:83 | merging {key: v} over the caller's filters forces filter[key] = v and keeps every other filter value, the order keys and the pagination |
| QueryParams.Examples | src/ApiClient.php:101-121 | the mixed example drops `email: ''`, lifts order_by and nests status; false, 0 and true are forwarded; buildQueryParams([], 0, 1) is empty |
| Api.Configure | src/ApiClient.php:28-44 | the host is checked before the token; a missing or falsy value throws for the first one missing; otherwise the client is built from both |
| Api.Unwrap | src/ApiClient.php:66 | the decoded body's data member when it is present and not null; otherwise the whole body |
| Api.ApiClient.constructor | src/ApiClient.php:13-15 | all three static fields start out null |
| Api.ApiClient.GetClient | src/ApiClient.php:22-48 | with a client, returns it and changes nothing. Without one, reads both variables into the fields and checks them; a success stores the new client, a failure leaves the client null. A returned client is always the one built from the stored host and token |
| Api.ApiClient.Get | src/ApiClient.php:58-70 | returns `Perform` of the GET from the old client state. Configuration errors pass through unwrapped; Guzzle failures become RequestFailed; a decoded body is unwrapped. The client field changes only by a first successful init. Host and token are re-read from the environment exactly when there was no client, and kept otherwise |
| Api.ApiClient.Post | src/ApiClient.php:80-91 | the same contract as Get, with the data sent as the JSON payload |
| Api.OneStatePerCall | src/ApiClient.php:24-47 | after a built client, the environment is never consulted and requests behave as from the first state; without one, every request fails with the configuration error, never RequestFailed |
| Api.InitOnceThenReuse | src/ApiClient.php:24-47 | on a fresh object, a successful init is reused whatever the environment says later; a failed init makes the next call read the environment afresh |
| Listing.OrNull | src/TaskLister.php:33-37 | every exception, of any kind, becomes null; a result is passed through |
| Listing.Count | src/RequestLister.php:82-96 | a failed first request propagates; a set meta.total is returned as an int; otherwise the result is the count of the fallback `all(f, 0)` when it is an array, 0 when it is not, and its failure propagates |
| Listing.CountRequests | src/RequestLister.php:85-94 | count depends only on two requests: the first with per_page = 1 and page = 1, the fallback with neither; both carry the same filter and order keys |
| Listing.TotalRead | src/RequestLister.php:89-91 | a meta.total given as a JSON integer or as its decimal text is returned as that number |
| Listing.FirstOfData | src/UserLister.php:50-54 | null unless `data` is a non-empty array; for a non-empty list, its first element; for a non-empty keyed array, the entry under key "0", or null without one |
| Listing.FindHidesConfigError | src/UserLister.php:31-38 | find returns null when API_HOST or API_TOKEN is missing and no client was built yet |
| Listing.FirstOfList | src/UserLister.php:50-54 | corrected rule: the first element of the returned list, null for an empty list or a non-array |
| Listing.CountMissesWrappedTotal | src/UserLister.php:117-131 | as written, when every response is `{"data": items, "meta": {"total": n}}`, count returns the length of items, not n |
| Listing.CountFromBodyReadsTotal | src/UserLister.php:117-131 | corrected count, reading meta from the whole body, returns n for the same responses |
| Listing.CountFromBodyAgreesOnBareBodies | src/UserLister.php:117-131 | when no response carries data, the corrected count equals the count as written |
| UserLister.All | src/UserLister.php:19-23 | the result is `get('/users', buildQueryParams(f, pp, p))` |
| UserLister.Find | src/UserLister.php:31-38 | `get('/users/{id}')` on success, null on any failure |
| UserLister.ByUsername | src/UserLister.php:46-55 | sends exactly per_page = 1, page = 1 and filter[username] (no filter for ''); a failure propagates; otherwise `data[0]` when data is a non-empty list, null when it is not an array or empty |
| UserLister.ByEmail | src/UserLister.php:63-72 | the same rule as ByUsername with key email |
| UserLister.Active | src/UserLister.php:81-84 | sends status = 'ACTIVE' whatever the caller's status was, every other filter value and both order keys unchanged, page 1 |
| UserLister.ByGroup | src/UserLister.php:93-96 | equals `all({group_id: g}, pp, 1)`, which sends only filter[group_id], or no filter when g is null or '' |
| UserLister.Search | src/UserLister.php:105-109 | sends filter[filter] = s; search('') sends no filter key at all |
| UserLister.Count | src/UserLister.php:117-131 | the shared `Listing.Count` rule on `/users`, whose fallback request is exactly `all(f, 0)` |
| UserLister.ByUsernameMissesWrappedUser | src/UserLister.php:46-55 | as written, a response `{"data": users}` yields null, even when users is non-empty |
| UserLister.ByEmailMissesWrappedUser | src/UserLister.php:63-72 | as written, a response `{"data": users}` yields null |
| UserLister.ByUsernameFromListFindsWrappedUser | src/UserLister.php:46-55 | corrected, the same response yields the first user, or null for an empty list |
| UserLister.ByEmailFromListFindsWrappedUser | src/UserLister.php:63-72 | corrected, the same response yields the first user, or null for an empty list |
| TaskLister.All | src/TaskLister.php:19-23 | the result is `get('/tasks', buildQueryParams(f, pp, p))` |
| TaskLister.Find | src/TaskLister.php:31-38 | `get('/tasks/{id}')` on success, null on any failure |
| TaskLister.Active | src/TaskLister.php:47-50 | sends status = 'ACTIVE' over the caller's status, everything else unchanged, page 1 |
| TaskLister.Completed | src/TaskLister.php:59-62 | sends status = 'COMPLETED' over the caller's status, everything else unchanged, page 1 |
| TaskLister.ByUser | src/TaskLister.php:71-74 | sends only filter[user_id] (none when the id is null or ''), page 1 |
| TaskLister.ByRequest | src/TaskLister.php:83-86 | sends only filter[process_request_id] (none when the id is null or ''), page 1 |
| TaskLister.Overdue | src/TaskLister.php:95-100 | always sends filter[overdue] = true, over any caller value, everything else unchanged |
| TaskLister.Count | src/TaskLister.php:108-122 | the shared `Listing.Count` rule on `/tasks`, whose fallback request is exactly the unpaginated `all(f, 0)` |
| RequestLister.All | src/RequestLister.php:19-23 | the result is `get('/requests', buildQueryParams(f, pp, p))` |
| RequestLister.Find | src/RequestLister.php:31-38 | `get('/requests/{id}')` on success, null on any failure |
| RequestLister.ByStatus | src/RequestLister.php:47-50 | equals `all({status: s}, pp, 1)`; sends only filter[status], and byStatus('') sends no filter key |
| RequestLister.ByProcess | src/RequestLister.php:59-62 | sends only filter[process_id] (none when the id is null or ''), page 1 |
| RequestLister.ByUser | src/RequestLister.php:71-74 | sends only filter[user_id] (none when the id is null or ''), page 1 |
| RequestLister.Count | src/RequestLister.php:82-96 | the shared `Listing.Count` rule on `/requests`, whose fallback request is exactly the unpaginated `all(f, 0)` |

## Left out

- Guzzle itself: connection setup, headers, the `Bearer` header text and the `API_SSL_VERIFY` flag. `HttpClient` records only the base URI and the token. The exchange is the `http` parameter.
- JSON decoding and the response stream. `http` hands back the decoded body. A RuntimeException from reading the stream is not modelled.
- The query-string encoding of the parameter array, such as `http_build_query` dropping null values. The parameters are a record, so the top-level key order of the PHP array is not kept. The filter entries keep their order.
- Exception messages and the `previous` chain. Only the kind of error is kept: missing host, missing token, or a failed request.
- Races on the static lazy initialisation. The model is single-threaded.
- The ORM/database backend, which is not part of this model.
- Integer keys in filter arrays. Keys are strings, and `Field` reads only the non-numeric member names the code uses (`data`, `meta`, `total`).
- `find`'s id is taken as text. An integer id is its decimal text.
- PhpValues.ToInt: it does not model floats, exponent or fraction strings (`(int)"1e3"` is 1000 in PHP, 1 here), or saturation at the 64-bit bounds. JSON floats are not in `Value`.
- Default arguments (`$perPage = 10`, `$page = 1`) are passed explicitly.

## Findings

| source | as written | input that shows it | evidently intended | confidence | as-written member | corrected member |
|---|---|---|---|---|---|---|
| src/UserLister.php:46-55 | byUsername tests `$users['data']` on what `all` returns, but `ApiClient::get` has already replaced the body by its `data` list | a response `{"data": [{"username": "alice"}]}` gives null | return the first user of the returned list | not executed; high | UserLister.ByUsernameMissesWrappedUser | UserLister.ByUsernameFromListFindsWrappedUser |
| src/UserLister.php:63-72 | byEmail has the same test on the already unwrapped list | a response `{"data": [{"email": "a@b.c"}]}` gives null | return the first user of the returned list | not executed; high | UserLister.ByEmailMissesWrappedUser | UserLister.ByEmailFromListFindsWrappedUser |
| src/UserLister.php:117-131 | count reads `meta.total` from what `get` returns, which drops `meta` whenever the body has `data`; the same code is in src/TaskLister.php:108-122 and src/RequestLister.php:82-96 | every response `{"data": [{"id": 1}], "meta": {"total": 42}}` gives 1, not 42 | read `meta.total` from the whole decoded body | not executed; medium | Listing.CountMissesWrappedTotal | Listing.CountFromBodyReadsTotal |

The lister functions keep the as-written behaviour. The corrected definitions are `UserLister.ByUsernameFromList`, `UserLister.ByEmailFromList` (both use `Listing.FirstOfList`) and `Listing.CountFromBody` (over `Listing.BodyTransport`, which returns whole bodies). `Listing.CountFromBodyAgreesOnBareBodies` shows the correction changes nothing when a response has no `data`.
