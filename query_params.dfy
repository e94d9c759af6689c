/**
 * ApiClient::buildQueryParams: filters plus pagination become the parameter
 * array that the HTTP client sends as the query string.
 */
module QueryParams {
  import opened Wrappers
  import opened PhpValues

  /**
   * The parameter array. Its top-level keys can only be per_page, page,
   * order_by, order_direction and filter; `filter` is present exactly when
   * the entry list is non-empty. A present order key may hold null or ''.
   */
  datatype Params = Params(
    perPage: Option<int>,
    page: Option<int>,
    orderBy: Option<Value>,
    orderDirection: Option<Value>,
    filter: Entries)

  /** `[]`, the parameters of a call that passes none */
  const NoParams := Params(None, None, None, None, [])

  /** Keys copied to the top level rather than nested under filter */
  predicate Reserved(key: string) {
    key == "order_by" || key == "order_direction"
  }

  /** Values that mean "no filter": strictly null or the empty string */
  predicate Dropped(v: Value) {
    v == Null || v == Str("")
  }

  /** The entries that end up under `filter`, in input order */
  function Forwarded(filters: Entries): Entries {
    if filters == [] then []
    else
      var last := filters[|filters| - 1];
      var kept := Forwarded(filters[..|filters| - 1]);
      if Reserved(last.0) || Dropped(last.1) then kept else kept + [last]
  }

  /** What buildQueryParams($filters, $perPage, $page) returns */
  function Query(filters: Entries, perPage: int, page: int): Params {
    Params(
      if perPage > 0 then Some(perPage) else None,
      if perPage > 0 then Some(page) else None,
      Lookup(filters, "order_by"),
      Lookup(filters, "order_direction"),
      Forwarded(filters))
  }

  /** The set of top-level keys of the parameter array */
  function TopLevelKeys(p: Params): set<string> {
    (if p.perPage.Some? then {"per_page"} else {})
    + (if p.page.Some? then {"page"} else {})
    + (if p.orderBy.Some? then {"order_by"} else {})
    + (if p.orderDirection.Some? then {"order_direction"} else {})
    + (if p.filter != [] then {"filter"} else {})
  }

  /** The single pass of buildQueryParams, writing into `params` as it goes */
  method BuildQueryParams(filters: Entries, perPage: int, page: int) returns (params: Params)
    requires DistinctKeys(filters)
    ensures params == Query(filters, perPage, page)
  {
    params := NoParams;
    if perPage > 0 {
      params := params.(perPage := Some(perPage), page := Some(page));
    }
    var i := 0;
    while i < |filters|
      invariant 0 <= i <= |filters|
      invariant params == Query(filters[..i], perPage, page)
    {
      var (key, value) := filters[i];
      assert filters[..i + 1][..i] == filters[..i];
      if key == "order_by" {
        params := params.(orderBy := Some(value));
      } else if key == "order_direction" {
        params := params.(orderDirection := Some(value));
      } else if value != Null && value != Str("") {
        ForwardedKeys(filters[..i]);
        NotEarlier(filters, i);
        params := params.(filter := Put(params.filter, key, value));
      }
      i := i + 1;
    }
    assert filters[..|filters|] == filters;
  }

  lemma NotEarlier(filters: Entries, i: nat)
    requires DistinctKeys(filters) && i < |filters|
    ensures filters[i].0 !in KeySet(filters[..i])
  {
    forall j | 0 <= j < i ensures filters[..i][j].0 != filters[i].0 {
      assert filters[..i][j] == filters[j];
    }
  }

  /** Every forwarded entry is an entry of the input that is neither reserved nor dropped, and back */
  lemma {:induction false} ForwardedEntries(filters: Entries)
    ensures forall e :: e in Forwarded(filters) <==> e in filters && !Reserved(e.0) && !Dropped(e.1)
  {
    if filters != [] {
      var n := |filters| - 1;
      ForwardedEntries(filters[..n]);
      assert filters == filters[..n] + [filters[n]];
    }
  }

  lemma ForwardedKeys(filters: Entries)
    ensures KeySet(Forwarded(filters)) <= KeySet(filters)
  {
    ForwardedEntries(filters);
    forall k | k in KeySet(Forwarded(filters)) ensures k in KeySet(filters) {
      var f := Forwarded(filters);
      var i :| 0 <= i < |f| && f[i].0 == k;
      assert f[i] in filters;
      var j :| 0 <= j < |filters| && filters[j] == f[i];
    }
  }

  /** a is a (not necessarily contiguous) subsequence of b */
  ghost predicate Subsequence<T>(a: seq<T>, b: seq<T>)
    decreases |b|
  {
    if a == [] then true
    else if b == [] then false
    else (a[|a| - 1] == b[|b| - 1] && Subsequence(a[..|a| - 1], b[..|b| - 1]))
         || Subsequence(a, b[..|b| - 1])
  }

  /** The filter entries keep the input order and their keys stay distinct */
  lemma {:induction false} ForwardedInOrder(filters: Entries)
    requires DistinctKeys(filters)
    ensures Subsequence(Forwarded(filters), filters)
    ensures DistinctKeys(Forwarded(filters))
  {
    if filters != [] {
      var n := |filters| - 1;
      var last := filters[n];
      var kept := Forwarded(filters[..n]);
      DistinctPrefix(filters);
      ForwardedInOrder(filters[..n]);
      if !(Reserved(last.0) || Dropped(last.1)) {
        var r := kept + [last];
        assert r[..|r| - 1] == kept;
        ForwardedKeys(filters[..n]);
        forall i, j | 0 <= i < j < |r| ensures r[i].0 != r[j].0 {
          assert r[i] == kept[i];
          if j == |kept| {
            assert kept[i].0 in KeySet(kept);
          } else {
            assert r[j] == kept[j];
          }
        }
      }
    }
  }

  /** The value sent as filter[key] is the caller's value, unless the key is reserved or the value dropped */
  lemma {:induction false} FilterLookup(filters: Entries, key: string)
    requires DistinctKeys(filters)
    ensures Lookup(Forwarded(filters), key)
         == if Reserved(key) || Lookup(filters, key).None? || Dropped(Lookup(filters, key).value)
            then None else Lookup(filters, key)
  {
    if filters != [] {
      var n := |filters| - 1;
      var last := filters[n];
      var kept := Forwarded(filters[..n]);
      DistinctPrefix(filters);
      FilterLookup(filters[..n], key);
      if !(Reserved(last.0) || Dropped(last.1)) {
        var r := kept + [last];
        assert r[..|r| - 1] == kept;
      }
      if last.0 == key {
        ForwardedKeys(filters[..n]);
        LookupSpec(kept, key);
        LookupSpec(filters[..n], key);
      }
    }
  }

  /** per_page and page are sent exactly when perPage is positive, with the caller's values */
  lemma Pagination(filters: Entries, perPage: int, page: int)
    ensures perPage > 0 ==>
      Query(filters, perPage, page).perPage == Some(perPage) && Query(filters, perPage, page).page == Some(page)
    ensures perPage <= 0 ==>
      Query(filters, perPage, page).perPage == None && Query(filters, perPage, page).page == None
  {
  }

  /** An order key is copied verbatim, even null or '', and never appears under filter */
  lemma OrderKeysVerbatim(filters: Entries, i: nat, perPage: int, page: int)
    requires DistinctKeys(filters) && i < |filters| && Reserved(filters[i].0)
    ensures filters[i].0 == "order_by" ==> Query(filters, perPage, page).orderBy == Some(filters[i].1)
    ensures filters[i].0 == "order_direction" ==> Query(filters, perPage, page).orderDirection == Some(filters[i].1)
    ensures forall e :: e in Query(filters, perPage, page).filter ==> !Reserved(e.0)
  {
    LookupAt(filters, i);
    ForwardedEntries(filters);
  }

  /** The shape of the array, in terms of the keys PHP would see */
  lemma {:induction false} QueryKeys(filters: Entries, perPage: int, page: int)
    ensures var keys := TopLevelKeys(Query(filters, perPage, page));
      && keys <= {"per_page", "page", "order_by", "order_direction", "filter"}
      && ("per_page" in keys <==> perPage > 0)
      && ("page" in keys <==> perPage > 0)
      && ("order_by" in keys <==> "order_by" in KeySet(filters))
      && ("order_direction" in keys <==> "order_direction" in KeySet(filters))
      && ("filter" in keys <==> exists e :: e in filters && !Reserved(e.0) && !Dropped(e.1))
  {
    LookupSpec(filters, "order_by");
    LookupSpec(filters, "order_direction");
    ForwardedEntries(filters);
    var f := Forwarded(filters);
    if f != [] {
      assert f[0] in f;
    }
  }

  /** Parameters with buildQueryParams' pagination, no order keys and the given filter entries */
  function Paging(perPage: int, page: int, filter: Entries): Params {
    Params(if perPage > 0 then Some(perPage) else None, if perPage > 0 then Some(page) else None, None, None, filter)
  }

  /** The filter entries of one ordinary key: none when the value is null or '' */
  function Only(key: string, v: Value): Entries {
    if Dropped(v) then [] else [(key, v)]
  }

  /** A one-entry filter array under an ordinary key sends exactly that key, or no filter */
  lemma SingleFilter(key: string, v: Value, perPage: int, page: int)
    requires !Reserved(key)
    ensures Query([(key, v)], perPage, page) == Paging(perPage, page, Only(key, v))
  {
    var f := [(key, v)];
    assert f[..0] == [];
    assert Forwarded(f) == if Dropped(v) then [] else [] + [(key, v)];
    assert Lookup(f, "order_by") == Lookup([], "order_by");
    assert Lookup(f, "order_direction") == Lookup([], "order_direction");
  }

  /** sent is base with filter[key] forced to v and every other part left as it was */
  ghost predicate Overrides(sent: Params, base: Params, key: string, v: Value) {
    && Lookup(sent.filter, key) == Some(v)
    && (forall other :: other != key ==> Lookup(sent.filter, other) == Lookup(base.filter, other))
    && sent.perPage == base.perPage && sent.page == base.page
    && sent.orderBy == base.orderBy && sent.orderDirection == base.orderDirection
  }

  /**
   * Merging {key: v} over the caller's filters (array_merge, later keys win) forces
   * filter[key] = v and leaves every other part of the query as it was.
   */
  lemma MergeOverride(filters: Entries, key: string, v: Value, perPage: int, page: int)
    requires DistinctKeys(filters) && !Reserved(key) && !Dropped(v)
    ensures Overrides(Query(Merge(filters, [(key, v)]), perPage, page), Query(filters, perPage, page), key, v)
  {
    var merged := Merge(filters, [(key, v)]);
    var b := [(key, v)];
    assert b[..0] == [] && b[0] == (key, v);
    assert Merge(filters, b) == Put(Merge(filters, b[..0]), key, v);
    assert merged == Put(filters, key, v);
    PutDistinct(filters, key, v);
    FilterLookup(merged, key);
    PutLookup(filters, key, v, key);
    forall other | other != key
      ensures Lookup(Forwarded(merged), other) == Lookup(Forwarded(filters), other)
    {
      FilterLookup(merged, other);
      FilterLookup(filters, other);
      PutLookup(filters, key, v, other);
    }
    PutLookup(filters, key, v, "order_by");
    PutLookup(filters, key, v, "order_direction");
  }

  /** The worked examples: a mixed filter array, and buildQueryParams([], 0, 1) */
  lemma Examples()
    ensures Query([("status", Str("ACTIVE")), ("order_by", Str("created_at")), ("email", Str(""))], 10, 2)
         == Params(Some(10), Some(2), Some(Str("created_at")), None, [("status", Str("ACTIVE"))])
    ensures Query([("done", Bool(false)), ("n", Int(0)), ("flag", Bool(true)), ("x", Null)], 0, 1).filter
         == [("done", Bool(false)), ("n", Int(0)), ("flag", Bool(true))]
    ensures Query([], 0, 1) == NoParams
  {
    var a := ("status", Str("ACTIVE"));
    var b := ("order_by", Str("created_at"));
    var c := ("email", Str(""));
    var f := [a, b, c];
    assert f[..2] == [a, b] && [a, b][..1] == [a] && [a][..0] == [];
    assert Forwarded([a]) == [a];
    assert Forwarded([a, b]) == [a];
    assert Forwarded(f) == [a];
    assert Lookup(f, "order_by") == Some(Str("created_at"));
    assert Lookup([a], "order_direction") == None;
    assert Lookup(f, "order_direction") == None;
    var d := ("done", Bool(false));
    var n := ("n", Int(0));
    var t := ("flag", Bool(true));
    var x := ("x", Null);
    var g := [d, n, t, x];
    assert g[..3] == [d, n, t] && [d, n, t][..2] == [d, n] && [d, n][..1] == [d] && [d][..0] == [];
    assert Forwarded([d]) == [d];
    assert Forwarded([d, n]) == [d, n];
    assert Forwarded([d, n, t]) == [d, n, t];
    assert Forwarded(g) == [d, n, t];
  }
}
