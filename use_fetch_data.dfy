/** `useFetchData` (src/hooks/useFetchData.ts): a query keyed by the URL
    and the params, whose query function GETs the URL with the params'
    query string and basic auth, returns `data` on a 200 envelope and
    throws otherwise. */
module FetchHook {
  import opened Text
  import opened QueryString
  import opened HttpClient
  import opened HookKit

  const FetchFallback: string := "Failed to fetch data"

  /** `params = {}`: an absent argument is the empty object. */
  function ParamsOrDefault(params: Option<Params>): (p: Params)
    ensures params.None? ==> Pairs(p) == []
    ensures params.Some? ==> p == params.value
  {
    if params.Some? then params.value else Record([])
  }

  /** `{ url: url + buildQueryString(params), auth: BASIC_AUTH_CREDENTIALS }` */
  function FetchRequest(url: string, params: Params): Config
  {
    Config(None, url + BuildQueryString(params), Falsy, map[], true)
  }

  /** The request goes to `url` followed by a query string that reads back
      as exactly the params' pairs, and to `url` itself when there are none;
      it carries basic auth and no body. */
  lemma FetchRequestUrl(url: string, params: Params)
    ensures var c := FetchRequest(url, params);
      && |url| <= |c.url| && c.url[..|url|] == url
      && ParseQuery(c.url[|url|..]) == Some(Pairs(params))
      && (Pairs(params) == [] <==> c.url == url)
      && c.basicAuth && c.data == Falsy
  {
    var c := FetchRequest(url, params);
    assert c.url[|url|..] == BuildQueryString(params);
    QueryRoundTrip(params);
    QueryShape(params);
  }

  /** The query function's result for what `instance.get` settled to. */
  function FetchOutcome(settled: Settled): (o: Outcome)
    ensures settled.Rejected? ==> o == Thrown(PassedOn(settled.reason))
    ensures o.Returned? <==> settled.Resolved? && StatusOf(settled.value) == Some(200)
    ensures o.Returned? ==> o.data == settled.value.value.data
    ensures settled.Resolved? && !o.Returned? ==>
      o == Thrown(NewError(OrElse(MessageOf(settled.value), FetchFallback), None))
  {
    match settled
    case Rejected(reason) => Thrown(PassedOn(reason))
    case Resolved(v) =>
      if StatusOf(v) == Some(200) then Returned(v.value.data)
      else Thrown(NewError(OrElse(MessageOf(v), FetchFallback), None))
  }

  /** The `queryFn` closure run on the client. */
  method QueryFn(instance: Instance, url: string, params: Params, server: Config -> Reply, tokenKey: string)
    returns (o: Outcome)
    modifies instance.browser
    ensures o == FetchOutcome(Dispatch(instance.token, WithMethod(FetchRequest(url, params), GET), server))
    ensures (instance.browser.localStorage, instance.browser.cookies) == BrowserAfter(Dispatch(instance.token, WithMethod(FetchRequest(url, params), GET), server), old(instance.browser.localStorage), old(instance.browser.cookies))
  {
    var settled := instance.Get(FetchRequest(url, params), server, tokenKey);
    match settled {
      case Rejected(reason) =>
        o := Thrown(PassedOn(reason));
      case Resolved(response) =>
        if StatusOf(response) == Some(200) {
          o := Returned(response.value.data);
        } else {
          o := Thrown(NewError(OrElse(MessageOf(response), FetchFallback), None));
        }
    }
  }

  /** The query function returns data exactly when the backend delivered a
      success envelope with status 200; a 201 success envelope, which the
      client lets through, still makes the query fail. */
  lemma FetchReturnsOnlyOk(token: string, config: Config, server: Config -> Reply)
    ensures var o := FetchOutcome(Dispatch(token, config, server));
      o.Returned? <==>
        exists e :: server(Sent(token, config)) == Delivered(Some(e)) && e.statusCode == Some(200) && e.error == Some(false) && o.data == e.data
    ensures forall e :: server(Sent(token, config)) == Delivered(Some(e)) && IsSuccess(e) && e.statusCode == Some(201) ==>
      FetchOutcome(Dispatch(token, config, server)) == Thrown(NewError(OrElse(e.message, FetchFallback), None))
  {
    DispatchShape(token, config, server);
    var o := FetchOutcome(Dispatch(token, config, server));
    if o.Returned? {
      var e := Dispatch(token, config, server).value.value;
      assert server(Sent(token, config)) == Delivered(Some(e));
    }
  }

  // ---------------------------------------------------------------------
  // The options handed to `useQuery`.

  /** A value in the `useQuery` options. */
  datatype QuerySetting =
    | QueryKey(url: string, params: Params)
    | OwnQueryFn
    | Count(n: int)
    | Flag(b: bool)
    | Passed(option: string)

  /** The hook's own query options: `{ queryKey: [url, params], queryFn,
      retry: 1, refetchOnWindowFocus: false, enabled, staleTime: 0 }`, with
      `enabled = true` by default. */
  function OwnQueryOptions(url: string, params: Params, enabled: Option<bool>): map<string, QuerySetting>
  {
    map[
      "queryKey" := QueryKey(url, params),
      "queryFn" := OwnQueryFn,
      "retry" := Count(1),
      "refetchOnWindowFocus" := Flag(false),
      "enabled" := Flag(if enabled.Some? then enabled.value else true),
      "staleTime" := Count(0)]
  }

  /** The caller's `queryOptions`, `{}` when absent. */
  function Given(queryOptions: Option<map<string, string>>): map<string, QuerySetting>
  {
    var given := if queryOptions.Some? then queryOptions.value else map[];
    map k | k in given :: Passed(given[k])
  }

  /** `{ ...own, ...queryOptions }` */
  function QueryOptions(url: string, params: Params, queryOptions: Option<map<string, string>>, enabled: Option<bool>): map<string, QuerySetting>
  {
    Spread(OwnQueryOptions(url, params, enabled), Given(queryOptions))
  }

  /** Every option the caller passes wins; every other one is the hook's:
      one retry, no refetch on focus, always stale, enabled unless the
      caller says otherwise, and a cache entry per URL and params. */
  lemma QueryOptionsDefaults(url: string, params: Params, queryOptions: Option<map<string, string>>, enabled: Option<bool>)
    ensures var r := QueryOptions(url, params, queryOptions, enabled);
      var given := if queryOptions.Some? then queryOptions.value else map[];
      && (forall k :: k in given ==> k in r && r[k] == Passed(given[k]))
      && ("queryKey" !in given ==> r["queryKey"] == QueryKey(url, params))
      && ("queryFn" !in given ==> r["queryFn"] == OwnQueryFn)
      && ("retry" !in given ==> r["retry"] == Count(1))
      && ("refetchOnWindowFocus" !in given ==> r["refetchOnWindowFocus"] == Flag(false))
      && ("staleTime" !in given ==> r["staleTime"] == Count(0))
      && ("enabled" !in given ==> r["enabled"] == Flag(enabled != Some(false)))
  {
    var own := OwnQueryOptions(url, params, enabled);
    assert "queryKey" in own && "queryFn" in own && "retry" in own;
    assert "refetchOnWindowFocus" in own && "staleTime" in own && "enabled" in own;
  }

}
