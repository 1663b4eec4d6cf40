/** `LuoguSaverClient`: how each accessor shapes its request (URL and
    headers) and reads the parsed response body. The transport is not part
    of the model: each accessor takes the body the transport returns as an
    argument and returns the request it issues together with its result. */
module Client {
  import opened Wrappers
  import opened JsValue
  import opened UriEncoding
  import opened SearchParams

  const UserAgentHeader: string := "User-Agent"
  const DefaultUserAgent: string := "Uptime-Kuma"

  const ArticleQueryPrefix: string := "/article/query/"
  const ArticleRelevantPrefix: string := "/article/relevant/"
  const ArticleHistoryPrefix: string := "/article/history/"
  const TaskQueryPrefix: string := "/task/query/"
  const ArticleRecentPath: string := "/article/recent"
  const ArticleCountPath: string := "/article/count"
  const TaskCreatePath: string := "/task/create"

  /* ---------------- configuration ---------------- */

  /** The plugin configuration; `None` is an option left unset. */
  datatype Config = Config(endpoint: Option<string>, userAgent: Option<string>)

  /** `v || fallback` on an optional string: the empty string is falsy too. */
  function OrDefault(v: Option<string>, fallback: string): (r: string)
    ensures v.Some? && v.value != "" ==> r == v.value
    ensures v.None? || v.value == "" ==> r == fallback
  {
    if v.Some? && v.value != "" then v.value else fallback
  }

  function EndpointOption(config: Option<Config>): Option<string> {
    if config.Some? then config.value.endpoint else None
  }

  function UserAgentOption(config: Option<Config>): Option<string> {
    if config.Some? then config.value.userAgent else None
  }

  /** `config.endpoint || ''`, with an omitted configuration read as `{}`. */
  function ConfiguredEndpoint(config: Option<Config>): (endpoint: string)
    ensures EndpointOption(config).Some? && EndpointOption(config).value != "" ==> endpoint == EndpointOption(config).value
    ensures EndpointOption(config).None? || EndpointOption(config).value == "" ==> endpoint == ""
  {
    OrDefault(EndpointOption(config), "")
  }

  /** `config.userAgent || 'Uptime-Kuma'`: never empty. */
  function ConfiguredUserAgent(config: Option<Config>): (ua: string)
    ensures ua != ""
    ensures UserAgentOption(config).Some? && UserAgentOption(config).value != "" ==> ua == UserAgentOption(config).value
    ensures UserAgentOption(config).None? || UserAgentOption(config).value == "" ==> ua == DefaultUserAgent
  {
    OrDefault(UserAgentOption(config), DefaultUserAgent)
  }

  /** The defaults are a fixed point: configuring with the resolved values
      again stores the same values. */
  lemma ConfigDefaultsStable(config: Option<Config>)
    ensures var resolved := Some(Config(Some(ConfiguredEndpoint(config)), Some(ConfiguredUserAgent(config))));
            ConfiguredEndpoint(resolved) == ConfiguredEndpoint(config)
            && ConfiguredUserAgent(resolved) == ConfiguredUserAgent(config)
  {
  }

  /* ---------------- URLs ---------------- */

  predicate EndsWithSlash(s: string) {
    |s| > 0 && s[|s| - 1] == '/'
  }

  predicate StartsWithSlash(s: string) {
    |s| > 0 && s[0] == '/'
  }

  /** `endpoint.replace(/\/$/, '')`: removes one trailing slash, no more. */
  function StripTrailingSlash(endpoint: string): (base: string)
    ensures EndsWithSlash(endpoint) ==> endpoint == base + "/"
    ensures !EndsWithSlash(endpoint) ==> endpoint == base
  {
    if EndsWithSlash(endpoint) then endpoint[..|endpoint| - 1] else endpoint
  }

  /** `buildUrl(path)`. With no base the path is returned as it is;
      otherwise base and path are joined by exactly one slash of their own,
      and the URL always ends with the path. */
  function BuildUrl(endpoint: string, path: string): (url: string)
    ensures StripTrailingSlash(endpoint) == "" ==> url == path
    ensures StripTrailingSlash(endpoint) != "" && StartsWithSlash(path) ==>
              url == StripTrailingSlash(endpoint) + "/" + path[1..]
    ensures StripTrailingSlash(endpoint) != "" && !StartsWithSlash(path) ==>
              url == StripTrailingSlash(endpoint) + "/" + path
    ensures |url| >= |path| && url[|url| - |path|..] == path
  {
    var base := StripTrailingSlash(endpoint);
    if base == "" then path
    else if StartsWithSlash(path) then
      assert base + path == base + "/" + path[1..];
      base + path
    else base + "/" + path
  }

  /** An endpoint of "" or "/" leaves every path relative. */
  lemma BuildUrlWithoutBase(endpoint: string, path: string)
    requires endpoint == "" || endpoint == "/"
    ensures BuildUrl(endpoint, path) == path
  {
  }

  /** Only one trailing slash is removed: a doubled slash keeps one. */
  lemma BuildUrlExamples()
    ensures BuildUrl("http://x/", "/a") == "http://x/a"
    ensures BuildUrl("http://x", "a") == "http://x/a"
    ensures BuildUrl("http://x//", "/a") == "http://x//a"
  {
  }

  /** A path of the form `prefix + encodeURIComponent(id)`: the id stays one
      path segment (no `/`, `?` or `#` after the prefix), and an id made of
      unreserved characters appears verbatim. */
  function IdPath(prefix: string, id: string): (path: string)
    ensures |path| >= |prefix| && path[..|prefix|] == prefix
    ensures forall i :: |prefix| <= i < |path| ==> path[i] != '/' && path[i] != '?' && path[i] != '#'
    ensures (forall i :: 0 <= i < |id| ==> IsUriUnreserved(id[i])) ==> path == prefix + id
  {
    var encoded := EncodeUriComponent(id);
    assert forall i :: |prefix| <= i < |prefix + encoded| ==> (prefix + encoded)[i] == encoded[i - |prefix|];
    prefix + encoded
  }

  /* ---------------- headers ---------------- */

  /** `Object.assign({'User-Agent': ua}, extra || {})`: a union in which the
      extra headers win. */
  function Headers(userAgent: string, extra: Option<map<string, string>>): (h: map<string, string>)
    ensures extra.None? ==> h == map[UserAgentHeader := userAgent]
    ensures extra.Some? ==> h.Keys == {UserAgentHeader} + extra.value.Keys
    ensures extra.Some? ==> forall k :: k in extra.value ==> h[k] == extra.value[k]
    ensures extra.None? || UserAgentHeader !in extra.value ==> h[UserAgentHeader] == userAgent
  {
    map[UserAgentHeader := userAgent] + (if extra.Some? then extra.value else map[])
  }

  /* ---------------- getRecent's query ---------------- */

  /** The options of `getRecent`; `None` is a property that is null or absent. */
  datatype RecentOptions = RecentOptions(count: Option<int>, updatedAfter: Option<string>, truncatedCount: Option<int>)

  /** `opts?.count`, `opts?.updated_after`, `opts?.truncated_count`. */
  function CountOf(opts: Option<RecentOptions>): Option<int> {
    if opts.Some? then opts.value.count else None
  }

  function UpdatedAfterOf(opts: Option<RecentOptions>): Option<string> {
    if opts.Some? then opts.value.updatedAfter else None
  }

  function TruncatedCountOf(opts: Option<RecentOptions>): Option<int> {
    if opts.Some? then opts.value.truncatedCount else None
  }

  /** The position of each query parameter in the order `getRecent` sets them. */
  function QueryRank(name: string): int {
    if name == "count" then 0 else if name == "updated_after" then 1 else 2
  }

  /** The pairs `getRecent` sets: `count` and `truncated_count` whenever they
      are not null (0 included), `updated_after` only when it is a non-empty
      string, each at most once and in the order count, updated_after,
      truncated_count. */
  function RecentParams(opts: Option<RecentOptions>): (ps: seq<Pair>)
    ensures Lookup(ps, "count") == (if CountOf(opts).Some? then Some(IntToString(CountOf(opts).value)) else None)
    ensures Lookup(ps, "updated_after") == (if UpdatedAfterOf(opts).Some? && UpdatedAfterOf(opts).value != "" then UpdatedAfterOf(opts) else None)
    ensures Lookup(ps, "truncated_count") == (if TruncatedCountOf(opts).Some? then Some(IntToString(TruncatedCountOf(opts).value)) else None)
    ensures forall i :: 0 <= i < |ps| ==> ps[i].0 == "count" || ps[i].0 == "updated_after" || ps[i].0 == "truncated_count"
    ensures forall i, j :: 0 <= i < j < |ps| ==> QueryRank(ps[i].0) < QueryRank(ps[j].0)
  {
    var c := if CountOf(opts).Some? then [("count", IntToString(CountOf(opts).value))] else [];
    var u := if UpdatedAfterOf(opts).Some? && UpdatedAfterOf(opts).value != "" then [("updated_after", UpdatedAfterOf(opts).value)] else [];
    var t := if TruncatedCountOf(opts).Some? then [("truncated_count", IntToString(TruncatedCountOf(opts).value))] else [];
    LookupConcat(c + u, t, "count");
    LookupConcat(c, u, "count");
    LookupConcat(c + u, t, "updated_after");
    LookupConcat(c, u, "updated_after");
    LookupConcat(c + u, t, "truncated_count");
    LookupConcat(c, u, "truncated_count");
    c + u + t
  }

  /** The path `getRecent` requests. */
  function RecentPath(opts: Option<RecentOptions>): (path: string)
    ensures |path| >= |ArticleRecentPath| && path[..|ArticleRecentPath|] == ArticleRecentPath
    ensures (path == ArticleRecentPath) <==> (RecentParams(opts) == [])
  {
    var query := Serialize(RecentParams(opts));
    ArticleRecentPath + (if query != "" then "?" + query else "")
  }

  /** Some option is set that `getRecent` turns into a query parameter. */
  predicate HasQuery(opts: Option<RecentOptions>) {
    CountOf(opts).Some? || (UpdatedAfterOf(opts).Some? && UpdatedAfterOf(opts).value != "") || TruncatedCountOf(opts).Some?
  }

  /** `getRecent` sets no parameter exactly when no option calls for one. */
  lemma RecentParamsEmpty(opts: Option<RecentOptions>)
    ensures (RecentParams(opts) == []) <==> !HasQuery(opts)
  {
  }

  /** The path carries a `?` exactly when at least one option is set. */
  lemma RecentPathQueryMarker(opts: Option<RecentOptions>)
    ensures ('?' in RecentPath(opts)) <==> HasQuery(opts)
  {
  }

  /** Without options, or with only an empty `updated_after`, the path is bare. */
  lemma RecentPathWithoutOptions()
    ensures RecentPath(None) == ArticleRecentPath
    ensures RecentPath(Some(RecentOptions(None, None, None))) == ArticleRecentPath
    ensures RecentPath(Some(RecentOptions(None, Some(""), None))) == ArticleRecentPath
  {
  }

  /** A count alone, zero included, gives `?count=` and its decimal form. */
  lemma RecentPathCountOnly(n: int)
    ensures RecentPath(Some(RecentOptions(Some(n), None, None))) == ArticleRecentPath + "?count=" + IntToString(n)
  {
    var value := IntToString(n);
    FormEncodeIntToString(n);
    RecentPathSingleCount(Some(RecentOptions(Some(n), None, None)), value);
  }

  lemma RecentPathSingleCount(opts: Option<RecentOptions>, value: string)
    requires RecentParams(opts) == [("count", value)]
    requires FormEncode(value) == value
    ensures RecentPath(opts) == ArticleRecentPath + "?count=" + value
  {
    FormEncodeCount();
    SerializeSingle("count", value);
    assert "?" + ("count" + "=" + value) == "?count=" + value;
  }

  /** The parameter name `count` needs no form encoding. */
  lemma FormEncodeCount()
    ensures FormEncode("count") == "count"
  {
    var name := "count";
    assert forall i :: 0 <= i < |name| ==> IsFormSafe(name[i]);
  }

  /* ---------------- reading the response ---------------- */

  /** The envelope reports success: its `code` is the number 200. */
  predicate Succeeded(res: Value) {
    Field(res, "code") == Num(200)
  }

  /** `if (res.code !== 200) return null; return res.data` (getArticle, getTask):
      the payload on code 200, null on any other code, and a TypeError when
      the body itself is null or undefined. */
  function CheckedData(res: Value): (r: Outcome<Value>)
    ensures r.ThrewTypeError? <==> IsNullish(res)
    ensures !IsNullish(res) && Succeeded(res) ==> r == Returned(Field(res, "data"))
    ensures !IsNullish(res) && !Succeeded(res) ==> r == Returned(Null)
  {
    match Member(res, "code")
    case ThrewTypeError => ThrewTypeError
    case Returned(code) => if code != Num(200) then Returned(Null) else Member(res, "data")
  }

  /** `if (res.code !== 200) return null; return res.data.taskId` (createTask):
      the task id on code 200, null on any other code; it throws when the
      body, or on success its payload, is null or undefined. */
  function CreatedTaskId(res: Value): (r: Outcome<Value>)
    ensures r.ThrewTypeError? <==> IsNullish(res) || (Succeeded(res) && IsNullish(Field(res, "data")))
    ensures !IsNullish(res) && !Succeeded(res) ==> r == Returned(Null)
    ensures r.Returned? && Succeeded(res) ==> r.value == Field(Field(res, "data"), "taskId")
  {
    match Member(res, "code")
    case ThrewTypeError => ThrewTypeError
    case Returned(code) =>
      if code != Num(200) then Returned(Null)
      else
        match Member(res, "data")
        case ThrewTypeError => ThrewTypeError
        case Returned(data) => Member(data, "taskId")
  }

  /** `res?.data?.data ?? null` (getRecent, getCount, getRelevant, getHistory):
      the nested payload when both levels are present and not null, and null
      otherwise. Never undefined, never a TypeError. */
  function NestedData(res: Value): (r: Value)
    ensures r != Undefined
    ensures (r != Null) <==> !IsNullish(Field(Field(res, "data"), "data"))
    ensures r != Null ==> res.Obj? && "data" in res.fields && r == res.fields["data"].fields["data"]
  {
    Coalesce(OptionalMember(OptionalMember(res, "data"), "data"), Null)
  }

  /** The nested accessors never read `code`: the same body with any other
      code gives the same result, while the checked accessors answer null
      for every code but 200. */
  lemma CodeIsIgnoredByNestedData(fields: map<string, Value>, code: Value)
    ensures NestedData(Obj(fields["code" := code])) == NestedData(Obj(fields))
    ensures code != Num(200) ==> CheckedData(Obj(fields["code" := code])) == Returned(Null)
    ensures code != Num(200) ==> CreatedTaskId(Obj(fields["code" := code])) == Returned(Null)
  {
  }

  /* ---------------- the client ---------------- */

  /** The body of `createTask`: a save task, or an AI-processing task. */
  datatype TaskCreate =
    | Save(target: string, targetId: string, saveMetadata: Option<map<string, Value>>)
    | AiProcess(target: string, metadata: map<string, Value>)

  /** A request as the transport receives it. */
  datatype Request =
    | Get(url: string, headers: map<string, string>)
    | Post(url: string, body: TaskCreate, headers: map<string, string>)

  class LuoguSaverClient {
    var endpoint: string
    var userAgent: string

    /** A falsy endpoint is stored as ""; the user agent is kept as given. */
    constructor (endpoint: Option<string>, userAgent: string)
      ensures this.endpoint == OrDefault(endpoint, "")
      ensures this.userAgent == userAgent
    {
      this.endpoint := OrDefault(endpoint, "");
      this.userAgent := userAgent;
    }

    method GetArticle(id: string, extraHeaders: Option<map<string, string>>, response: Value)
      returns (request: Request, result: Outcome<Value>)
      ensures request == Get(BuildUrl(endpoint, IdPath(ArticleQueryPrefix, id)), Headers(userAgent, extraHeaders))
      ensures result == CheckedData(response)
    {
      var url := BuildUrl(endpoint, IdPath(ArticleQueryPrefix, id));
      request := Get(url, Headers(userAgent, extraHeaders));
      result := CheckedData(response);
    }

    /** The query string of `getRecent`, built on a fresh `URLSearchParams`
        with one `set` per option that is present. */
    static method RecentQuery(opts: Option<RecentOptions>) returns (query: string)
      ensures query == Serialize(RecentParams(opts))
    {
      var params := new UrlSearchParams();
      ghost var c := if CountOf(opts).Some? then [("count", IntToString(CountOf(opts).value))] else [];
      ghost var u := if UpdatedAfterOf(opts).Some? && UpdatedAfterOf(opts).value != "" then [("updated_after", UpdatedAfterOf(opts).value)] else [];
      ghost var t := if TruncatedCountOf(opts).Some? then [("truncated_count", IntToString(TruncatedCountOf(opts).value))] else [];
      assert RecentParams(opts) == c + u + t;
      if CountOf(opts).Some? {
        params.Set("count", IntToString(CountOf(opts).value));
      }
      assert params.entries == c;
      if UpdatedAfterOf(opts).Some? && UpdatedAfterOf(opts).value != "" {
        params.Set("updated_after", UpdatedAfterOf(opts).value);
      }
      assert params.entries == c + u;
      OccurrencesConcat(c, u, "truncated_count");
      if TruncatedCountOf(opts).Some? {
        params.Set("truncated_count", IntToString(TruncatedCountOf(opts).value));
      }
      assert params.entries == c + u + t;
      query := params.ToString();
    }

    method GetRecent(opts: Option<RecentOptions>, extraHeaders: Option<map<string, string>>, response: Value)
      returns (request: Request, result: Value)
      ensures request == Get(BuildUrl(endpoint, RecentPath(opts)), Headers(userAgent, extraHeaders))
      ensures result == NestedData(response)
    {
      var query := RecentQuery(opts);
      var path := ArticleRecentPath + (if query != "" then "?" + query else "");
      request := Get(BuildUrl(endpoint, path), Headers(userAgent, extraHeaders));
      result := NestedData(response);
    }

    method GetCount(extraHeaders: Option<map<string, string>>, response: Value)
      returns (request: Request, result: Value)
      ensures request == Get(BuildUrl(endpoint, ArticleCountPath), Headers(userAgent, extraHeaders))
      ensures result == NestedData(response)
    {
      request := Get(BuildUrl(endpoint, ArticleCountPath), Headers(userAgent, extraHeaders));
      result := NestedData(response);
    }

    method GetRelevant(id: string, extraHeaders: Option<map<string, string>>, response: Value)
      returns (request: Request, result: Value)
      ensures request == Get(BuildUrl(endpoint, IdPath(ArticleRelevantPrefix, id)), Headers(userAgent, extraHeaders))
      ensures result == NestedData(response)
    {
      request := Get(BuildUrl(endpoint, IdPath(ArticleRelevantPrefix, id)), Headers(userAgent, extraHeaders));
      result := NestedData(response);
    }

    method GetHistory(id: string, extraHeaders: Option<map<string, string>>, response: Value)
      returns (request: Request, result: Value)
      ensures request == Get(BuildUrl(endpoint, IdPath(ArticleHistoryPrefix, id)), Headers(userAgent, extraHeaders))
      ensures result == NestedData(response)
    {
      request := Get(BuildUrl(endpoint, IdPath(ArticleHistoryPrefix, id)), Headers(userAgent, extraHeaders));
      result := NestedData(response);
    }

    method CreateTask(body: TaskCreate, extraHeaders: Option<map<string, string>>, response: Value)
      returns (request: Request, result: Outcome<Value>)
      ensures request == Post(BuildUrl(endpoint, TaskCreatePath), body, Headers(userAgent, extraHeaders))
      ensures result == CreatedTaskId(response)
    {
      request := Post(BuildUrl(endpoint, TaskCreatePath), body, Headers(userAgent, extraHeaders));
      result := CreatedTaskId(response);
    }

    method GetTask(id: string, extraHeaders: Option<map<string, string>>, response: Value)
      returns (request: Request, result: Outcome<Value>)
      ensures request == Get(BuildUrl(endpoint, IdPath(TaskQueryPrefix, id)), Headers(userAgent, extraHeaders))
      ensures result == CheckedData(response)
    {
      request := Get(BuildUrl(endpoint, IdPath(TaskQueryPrefix, id)), Headers(userAgent, extraHeaders));
      result := CheckedData(response);
    }
  }

  /** `apply`: resolves the configuration defaults and creates the client. */
  method Apply(config: Option<Config>) returns (client: LuoguSaverClient)
    ensures fresh(client)
    ensures client.endpoint == ConfiguredEndpoint(config)
    ensures client.userAgent == ConfiguredUserAgent(config)
  {
    var endpoint := ConfiguredEndpoint(config);
    var userAgent := ConfiguredUserAgent(config);
    client := new LuoguSaverClient(Some(endpoint), userAgent);
  }
}
