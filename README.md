# luogu-saver-bot: the API client and task-status labels, in Dafny

This project models the deterministic core of the luogu-saver-bot Koishi plugin:

- `LuoguSaverClient`: the client the plugin uses to query a remote content-archival API.
  - How it builds request URLs from its configured endpoint (`buildUrl`).
  - How it merges the default `User-Agent` header with caller-supplied headers (`headers`).
  - How `getRecent` builds its query string with `URLSearchParams`.
  - How each accessor reads the `{code, message, data}` envelope it gets back.
  - How `apply` resolves the configuration defaults.
- `escapeHtml`: the character substitution applied to an article title before it is rendered.
- `statusToString`: the label lookup for the four task states.

The network is not modelled. Each accessor takes the parsed response body as an argument. It returns the request it would send (method, URL, headers, body) together with the value it returns to its caller. A JavaScript `TypeError` thrown while reading the body is part of the result.

Modules, one per concern:

| file | module | models |
|---|---|---|
| wrappers.dfy | `Wrappers` | `Option` and `Outcome` (a value, or a thrown `TypeError`) |
| js_value.dfy | `JsValue` | JavaScript values and the `v.key`, `v?.key` and `a ?? b` forms |
| uri_encoding.dfy | `UriEncoding` | `encodeURIComponent`, form-urlencoding, `String(n)` on integers |
| search_params.dfy | `SearchParams` | `URLSearchParams` as a class over an ordered list of pairs, with `set` and `toString` |
| client.dfy | `Client` | configuration, `buildUrl`, `headers`, paths, envelope reading, the `LuoguSaverClient` class |
| html.dfy | `Html` | `escapeHtml` and the inverse that proves it loses nothing |
| task.dfy | `Task` | the `TaskStatus` enum and `statusToString` |

`LuoguSaverClient` is a class with the two fields the source keeps, `endpoint` and `userAgent`. Its constructor applies the falsy-endpoint rule. Its accessor methods change nothing and are specified by the pure functions beside the class. `URLSearchParams` is a class whose `Set` method updates its list of pairs in place, as `getRecent` uses it.

Two accessor families read the envelope differently:

- `getArticle`, `createTask` and `getTask` check `code` and read `res.data`.
- `getRecent`, `getCount`, `getRelevant` and `getHistory` do not read `code` and read `res.data.data`. `Client.CodeIsIgnoredByNestedData` proves that they ignore `code`.

## Model

| member | source | states |
|---|---|---|
| `Client.ConfiguredEndpoint` | src/index.ts:148 | a missing or empty configured endpoint becomes `""`; a non-empty one is kept verbatim |
| `Client.ConfiguredUserAgent` | src/index.ts:149 | a missing or empty user agent becomes `"Uptime-Kuma"`; a non-empty one is kept verbatim; the result is never empty |
| `Client.ConfigDefaultsStable` | src/index.ts:148-149 | resolving an already-resolved configuration changes nothing |
| `Client.Apply` | src/index.ts:147-150 | `apply` creates a fresh client whose fields are the resolved endpoint and user agent |
| `Client.LuoguSaverClient.constructor` | src/index.ts:73-75 | a falsy endpoint is stored as `""`; the user agent is stored as given |
| `Client.StripTrailingSlash` | src/index.ts:78 | exactly one trailing `/` is removed when present, and nothing otherwise |
| `Client.BuildUrl` | src/index.ts:77-83 | with an empty base the path comes back unchanged; otherwise base and path are joined by exactly one slash contributed by the join; the URL always ends with the path |
| `Client.BuildUrlWithoutBase` | src/index.ts:78-79 | an endpoint of `""` or `"/"` returns every path unchanged |
| `Client.BuildUrlExamples` | src/index.ts:78-82 | `"http://x/"` with `"/a"` gives `"http://x/a"`, and `"http://x//"` keeps one slash |
| `Client.IdPath` | src/index.ts:90 | an encoded id stays one path segment: no `/`, `?` or `#` after the fixed prefix; an id of unreserved characters appears verbatim |
| `Client.Headers` | src/index.ts:85-87 | right-biased union: the keys are `User-Agent` plus the extra keys; every extra header keeps its value; `User-Agent` is the configured value only when the extra headers lack it; no extra headers gives exactly `{User-Agent: ua}` |
| `Client.RecentParams` | src/index.ts:97-100 | `count` and `truncated_count` are present exactly when not null, 0 included; `updated_after` is present exactly when it is a non-empty string; no other names; the order is count, updated_after, truncated_count |
| `Client.RecentParamsEmpty` | src/index.ts:97-101 | the parameter list is empty exactly when no option is set |
| `Client.RecentPath` | src/index.ts:101 | the path starts with `/article/recent`, and it is exactly `/article/recent` when no parameter is set; `Client.RecentPathQueryMarker`, `Client.RecentPathWithoutOptions` and `Client.RecentPathCountOnly` state when `?` appears and what follows it |
| `Client.RecentPathQueryMarker` | src/index.ts:101 | the `getRecent` path contains `?` exactly when at least one option is set |
| `Client.RecentPathWithoutOptions` | src/index.ts:96-101 | with no options, or only an empty `updated_after`, the path is exactly `/article/recent` |
| `Client.RecentPathCountOnly` | src/index.ts:98-101 | a count alone, 0 included, gives `/article/recent?count=` followed by its decimal form |
| `Client.LuoguSaverClient.RecentQuery` | src/index.ts:97-101 | the successive `set` calls on a fresh `URLSearchParams` produce the serialized parameter list of `RecentParams` |
| `Client.CheckedData` | src/index.ts:92-93 | code 200 gives the envelope's `data`; any other code gives null; a null or undefined body throws |
| `Client.CreatedTaskId` | src/index.ts:128-129 | code 200 gives `data.taskId`; any other code gives null; it throws exactly when the body, or on success its `data`, is null or undefined |
| `Client.NestedData` | src/index.ts:104 | the result is never undefined; it is non-null exactly when `data.data` is present and not null, and then it is that value |
| `Client.CodeIsIgnoredByNestedData` | src/index.ts:104-122 | changing `code` never changes the result of the nested accessors, while the code-checked ones give null for every code but 200 |
| `Client.LuoguSaverClient.GetArticle` | src/index.ts:89-94 | GET of the encoded `/article/query/{id}` URL with the merged headers; result as `CheckedData` |
| `Client.LuoguSaverClient.GetRecent` | src/index.ts:96-105 | GET of the `RecentPath` URL with the merged headers; result as `NestedData` |
| `Client.LuoguSaverClient.GetCount` | src/index.ts:107-111 | GET of `/article/count`; result as `NestedData` |
| `Client.LuoguSaverClient.GetRelevant` | src/index.ts:113-117 | GET of the encoded `/article/relevant/{id}` URL; result as `NestedData` |
| `Client.LuoguSaverClient.GetHistory` | src/index.ts:119-123 | GET of the encoded `/article/history/{id}` URL; result as `NestedData` |
| `Client.LuoguSaverClient.CreateTask` | src/index.ts:125-130 | POST of the body to `/task/create`; result as `CreatedTaskId` |
| `Client.LuoguSaverClient.GetTask` | src/index.ts:132-137 | GET of the encoded `/task/query/{id}` URL; result as `CheckedData` |
| `SearchParams.SetEntry` | src/index.ts:98-100 | after `set`, the name maps to the new value and occurs exactly once; other names are unaffected; a new name is appended at the end |
| `SearchParams.LookupConcat` | src/index.ts:98-100 | a lookup in a concatenation finds the first list's pair before the second's |
| `SearchParams.Serialize` | src/index.ts:101 | the query string is empty exactly when there are no pairs, and it never contains `?` |
| `SearchParams.UrlSearchParams.Set` | src/index.ts:98-100 | the object's pairs become `SetEntry` of the old pairs |
| `SearchParams.UrlSearchParams.ToString` | src/index.ts:101 | returns the serialization, which is empty exactly when there are no pairs |
| `UriEncoding.EncodeUriComponent` | src/index.ts:90 | the output holds only unreserved characters, `%` and hex digits; an unreserved input is returned unchanged |
| `UriEncoding.FormEncode` | src/index.ts:101 | the output holds only form-safe characters, `+` and `%`; a form-safe input is returned unchanged |
| `UriEncoding.IntToString` | src/index.ts:98 | `String(n)` is non-empty; it starts with `-` exactly when `n` is negative; all other characters are digits; there is no leading zero unless the number is 0 |
| `UriEncoding.ParseIntToString` | src/index.ts:98 | the integer can be read back from its decimal form |
| `UriEncoding.FormEncodeIntToString` | src/index.ts:100-101 | a rendered integer passes through form-encoding unchanged |
| `Html.EscapeChar` | src/index.ts:203 | each special character becomes an entity starting with `&`; any other character stays; no `<`, `>`, `"` or `'` is produced |
| `Html.EscapeHtml` | src/index.ts:203 | the output contains none of `<`, `>`, `"`, `'`; a string without the five special characters is returned unchanged |
| `Html.EscapeSpecialCharacters` | src/index.ts:203 | `&`, `<`, `>`, `"`, `'` become `&amp;`, `&lt;`, `&gt;`, `&quot;`, `&#39;` |
| `Html.UnescapeEscape` | src/index.ts:203 | decoding the five entities recovers the original string, so escaping loses nothing |
| `Html.EscapeConcat` | src/index.ts:203 | escaping distributes over concatenation: characters are replaced in place and in order |
| `Task.TaskStatus.Value` | src/task.ts:1-6 | the enum assigns 0 to 3 |
| `Task.TaskStatus.Name` | src/task.ts:1-6 | each status has its enum member's name, which is never UNKNOWN |
| `Task.NamesDistinct` | src/task.ts:1-6 | distinct statuses have distinct names |
| `Task.FromValue` | src/task.ts:10 | the reverse lookup finds the status with that value, and finds one exactly for 0 to 3 |
| `Task.StatusToString` | src/task.ts:8-11 | the label is always one of the five; it is UNKNOWN exactly for null, undefined or a number outside 0 to 3; otherwise it is the name of the status with that value |
| `Task.StatusLabelsDistinct` | src/task.ts:1-10 | on 0 to 3 two values get the same label exactly when they are equal |

## Left out

- The HTTP transport (`ctx.http.get` and `post`): each accessor takes the parsed response body as an argument. Transport failures (network errors, malformed JSON, non-2xx status) are raised by the library and are not modelled. The serialization of the `createTask` body is the transport's job, so the request carries the typed body.
- The `console.log` in `buildUrl` (src/index.ts:80): logging only.
- The screenshot pipeline and the HTML document around the escaped title (src/index.ts:205-234): these belong to the headless browser. The width `Number(...) || 960` is a floating-point conversion.
- The Koishi `Schema` defaults and the chat commands with their reply strings (src/index.ts:12-15, 153-235): framework glue. The commands call the modelled accessors.
- Napcat/plugins/article_plugin.py: an aiohttp call and reply formatting inside an asynchronous plugin.
- JavaScript numbers are modelled as integers. Fractions, NaN and the exponent form of `String(n)` for magnitudes of 10^21 and more are not covered.
- UriEncoding.IntToString: models `String(n)` for integers only, because the options are modelled as integers.
- Task.StatusToString: models the declared parameter type `number | null | undefined` with integer numbers. The caller at src/index.ts:189 casts through `any`, so a string status could reach the enum's name-to-value lookup. That path is not modelled.
- Property reads cover own properties of parsed JSON objects only. Inherited properties (such as `constructor`) are not modelled. The keys the client reads (`code`, `data`, `taskId`) are not inherited properties of any value.
- Header names are compared exactly, as `Object.assign` compares them. A caller's `user-agent` in lower case is a different key, and what the transport then sends is not modelled.
- `encodeURIComponent` throws `URIError` on lone surrogates. Strings here are sequences of Unicode scalar values, so this case cannot arise.
