# A verified model of the TanStack examples' HTTP core

This project models the core of a small TypeScript HTTP library and two of its users:

- **The `Http` client.** It assembles an endpoint from a base URL, a route and query pairs, and guards absolute endpoints against request forgery towards private networks. It checks header values, fetches with a timeout, and turns every response or thrown value into an `Outcome`: `Success{status, data}` or `Failed{status, message, body?}`. Request and response interceptors run around each exchange, and `on.success` / `on.unauthorized` / `on.failure` callbacks fire after it. Clients can be extended with merged configurations.
- **The outcome helpers.** `unwrap`, `outcomify`, `successify`, `failify`, `unify`, `chain`, `assertMetadata` and `assertUrl`, plus the type-level base-URL arithmetic (`Join`, `Origin`, `ExtendedBase`, `SuccessStatusCode`).
- **The monitor interceptors.** They report each context to an observer and pass it on unchanged.
- **The RSS side.** This covers entry normalisation with first-hit strategy lists, and the infinite pager. The pager fetches the feed once, caches it, and cuts each page out of the cached feed.
- **The demo application's favourites store.** It is a list of `{ id }` records that `like` appends to and `dislike` removes from.

Each core file is modelled in the form it has in the source:

- The helpers and the type-level functions are Dafny functions with lemmas.
- The request engine is a set of specification functions (module `Engine`). Class `Client.Http` runs the same steps with loops and is proved equal to them.
- The favourites store and the pager's cache are classes whose methods update their fields in place.

Foreign facilities are parameters, gathered in `Engine.Env`:

- the reason-phrase table;
- the messages of the library's error classes;
- the WHATWG URL parser and resolver;
- the network.

Module layout:

| module | file | models |
|---|---|---|
| `Wrappers` | wrappers.dfy | `undefined` as `Option`, a throw as `Result` |
| `Strings` | strings.dfy | the JavaScript string operations the core uses |
| `Platform` | platform.dfy | JSON values, responses, thrown values, parsed URLs, the transport |
| `Models` | models.dfy | `sources/http/core/models.ts` |
| `Addresses` | addresses.dfy | the blocked IPv4 space as CIDR blocks (the reference for the guard) |
| `Guard` | guard.dfy | `assertMetadata`, `assertUrl` |
| `Outcomes` | outcomes.dfy | `unwrap`, `outcomify`, `successify`, `failify`, `unify`, `isCancelled`, `chain` |
| `FormUrlEncoded` | urlencoded.dfy | `URLSearchParams` serialization and its parser |
| `Engine` | engine.dfy | `Http`'s steps as functions; the `extend` merge |
| `Client` | client.dfy | class `Http`, `create` |
| `Monitor` | monitor.dfy | `monitor.requested`, `monitor.responded` |
| `Feeds` | feeds.dfy | `attempt`, `thumbnail`, `description`, `date`, `normalize` |
| `Paging` | paging.dfy | the pager's page fetcher, `transform`, `next` |
| `Storage` | storage.dfy | the favourites store |

Two behaviours of the code worth knowing:

- A response counts as a success when `response.ok` holds, that is for statuses 200..299 (the Fetch Standard's ok status).
- When a request's final outcome is a failure, `request` rethrows the `Response` whose body `outcomify` has already read. `failify`'s `clone().json()` then throws and falls into its `catch`. So an HTTP failure returned by `request` carries the reason phrase and no body, except for a 204-like response whose body was never read. The model keeps this: see `Engine.FailedOutcomeReportsRawStatus`.

## Model

| member | source | states |
|---|---|---|
| Models.TrimEndSlash | sources/http/core/models.ts:98-100 | the result has no trailing `/`, is a prefix of the input, and only `/` characters were removed |
| Models.Origin | sources/http/core/models.ts:84-88 | defined exactly when the value contains `://`; then it is a prefix of the value that still contains `://`, holds no `/` after the first `://`, and is either the whole value or followed in it by a `/` |
| Models.Join | sources/http/core/models.ts:104-118 | the `never` branch is unreachable: `Join` of two strings is always a string |
| Models.ProtocolHasOrigin | sources/http/core/models.ts:92-96 | an `http://` or `https://` value contains `://`, so its `Origin` exists |
| Models.ExtendedBase | sources/http/core/models.ts:75-82 | the parent base when the override has no base or the empty one; otherwise `Join(parent, child)` |
| Models.SuccessStatusCodeRange | sources/http/core/models.ts:120-126 | `SuccessStatusCode` is exactly the integers 200..229 |
| Models.StatusTemplateValue | sources/http/core/models.ts:120-126 | the template `2${tens}${unit}` reads back as 200 + 10·tens + unit |
| Engine.JoinAgreesWithCompose | sources/http/core/models.ts:104-118 | under a non-empty base, the type-level `Join` equals the runtime composition of an absolute `http(s)` route or of a relative route without a leading `/` |
| Guard.AssertMetadata | sources/http/core/helpers.ts:151-161 | accepts exactly the header maps whose every value has only code units in 32..126 or 128..255 (keys never inspected, the empty map passes); otherwise throws `InvalidMetadataError` |
| Guard.AssertUrl | sources/http/core/helpers.ts:163-260 | an ambiguous or out-of-range dotted-quad raw host is rejected before and regardless of the flags; a non-`http(s)` scheme is rejected even when unsafe; with `unsafe` only those checks apply; otherwise the verdict is the host check on the lower-cased hostname; a URL the parser refuses throws the parser's `TypeError` with its message; every other rejection is `UnsafeUrlError` |
| Guard.NamedHostVerdict | sources/http/core/helpers.ts:194-259 | without `unsafe`, a parsable http(s) URL whose lower-cased hostname is a name (no `:`, not a dotted quad) is rejected exactly when that name is `localhost` and the `localhost` flag is unset |
| Addresses.ReservedByOctets | sources/http/core/helpers.ts:6-13 | an address lies in one of the blocked CIDR blocks exactly when its octets are 0.x, 10.x, 172.16..31.x, 192.168.x, 169.254.x, or 127.x without `localhost` |
| Guard.QuadVerdictMatchesBlocks | sources/http/core/helpers.ts:225-259 | the octet comparisons reject exactly the blocked CIDR blocks (172.15.x and 172.32.x pass) |
| Guard.DottedQuadVerdict | sources/http/core/helpers.ts:195-259 | without `unsafe`, a parsable http(s) URL whose hostname is a dotted quad of octets 0..255 is rejected exactly when its address is blocked |
| Guard.Ipv6Verdict | sources/http/core/helpers.ts:201-223 | for a bracketed IPv6 hostname: `[::1]`/`[::]` are rejected exactly when `localhost` is unset; `[fe80:`, `[fc00:`, `[fd00:` prefixes are always rejected; every other literal passes |
| Outcomes.Unwrap | sources/http/core/helpers.ts:15-35 | JSON for a JSON Content-Type (a malformed body throws `SyntaxError`); text for `xml` and `text/` types; `undefined` exactly when a 204 has neither; text otherwise |
| Outcomes.Outcomify | sources/http/core/helpers.ts:37-61 | a status outside 200..299 gives `Failed` with its reason phrase and decoded body; a `verify` rejecting 2xx data throws `VerifyError`; otherwise `Success` with the status and data; the status is always the response's |
| Outcomes.Successify | sources/http/core/helpers.ts:63-70 | a success carrying the data and the given status (default 200) |
| Outcomes.FailifyResponse | sources/http/core/helpers.ts:73-92 | a thrown response keeps its status; the body is attached exactly when it was unread, valid JSON and not null; the message is its non-empty `message` or else the reason phrase |
| Outcomes.CancelledOnlyByName | sources/http/core/helpers.ts:270-271 | a thrown value is a cancellation exactly when it is an `Error` named `AbortError` or `TimeoutError`; a thrown `Response`, a library error and a non-`Error` never are |
| Outcomes.Failify | sources/http/core/helpers.ts:72-115 | always a failure: a response as above; `AbortError`/`TimeoutError` give 408 with the phrase; another `Error` gives 500 with its message, or the phrase when that is empty; a library error gives 500 with its class's message, or the phrase when that is empty; a non-Error gives 500 with the phrase |
| Outcomes.Unify | sources/http/core/helpers.ts:117-149 | a string source, or a resolver yielding a string, goes to the executor; a resolved outcome is returned as is unless `verify` rejects its success data; anything thrown becomes `failify`'s result |
| Outcomes.UnifyReady | sources/http/core/helpers.ts:117-149 | a `successify`'d outcome passes `unify` unchanged when `verify` accepts it, and becomes a 500 when it does not |
| Outcomes.Chain | sources/http/core/helpers.ts:274-286 | absent exactly when both are absent; firing the chain has the parent's effects followed by the child's |
| FormUrlEncoded.Serialize | sources/http/core/request.ts:183-201 | the serialized query is empty exactly when there are no pairs |
| FormUrlEncoded.ParseSerialize | sources/http/core/request.ts:183-201 | the serialized query parses back to the UTF-8 bytes of every key and value, in insertion order |
| Engine.WithDefaults | sources/http/core/request.ts:18-32 | base `''`, timeout 10000 and credentials `same-origin` fill in only what the options leave undefined; every other field is kept |
| Engine.WithDefaultsKeepsDefaulted | sources/http/core/request.ts:18-32 | spreading the defaults again changes nothing |
| Engine.BaseFor | sources/http/core/request.ts:165 | the per-call base beats the instance base, which beats `''` (empty strings count as absent) |
| Engine.Compose | sources/http/core/request.ts:166-181 | a route containing `://` is verbatim; an empty route gives the base; otherwise the base without trailing `/`, then `/`, then the route without its leading `/` |
| Engine.ComposeSeam | sources/http/core/request.ts:166-181 | a relative route meets the base at exactly one `/` |
| Engine.QueryPairs | sources/http/core/request.ts:183-201 | one `[key, String(value)]` pair per query, in order |
| Engine.WithQueryShape | sources/http/core/request.ts:183-201 | no separator after an endpoint ending in `?` or `&`, `&` after one that already holds a `?`, `?` otherwise; the endpoint stays a prefix and the query is the suffix |
| Engine.AssembledQuery | sources/http/core/request.ts:164-201 | without pairs nothing is appended; otherwise the endpoint's query suffix parses back to the queries, in order |
| Engine.EndpointSpec | sources/http/core/request.ts:164-222 | `UrlTooLongError` exactly when the assembled endpoint exceeds `MaxLength` UTF-16 units; relative endpoints within the bound pass; absolute ones pass exactly when they parse and pass `assertUrl` with the per-call flags, else the instance's; an absolute endpoint the parser refuses throws `InvalidUrlError`, and one the guard refuses throws the guard's error |
| Engine.ContextOptions | sources/http/core/request.ts:41-55 | per-call headers override instance headers key by key; credentials, timeout and localhost fall back to the instance's only when undefined; everything else is the call's |
| Engine.OutgoingHeaders | sources/http/core/request.ts:306-310 | adds `Content-Type: application/json` exactly when the body is truthy, not form data, and no key is `content-type` in any case; nothing else changes |
| Engine.PayloadOf | sources/http/core/request.ts:314-324 | objects and arrays are JSON-serialized; form data and other primitives are sent as they are; only an absent or `null` body sends nothing |
| Engine.SelectedTimeout | sources/http/core/request.ts:300 | the context's timeout, else the instance's, else 10000 |
| Engine.Transported | sources/http/core/request.ts:314-329 | a delivered response is the result, unchanged; a timed-out fetch throws a cancellation; any other rejection of fetch is rethrown unchanged |
| Engine.CallSpec | sources/http/core/request.ts:293-330 | an unsafe header value throws `InvalidMetadataError` before any network access; otherwise the fetch's result |
| Engine.ThreadAppend | sources/http/core/request.ts:57-74 | running two interceptor lists in turn is running their concatenation; the first throw ends the run |
| Engine.Conclude | sources/http/core/request.ts:76-84 | a failed final outcome rethrows the raw response; `verify` runs after the response interceptors; otherwise the final outcome |
| Engine.Settle | sources/http/core/request.ts:84-98 | a success fires `on.success`; anything thrown becomes `failify`'s result and fires `on.unauthorized` exactly when the status is 401, else `on.failure` |
| Engine.FailedOutcomeReportsRawStatus | sources/http/core/request.ts:76-98 | a failed final outcome returns the raw HTTP status; once the body was read, it carries the reason phrase and no body |
| Engine.CancelledIsTimeout | sources/http/core/request.ts:87-98 | an aborted fetch resolves to 408 with the reason phrase and fires `on.failure` |
| Engine.RefusedEndpointIsInternalError | sources/http/core/request.ts:34-100 | an endpoint refused by assembly or the guard resolves to 500 carrying the error's message, without reaching interceptors or the network |
| Engine.MergeBase | sources/http/core/request.ts:225-248 | an empty child keeps the parent; an empty parent takes the child; an `http(s)` child wins; a `/` child goes under the parent's origin; otherwise the child is resolved against the parent with a trailing `/` |
| Engine.MergeBaseMatchesExtendedBase | sources/http/core/request.ts:225-248 | the runtime base equals the type-level `ExtendedBase` under an empty parent for every child, and otherwise wherever the latter does not depend on URL resolution |
| Engine.MergeOptions | sources/http/core/request.ts:224-291 | headers child-wins; request interceptors parent ++ child, response interceptors child ++ parent; each `on` callback is `chain(parent, child)`; scalars take the child's unless undefined |
| Engine.ExtendSpec | sources/http/core/request.ts:140-162 | the merge, guarded by `assertUrl` under the merged flags when the child gives a base, then the defaults spread underneath |
| Engine.ExtendKeepsDefaulted | sources/http/core/request.ts:140-162 | extending a defaulted configuration adds nothing the defaults would change |
| Engine.ExtendEmptyIsParent | sources/http/core/request.ts:140-162 | `extend({})` succeeds and answers every request exactly as its parent, with the same callbacks |
| Engine.ExtendTwiceNests | sources/http/core/request.ts:255-263 | two extensions nest the interceptors like an onion |
| Client.Http.constructor | sources/http/core/request.ts:27-32 | the configuration is the options over the defaults |
| Client.Http.Endpoint | sources/http/core/request.ts:164-222 | computes `EndpointSpec` |
| Client.AppendQuery | sources/http/core/request.ts:183-201 | appends the pairs one by one and yields the endpoint with the serialized query behind its separator |
| Client.Http.Call | sources/http/core/request.ts:293-330 | computes `CallSpec`: the header scan, the added Content-Type, the metadata check and the fetch |
| Client.Http.Try | sources/http/core/request.ts:40-86 | the two interceptor loops and the checks between them compute the `try` block |
| Client.Http.Request | sources/http/core/request.ts:34-100 | the returned outcome and the fired callbacks are those of `RequestSpec` |
| Client.Http.Get | sources/http/core/request.ts:102-107 | `request('GET', route, undefined, options)` |
| Client.Http.Post | sources/http/core/request.ts:109-115 | `request('POST', route, body, options)` |
| Client.Http.Put | sources/http/core/request.ts:117-123 | `request('PUT', route, body, options)` |
| Client.Http.Delete | sources/http/core/request.ts:125-130 | `request('DELETE', route, undefined, options)` |
| Client.Http.Patch | sources/http/core/request.ts:132-138 | `request('PATCH', route, body, options)` |
| Client.Http.Extend | sources/http/core/request.ts:140-162 | a fresh client over `ExtendSpec`'s configuration, or what the merge or the guard threw |
| Client.Create | sources/http/core/request.ts:333-339 | a fresh client over the options and the defaults |
| Monitor.Requested | sources/http/core/interceptors/monitor.ts:30-42 | returns the context unchanged and reports once, with kind `request`, its method, endpoint, options and body |
| Monitor.Responded | sources/http/core/interceptors/monitor.ts:44-56 | returns the context unchanged and reports once, with kind `response`, the raw response's status and the outcome |
| Monitor.PassThroughDrops | sources/http/core/interceptors/monitor.ts:30-56 | an interceptor that returns its context can be removed from any list without changing the run |
| Monitor.RequestMonitorIsTransparent | sources/http/core/interceptors/monitor.ts:30-42 | adding a request monitor anywhere leaves every request's outcome and callbacks unchanged |
| Monitor.ResponseMonitorIsTransparent | sources/http/core/interceptors/monitor.ts:44-56 | adding a response monitor anywhere leaves every request's outcome and callbacks unchanged |
| Feeds.Attempt | sources/rss/core/helpers.ts:6-17 | the result of the first strategy, in list order, that finds a value; undefined exactly when none does, including for an empty list |
| Feeds.AttemptFirstHit | sources/rss/core/helpers.ts:6-17 | a strategy that finds a value, with none before it finding one, decides the result |
| Feeds.ThumbnailPriority | sources/rss/core/helpers.ts:19-27 | enclosure ?? iTunes ?? media ?? custom ?? content ?? summary |
| Feeds.DescriptionPriority | sources/rss/core/helpers.ts:29-30 | snippet ?? summary ?? content |
| Feeds.DatePriority | sources/rss/core/helpers.ts:32-33 | `isoDate` ?? `pubDate`; undefined when neither gives a date |
| Feeds.Normalize | sources/rss/core/helpers.ts:35-45 | `guid` → identifier and `contentSnippet` → snippet; title, link, creator and categories copied (absent stays absent); description, thumbnail and date by their priorities |
| Paging.Slice | sources/rss/react.client.ts:69 | within bounds, `slice(start, end)` is the subsequence `start..end` |
| Paging.Transform | sources/rss/react.client.ts:64-73 | page `p` holds entries `p*size .. p*size+size` clipped to the end; the total is the feed's length for every page; `next` is `p+1` exactly when `p*size+size` is below the total |
| Paging.Next | sources/rss/react.client.ts:74 | `{ page: next }` exactly when the last page has a `next` |
| Paging.PagesFrom | sources/rss/react.client.ts:64-74 | following `next` from any page yields the rest of the feed from that page's first entry |
| Paging.PagesCoverFeed | sources/rss/react.client.ts:64-74 | paging from 0 until `next` stops visits every entry exactly once, in order |
| Paging.PageFetcher.constructor | sources/rss/react.client.ts:39 | the cache starts empty |
| Paging.PageFetcher.Fetch | sources/rss/react.client.ts:44-60 | with a cached feed: that feed as a 200 success, and no load; otherwise one `unify` load, whose failure is returned as is with the cache left empty, and whose success is cached and returned as a 200 |
| Paging.Serve | sources/rss/react.client.ts:45-59 | one fetch's outcome and the cache after it |
| Paging.CachedSessionServesFeed | sources/rss/react.client.ts:45-59 | a fetcher holding a feed serves it for every page, whatever a load would yield |
| Paging.SessionSticks | sources/rss/react.client.ts:45-59 | once a fetch succeeds, every later fetch returns the same outcome: every page is cut from the same feed |
| Paging.SessionFailuresPassThrough | sources/rss/react.client.ts:52-54 | until a fetch succeeds, each failed load is returned unchanged |
| Storage.Position | apps/nextjs/app/http/services/storage.ts:19 | the position of the first favourite with the id, or -1 exactly when there is none |
| Storage.Lookup | apps/nextjs/app/http/services/storage.ts:23-25 | a found favourite carries the id |
| Storage.LookupAtPosition | apps/nextjs/app/http/services/storage.ts:19-25 | `find` and `findIndex` agree: `find` is undefined exactly when `findIndex` is -1, and otherwise returns the entry at that index |
| Storage.Favorites.constructor | apps/nextjs/app/http/services/storage.ts:13-15 | the store starts empty |
| Storage.Favorites.IndexOf | apps/nextjs/app/http/services/storage.ts:19 | the loop computes `Position` |
| Storage.Favorites.Find | apps/nextjs/app/http/services/storage.ts:23 | the loop computes `Lookup` |
| Storage.Favorites.Exists | apps/nextjs/app/http/services/storage.ts:21 | true exactly when some favourite has the id |
| Storage.Favorites.IsLiked | apps/nextjs/app/http/services/storage.ts:23 | true exactly when some favourite has the id, so it equals `exists` |
| Storage.Favorites.IsDisliked | apps/nextjs/app/http/services/storage.ts:25 | true exactly when no favourite has the id, the negation of `isLiked` |
| Storage.Favorites.Like | apps/nextjs/app/http/services/storage.ts:27-35 | appends `{ id }` at the end, keeps every earlier entry, and returns it |
| Storage.Favorites.Dislike | apps/nextjs/app/http/services/storage.ts:37-45 | an absent id throws `Error` and leaves the list unchanged; a present one removes the first matching entry |
| Storage.Without | apps/nextjs/app/http/services/storage.ts:44 | `splice(index, 1)` shortens the list by one and removes exactly that entry from its multiset |
| Storage.DislikeRemovesOne | apps/nextjs/app/http/services/storage.ts:37-45 | removes exactly one favourite with the id, keeps the others and their order |
| Storage.LikeThenDislike | apps/nextjs/app/http/services/storage.ts:27-45 | liking then disliking a new id restores the list; for an id already liked, the earlier entry goes and the same favourites remain |
| Storage.PositionInPrefix | apps/nextjs/app/http/services/storage.ts:19 | appending never moves the first match of an id already present |
| Storage.LikeTwiceDuplicates | apps/nextjs/app/http/services/storage.ts:27-35 | liking twice adds two entries: duplicates are possible |

## Left out

- Network I/O, timers and `AbortController` are left out. `fetch` is `Env.fetch`, which returns a delivered response, a cancellation or a thrown value. The timeout is modelled only as the duration selected.
- WHATWG URL parsing and relative resolution are `Env.parse` and `Env.resolve`. The guard sees the parser's protocol and hostname.
- `getReasonPhrase` is `Env.phrase`. The library throws for an unknown status code; the model gives every code a phrase.
- The library's error classes are not part of this model. Their messages are `Env.explain`, and `UrlTooLongError.MaxLength` is taken as 2048.
- Reading the body stream is a precomputed decode on `Response`: the text, and the JSON or its parse error. Whether the body was already read is tracked by `Thrown.Raw`'s `consumed` flag.
- `JSON.stringify` and the `FormData` test are body variants (`Engine.Payload`, `Models.Body`).
- JSON numbers and numeric query values (`Models.QNumber`) are integers, and `Engine.QueryPairs` writes them in plain decimal. Floating point is not modelled, nor `String(number)`'s exponent form from 1e21 on or its loss of precision beyond 2^53.
- `Outcomes.FailifyResponse`: a body whose `message` is truthy but not a string (a number, an object) gives the reason phrase in the model, where the source would use that value.
- Options given explicitly as `undefined` are the same as absent ones.
- Interceptors, `verify` functions and observers are total functions. One that throws is modelled only for interceptors, through their `Result`. A callback or observer that throws, or that mutates a context it shares, is not modelled.
- Object key order follows insertion order. JavaScript lists integer-like keys first; the model does not capture this.
- `toLowerCase` is modelled on ASCII letters only.
- `RequestInit` fields other than headers and credentials are not carried.
- A response interceptor reading the raw body is not modelled.
- Lone surrogates in strings are not modelled; UTF-8 encoding covers Unicode scalar values only.
- `async`/`await` is modelled as sequential calls.
- The pager's concurrent page requests are not modelled: each fetch completes before the next begins.
- `Paging.Pages`, `Paging.PagesFrom`, `Paging.PagesCoverFeed`: the page size is taken as positive. With a size of 0 and a non-empty feed, `end < length` holds on every page, so `next` never stops the builder; the source does not guard against this.
- `Monitor`: what the observer is handed is stated per call by `Monitor.Requested` and `Monitor.Responded`. The reports are not traced through the request pipeline: `Engine.RequestSpec` does not record how many times, or with which context, each monitor in the lists reports during one request.
- The TanStack Query adapters (`sources/http/react.client.ts`, `sources/http/server.ts`, `sources/rss/server.ts`) are not part of this model. Neither are the RSS parser wrapper, the strategy modules (whose functions are parameters of `Feeds`), the UI and the tests.
- `Storage`: ids are integers, where the source's `number` also admits non-integers.
- `Storage`: the store's global singleton across module reloads is not modelled.
