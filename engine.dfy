/** The request engine of `Http`, as specification functions: endpoint
    assembly, the per-request options, header and body preparation, the
    interceptor fold, the request pipeline with its error funnel and
    callbacks, and the `extend` merge. The class in module `Client` runs these
    steps imperatively and is proved equal to them.

    `Env` gathers everything the engine calls but does not define: the
    reason-phrase table, the messages of the core's error classes, the WHATWG
    URL parser and resolver, and the network. */
module Engine {
  import opened Wrappers
  import opened Strings
  import opened Platform
  import opened Models
  import opened Guard
  import opened Outcomes
  import opened FormUrlEncoded

  /** `UrlTooLongError.MaxLength`. */
  const MaxLength := 2048
  const DefaultTimeout := 10000
  const Unauthorized := 401

  /** The body handed to fetch: nothing, `JSON.stringify` of an object or
      array, a primitive as given, or the `FormData` itself. */
  datatype Payload = Absent | Serialized(json: Json) | Primitive(json: Json) | Multipart(form: FormData)

  /** What fetch receives. `redirect: 'follow'` and the abort signal are
      fixed; the signal fires after `timeout` milliseconds. */
  datatype FetchRequest = FetchRequest(
    endpoint: string,
    verb: Method,
    headers: map<string, string>,
    body: Payload,
    credentials: Option<Credentials>,
    timeout: int)

  datatype Env = Env(
    phrase: int -> string,
    explain: Fault -> string,
    parse: string -> UrlParse,
    resolve: (string, string) -> UrlParse,
    fetch: FetchRequest -> Transport)

  // ---------------------------------------------------------------------------
  // Defaults
  // ---------------------------------------------------------------------------

  /** A configuration that carries the three defaulted settings. */
  predicate Defaulted(config: HttpOptions) {
    config.base.Some? && config.timeout.Some? && config.credentials.Some?
  }

  /** `{ ...defaults, ...options }`: base `''`, a 10000 ms timeout and
      `same-origin` credentials, each unless the options give one. */
  function WithDefaults(options: HttpOptions): (r: HttpOptions)
    ensures Defaulted(r)
    ensures r.base == (if options.base.Some? then options.base else Some(""))
    ensures r.timeout == (if options.timeout.Some? then options.timeout else Some(DefaultTimeout))
    ensures r.credentials == (if options.credentials.Some? then options.credentials else Some(SameOrigin))
    ensures r.headers == options.headers && r.interceptors == options.interceptors
    ensures r.unsafe == options.unsafe && r.localhost == options.localhost
  {
    options.(base := OrElse(options.base, Some("")),
             timeout := OrElse(options.timeout, Some(DefaultTimeout)),
             credentials := OrElse(options.credentials, Some(SameOrigin)))
  }

  /** Spreading the defaults under a configuration that already has them
      changes nothing. */
  lemma WithDefaultsKeepsDefaulted(config: HttpOptions)
    requires Defaulted(config)
    ensures WithDefaults(config) == config
  {
  }

  // ---------------------------------------------------------------------------
  // Endpoint assembly
  // ---------------------------------------------------------------------------

  /** `options?.base || this._options.base || ''`. */
  function BaseFor(instance: Option<string>, options: RequestOptions): (base: string)
    ensures Given(options.base) ==> base == options.base.value
    ensures !Given(options.base) && Given(instance) ==> base == instance.value
    ensures !Given(options.base) && !Given(instance) ==> base == ""
  {
    if Given(options.base) then options.base.value
    else if Given(instance) then instance.value
    else ""
  }

  /** The route joined to the base. */
  function Compose(base: string, route: string): (r: string)
    ensures Contains(route, "://") ==> r == route
    ensures !Contains(route, "://") && route == "" ==> r == base
    ensures !Contains(route, "://") && route != "" ==> r == TrimEndSlash(base) + "/" + TrimStartSlash(route)
  {
    if Contains(route, "://") then route
    else if route == "" then base
    else TrimTrailing(base, '/') + (if StartsWith(route, "/") then route else "/" + route)
  }

  /** A relative route meets the base at exactly one `/`: the base keeps no
      trailing `/` and the route contributes no second one. */
  lemma ComposeSeam(base: string, route: string)
    requires !Contains(route, "://") && route != "" && !StartsWith(route, "//")
    ensures var r := Compose(base, route);
      var stem := TrimEndSlash(base);
      StartsWith(r, stem) && r[|stem|] == '/' &&
      (|stem| == 0 || r[|stem| - 1] != '/') &&
      (|stem| + 1 < |r| ==> r[|stem| + 1] != '/')
  {
    var r := Compose(base, route);
    var stem := TrimEndSlash(base);
    assert r == stem + "/" + TrimStartSlash(route);
    assert r[..|stem|] == stem;
    if |stem| > 0 {
      assert stem[|stem| - 1..] == stem[|stem| - 1..|stem|];
      assert !EndsWith(stem, "/");
    }
    if |stem| + 1 < |r| {
      assert r[|stem| + 1] == TrimStartSlash(route)[0];
      if StartsWith(route, "/") {
        assert TrimStartSlash(route)[0] == route[1];
        assert route[..2] != "//";
      }
    }
  }

  /** The type-level `Join` predicts the runtime composition of a route under
      a non-empty base, for an absolute `http(s)` route and for a relative
      route without a leading `/`. */
  lemma JoinAgreesWithCompose(parent: string, child: string)
    requires parent != "" && !HasStartSlash(child)
    requires Contains(child, "://") ==> HasProtocol(child)
    ensures Join(parent, child) == Some(Compose(parent, child))
  {
    if HasProtocol(child) {
      ProtocolHasOrigin(child);
    }
  }

  /** `String(value)` for a query value. */
  function QueryText(value: QueryValue): string {
    match value
    case QText(text) => text
    case QNumber(number) => IntegerString(number)
    case QFlag(flag) => if flag then "true" else "false"
  }

  /** The `[key, String(value)]` pairs appended to the `URLSearchParams`. */
  function QueryPairs(queries: seq<(string, QueryValue)>): (pairs: seq<(string, string)>)
    ensures |pairs| == |queries|
    ensures forall i :: 0 <= i < |queries| ==> pairs[i] == (queries[i].0, QueryText(queries[i].1))
  {
    if queries == [] then []
    else [(queries[0].0, QueryText(queries[0].1))] + QueryPairs(queries[1..])
  }

  /** What goes between the endpoint and the query string. */
  function Separator(endpoint: string): string {
    if EndsWith(endpoint, "?") || EndsWith(endpoint, "&") then ""
    else if Contains(endpoint, "?") then "&"
    else "?"
  }

  /** The endpoint with the serialized query appended, when there is one. */
  function WithQuery(endpoint: string, search: string): (r: string)
    ensures search == "" ==> r == endpoint
  {
    if search == "" then endpoint else endpoint + Separator(endpoint) + search
  }

  /** The query string always lands after a `?` or an `&` that begins or
      continues a query: nothing is inserted after an endpoint ending in `?`
      or `&`, an `&` after one that already holds a `?`, and a `?` otherwise.
      The endpoint is kept as a prefix, the query is the suffix, and the
      result has a `?` unless the endpoint already ended in `&`. */
  lemma WithQueryShape(endpoint: string, search: string)
    requires search != ""
    ensures EndsWith(endpoint, "?") || EndsWith(endpoint, "&") ==> WithQuery(endpoint, search) == endpoint + search
    ensures !EndsWith(endpoint, "?") && !EndsWith(endpoint, "&") && Contains(endpoint, "?") ==>
              WithQuery(endpoint, search) == endpoint + "&" + search
    ensures !EndsWith(endpoint, "?") && !EndsWith(endpoint, "&") && !Contains(endpoint, "?") ==>
              WithQuery(endpoint, search) == endpoint + "?" + search
    ensures var r := WithQuery(endpoint, search);
      StartsWith(r, endpoint) && EndsWith(r, search) &&
      |endpoint| + |search| <= |r| <= |endpoint| + 1 + |search| &&
      (EndsWith(endpoint, "&") || Contains(r, "?")) &&
      |r| > |search| && (r[|r| - |search| - 1] == '?' || r[|r| - |search| - 1] == '&')
  {
    var r := WithQuery(endpoint, search);
    var separator := Separator(endpoint);
    assert r == endpoint + separator + search;
    assert r[..|endpoint|] == endpoint;
    assert r[|r| - |search|..] == search;
    if separator == "" {
      if EndsWith(endpoint, "?") {
        assert endpoint[|endpoint| - 1..] == "?";
        assert endpoint[|endpoint| - 1] == '?';
        assert r[|endpoint| - 1..|endpoint|] == "?";
        ContainsAt(r, "?", |endpoint| - 1);
      } else {
        assert endpoint[|endpoint| - 1..] == "&";
        assert endpoint[|endpoint| - 1] == '&';
      }
      assert r[|r| - |search| - 1] == endpoint[|endpoint| - 1];
    } else if separator == "&" {
      ContainsAppend(endpoint, separator + search, "?");
      assert r == endpoint + (separator + search);
    } else {
      assert r[|endpoint|..|endpoint| + 1] == "?";
      ContainsAt(r, "?", |endpoint|);
    }
  }

  /** The endpoint before the length check and the guard. */
  function Assembled(config: HttpOptions, route: string, options: RequestOptions): string {
    var composed := Compose(BaseFor(config.base, options), route);
    if options.queries.Some? then WithQuery(composed, Serialize(QueryPairs(options.queries.value)))
    else composed
  }

  /** The query string appended to an endpoint parses back to the UTF-8 bytes
      of every query key and `String(value)`, in insertion order; without
      pairs nothing, not even a separator, is appended. */
  lemma AssembledQuery(config: HttpOptions, route: string, options: RequestOptions)
    requires options.queries.Some?
    ensures var composed := Compose(BaseFor(config.base, options), route);
      var pairs := QueryPairs(options.queries.value);
      var r := Assembled(config, route, options);
      (pairs == [] ==> r == composed) &&
      (pairs != [] ==>
         StartsWith(r, composed) && Parse(r[|r| - |Serialize(pairs)|..]) == PairBytes(pairs))
  {
    var composed := Compose(BaseFor(config.base, options), route);
    var pairs := QueryPairs(options.queries.value);
    if pairs != [] {
      var search := Serialize(pairs);
      WithQueryShape(composed, search);
      ParseSerialize(pairs);
      var r := Assembled(config, route, options);
      assert r[|r| - |search|..] == search;
    }
  }

  /** `Http.endpoint`: the assembled endpoint, refused when longer than
      `MaxLength` UTF-16 code units and, when absolute, when it does not
      parse or does not pass the guard with the per-call `unsafe` and
      `localhost` (else the instance's). Relative endpoints skip the guard. */
  function EndpointSpec(config: HttpOptions, route: string, options: RequestOptions, env: Env): (r: Result<string, Thrown>)
    ensures r.Ok? ==> r.value == Assembled(config, route, options)
    ensures r == Err(Library(UrlTooLong)) <==> Utf16Length(Assembled(config, route, options)) > MaxLength
    ensures Utf16Length(Assembled(config, route, options)) <= MaxLength && !Contains(Assembled(config, route, options), "://") ==>
              r.Ok?
    ensures Utf16Length(Assembled(config, route, options)) <= MaxLength && Contains(Assembled(config, route, options), "://") ==>
              var endpoint := Assembled(config, route, options);
              (r.Ok? <==> env.parse(endpoint).Resolved? &&
                          AssertUrl(endpoint, env.parse(endpoint),
                                    Enabled(OrElse(options.unsafe, config.unsafe)),
                                    Enabled(OrElse(options.localhost, config.localhost))).Ok?)
    // An absolute endpoint the parser refuses is an `InvalidUrlError`; one
    // the guard refuses throws what the guard threw.
    ensures Utf16Length(Assembled(config, route, options)) <= MaxLength && Contains(Assembled(config, route, options), "://") ==>
              var endpoint := Assembled(config, route, options);
              (env.parse(endpoint).Rejected? ==> r == Err(Library(InvalidUrl))) &&
              (env.parse(endpoint).Resolved? && r.Err? ==>
                 var guarded := AssertUrl(endpoint, env.parse(endpoint),
                                          Enabled(OrElse(options.unsafe, config.unsafe)),
                                          Enabled(OrElse(options.localhost, config.localhost)));
                 guarded.Err? && r == Err(guarded.error))
    ensures r.Err? ==> r.error in {Library(UrlTooLong), Library(InvalidUrl), Library(UnsafeUrl)}
  {
    var endpoint := Assembled(config, route, options);
    if Utf16Length(endpoint) > MaxLength then Err(Library(UrlTooLong))
    else if Contains(endpoint, "://") then
      var parsed := env.parse(endpoint);
      if parsed.Rejected? then Err(Library(InvalidUrl))
      else
        var guarded :- AssertUrl(endpoint, parsed, Enabled(OrElse(options.unsafe, config.unsafe)),
                                 Enabled(OrElse(options.localhost, config.localhost)));
        Ok(endpoint)
    else Ok(endpoint)
  }

  // ---------------------------------------------------------------------------
  // Per-request options, headers and body
  // ---------------------------------------------------------------------------

  /** The options of the request context: the call's options with the
      instance headers under the call's, and `credentials`, `timeout` and
      `localhost` taken from the instance when the call leaves them unset. */
  function ContextOptions(config: HttpOptions, options: RequestOptions): (r: RequestOptions)
    ensures r.headers.Some?
    ensures forall key :: key in r.headers.value <==>
              key in config.headers.GetOr(map[]) || key in options.headers.GetOr(map[])
    ensures forall key :: key in options.headers.GetOr(map[]) ==>
              r.headers.value[key] == options.headers.GetOr(map[])[key]
    ensures forall key :: key in config.headers.GetOr(map[]) && key !in options.headers.GetOr(map[]) ==>
              r.headers.value[key] == config.headers.GetOr(map[])[key]
    ensures r.credentials == (if options.credentials.Some? then options.credentials else config.credentials)
    ensures r.timeout == (if options.timeout.Some? then options.timeout else config.timeout)
    ensures r.localhost == (if options.localhost.Some? then options.localhost else config.localhost)
    ensures r.queries == options.queries && r.base == options.base && r.verify == options.verify
    ensures r.unsafe == options.unsafe
  {
    options.(headers := Some(config.headers.GetOr(map[]) + options.headers.GetOr(map[])),
             credentials := OrElse(options.credentials, config.credentials),
             timeout := OrElse(options.timeout, config.timeout),
             localhost := OrElse(options.localhost, config.localhost))
  }

  /** A header key that names Content-Type in any letter case. */
  predicate HasContentType(headers: map<string, string>) {
    exists key :: key in headers && Lower(key) == "content-type"
  }

  /** Whether `call` adds `Content-Type: application/json`. */
  predicate AddsJsonType(headers: map<string, string>, body: Body) {
    BodyTruthy(body) && !body.Form? && !HasContentType(headers)
  }

  /** The headers sent: the context's, plus a JSON Content-Type for a truthy
      non-FormData body when no key names Content-Type in any case. An
      existing header is never overwritten. */
  function OutgoingHeaders(headers: map<string, string>, body: Body): (r: map<string, string>)
    ensures forall key :: key in headers ==> key in r && r[key] == headers[key]
    ensures AddsJsonType(headers, body) ==> r.Keys == headers.Keys + {"Content-Type"} && r["Content-Type"] == "application/json"
    ensures !AddsJsonType(headers, body) ==> r == headers
    ensures BodyTruthy(body) && !body.Form? ==> HasContentType(r)
  {
    if AddsJsonType(headers, body) then
      assert Lower("Content-Type") == "content-type";
      headers["Content-Type" := "application/json"]
    else headers
  }

  /** The `body` given to fetch. */
  function PayloadOf(body: Body): (r: Payload)
    ensures r.Serialized? <==> body.Content? && (body.json.JArray? || body.json.JObject?)
    ensures r == Absent <==> body == NoBody || body == Content(JNull)
    ensures r.Multipart? <==> body.Form?
  {
    match body
    case NoBody => Absent
    case Form(form) => Multipart(form)
    case Content(json) =>
      if json.JArray? || json.JObject? then Serialized(json)
      else if json == JNull then Absent
      else Primitive(json)
  }

  /** The timer's duration: the context's timeout, else the instance's, else 10000. */
  function SelectedTimeout(config: HttpOptions, context: RequestContext): (timeout: int)
    ensures context.options.timeout.Some? ==> timeout == context.options.timeout.value
    ensures context.options.timeout.None? && config.timeout.Some? ==> timeout == config.timeout.value
    ensures context.options.timeout.None? && config.timeout.None? ==> timeout == DefaultTimeout
  {
    context.options.timeout.GetOr(config.timeout.GetOr(DefaultTimeout))
  }

  /** What fetch's settlement becomes: a response, or a thrown value. An
      aborted fetch rejects with an `AbortError`. */
  function Transported(transport: Transport): (r: Result<Response, Thrown>)
    ensures transport.Delivered? <==> r.Ok?
    ensures transport.Delivered? ==> r == Ok(transport.response)
    ensures transport.Cancelled? ==> r.Err? && IsCancelled(r.error)
    ensures transport.Failure? ==> r == Err(transport.thrown)
  {
    match transport
    case Delivered(response) => Ok(response)
    case Cancelled(message) => Err(Error("AbortError", message))
    case Failure(thrown) => Err(thrown)
  }

  /** The fetch request `call` makes for a context. */
  function Outgoing(config: HttpOptions, context: RequestContext): FetchRequest {
    FetchRequest(context.endpoint, context.verb,
                 OutgoingHeaders(context.options.headers.GetOr(map[]), context.body),
                 PayloadOf(context.body), context.options.credentials, SelectedTimeout(config, context))
  }

  /** `Http.call`: refuses unsafe header values before any network access,
      then performs the fetch. */
  function CallSpec(config: HttpOptions, context: RequestContext, env: Env): (r: Result<Response, Thrown>)
    ensures !SafeMetadata(Outgoing(config, context).headers) ==> r == Err(Library(InvalidMetadata))
    ensures SafeMetadata(Outgoing(config, context).headers) ==> r == Transported(env.fetch(Outgoing(config, context)))
  {
    var request := Outgoing(config, context);
    if !SafeMetadata(request.headers) then Err(Library(InvalidMetadata))
    else Transported(env.fetch(request))
  }

  // ---------------------------------------------------------------------------
  // Interceptors and the pipeline
  // ---------------------------------------------------------------------------

  /** Interceptors applied in list order, each to its predecessor's result;
      the first one that throws ends the run. */
  function Thread<C>(stages: seq<Stage<C>>, context: C): Result<C, Thrown>
    decreases |stages|
  {
    if stages == [] then Ok(context)
    else
      var next :- stages[0](context);
      Thread(stages[1..], next)
  }

  /** Running two lists one after the other is running their concatenation. */
  lemma {:induction false} ThreadAppend<C>(first: seq<Stage<C>>, second: seq<Stage<C>>, context: C)
    ensures Thread(first + second, context) ==
            (match Thread(first, context)
             case Ok(next) => Thread(second, next)
             case Err(thrown) => Err(thrown))
    decreases |first|
  {
    if first == [] {
      assert first + second == second;
    } else {
      assert (first + second)[1..] == first[1..] + second;
      match first[0](context)
      case Ok(next) => ThreadAppend(first[1..], second, next);
      case Err(_) =>
    }
  }

  /** The request context, built and threaded through the request interceptors. */
  function Build(config: HttpOptions, verb: Method, route: string, body: Body, options: RequestOptions, env: Env): Result<RequestContext, Thrown> {
    var endpoint :- EndpointSpec(config, route, options, env);
    Thread(config.interceptors.request, RequestContext(verb, endpoint, ContextOptions(config, options), body))
  }

  /** The exchange: the fetch, `outcomify` without `verify`, and the response
      interceptors. Yields the raw response and the final response context. */
  function Exchange(config: HttpOptions, before: RequestContext, env: Env): Result<(Response, ResponseContext), Thrown> {
    var response :- CallSpec(config, before, env);
    var outcome :- Outcomify(response, None, env.phrase);
    var after :- Thread(config.interceptors.response, ResponseContext(before.verb, before.endpoint, outcome, response));
    Ok((response, after))
  }

  /** The end of the `try` block: a failed final outcome rethrows the raw
      response (whose body `outcomify` has already read); a success the
      per-call `verify` rejects throws `VerifyError`; otherwise the final
      outcome is the result. */
  function Conclude(verify: Option<Value -> bool>, response: Response, after: ResponseContext): (r: Result<Outcome<Value>, Thrown>)
    ensures after.outcome.Failed? ==> r == Err(Raw(response, ReadsBody(response)))
    ensures after.outcome.Success? ==>
              (r.Ok? <==> verify.None? || verify.value(after.outcome.data)) &&
              (r.Ok? ==> r.value == after.outcome) &&
              (r.Err? ==> r.error == Library(Verify))
  {
    if after.outcome.Failed? then Err(Raw(response, ReadsBody(response)))
    else if verify.Some? && !verify.value(after.outcome.data) then Err(Library(Verify))
    else Ok(after.outcome)
  }

  /** The `try` block of `request`. */
  function Attempt(config: HttpOptions, verb: Method, route: string, body: Body, options: RequestOptions, env: Env): Result<Outcome<Value>, Thrown> {
    var before :- Build(config, verb, route, body, options, env);
    var exchanged :- Exchange(config, before, env);
    Conclude(options.verify, exchanged.0, exchanged.1)
  }

  /** The end of `request`: a success fires `on.success`; anything thrown
      becomes `failify`'s failure, which fires `on.unauthorized` for a 401 and
      `on.failure` otherwise. Returns the outcome and the callbacks' effects. */
  function Settle(on: OnInterceptor, attempt: Result<Outcome<Value>, Thrown>, env: Env): (r: (Outcome<Value>, seq<Effect>))
    ensures attempt.Ok? ==> r == (attempt.value, Fire(on.success, attempt.value))
    ensures attempt.Err? ==> r.0 == Failify(attempt.error, env.phrase, env.explain)
    ensures attempt.Err? && r.0.status == Unauthorized ==> r.1 == Fire(on.unauthorized, r.0)
    ensures attempt.Err? && r.0.status != Unauthorized ==> r.1 == Fire(on.failure, r.0)
  {
    match attempt
    case Ok(outcome) => (outcome, Fire(on.success, outcome))
    case Err(thrown) =>
      var failed := Failify(thrown, env.phrase, env.explain);
      (failed, if failed.status == Unauthorized then Fire(on.unauthorized, failed) else Fire(on.failure, failed))
  }

  /** `Http.request`: the outcome it resolves to and the callbacks' effects. */
  function RequestSpec(config: HttpOptions, verb: Method, route: string, body: Body, options: RequestOptions, env: Env): (Outcome<Value>, seq<Effect>) {
    Settle(config.interceptors.on, Attempt(config, verb, route, body, options, env), env)
  }

  /** A final outcome that is a failure yields the raw HTTP status, whatever
      status the response interceptors put in the outcome; and because the
      body was already read, the message is the reason phrase and no body is
      attached. */
  lemma FailedOutcomeReportsRawStatus(config: HttpOptions, verb: Method, route: string, body: Body,
                                      options: RequestOptions, env: Env, before: RequestContext,
                                      response: Response, after: ResponseContext)
    requires Build(config, verb, route, body, options, env) == Ok(before)
    requires Exchange(config, before, env) == Ok((response, after))
    requires after.outcome.Failed?
    ensures var r := RequestSpec(config, verb, route, body, options, env).0;
      r.Failed? && r.status == response.status &&
      (ReadsBody(response) ==> r.message == env.phrase(response.status) && r.body.None?)
  {
  }

  /** A fetch the timer aborts resolves to a 408 carrying the reason phrase,
      and fires `on.failure`. */
  lemma CancelledIsTimeout(config: HttpOptions, verb: Method, route: string, body: Body,
                           options: RequestOptions, env: Env, before: RequestContext, message: string)
    requires Build(config, verb, route, body, options, env) == Ok(before)
    requires SafeMetadata(Outgoing(config, before).headers)
    requires env.fetch(Outgoing(config, before)) == Cancelled(message)
    ensures var r := RequestSpec(config, verb, route, body, options, env);
      r.0 == Failed(RequestTimeout, env.phrase(RequestTimeout), None) &&
      r.1 == Fire(config.interceptors.on.failure, r.0)
  {
  }

  /** An endpoint the assembly or the guard refuses never reaches the
      interceptors or the network: the request resolves to a 500 carrying the
      error's message. */
  lemma RefusedEndpointIsInternalError(config: HttpOptions, verb: Method, route: string, body: Body,
                                       options: RequestOptions, env: Env)
    requires EndpointSpec(config, route, options, env).Err?
    ensures var fault := EndpointSpec(config, route, options, env).error.fault;
      var r := RequestSpec(config, verb, route, body, options, env).0;
      r.Failed? && r.status == InternalServerError && r.body.None? &&
      (env.explain(fault) != "" ==> r.message == env.explain(fault))
  {
  }

  // ---------------------------------------------------------------------------
  // extend
  // ---------------------------------------------------------------------------

  /** The merged base of `options(parent, child)`. */
  function MergeBase(parent: Option<string>, child: Option<string>, env: Env): (r: Result<Option<string>, Thrown>)
    ensures !Given(child) ==> r == Ok(parent)
    ensures Given(child) && !Given(parent) ==> r == Ok(child)
    ensures Given(child) && Given(parent) && HasProtocol(child.value) ==> r == Ok(child)
    ensures Given(child) && Given(parent) && !HasProtocol(child.value) && HasStartSlash(child.value) ==>
              (r.Ok? <==> env.parse(parent.value).Resolved?) &&
              (r.Ok? ==> r.value == Some(env.parse(parent.value).url.origin + child.value))
    ensures Given(child) && Given(parent) && !HasProtocol(child.value) && !HasStartSlash(child.value) ==>
              var against := if EndsWith(parent.value, "/") then parent.value else parent.value + "/";
              (r.Ok? <==> env.resolve(child.value, against).Resolved?) &&
              (r.Ok? ==> r.value == Some(env.resolve(child.value, against).url.href))
    ensures r.Err? ==> r.error.Error? && r.error.name == "TypeError"
  {
    if !Given(child) then Ok(parent)
    else if !Given(parent) then Ok(child)
    else if HasProtocol(child.value) then Ok(child)
    else if HasStartSlash(child.value) then
      match env.parse(parent.value)
      case Rejected(message) => Err(Error("TypeError", message))
      case Resolved(url) => Ok(Some(url.origin + child.value))
    else
      var against := if EndsWith(parent.value, "/") then parent.value else parent.value + "/";
      match env.resolve(child.value, against)
      case Rejected(message) => Err(Error("TypeError", message))
      case Resolved(url) => Ok(Some(url.href))
  }

  /** The runtime base agrees with the type-level `ExtendedBase` wherever the
      latter does not depend on URL resolution: an absent or empty child, an
      absolute child, and a `/`-prefixed child under a parent whose parsed
      origin is its textual `Origin`. */
  lemma MergeBaseMatchesExtendedBase(parent: string, child: Option<string>, env: Env)
    requires parent != "" && Given(child) ==>
      (|| HasProtocol(child.value)
       || (HasStartSlash(child.value) && HasProtocol(parent) && env.parse(parent).Resolved? &&
           Some(env.parse(parent).url.origin) == Origin(parent)))
    ensures MergeBase(Some(parent), child, env) == Ok(ExtendedBase(parent, child))
  {
    if Given(child) && !HasProtocol(child.value) {
      assert !StartsWith(child.value, "http://") && !StartsWith(child.value, "https://");
    }
  }

  /** `options(parent, child)`: the merge of two configurations. */
  function MergeOptions(parent: HttpOptions, child: HttpOptions, env: Env): (r: Result<HttpOptions, Thrown>)
    ensures r.Ok? <==> MergeBase(parent.base, child.base, env).Ok?
    ensures r.Ok? ==>
      var merged := r.value;
      && merged.base == MergeBase(parent.base, child.base, env).value
      && merged.headers == Some(parent.headers.GetOr(map[]) + child.headers.GetOr(map[]))
      && merged.interceptors.request == parent.interceptors.request + child.interceptors.request
      && merged.interceptors.response == child.interceptors.response + parent.interceptors.response
      && merged.interceptors.on.success == Chain(parent.interceptors.on.success, child.interceptors.on.success)
      && merged.interceptors.on.unauthorized == Chain(parent.interceptors.on.unauthorized, child.interceptors.on.unauthorized)
      && merged.interceptors.on.failure == Chain(parent.interceptors.on.failure, child.interceptors.on.failure)
      && merged.timeout == (if child.timeout.Some? then child.timeout else parent.timeout)
      && merged.credentials == (if child.credentials.Some? then child.credentials else parent.credentials)
      && merged.unsafe == (if child.unsafe.Some? then child.unsafe else parent.unsafe)
      && merged.localhost == (if child.localhost.Some? then child.localhost else parent.localhost)
  {
    var base :- MergeBase(parent.base, child.base, env);
    var on := OnInterceptor(
      Chain(parent.interceptors.on.success, child.interceptors.on.success),
      Chain(parent.interceptors.on.unauthorized, child.interceptors.on.unauthorized),
      Chain(parent.interceptors.on.failure, child.interceptors.on.failure));
    Ok(HttpOptions(
      base,
      OrElse(child.timeout, parent.timeout),
      Some(parent.headers.GetOr(map[]) + child.headers.GetOr(map[])),
      Interceptors(parent.interceptors.request + child.interceptors.request,
                   child.interceptors.response + parent.interceptors.response, on),
      OrElse(child.credentials, parent.credentials),
      OrElse(child.unsafe, parent.unsafe),
      OrElse(child.localhost, parent.localhost)))
  }

  /** `extend(child)`: the new instance's configuration. When the child gives
      a base, the merged base must pass the guard under the merged flags. */
  function ExtendSpec(config: HttpOptions, child: HttpOptions, env: Env): (r: Result<HttpOptions, Thrown>)
    ensures MergeOptions(config, child, env).Err? ==> r == Err(MergeOptions(config, child, env).error)
    ensures MergeOptions(config, child, env).Ok? ==>
      var merged := MergeOptions(config, child, env).value;
      if Given(child.base) && Given(merged.base) then
        var verdict := AssertUrl(merged.base.value, env.parse(merged.base.value), Enabled(merged.unsafe), Enabled(merged.localhost));
        (r.Ok? <==> verdict.Ok?) && (r.Err? ==> r.error == verdict.error) && (r.Ok? ==> r.value == WithDefaults(merged))
      else r == Ok(WithDefaults(merged))
  {
    var merged :- MergeOptions(config, child, env);
    if Given(child.base) && Given(merged.base) then
      var guarded :- AssertUrl(merged.base.value, env.parse(merged.base.value), Enabled(merged.unsafe), Enabled(merged.localhost));
      Ok(WithDefaults(merged))
    else Ok(WithDefaults(merged))
  }

  /** Extending a defaulted configuration keeps it defaulted, and the merge
      adds nothing the spread of the defaults would change. */
  lemma ExtendKeepsDefaulted(config: HttpOptions, child: HttpOptions, env: Env)
    requires Defaulted(config)
    requires ExtendSpec(config, child, env).Ok?
    ensures ExtendSpec(config, child, env).value == MergeOptions(config, child, env).value
  {
    var merged := MergeOptions(config, child, env).value;
    assert merged.base.Some? by {
      if !Given(child.base) {
        assert merged.base == config.base;
      }
    }
    WithDefaultsKeepsDefaulted(merged);
  }

  /** Extending with no options gives an instance that answers every request
      exactly as its parent does, with the same callbacks. */
  lemma ExtendEmptyIsParent(config: HttpOptions, env: Env, verb: Method, route: string, body: Body, options: RequestOptions)
    requires Defaulted(config)
    ensures ExtendSpec(config, NoHttpOptions, env).Ok?
    ensures RequestSpec(ExtendSpec(config, NoHttpOptions, env).value, verb, route, body, options, env) ==
            RequestSpec(config, verb, route, body, options, env)
  {
    ExtendKeepsDefaulted(config, NoHttpOptions, env);
    var extended := ExtendSpec(config, NoHttpOptions, env).value;
    assert extended.interceptors.request == config.interceptors.request;
    assert extended.interceptors.response == config.interceptors.response;
    assert extended.interceptors.on == config.interceptors.on;
    assert config.headers.GetOr(map[]) + map[] == config.headers.GetOr(map[]);
    assert extended == config.(headers := Some(config.headers.GetOr(map[])));
    assert ContextOptions(extended, options) == ContextOptions(config, options);
    assert EndpointSpec(extended, route, options, env) == EndpointSpec(config, route, options, env);
    assert Build(extended, verb, route, body, options, env) == Build(config, verb, route, body, options, env);
    match Build(config, verb, route, body, options, env)
    case Err(_) =>
    case Ok(before) =>
      assert Outgoing(extended, before) == Outgoing(config, before);
      assert Exchange(extended, before, env) == Exchange(config, before, env);
  }

  /** Extending twice nests the interceptors like an onion: request
      interceptors run outermost-first, response interceptors innermost-first. */
  lemma ExtendTwiceNests(config: HttpOptions, first: HttpOptions, second: HttpOptions, env: Env)
    requires MergeOptions(config, first, env).Ok?
    requires MergeOptions(MergeOptions(config, first, env).value, second, env).Ok?
    ensures var twice := MergeOptions(MergeOptions(config, first, env).value, second, env).value;
      twice.interceptors.request == config.interceptors.request + first.interceptors.request + second.interceptors.request &&
      twice.interceptors.response == second.interceptors.response + first.interceptors.response + config.interceptors.response
  {
    var once := MergeOptions(config, first, env).value;
    var twice := MergeOptions(once, second, env).value;
    assert twice.interceptors.response == second.interceptors.response + (first.interceptors.response + config.interceptors.response);
  }
}
