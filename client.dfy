/** The HTTP client: class `Http`. Its configuration is fixed at construction
    (`_options`, with the defaults spread underneath); every method runs the
    steps of the source in order and is proved to compute the corresponding
    specification function of module `Engine`. */
module Client {
  import opened Wrappers
  import opened Strings
  import opened Platform
  import opened Models
  import opened Guard
  import opened Outcomes
  import opened FormUrlEncoded
  import opened Engine

  class Http {
    /** `_options`: the configuration, defaults included. */
    const config: HttpOptions
    /** The platform the client runs on. */
    const env: Env

    /** `new Http(options)`. */
    constructor(options: HttpOptions, env: Env)
      ensures config == WithDefaults(options) && this.env == env
      ensures Defaulted(config)
    {
      config := WithDefaults(options);
      this.env := env;
    }

    /** `endpoint(route, options)`: the base and route joined, the query
        appended pair by pair, then the length bound and, for an absolute
        endpoint, the parser and the guard. */
    method Endpoint(route: string, options: RequestOptions) returns (r: Result<string, Thrown>)
      ensures r == EndpointSpec(config, route, options, env)
    {
      var base := BaseFor(config.base, options);
      var endpoint := Compose(base, route);
      if options.queries.Some? {
        endpoint := AppendQuery(endpoint, options.queries.value);
      }
      assert endpoint == Assembled(config, route, options);
      if Utf16Length(endpoint) > MaxLength {
        return Err(Library(UrlTooLong));
      }
      if Contains(endpoint, "://") {
        var parsed := env.parse(endpoint);
        if parsed.Rejected? {
          return Err(Library(InvalidUrl));
        }
        var verdict := AssertUrl(endpoint, parsed, Enabled(OrElse(options.unsafe, config.unsafe)),
                                 Enabled(OrElse(options.localhost, config.localhost)));
        if verdict.Err? {
          return Err(verdict.error);
        }
      }
      return Ok(endpoint);
    }

    /** `call(context)`: copies the headers, adds the JSON Content-Type when
        needed, checks the header values, then fetches. */
    method Call(context: RequestContext) returns (r: Result<Response, Thrown>)
      ensures r == CallSpec(config, context, env)
    {
      var timeout := SelectedTimeout(config, context);
      var headers := context.options.headers.GetOr(map[]);
      var found := false;
      var pending := headers.Keys;
      while pending != {} && !found
        invariant pending <= headers.Keys
        invariant found ==> HasContentType(headers)
        invariant !found ==> forall key :: key in headers && key !in pending ==> Lower(key) != "content-type"
        decreases pending
      {
        var key :| key in pending;
        found := Lower(key) == "content-type";
        pending := pending - {key};
      }
      if BodyTruthy(context.body) && !found && !context.body.Form? {
        headers := headers["Content-Type" := "application/json"];
      }
      var checked := AssertMetadata(headers);
      if checked.Err? {
        return Err(checked.error);
      }
      var request := FetchRequest(context.endpoint, context.verb, headers, PayloadOf(context.body),
                                  context.options.credentials, timeout);
      r := Transported(env.fetch(request));
    }

    /** The `try` block of `request`: build, request interceptors, call,
        `outcomify`, response interceptors, the rethrow of a failure, and the
        per-call `verify`. */
    method Try(verb: Method, route: string, body: Body, options: RequestOptions) returns (r: Result<Outcome<Value>, Thrown>)
      ensures r == Attempt(config, verb, route, body, options, env)
    {
      var endpoint := Endpoint(route, options);
      if endpoint.Err? {
        return Err(endpoint.error);
      }
      var before := RequestContext(verb, endpoint.value, ContextOptions(config, options), body);
      ghost var initial := before;
      var requests := config.interceptors.request;
      var i := 0;
      while i < |requests|
        invariant 0 <= i <= |requests|
        invariant Thread(requests[..i], initial) == Ok(before)
      {
        var next := requests[i](before);
        Step(requests, i, initial, before);
        if next.Err? {
          return Err(next.error);
        }
        before := next.value;
        i := i + 1;
      }
      assert requests[..i] == requests;

      var response := Call(before);
      if response.Err? {
        return Err(response.error);
      }
      var outcome := Outcomify(response.value, None, env.phrase);
      if outcome.Err? {
        return Err(outcome.error);
      }
      var after := ResponseContext(before.verb, before.endpoint, outcome.value, response.value);
      ghost var received := after;
      var responses := config.interceptors.response;
      var j := 0;
      while j < |responses|
        invariant 0 <= j <= |responses|
        invariant Thread(responses[..j], received) == Ok(after)
      {
        var next := responses[j](after);
        Step(responses, j, received, after);
        if next.Err? {
          return Err(next.error);
        }
        after := next.value;
        j := j + 1;
      }
      assert responses[..j] == responses;

      if after.outcome.Failed? {
        return Err(Raw(response.value, ReadsBody(response.value)));
      }
      if options.verify.Some? && !options.verify.value(after.outcome.data) {
        return Err(Library(Verify));
      }
      return Ok(after.outcome);
    }

    /** `request(method, endpoint, body, options)`: the outcome, and the
        effects of the callback it fires. */
    method Request(verb: Method, route: string, body: Body, options: RequestOptions) returns (outcome: Outcome<Value>, effects: seq<Effect>)
      ensures (outcome, effects) == RequestSpec(config, verb, route, body, options, env)
    {
      var attempt := Try(verb, route, body, options);
      match attempt
      case Ok(success) =>
        outcome := success;
        effects := Fire(config.interceptors.on.success, success);
      case Err(thrown) =>
        outcome := Failify(thrown, env.phrase, env.explain);
        if outcome.status == Unauthorized {
          effects := Fire(config.interceptors.on.unauthorized, outcome);
        } else {
          effects := Fire(config.interceptors.on.failure, outcome);
        }
    }

    method Get(route: string, options: RequestOptions) returns (outcome: Outcome<Value>, effects: seq<Effect>)
      ensures (outcome, effects) == RequestSpec(config, GET, route, NoBody, options, env)
    {
      outcome, effects := Request(GET, route, NoBody, options);
    }

    method Post(route: string, body: Body, options: RequestOptions) returns (outcome: Outcome<Value>, effects: seq<Effect>)
      ensures (outcome, effects) == RequestSpec(config, POST, route, body, options, env)
    {
      outcome, effects := Request(POST, route, body, options);
    }

    method Put(route: string, body: Body, options: RequestOptions) returns (outcome: Outcome<Value>, effects: seq<Effect>)
      ensures (outcome, effects) == RequestSpec(config, PUT, route, body, options, env)
    {
      outcome, effects := Request(PUT, route, body, options);
    }

    method Delete(route: string, options: RequestOptions) returns (outcome: Outcome<Value>, effects: seq<Effect>)
      ensures (outcome, effects) == RequestSpec(config, DELETE, route, NoBody, options, env)
    {
      outcome, effects := Request(DELETE, route, NoBody, options);
    }

    method Patch(route: string, body: Body, options: RequestOptions) returns (outcome: Outcome<Value>, effects: seq<Effect>)
      ensures (outcome, effects) == RequestSpec(config, PATCH, route, body, options, env)
    {
      outcome, effects := Request(PATCH, route, body, options);
    }

    /** `extend(options)`: a new client over the merged configuration, or
        what the merge or the guard threw. */
    method Extend(child: HttpOptions) returns (r: Result<Http, Thrown>)
      ensures ExtendSpec(config, child, env).Err? ==> r == Err(ExtendSpec(config, child, env).error)
      ensures ExtendSpec(config, child, env).Ok? ==>
                r.Ok? && fresh(r.value) && r.value.config == ExtendSpec(config, child, env).value && r.value.env == env
    {
      var merged := MergeOptions(config, child, env);
      if merged.Err? {
        return Err(merged.error);
      }
      if Given(child.base) && Given(merged.value.base) {
        var verdict := AssertUrl(merged.value.base.value, env.parse(merged.value.base.value),
                                 Enabled(merged.value.unsafe), Enabled(merged.value.localhost));
        if verdict.Err? {
          return Err(verdict.error);
        }
      }
      var http := new Http(merged.value, env);
      return Ok(http);
    }
  }

  /** The query block of `endpoint`: each pair appended to a
      `URLSearchParams` in order, then the serialization appended behind the
      separator the endpoint calls for. */
  method AppendQuery(endpoint: string, queries: seq<(string, QueryValue)>) returns (r: string)
    ensures r == WithQuery(endpoint, Serialize(QueryPairs(queries)))
  {
    var query: seq<(string, string)> := [];
    var i := 0;
    while i < |queries|
      invariant 0 <= i <= |queries|
      invariant query == QueryPairs(queries)[..i]
    {
      query := query + [(queries[i].0, QueryText(queries[i].1))];
      i := i + 1;
    }
    assert query == QueryPairs(queries);
    var search := Serialize(query);
    r := endpoint;
    if search != "" {
      var separator :=
        if EndsWith(endpoint, "?") || EndsWith(endpoint, "&") then ""
        else if Contains(endpoint, "?") then "&"
        else "?";
      r := endpoint + separator + search;
    }
  }

  /** One loop step of an interceptor run: the prefix grows by one stage, and
      a throwing stage ends the whole run with its error. */
  lemma Step<C>(stages: seq<Stage<C>>, i: nat, initial: C, current: C)
    requires i < |stages| && Thread(stages[..i], initial) == Ok(current)
    ensures stages[i](current).Ok? ==> Thread(stages[..i + 1], initial) == Ok(stages[i](current).value)
    ensures stages[i](current).Err? ==> Thread(stages, initial) == Err(stages[i](current).error)
  {
    assert stages[..i + 1] == stages[..i] + [stages[i]];
    ThreadAppend(stages[..i], [stages[i]], initial);
    assert Thread([stages[i]], current) == (match stages[i](current) case Ok(n) => Thread([stages[i]][1..], n) case Err(e) => Err(e));
    assert [stages[i]][1..] == [];
    if stages[i](current).Err? {
      assert stages == stages[..i + 1] + stages[i + 1..];
      ThreadAppend(stages[..i + 1], stages[i + 1..], initial);
    }
  }

  /** `create(options)`. */
  method Create(options: HttpOptions, env: Env) returns (http: Http)
    ensures fresh(http) && http.config == WithDefaults(options) && http.env == env
  {
    http := new Http(options, env);
  }
}
