/** The monitor interceptors: each reports a snapshot of the context to an
    observer and passes the context on untouched. The observer's own effects
    are outside the model; a call records the events it is handed. */
module Monitor {
  import opened Wrappers
  import opened Platform
  import opened Models
  import opened Engine

  /** What the observer is handed; the constructor stands for the `kind`. */
  datatype MonitorEvent =
    | MonitorRequested(verb: Method, endpoint: string, options: RequestOptions, body: Body)
    | MonitorResponded(verb: Method, endpoint: string, status: int, outcome: Outcome<Value>)

  /** `monitor.requested(...)` applied to a context: the context it returns
      and the events it hands the observer. */
  function Requested(context: RequestContext): (r: (RequestContext, seq<MonitorEvent>))
    ensures r.0 == context
    ensures |r.1| == 1 && r.1[0].MonitorRequested?
    ensures r.1[0].verb == context.verb && r.1[0].endpoint == context.endpoint
    ensures r.1[0].options == context.options && r.1[0].body == context.body
  {
    (context, [MonitorRequested(context.verb, context.endpoint, context.options, context.body)])
  }

  /** `monitor.responded(...)` applied to a context. The reported status is
      the raw response's, which a response interceptor may have made differ
      from the outcome's. */
  function Responded(context: ResponseContext): (r: (ResponseContext, seq<MonitorEvent>))
    ensures r.0 == context
    ensures |r.1| == 1 && r.1[0].MonitorResponded?
    ensures r.1[0].verb == context.verb && r.1[0].endpoint == context.endpoint
    ensures r.1[0].status == context.raw.status && r.1[0].outcome == context.outcome
  {
    (context, [MonitorResponded(context.verb, context.endpoint, context.raw.status, context.outcome)])
  }

  /** The monitors as they sit in an interceptor list. */
  function RequestMonitor(): RequestInterceptor {
    context => Ok(Requested(context).0)
  }

  function ResponseMonitor(): ResponseInterceptor {
    context => Ok(Responded(context).0)
  }

  /** A stage that passes every context through can be dropped from a run. */
  lemma PassThroughDrops<C>(before: seq<Stage<C>>, stage: Stage<C>, after: seq<Stage<C>>, context: C)
    requires forall c :: stage(c) == Ok(c)
    ensures Thread(before + [stage] + after, context) == Thread(before + after, context)
  {
    ThreadAppend(before, [stage] + after, context);
    ThreadAppend(before, after, context);
    assert before + [stage] + after == before + ([stage] + after);
    match Thread(before, context)
    case Err(_) =>
    case Ok(next) =>
      assert ([stage] + after)[1..] == after;
  }

  /** Adding a request monitor anywhere among the request interceptors leaves
      every request's outcome and callbacks unchanged. */
  lemma RequestMonitorIsTransparent(config: HttpOptions, before: seq<RequestInterceptor>, after: seq<RequestInterceptor>,
                                    verb: Method, route: string, body: Body, options: RequestOptions, env: Env)
    ensures var watched := config.(interceptors := config.interceptors.(request := before + [RequestMonitor()] + after));
      var plain := config.(interceptors := config.interceptors.(request := before + after));
      RequestSpec(watched, verb, route, body, options, env) == RequestSpec(plain, verb, route, body, options, env)
  {
    var watched := config.(interceptors := config.interceptors.(request := before + [RequestMonitor()] + after));
    var plain := config.(interceptors := config.interceptors.(request := before + after));
    assert EndpointSpec(watched, route, options, env) == EndpointSpec(plain, route, options, env);
    assert ContextOptions(watched, options) == ContextOptions(plain, options);
    match EndpointSpec(plain, route, options, env)
    case Err(_) =>
    case Ok(endpoint) =>
      PassThroughDrops(before, RequestMonitor(), after, RequestContext(verb, endpoint, ContextOptions(plain, options), body));
      assert Build(watched, verb, route, body, options, env) == Build(plain, verb, route, body, options, env);
      match Build(plain, verb, route, body, options, env)
      case Err(_) =>
      case Ok(context) =>
        assert Exchange(watched, context, env) == Exchange(plain, context, env);
  }

  /** Adding a response monitor anywhere among the response interceptors
      leaves every request's outcome and callbacks unchanged. */
  lemma ResponseMonitorIsTransparent(config: HttpOptions, before: seq<ResponseInterceptor>, after: seq<ResponseInterceptor>,
                                     verb: Method, route: string, body: Body, options: RequestOptions, env: Env)
    ensures var watched := config.(interceptors := config.interceptors.(response := before + [ResponseMonitor()] + after));
      var plain := config.(interceptors := config.interceptors.(response := before + after));
      RequestSpec(watched, verb, route, body, options, env) == RequestSpec(plain, verb, route, body, options, env)
  {
    var watched := config.(interceptors := config.interceptors.(response := before + [ResponseMonitor()] + after));
    var plain := config.(interceptors := config.interceptors.(response := before + after));
    assert EndpointSpec(watched, route, options, env) == EndpointSpec(plain, route, options, env);
    assert ContextOptions(watched, options) == ContextOptions(plain, options);
    assert Build(watched, verb, route, body, options, env) == Build(plain, verb, route, body, options, env);
    match Build(plain, verb, route, body, options, env)
    case Err(_) =>
    case Ok(context) =>
      assert Outgoing(watched, context) == Outgoing(plain, context);
      assert CallSpec(watched, context, env) == CallSpec(plain, context, env);
      match CallSpec(plain, context, env)
      case Err(_) =>
      case Ok(response) =>
        match Outcomes.Outcomify(response, None, env.phrase)
        case Err(_) =>
        case Ok(outcome) =>
          PassThroughDrops(before, ResponseMonitor(), after, ResponseContext(context.verb, context.endpoint, outcome, response));
          assert Exchange(watched, context, env) == Exchange(plain, context, env);
  }
}
