/** The outcome helpers: decoding a response body (`unwrap`), turning a
    response into an `Outcome` (`outcomify`), building successes
    (`successify`) and failures (`failify`), normalising any way of obtaining
    an outcome (`unify`), and composing lifecycle callbacks (`chain`).

    `phrase` stands for the status-code library's `getReasonPhrase` and
    `explain` for the messages of the core's own error classes; both are
    outside the model and passed in. */
module Outcomes {
  import opened Wrappers
  import opened Strings
  import opened Platform
  import opened Models

  const NoContent := 204
  const RequestTimeout := 408
  const InternalServerError := 500

  /** `response.ok`: the status lies in 200..299. */
  predicate IsOk(status: int) {
    200 <= status <= 299
  }

  predicate JsonType(contentType: Option<string>) {
    contentType.Some? && Contains(contentType.value, "application/json")
  }

  /** A Content-Type `unwrap` reads as text: one mentioning `xml` or `text/`. */
  predicate TextType(contentType: Option<string>) {
    contentType.Some? && (Contains(contentType.value, "xml") || Contains(contentType.value, "text/"))
  }

  /** Whether `unwrap` reads the body stream: every path except the one that
      answers a 204 without a recognised Content-Type. */
  predicate ReadsBody(response: Response) {
    JsonType(response.contentType) || TextType(response.contentType) || response.status != NoContent
  }

  /** `unwrap`: JSON for a JSON Content-Type (throwing the parser's
      `SyntaxError` on a malformed body), text for XML and `text/` types,
      `undefined` for a 204, and text otherwise. */
  function Unwrap(response: Response): (r: Result<Value, Thrown>)
    ensures JsonType(response.contentType) ==>
              (r.Ok? <==> response.json.Valid?) &&
              (r.Ok? ==> r.value == Data(response.json.json))
    ensures !JsonType(response.contentType) ==> r.Ok? && !r.value.Data?
    ensures r.Ok? && r.value.Text? ==> r.value.text == response.text
    ensures r.Ok? && r.value == Undefined <==> !ReadsBody(response)
    ensures r.Err? ==> r.error.Error? && r.error.name == "SyntaxError"
  {
    if JsonType(response.contentType) then
      match response.json
      case Valid(json) => Ok(Data(json))
      case Malformed(message) => Err(Error("SyntaxError", message))
    else if TextType(response.contentType) then Ok(Text(response.text))
    else if response.status == NoContent then Ok(Undefined)
    else Ok(Text(response.text))
  }

  /** `outcomify(response, verify)`: a non-2xx response becomes a failure
      carrying its reason phrase and decoded body; a 2xx response whose data
      `verify` rejects throws `VerifyError`; any other 2xx response becomes a
      success carrying its status and decoded data. */
  function Outcomify(response: Response, verify: Option<Value -> bool>, phrase: int -> string): (r: Result<Outcome<Value>, Thrown>)
    ensures Unwrap(response).Err? ==> r == Err(Unwrap(response).error)
    ensures Unwrap(response).Ok? ==>
      var data := Unwrap(response).value;
      if !IsOk(response.status) then
        r == Ok(Failed(response.status, phrase(response.status), Some(data)))
      else if verify.Some? && !verify.value(data) then
        r == Err(Library(Verify))
      else
        r == Ok(Success(response.status, data))
    ensures r.Ok? ==> r.value.status == response.status && (r.value.Success? <==> IsOk(response.status))
  {
    var data :- Unwrap(response);
    if !IsOk(response.status) then
      Ok(Failed(response.status, phrase(response.status), Some(data)))
    else if verify.Some? && !verify.value(data) then
      Err(Library(Verify))
    else
      Ok(Success(response.status, data))
  }

  /** `successify(data, status)`. The status type `SuccessStatusCode` admits
      exactly 200..229 (`Models.SuccessStatusCodeRange`). */
  function Successify<D>(data: D, status: int := 200): (r: Outcome<D>)
    requires 200 <= status <= 229
    ensures r.Success? && r.data == data && r.status == status
  {
    Success(status, data)
  }

  /** `isCancelled`: an `Error` named `AbortError` or `TimeoutError`. */
  predicate IsCancelled(thrown: Thrown) {
    thrown.Error? && (thrown.name == "AbortError" || thrown.name == "TimeoutError")
  }

  /** Only an `Error` can be a cancellation, and it is one exactly when its
      name is `AbortError` or `TimeoutError`: a thrown `Response`, an error of
      the library's own classes and a non-`Error` value never are. */
  lemma CancelledOnlyByName(thrown: Thrown, message: string)
    ensures IsCancelled(thrown) ==> thrown.Error? && (thrown.name == "AbortError" || thrown.name == "TimeoutError")
    ensures thrown.Raw? || thrown.Library? || thrown.Other? ==> !IsCancelled(thrown)
    ensures IsCancelled(Error("AbortError", message)) && IsCancelled(Error("TimeoutError", message))
    ensures thrown.Error? && thrown.name != "AbortError" && thrown.name != "TimeoutError" ==> !IsCancelled(thrown)
  {
  }

  /** The `message` member of a parsed body, when it is a non-empty string. */
  function MessageOf(body: Json): Option<string> {
    if body.JObject? && "message" in body.members && body.members["message"].JString?
       && body.members["message"].s != ""
    then Some(body.members["message"].s)
    else None
  }

  /** `failify` on a thrown `Response`: `clone().json()` fails (and the failure
      carries no body) when the body was already read, is not JSON, or is
      `null` (reading `.message` of `null` throws). */
  function FailifyResponse<D>(response: Response, consumed: bool, phrase: int -> string): (r: Outcome<D>)
    ensures r.Failed? && r.status == response.status
    ensures r.body.Some? <==> !consumed && response.json.Valid? && response.json.json != JNull
    ensures r.body.Some? ==> r.body.value == Data(response.json.json)
    ensures r.body.Some? && MessageOf(response.json.json).Some? ==> r.message == MessageOf(response.json.json).value
    ensures r.body.None? || MessageOf(response.json.json).None? ==> r.message == phrase(response.status)
  {
    var status := response.status;
    if consumed || response.json.Malformed? || response.json.json == JNull then
      Failed(status, phrase(status), None)
    else
      var body := response.json.json;
      Failed(status, MessageOf(body).GetOr(phrase(status)), Some(Data(body)))
  }

  /** `failify`: any thrown value becomes a failure. A thrown response keeps
      its status; a cancellation is a 408; any other `Error` a 500 carrying
      its message (or the reason phrase when the message is empty); anything
      else a bare 500. */
  function Failify<D>(thrown: Thrown, phrase: int -> string, explain: Fault -> string): (r: Outcome<D>)
    ensures r.Failed?
    ensures thrown.Raw? ==> r == FailifyResponse(thrown.response, thrown.consumed, phrase)
    ensures IsCancelled(thrown) ==> r == Failed(RequestTimeout, phrase(RequestTimeout), None)
    ensures !thrown.Raw? && !IsCancelled(thrown) ==> r.status == InternalServerError && r.body.None?
    ensures thrown.Error? && !IsCancelled(thrown) && thrown.message != "" ==> r.message == thrown.message
    ensures thrown.Error? && !IsCancelled(thrown) && thrown.message == "" ==> r.message == phrase(InternalServerError)
    ensures thrown.Library? ==>
              r.message == (if explain(thrown.fault) != "" then explain(thrown.fault) else phrase(InternalServerError))
    ensures thrown.Other? ==> r.message == phrase(InternalServerError)
  {
    match thrown
    case Raw(response, consumed) => FailifyResponse(response, consumed, phrase)
    case Error(name, message) =>
      if IsCancelled(thrown) then Failed(RequestTimeout, phrase(RequestTimeout), None)
      else Failed(InternalServerError, if message != "" then message else phrase(InternalServerError), None)
    case Library(fault) =>
      var message := explain(fault);
      Failed(InternalServerError, if message != "" then message else phrase(InternalServerError), None)
    case Other => Failed(InternalServerError, phrase(InternalServerError), None)
  }

  /** What a resolver function returns: an endpoint to hand to the executor,
      or a finished outcome. */
  datatype Resolution<D> = Route(endpoint: string) | Ready(outcome: Outcome<D>)

  /** The `source` of `unify`: an endpoint string, or what calling the
      resolver function on the parameters produced (a resolution, or what it
      threw). */
  datatype Source<D> = Endpoint(endpoint: string) | Resolver(resolved: Result<Resolution<D>, Thrown>)

  /** An executor's result with anything it threw turned into a failure. */
  function Recover<D>(result: Result<Outcome<D>, Thrown>, phrase: int -> string, explain: Fault -> string): (r: Outcome<D>)
    ensures result.Ok? ==> r == result.value
    ensures result.Err? ==> r == Failify(result.error, phrase, explain)
  {
    match result
    case Ok(outcome) => outcome
    case Err(thrown) => Failify(thrown, phrase, explain)
  }

  /** `unify`: every way of obtaining an outcome ends in an outcome, never a
      throw. An endpoint (given or resolved) goes to the executor; a finished
      outcome is returned as is unless it is a success `verify` rejects. */
  function Unify<D>(source: Source<D>, executor: string -> Result<Outcome<D>, Thrown>, verify: Option<D -> bool>,
                    phrase: int -> string, explain: Fault -> string): (r: Outcome<D>)
    ensures source.Endpoint? ==> r == Recover(executor(source.endpoint), phrase, explain)
    ensures source.Resolver? && source.resolved.Err? ==> r == Failify(source.resolved.error, phrase, explain)
    ensures source.Resolver? && source.resolved.Ok? && source.resolved.value.Route? ==>
              r == Recover(executor(source.resolved.value.endpoint), phrase, explain)
    ensures source.Resolver? && source.resolved.Ok? && source.resolved.value.Ready? ==>
              var outcome := source.resolved.value.outcome;
              if outcome.Success? && verify.Some? && !verify.value(outcome.data)
              then r == Failify(Library(Verify), phrase, explain)
              else r == outcome
  {
    match source
    case Endpoint(endpoint) => Recover(executor(endpoint), phrase, explain)
    case Resolver(Err(thrown)) => Failify(thrown, phrase, explain)
    case Resolver(Ok(Route(endpoint))) => Recover(executor(endpoint), phrase, explain)
    case Resolver(Ok(Ready(outcome))) =>
      if outcome.Success? && verify.Some? && !verify.value(outcome.data) then Failify(Library(Verify), phrase, explain)
      else outcome
  }

  /** A success built by `successify` passes through `unify` unchanged when
      `verify` accepts its data, and becomes a 500 failure when it does not. */
  lemma UnifyReady<D>(data: D, executor: string -> Result<Outcome<D>, Thrown>, verify: Option<D -> bool>,
                      phrase: int -> string, explain: Fault -> string)
    ensures var r := Unify(Resolver(Ok(Ready(Successify(data)))), executor, verify, phrase, explain);
      (verify.None? || verify.value(data) ==> r == Success(200, data)) &&
      (verify.Some? && !verify.value(data) ==> r.Failed? && r.status == InternalServerError)
  {
  }

  /** What firing an optional callback on an outcome does. */
  function Fire(callback: Option<Callback>, outcome: Outcome<Value>): seq<Effect> {
    match callback
    case Some(f) => f(outcome)
    case None => []
  }

  /** `chain(parent, child)`: both callbacks, parent first, when both are
      present; otherwise whichever is present. */
  function Chain(parent: Option<Callback>, child: Option<Callback>): (r: Option<Callback>)
    ensures r.None? <==> parent.None? && child.None?
    ensures forall outcome :: Fire(r, outcome) == Fire(parent, outcome) + Fire(child, outcome)
  {
    if parent.Some? && child.Some? then
      var first, second := parent.value, child.value;
      Some(outcome => first(outcome) + second(outcome))
    else if parent.Some? then parent
    else child
  }
}
