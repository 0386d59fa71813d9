/** The HTTP core's data model: the `Outcome` union, the request and response
    contexts threaded through interceptors, the client configuration, and the
    type-level helpers that recompute an extended client's base URL. */
module Models {
  import opened Wrappers
  import opened Strings
  import opened Platform

  /** Every request resolves to exactly one of these two shapes; `success` is
      the constructor tag. `body` is `None` when the property is absent. */
  datatype Outcome<D> =
    | Success(status: int, data: D)
    | Failed(status: int, message: string, body: Option<Value>)

  datatype Method = GET | POST | PUT | DELETE | PATCH

  /** The `RequestCredentials` policies fetch accepts. */
  datatype Credentials = Omit | SameOrigin | Include

  /** A query parameter value: `string | number | boolean`. */
  datatype QueryValue = QText(text: string) | QNumber(number: int) | QFlag(flag: bool)

  /** A `FormData` payload, as its entries. */
  datatype FormData = FormData(entries: seq<(string, string)>)

  /** A request body: `undefined`, any JSON-like value, or `FormData`. */
  datatype Body = NoBody | Content(json: Json) | Form(form: FormData)

  /** JavaScript truthiness of a request body. */
  predicate BodyTruthy(body: Body) {
    match body
    case NoBody => false
    case Content(j) => Truthy(j)
    case Form(_) => true
  }

  /** Per-call options. `queries` are `Object.entries(queries)`, in order. */
  datatype RequestOptions = RequestOptions(
    queries: Option<seq<(string, QueryValue)>>,
    timeout: Option<int>,
    base: Option<string>,
    verify: Option<Value -> bool>,
    unsafe: Option<bool>,
    localhost: Option<bool>,
    headers: Option<map<string, string>>,
    credentials: Option<Credentials>)

  /** A call made without options. */
  const NoOptions := RequestOptions(None, None, None, None, None, None, None, None)

  datatype RequestContext = RequestContext(
    verb: Method,
    endpoint: string,
    options: RequestOptions,
    body: Body)

  datatype ResponseContext = ResponseContext(
    verb: Method,
    endpoint: string,
    outcome: Outcome<Value>,
    raw: Response)

  /** An interceptor: a (possibly throwing) transformation of a context. */
  type Stage<!C> = C -> Result<C, Thrown>

  type RequestInterceptor = Stage<RequestContext>

  type ResponseInterceptor = Stage<ResponseContext>

  /** What a lifecycle callback does observably, recorded as a trace. */
  datatype Effect = Effect(tag: string, outcome: Outcome<Value>)

  type Callback = Outcome<Value> -> seq<Effect>

  /** The lifecycle callbacks; an absent `on` object is the one with all three absent. */
  datatype OnInterceptor = OnInterceptor(
    success: Option<Callback>,
    unauthorized: Option<Callback>,
    failure: Option<Callback>)

  const NoCallbacks := OnInterceptor(None, None, None)

  /** Absent interceptor lists are empty lists: the source reads them with `|| []`. */
  datatype Interceptors = Interceptors(
    request: seq<RequestInterceptor>,
    response: seq<ResponseInterceptor>,
    on: OnInterceptor)

  const NoInterceptors := Interceptors([], [], NoCallbacks)

  /** The client configuration; `None` is an absent or `undefined` field. */
  datatype HttpOptions = HttpOptions(
    base: Option<string>,
    timeout: Option<int>,
    headers: Option<map<string, string>>,
    interceptors: Interceptors,
    credentials: Option<Credentials>,
    unsafe: Option<bool>,
    localhost: Option<bool>)

  const NoHttpOptions := HttpOptions(None, None, None, NoInterceptors, None, None, None)

  /** JavaScript truthiness of an optional string (`''` and `undefined` are falsy). */
  predicate Given(s: Option<string>) {
    s.Some? && s.value != ""
  }

  /** JavaScript truthiness of an optional flag. */
  predicate Enabled(flag: Option<bool>) {
    flag == Some(true)
  }

  // ---------------------------------------------------------------------------
  // Type-level helpers. The source computes these in TypeScript's type system
  // to give an extended client the static type of its new base URL.
  // ---------------------------------------------------------------------------

  predicate HasProtocol(value: string) {
    StartsWith(value, "http://") || StartsWith(value, "https://")
  }

  predicate HasStartSlash(value: string) {
    StartsWith(value, "/")
  }

  /** `TrimEndSlash`: every trailing `/` removed, one at a time. */
  function TrimEndSlash(value: string): (r: string)
    ensures !EndsWith(r, "/")
    ensures StartsWith(value, r)
    ensures forall i :: |r| <= i < |value| ==> value[i] == '/'
  {
    TrimTrailing(value, '/')
  }

  function TrimStartSlash(value: string): string {
    if HasStartSlash(value) then value[1..] else value
  }

  /** `Origin`: `scheme://host` up to the first `/` after the first `://`,
      the whole value when no `/` follows, and `never` (None) without `://`. */
  function Origin(value: string): (r: Option<string>)
    ensures r.Some? <==> Contains(value, "://")
    ensures r.Some? ==> StartsWith(value, r.value) && Contains(r.value, "://")
    // The host part, after the first `://`, holds no `/`; the origin is the
    // whole value or is followed in it by a `/`.
    ensures r.Some? ==>
              IndexOf(value, "://") + 3 <= |r.value| && '/' !in r.value[IndexOf(value, "://") + 3..]
    ensures r.Some? ==> r.value == value || value[|r.value|] == '/'
  {
    var i := IndexOf(value, "://");
    if i == -1 then None
    else
      var rest := value[i + 3..];
      var j := FindChar(rest, '/');
      if j == -1 then
        Some(value)
      else
        var origin := value[..i + 3 + j];
        assert origin[i..i + 3] == value[i..i + 3];
        ContainsAt(origin, "://", i);
        Some(origin)
  }

  /** `Join<Parent, Child>`; `None` stands for the type `never`. */
  function Join(parent: string, child: string): (r: Option<string>)
    ensures r.Some?
  {
    if child == "" then Some(parent)
    else if HasProtocol(child) then Some(child)
    else if HasStartSlash(child) then
      if HasProtocol(parent) then
        ProtocolHasOrigin(parent);
        match Origin(parent)
        case Some(origin) => Some(origin + child)
        case None => None
      else Some(child)
    else if parent == "" then Some(child)
    else Some(TrimEndSlash(parent) + "/" + TrimStartSlash(child))
  }

  lemma ProtocolHasOrigin(value: string)
    requires HasProtocol(value)
    ensures Contains(value, "://")
  {
    if StartsWith(value, "http://") {
      assert value[4..7] == "://";
      ContainsAt(value, "://", 4);
    } else {
      assert value[5..8] == "://";
      ContainsAt(value, "://", 5);
    }
  }

  /** `ExtendedBase`: the base of a client extended with `extended`, whose
      `base` is `None` when the override has none. */
  function ExtendedBase(base: string, extended: Option<string>): (r: Option<string>)
    ensures !Given(extended) ==> r == Some(base)
    ensures Given(extended) ==> r == Join(base, extended.value)
  {
    if extended.None? then Some(base)
    else if extended.value == "" then Some(base)
    else Join(base, extended.value)
  }

  /** The digits 0..9 and the three leading pairs of `SuccessStatusCode`. */
  function StatusTemplate(tens: nat, unit: nat): (s: string)
    requires tens < 3 && unit < 10
    ensures AllDigits(s)
  {
    ["20", "21", "22"][tens] + [DigitChar(unit)]
  }

  /** `SuccessStatusCode`: `ToNumber` of `20${Digit}`, `21${Digit}` or `22${Digit}`. */
  ghost predicate IsSuccessStatusCode(n: int) {
    exists tens: nat, unit: nat :: tens < 3 && unit < 10 && n == ParseDecimal(StatusTemplate(tens, unit))
  }

  lemma StatusTemplateValue(tens: nat, unit: nat)
    requires tens < 3 && unit < 10
    ensures ParseDecimal(StatusTemplate(tens, unit)) == 200 + 10 * tens + unit
  {
    var s := StatusTemplate(tens, unit);
    assert s == ['2', DigitChar(tens), DigitChar(unit)];
    assert s[..2] == ['2', DigitChar(tens)];
    assert s[..2][..1] == ['2'];
    assert s[..2][..1][..0] == [];
    assert ParseDecimal(s[..2][..1]) == 2;
    assert ParseDecimal(s[..2]) == 20 + tens;
  }

  /** `SuccessStatusCode` is exactly the integers 200..229. */
  lemma SuccessStatusCodeRange(n: int)
    ensures IsSuccessStatusCode(n) <==> 200 <= n <= 229
  {
    if IsSuccessStatusCode(n) {
      var tens: nat, unit: nat :| tens < 3 && unit < 10 && n == ParseDecimal(StatusTemplate(tens, unit));
      StatusTemplateValue(tens, unit);
    }
    if 200 <= n <= 229 {
      var tens: nat, unit: nat := (n - 200) / 10, (n - 200) % 10;
      StatusTemplateValue(tens, unit);
      assert n == ParseDecimal(StatusTemplate(tens, unit));
    }
  }
}
