/** The values the core receives from, and throws into, the JavaScript
    platform: parsed JSON, a fetch `Response`, a parsed `URL`, and whatever a
    `throw` can carry. The platform's own algorithms (JSON parsing, URL
    parsing, the network) stay outside the model; only their results appear. */
module Platform {
  import opened Wrappers

  /** A JSON value as `JSON.parse` produces it (integral numbers only). */
  datatype Json =
    | JNull
    | JBool(b: bool)
    | JNumber(n: int)
    | JString(s: string)
    | JArray(items: seq<Json>)
    | JObject(members: map<string, Json>)

  /** JavaScript truthiness of a parsed JSON value. */
  predicate Truthy(j: Json) {
    match j
    case JNull => false
    case JBool(b) => b
    case JNumber(n) => n != 0
    case JString(s) => s != ""
    case JArray(_) => true
    case JObject(_) => true
  }

  /** A decoded response body: `undefined`, a string from `text()`, or a value
      from `json()`. */
  datatype Value = Undefined | Text(text: string) | Data(json: Json)

  /** What `JSON.parse` makes of a body: a value, or a `SyntaxError` message. */
  datatype JsonReading = Valid(json: Json) | Malformed(message: string)

  /** A fetch `Response`: its status, its Content-Type header, the body as text
      and the body as JSON. */
  datatype Response = Response(
    status: int,
    contentType: Option<string>,
    text: string,
    json: JsonReading)

  /** The errors defined by the core itself (its errors module). */
  datatype Fault = UnsafeUrl | InvalidMetadata | InvalidUrl | UrlTooLong | Verify

  /** Anything a `throw` can carry. `Raw` is a thrown `Response`; `consumed`
      records that its body stream has already been read. `Error` is any
      platform or user `Error` object, `Library` one of the core's own errors,
      and `Other` any value that is not an `Error` (a string, say). */
  datatype Thrown =
    | Raw(response: Response, consumed: bool)
    | Error(name: string, message: string)
    | Library(fault: Fault)
    | Other

  /** The parts of a WHATWG `URL` object the core reads. */
  datatype Url = Url(protocol: string, hostname: string, origin: string, href: string)

  /** The outcome of `new URL(...)`: a URL, or the `TypeError` message it throws. */
  datatype UrlParse = Resolved(url: Url) | Rejected(message: string)

  /** What the network primitive does with one request: deliver a response,
      reject because the abort signal fired, or reject with some other error. */
  datatype Transport = Delivered(response: Response) | Cancelled(message: string) | Failure(thrown: Thrown)
}
