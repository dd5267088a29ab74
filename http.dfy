/**
 * The values that pass through the worker in one request: the inbound
 * request, the plan handed to `fetch`, the upstream answer, the response, the
 * errors the worker throws or catches, and the foreign functions it calls.
 */
module Http {
  import opened Wrappers
  import opened JsString

  /**
   * The contents of a fetch `Headers` object. The runtime stores names in
   * lower case and joins repeated headers into one value.
   */
  type HeaderMap = m: map<string, string> | forall name :: name in m ==> IsLowerCase(name)
    witness map[]

  /** `headers.get(name)`: case-insensitive lookup, `None` standing for null. */
  function Get(h: HeaderMap, name: string): Option<string>
  {
    if Lower(name) in h then Some(h[Lower(name)]) else None
  }

  /** `headers.get(name) || fallback`: an absent or empty value gives the fallback. */
  function GetOr(h: HeaderMap, name: string, fallback: string): string
  {
    match Get(h, name)
    case Some(v) => if v != "" then v else fallback
    case None => fallback
  }

  /** The inbound request (`verb` is `request.method`); `body` is the raw payload its body readers see. */
  datatype Request = Request(verb: string, url: string, headers: HeaderMap, body: string)

  /** `fp.body`: what the body readers produced, or the `_body` override. */
  datatype OutBody =
    | NoBody
    | JsonText(json: string)      // JSON.stringify(await request.json())
    | PlainText(text: string)     // await request.text()
    | FormData(payload: string)   // await request.formData()
    | Blob(payload: string)       // await request.blob()
    | Override(value: string)     // headers["_body"]

  /** The `fetch(url, fp)` call: target and the `fp` object (`verb` is `fp.method`). */
  datatype OutboundRequest = OutboundRequest(url: string, verb: string, headers: map<string, string>, body: OutBody)

  /** What `fetch` resolved to: status, headers, and the body stream (as its contents). */
  datatype UpstreamResponse = UpstreamResponse(status: int, headers: HeaderMap, body: string)

  datatype ResponseBody =
    | Absent                          // null body
    | Literal(text: string)           // a literal string body
    | Json(code: int, msg: string)    // JSON.stringify({code, msg})
    | Stream(content: string)         // the upstream body, forwarded unchanged

  /**
   * The `Response` the worker returns. `headers` uses lower-case names, as the
   * runtime's `Headers` object does. `sent` is the request handed to `fetch`,
   * if one was.
   */
  datatype Response = Response(status: int, headers: map<string, string>, body: ResponseBody, sent: Option<OutboundRequest>)

  /**
   * What the `catch` block sees: a thrown string (which has no `message`) or
   * a runtime error object carrying a `message`.
   */
  datatype ProxyError = Thrown(text: string) | RuntimeError(message: string)

  /** `err.message || "Internal proxy error"` */
  function ErrorMessage(e: ProxyError): string
  {
    match e
    case Thrown(_) => "Internal proxy error"
    case RuntimeError(m) => if m != "" then m else "Internal proxy error"
  }

  /**
   * The message the error envelope shows is never empty: a runtime error's
   * own message when it has one, the fallback for a thrown string or an
   * empty message.
   */
  lemma ErrorMessageFallback(e: ProxyError)
    ensures ErrorMessage(e) != ""
    ensures e.RuntimeError? && e.message != "" ==> ErrorMessage(e) == e.message
    ensures e.Thrown? || e.message == "" ==> ErrorMessage(e) == "Internal proxy error"
  {
  }

  /**
   * The foreign functions the worker calls, each failing with the message of
   * the error it throws: `decodeURIComponent`; `JSON.parse` of an override
   * object, read as a flat string map; `JSON.stringify(await request.json())`;
   * `extractHostname` (the WHATWG URL parser, '' on failure); and `fetch`.
   */
  datatype Runtime = Runtime(
    decodeURIComponent: string -> Result<string, string>,
    parseJsonObject: string -> Result<map<string, string>, string>,
    reserializeJson: string -> Result<string, string>,
    hostnameOf: string -> string,
    fetch: OutboundRequest -> Result<UpstreamResponse, string>)
}
