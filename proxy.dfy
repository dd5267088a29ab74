/**
 * `handleRequest`: the per-request decisions of the worker, from the
 * preflight short-cut to the assembled response. `Respond` states the whole
 * decision as a function; `HandleRequest` is the worker's imperative code,
 * proved to compute it.
 */
module Proxy {
  import opened Wrappers
  import opened JsString
  import opened Http
  import opened DomainMatcher
  import opened UrlParser
  import opened HeaderReconciler
  import opened BodyTranscoder

  /** `fp.method`: the `_method` override upper-cased, else the inbound method. */
  function ResolveMethod(verb: string, overrides: map<string, string>): string
  {
    if "_method" in overrides then Upper(overrides["_method"]) else verb
  }

  /** Not `url.length < 3 || url.indexOf('.') == -1`; the length is in UTF-16 code units (`HasThreeUnitsIff`). */
  predicate IsValidTarget(url: string)
  {
    HasThreeUnits(url) && IndexOf(url, ".") != -1
  }

  predicate IsWellKnownPath(url: string)
  {
    url == "favicon.ico" || url == "robots.txt"
  }

  /** `http://` is prepended when the lower-cased target contains no `http` at all. */
  function WithScheme(url: string): string
  {
    if IndexOf(Lower(url), "http") == -1 then "http://" + url else url
  }

  function DeniedMessage(hostname: string): string
  {
    "Access denied: domain '" + hostname + "' is not in the allowed list"
  }

  /** The fixed answer to `OPTIONS`. */
  function PreflightResponse(): Response
  {
    Response(200,
      map["access-control-allow-credentials" := "true",
          "access-control-allow-headers" := "*",
          "access-control-allow-methods" := "*",
          "access-control-allow-origin" := "*",
          "access-control-max-age" := "31536000",
          "x-request-type" := "CORS Preflight"],
      Literal(""), None)
  }

  /** `Response.redirect('https://workers.cloudflare.com', 307)`; the URL is serialised with its `/` path. */
  function RedirectResponse(): Response
  {
    Response(307, map["location" := "https://workers.cloudflare.com/"], Absent, None)
  }

  /** The 403 answer for a host outside the allow-list; it carries only these two headers. */
  function DeniedResponse(hostname: string): Response
  {
    Response(403,
      map["content-type" := "application/json", "access-control-allow-origin" := "*"],
      Json(403, DeniedMessage(hostname)), None)
  }

  /** `outHeaders.set("content-type", outCt)` when `outCt` is truthy. */
  function WithContentType(h: map<string, string>, ct: Option<string>): map<string, string>
  {
    if Truthy(ct) then h["content-type" := ct.value] else h
  }

  /** How the `try` block ends for a non-preflight request. */
  datatype Outcome =
    | Redirect
    | Deny(hostname: string)
    | Fetched(sent: OutboundRequest, upstream: UpstreamResponse)
    | Failed(attempted: Option<OutboundRequest>, error: ProxyError)

  /** The outbound request built for a target that passed the gate. */
  function Plan(rt: Runtime, req: Request, url: string, overrides: map<string, string>): Result<OutboundRequest, ProxyError>
  {
    match BodyPlan(rt, req, overrides)
    case Failure(e) => Failure(e)
    case Success(body) =>
      Success(OutboundRequest(url, ResolveMethod(req.verb, overrides), OutboundHeaders(req.headers, overrides, req.verb), body))
  }

  /** The `try` block's decisions, given what `parseURL` produced. */
  function Route(rt: Runtime, allowList: seq<string>, req: Request, parsed: Result<ParsedURL, ProxyError>): Outcome
  {
    match parsed
    case Failure(e) => Failed(None, e)
    case Success(t) =>
      if !IsValidTarget(t.url) then Failed(None, Thrown("invalid URL input: " + t.url))
      else if IsWellKnownPath(t.url) then Redirect
      else
        var url := WithScheme(t.url);
        var hostname := rt.hostnameOf(url);
        if !IsAllowedDomain(allowList, hostname) then Deny(hostname)
        else match Plan(rt, req, url, t.headers)
          case Failure(e) => Failed(None, e)
          case Success(fp) =>
            match rt.fetch(fp)
            case Failure(m) => Failed(Some(fp), RuntimeError(m))
            case Success(fr) => Fetched(fp, fr)
  }

  function Forward(rt: Runtime, allowList: seq<string>, req: Request): Outcome
  {
    Route(rt, allowList, req, ParseURL(rt, req.url))
  }

  /** The response once the `try` block has ended: redirect, refusal, error envelope or the upstream answer. */
  function Assemble(req: Request, outcome: Outcome): Response
  {
    match outcome
      case Redirect => RedirectResponse()
      case Deny(hostname) => DeniedResponse(hostname)
      case Failed(attempted, e) =>
        Response(500, WithContentType(CorsHeaders(req.headers), Some("application/json")),
                 Json(-1, ErrorMessage(e)), attempted)
      case Fetched(fp, fr) =>
        var base := WithContentType(CorsHeaders(req.headers), Get(fr.headers, "content-type"));
        Response(fr.status, Passthrough(base, fr.headers, SubscriptionHeaderNames), Stream(fr.body), Some(fp))
  }

  /** The response to one inbound request. */
  function Respond(rt: Runtime, allowList: seq<string>, req: Request): Response
  {
    if req.verb == "OPTIONS" then PreflightResponse() else Assemble(req, Forward(rt, allowList, req))
  }

  /** The loop over `reqHeaders.entries()` that fills `fp.headers`. */
  method CopyForwardableHeaders(inbound: HeaderMap) returns (fpHeaders: map<string, string>)
    ensures forall k :: k in fpHeaders <==> k in inbound && IsForwardable(k)
    ensures forall k :: k in fpHeaders ==> fpHeaders[k] == inbound[k]
  {
    fpHeaders := map[];
    var pending := inbound.Keys;
    while pending != {}
      invariant pending <= inbound.Keys
      invariant forall k :: k in fpHeaders <==> k in inbound && k !in pending && IsForwardable(k)
      invariant forall k :: k in fpHeaders ==> fpHeaders[k] == inbound[k]
      decreases pending
    {
      var name :| name in pending;
      if IsForwardable(name) {
        fpHeaders := fpHeaders[name := inbound[name]];
      }
      pending := pending - {name};
    }
  }

  /** The loop that copies the subscription headers into `outHeaders`. */
  method ForwardSubscriptionHeaders(outHeaders: map<string, string>, upstream: HeaderMap) returns (r: map<string, string>)
    ensures r == Passthrough(outHeaders, upstream, SubscriptionHeaderNames)
  {
    r := outHeaders;
    var i := 0;
    while i < |SubscriptionHeaderNames|
      invariant 0 <= i <= |SubscriptionHeaderNames|
      invariant r == Passthrough(outHeaders, upstream, SubscriptionHeaderNames[..i])
    {
      var headerName := SubscriptionHeaderNames[i];
      var headerValue := Get(upstream, headerName);
      if Truthy(headerValue) {
        r := r[Lower(headerName) := headerValue.value];
      }
      assert SubscriptionHeaderNames[..i + 1][..i] == SubscriptionHeaderNames[..i];
      i := i + 1;
    }
    assert SubscriptionHeaderNames[..i] == SubscriptionHeaderNames;
  }

  /** The construction of `fp`: method, headers and body of the outbound request. */
  method BuildRequest(rt: Runtime, req: Request, url: string, headers: map<string, string>)
    returns (plan: Result<OutboundRequest, ProxyError>)
    ensures plan == Plan(rt, req, url, headers)
  {
    var fpHeaders := CopyForwardableHeaders(req.headers);
    assert fpHeaders == ForwardableHeaders(req.headers);
    var fpMethod := req.verb;
    if "_method" in headers {
      fpMethod := Upper(headers["_method"]);
    }
    fpHeaders := fpHeaders + headers;

    var fpBody := NoBody;
    if IsBodiedVerb(req.verb) {
      var ct := Lower(GetOr(req.headers, "content-type", ""));
      if ct != "" {
        fpHeaders := fpHeaders["content-type" := GetOr(req.headers, "content-type", "")];
      }
      var read := ReadBody(rt, Classify(ct), req.body);
      if read.Failure? {
        return Failure(read.error);
      }
      fpBody := read.value;
    }
    if "_body" in headers {
      fpBody := Override(headers["_body"]);
    }
    return Success(OutboundRequest(url, fpMethod, fpHeaders, fpBody));
  }

  /** The `try` block of `handleRequest`: everything from parsing to the fetch. */
  method TryForward(rt: Runtime, allowList: seq<string>, req: Request) returns (outcome: Outcome)
    ensures outcome == Forward(rt, allowList, req)
  {
    var t := ParseURL(rt, req.url);
    if t.Failure? {
      return Failed(None, t.error);
    }
    var url := t.value.url;
    var headers := t.value.headers;
    HasThreeUnitsIff(url);
    if Utf16Length(url) < 3 || IndexOf(url, ".") == -1 {
      return Failed(None, Thrown("invalid URL input: " + url));
    } else if url == "favicon.ico" || url == "robots.txt" {
      return Redirect;
    }
    if IndexOf(Lower(url), "http") == -1 {
      url := "http://" + url;
    }
    var targetHostname := rt.hostnameOf(url);
    if !IsAllowedDomain(allowList, targetHostname) {
      return Deny(targetHostname);
    }

    var plan := BuildRequest(rt, req, url, headers);
    if plan.Failure? {
      return Failed(None, plan.error);
    }
    var fp := plan.value;
    var fetched := rt.fetch(fp);
    if fetched.Failure? {
      return Failed(Some(fp), RuntimeError(fetched.error));
    }
    return Fetched(fp, fetched.value);
  }

  /**
   * The tail of `handleRequest` after the `try`/`catch`: the redirect and the
   * 403 return early; otherwise the status, content type and body come from
   * the upstream answer or the error envelope, and the headers are the CORS
   * set, the content type and, after a fetch, the subscription headers.
   */
  method BuildResponse(req: Request, outcome: Outcome) returns (resp: Response)
    ensures resp == Assemble(req, outcome)
  {
    var outHeaders := CorsHeaders(req.headers);
    var outStatus := 200;
    var outCt: Option<string> := None;
    var outBody: ResponseBody := Absent;
    var fr: Option<UpstreamResponse> := None;
    var attempted: Option<OutboundRequest> := None;

    match outcome {
      case Redirect =>
        return RedirectResponse();
      case Deny(hostname) =>
        return DeniedResponse(hostname);
      case Fetched(fp, upstream) =>
        attempted := Some(fp);
        fr := Some(upstream);
        outStatus := upstream.status;
        outCt := Get(upstream.headers, "content-type");
        outBody := Stream(upstream.body);
      case Failed(sent, err) =>
        attempted := sent;
        outStatus := 500;
        outCt := Some("application/json");
        outBody := Json(-1, ErrorMessage(err));
    }
    if Truthy(outCt) {
      outHeaders := outHeaders["content-type" := outCt.value];
    }
    if fr.Some? {
      outHeaders := ForwardSubscriptionHeaders(outHeaders, fr.value.headers);
    }
    resp := Response(outStatus, outHeaders, outBody, attempted);
  }

  /** `handleRequest(request)`: the preflight short-cut, then the `try` block and the response. */
  method HandleRequest(rt: Runtime, allowList: seq<string>, req: Request) returns (resp: Response)
    ensures resp == Respond(rt, allowList, req)
  {
    if req.verb == "OPTIONS" {
      return PreflightResponse();
    }
    var outcome := TryForward(rt, allowList, req);
    resp := BuildResponse(req, outcome);
  }

  /** Once the parse result is known, a non-preflight response is assembled from the route it takes. */
  lemma RespondAfterParse(rt: Runtime, allowList: seq<string>, req: Request, parsed: Result<ParsedURL, ProxyError>)
    requires req.verb != "OPTIONS"
    requires ParseURL(rt, req.url) == parsed
    ensures Respond(rt, allowList, req) == Assemble(req, Route(rt, allowList, req, parsed))
  {
  }

  /** Proof helper: the same lifting, with the route's outcome already known. */
  lemma RespondWith(rt: Runtime, allowList: seq<string>, req: Request, parsed: Result<ParsedURL, ProxyError>, o: Outcome)
    requires req.verb != "OPTIONS"
    requires ParseURL(rt, req.url) == parsed
    requires Route(rt, allowList, req, parsed) == o
    ensures Respond(rt, allowList, req) == Assemble(req, o)
  {
    RespondAfterParse(rt, allowList, req, parsed);
  }

  /**
   * `OPTIONS` is answered with the fixed preflight response before anything
   * else is looked at: neither the URL, the headers, the body, the runtime nor
   * the allow-list changes it, and nothing is fetched.
   */
  lemma PreflightShortCircuit(rt: Runtime, allowList: seq<string>, req: Request,
                              rt': Runtime, allowList': seq<string>, req': Request)
    requires req.verb == "OPTIONS" && req'.verb == "OPTIONS"
    ensures Respond(rt, allowList, req) == Respond(rt', allowList', req')
    ensures var r := Respond(rt, allowList, req);
      r.status == 200 && r.body == Literal("") && r.sent == None &&
      r.headers["access-control-allow-origin"] == "*" && r.headers["access-control-max-age"] == "31536000"
  {
    RespondToOptions(rt, allowList, req);
    RespondToOptions(rt', allowList', req');
  }

  /** Proof helper: one `OPTIONS` request at a time. */
  lemma RespondToOptions(rt: Runtime, allowList: seq<string>, req: Request)
    requires req.verb == "OPTIONS"
    ensures Respond(rt, allowList, req) == PreflightResponse()
  {
  }

  /** Proof helper: what `Respond` records as sent is what the `try` block attempted. */
  lemma RespondSent(rt: Runtime, allowList: seq<string>, req: Request)
    ensures Respond(rt, allowList, req).sent ==
      if req.verb == "OPTIONS" then None else Attempted(Forward(rt, allowList, req))
  {
  }

  /** The request handed to `fetch`, if the `try` block got that far. */
  function Attempted(o: Outcome): Option<OutboundRequest>
  {
    match o
    case Fetched(fp, _) => Some(fp)
    case Failed(attempted, _) => attempted
    case _ => None
  }

  /**
   * The decisions of the `try` block, in order: an invalid target fails, a
   * well-known path redirects, a host outside the allow-list is refused, and
   * only then is a request built and handed to `fetch`, for the
   * scheme-prefixed target of an allowed host.
   */
  lemma RouteDecisions(rt: Runtime, allowList: seq<string>, req: Request, parsed: Result<ParsedURL, ProxyError>)
    ensures var o := Route(rt, allowList, req, parsed);
      && (parsed.Failure? ==> o == Failed(None, parsed.error))
      && (parsed.Success? && !IsValidTarget(parsed.value.url) ==>
            o == Failed(None, Thrown("invalid URL input: " + parsed.value.url)))
      && (o.Redirect? <==> parsed.Success? && IsValidTarget(parsed.value.url) && IsWellKnownPath(parsed.value.url))
      && (o.Deny? <==>
            parsed.Success? && IsValidTarget(parsed.value.url) && !IsWellKnownPath(parsed.value.url) &&
            !IsAllowedDomain(allowList, rt.hostnameOf(WithScheme(parsed.value.url))))
      && (o.Deny? ==> o.hostname == rt.hostnameOf(WithScheme(parsed.value.url)))
      && (Attempted(o).Some? ==>
            parsed.Success? && IsValidTarget(parsed.value.url) && !IsWellKnownPath(parsed.value.url) &&
            var fp := Attempted(o).value;
            fp.url == WithScheme(parsed.value.url) &&
            IsAllowedDomain(allowList, rt.hostnameOf(fp.url)) &&
            Plan(rt, req, fp.url, parsed.value.headers) == Success(fp))
  {
  }

  /** Proof helper: the parts of a planned outbound request, for `OutboundRequestShape`. */
  lemma PlanParts(rt: Runtime, req: Request, url: string, overrides: map<string, string>)
    requires Plan(rt, req, url, overrides).Success?
    ensures var fp := Plan(rt, req, url, overrides).value;
      fp.url == url && fp.verb == ResolveMethod(req.verb, overrides) &&
      fp.headers == OutboundHeaders(req.headers, overrides, req.verb) &&
      BodyPlan(rt, req, overrides) == Success(fp.body)
  {
  }

  /**
   * A target that passes every gate is fetched with the planned request: the
   * fetch result decides between the upstream answer and the error envelope.
   */
  lemma RouteFetches(rt: Runtime, allowList: seq<string>, req: Request, t: ParsedURL, fp: OutboundRequest)
    requires IsValidTarget(t.url) && !IsWellKnownPath(t.url)
    requires IsAllowedDomain(allowList, rt.hostnameOf(WithScheme(t.url)))
    requires Plan(rt, req, WithScheme(t.url), t.headers) == Success(fp)
    ensures rt.fetch(fp).Success? ==> Route(rt, allowList, req, Success(t)) == Fetched(fp, rt.fetch(fp).value)
    ensures rt.fetch(fp).Failure? ==>
      Route(rt, allowList, req, Success(t)) == Failed(Some(fp), RuntimeError(rt.fetch(fp).error))
  {
  }

  /**
   * A GET without overrides is forwarded as a GET with the inbound headers
   * minus content-length and content-type, and without a body.
   */
  lemma PlainGetPlan(rt: Runtime, req: Request, url: string)
    requires req.verb == "GET"
    ensures Plan(rt, req, url, map[]) == Success(OutboundRequest(url, "GET", ForwardableHeaders(req.headers), NoBody))
  {
    BodyFollowsInboundVerb(rt, req, map[], "");
    assert ForwardableHeaders(req.headers) + map[] == ForwardableHeaders(req.headers);
  }

  /** The route of a target that fails validation. */
  lemma InvalidTargetRoute(rt: Runtime, allowList: seq<string>, req: Request, t: ParsedURL)
    requires Utf16Length(t.url) < 3 || !Contains(t.url, ".")
    ensures Route(rt, allowList, req, Success(t)) == Failed(None, Thrown("invalid URL input: " + t.url))
  {
    HasThreeUnitsIff(t.url);
    IndexOfNotFound(t.url, ".");
  }

  /**
   * A parsed target shorter than three UTF-16 code units or without a `.`
   * ends in the 500 envelope with code -1 and the fallback message, before
   * any fetch.
   */
  lemma InvalidTargetIsError(rt: Runtime, allowList: seq<string>, req: Request, t: ParsedURL)
    requires req.verb != "OPTIONS"
    requires ParseURL(rt, req.url) == Success(t)
    requires Utf16Length(t.url) < 3 || !Contains(t.url, ".")
    ensures Respond(rt, allowList, req) == Assemble(req, Failed(None, Thrown("invalid URL input: " + t.url)))
    ensures var r := Respond(rt, allowList, req);
      r.status == 500 && r.body == Json(-1, "Internal proxy error") && r.sent == None
  {
    InvalidTargetRoute(rt, allowList, req, t);
    RespondAfterParse(rt, allowList, req, Success(t));
    ErrorEnvelope(req, None, Thrown("invalid URL input: " + t.url));
  }

  /**
   * Validation measures `url.length` in UTF-16 code units: two characters,
   * one of them outside the Basic Multilingual Plane, pass the length test.
   */
  lemma AstralTargetIsValid()
    ensures |"\U{1F600}."| == 2 && Utf16Length("\U{1F600}.") == 3
    ensures IsValidTarget("\U{1F600}.")
  {
    var s := "\U{1F600}.";
    assert AstralPositions(s) == {0} by {
      forall i: nat | i in AstralPositions(s) ensures i == 0 {
        assert s[1] == '.';
      }
      assert IsAstral(s[0]);
    }
    assert OccursAt(s, ".", 1);
  }

  /** The two well-known paths are valid targets, so the redirect check is reached. */
  lemma WellKnownPathRoute(rt: Runtime, allowList: seq<string>, req: Request, t: ParsedURL)
    requires IsWellKnownPath(t.url)
    ensures Route(rt, allowList, req, Success(t)) == Redirect
  {
    var dot := if t.url == "favicon.ico" then 7 else 6;
    assert t.url[dot] == '.' && |t.url| >= 3;
    assert OccursAt(t.url, ".", dot);
  }

  /** `favicon.ico` and `robots.txt` are redirected with 307, never fetched. */
  lemma WellKnownPathRedirects(rt: Runtime, allowList: seq<string>, req: Request, t: ParsedURL)
    requires req.verb != "OPTIONS"
    requires ParseURL(rt, req.url) == Success(t)
    requires IsWellKnownPath(t.url)
    ensures Respond(rt, allowList, req) == RedirectResponse()
    ensures Respond(rt, allowList, req).status == 307 && Respond(rt, allowList, req).sent == None
  {
    WellKnownPathRoute(rt, allowList, req, t);
    RespondAfterParse(rt, allowList, req, Success(t));
  }

  /** `http://` is prepended exactly when the lower-cased target contains no `http`. */
  lemma SchemePrefixedIff(url: string)
    ensures WithScheme(url) == "http://" + url <==> !Contains(Lower(url), "http")
    ensures WithScheme(url) == url <==> Contains(Lower(url), "http")
  {
    IndexOfNotFound(Lower(url), "http");
  }

  /** Prefixing settles the question: a prefixed target is not prefixed again. */
  lemma SchemeIdempotent(url: string)
    ensures WithScheme(WithScheme(url)) == WithScheme(url)
  {
    var u := WithScheme(url);
    if u == "http://" + url {
      LowerAppend("http://", url);
      LowerCaseIsFixed("http://");
      assert OccursAt(Lower(u), "http", 0);
    } else {
      IndexOfNotFound(Lower(url), "http");
    }
    IndexOfNotFound(Lower(u), "http");
  }

  /** The test is a substring search: a scheme-less target that mentions `http` in its path stays scheme-less. */
  lemma SchemeTestIsSubstringSearch()
    ensures WithScheme("example.com/http-docs") == "example.com/http-docs"
  {
    var u := "example.com/http-docs";
    LowerCaseIsFixed(u);
    assert OccursAt(Lower(u), "http", 12);
  }

  /** The outbound request method: `_method` upper-cased, whatever its case, else the inbound method. */
  lemma MethodOverride(verb: string, overrides: map<string, string>, a: string, b: string)
    ensures "_method" in overrides ==> IsUpperCase(ResolveMethod(verb, overrides))
    ensures "_method" !in overrides ==> ResolveMethod(verb, overrides) == verb
    ensures Lower(a) == Lower(b) ==>
      ResolveMethod(verb, overrides["_method" := a]) == ResolveMethod(verb, overrides["_method" := b])
    ensures "_method" in overrides ==> Lower(ResolveMethod(verb, overrides)) == Lower(overrides["_method"])
    ensures ResolveMethod(verb, map["_method" := "get"]) == "GET"
  {
    if "_method" in overrides {
      UpperIsUpperCase(overrides["_method"]);
      LowerOfUpper(overrides["_method"]);
    }
    if Lower(a) == Lower(b) {
      UpperIgnoresCase(a, b);
    }
  }

  /**
   * The domain gate: a non-preflight request is refused with 403 exactly when
   * its parsed, valid, ordinary target names a host outside the allow-list;
   * the refusal names the host and fetches nothing.
   */
  lemma DomainGate(rt: Runtime, allowList: seq<string>, req: Request)
    requires req.verb != "OPTIONS"
    ensures Forward(rt, allowList, req).Deny? <==>
      ParseURL(rt, req.url).Success? &&
      var u := ParseURL(rt, req.url).value.url;
      IsValidTarget(u) && !IsWellKnownPath(u) && !IsAllowedDomain(allowList, rt.hostnameOf(WithScheme(u)))
    ensures Forward(rt, allowList, req).Deny? ==>
      var h := rt.hostnameOf(WithScheme(ParseURL(rt, req.url).value.url));
      var r := Respond(rt, allowList, req);
      r.status == 403 && r.sent == None &&
      r.headers == map["content-type" := "application/json", "access-control-allow-origin" := "*"] &&
      r.body == Json(403, "Access denied: domain '" + h + "' is not in the allowed list")
    ensures allowList == [] ==> !Forward(rt, allowList, req).Deny?
  {
    RouteDecisions(rt, allowList, req, ParseURL(rt, req.url));
  }

  /**
   * What is handed to `fetch`, if anything: the scheme-prefixed target of a
   * host the allow-list admits, the resolved method, the merged headers and
   * the planned body, all from the parsed URL.
   */
  lemma OutboundRequestShape(rt: Runtime, allowList: seq<string>, req: Request)
    ensures Respond(rt, allowList, req).sent.Some? ==>
      ParseURL(rt, req.url).Success? &&
      var t := ParseURL(rt, req.url).value;
      var fp := Respond(rt, allowList, req).sent.value;
      IsAllowedDomain(allowList, rt.hostnameOf(fp.url)) &&
      fp.url == WithScheme(t.url) &&
      fp.verb == ResolveMethod(req.verb, t.headers) &&
      fp.headers == OutboundHeaders(req.headers, t.headers, req.verb) &&
      BodyPlan(rt, req, t.headers) == Success(fp.body)
  {
    RespondSent(rt, allowList, req);
    RouteSentShape(rt, allowList, req, ParseURL(rt, req.url));
  }

  /** Proof helper: `OutboundRequestShape` for any parse result. */
  lemma RouteSentShape(rt: Runtime, allowList: seq<string>, req: Request, parsed: Result<ParsedURL, ProxyError>)
    ensures Attempted(Route(rt, allowList, req, parsed)).Some? ==>
      parsed.Success? &&
      var t := parsed.value;
      var fp := Attempted(Route(rt, allowList, req, parsed)).value;
      IsAllowedDomain(allowList, rt.hostnameOf(fp.url)) &&
      fp.url == WithScheme(t.url) &&
      fp.verb == ResolveMethod(req.verb, t.headers) &&
      fp.headers == OutboundHeaders(req.headers, t.headers, req.verb) &&
      BodyPlan(rt, req, t.headers) == Success(fp.body)
  {
    var o := Route(rt, allowList, req, parsed);
    if Attempted(o).Some? {
      RouteDecisions(rt, allowList, req, parsed);
      PlanParts(rt, req, Attempted(o).value.url, parsed.value.headers);
    }
  }

  /** The three CORS headers every non-preflight, non-redirect, non-403 response carries. */
  predicate HasCors(h: map<string, string>, inbound: HeaderMap)
  {
    && "access-control-allow-origin" in h && h["access-control-allow-origin"] == "*"
    && "access-control-allow-methods" in h && h["access-control-allow-methods"] == AllowedMethods
    && "access-control-allow-headers" in h
    && h["access-control-allow-headers"] == GetOr(inbound, "Access-Control-Allow-Headers", DefaultAllowHeaders)
  }

  /**
   * Every caught failure (malformed composite, invalid target, bad JSON body,
   * failed fetch) becomes status 500 with the CORS headers, a JSON content
   * type and `{code: -1, msg}`; a thrown string shows the fallback message.
   */
  lemma ErrorEnvelope(req: Request, attempted: Option<OutboundRequest>, e: ProxyError)
    ensures var r := Assemble(req, Failed(attempted, e));
      r.status == 500 && r.body == Json(-1, ErrorMessage(e)) && r.sent == attempted &&
      HasCors(r.headers, req.headers) &&
      "content-type" in r.headers && r.headers["content-type"] == "application/json" &&
      (forall k :: k in r.headers ==> k == "content-type" || k in CorsHeaders(req.headers)) &&
      (forall k :: k in SubscriptionKeys ==> k !in r.headers) &&
      (e.Thrown? ==> ErrorMessage(e) == "Internal proxy error")
  {
    BaseHeaders(req.headers, Some("application/json"));
    BaseHeaderNames(req.headers, Some("application/json"));
  }

  /**
   * A fetched response keeps the upstream status and body and carries the
   * CORS headers, the upstream content type when it is non-empty, and each
   * subscription header upstream sends with a non-empty value, under its
   * lower-case name; nothing else.
   */
  lemma {:induction false} FetchedResponse(req: Request, fp: OutboundRequest, fr: UpstreamResponse)
    ensures var r := Assemble(req, Fetched(fp, fr));
      var ct := Get(fr.headers, "content-type");
      r.status == fr.status && r.body == Stream(fr.body) && r.sent == Some(fp) &&
      HasCors(r.headers, req.headers) &&
      ("content-type" in r.headers <==> Truthy(ct)) &&
      (Truthy(ct) ==> r.headers["content-type"] == ct.value) &&
      (forall k :: k in SubscriptionKeys ==>
         (k in r.headers <==> k in fr.headers && fr.headers[k] != "") &&
         (k in r.headers ==> r.headers[k] == fr.headers[k])) &&
      (forall k :: k in r.headers ==>
         k in SubscriptionKeys || k == "content-type" || k in CorsHeaders(req.headers))
  {
    var ct := Get(fr.headers, "content-type");
    var base := WithContentType(CorsHeaders(req.headers), ct);
    var r := Assemble(req, Fetched(fp, fr));
    assert r.headers == Passthrough(base, fr.headers, SubscriptionHeaderNames);
    SubscriptionNamesLowered();
    PassthroughOnto(base, fr.headers, SubscriptionHeaderNames);
    BaseHeaders(req.headers, ct);
    BaseHeaderNames(req.headers, ct);
  }

  /** The headers the passthrough starts from: CORS, then the upstream content type when truthy. */
  lemma BaseHeaders(inbound: HeaderMap, ct: Option<string>)
    ensures var base := WithContentType(CorsHeaders(inbound), ct);
      HasCors(base, inbound) &&
      ("content-type" in base <==> Truthy(ct)) &&
      (Truthy(ct) ==> base["content-type"] == ct.value)
  {
  }

  /** Those headers are the CORS names and the content type, none of them a subscription header. */
  lemma BaseHeaderNames(inbound: HeaderMap, ct: Option<string>)
    ensures var base := WithContentType(CorsHeaders(inbound), ct);
      (forall k :: k in base ==> k == "content-type" || k in CorsHeaders(inbound)) &&
      (forall k :: k in SubscriptionKeys ==> k !in base)
  {
    var base := WithContentType(CorsHeaders(inbound), ct);
    assert base.Keys <= {"content-type", "access-control-allow-origin",
                         "access-control-allow-methods", "access-control-allow-headers"};
  }

  /** The passthrough over names that lower to the subscription keys, applied to any base. */
  lemma PassthroughOnto(base: map<string, string>, upstream: HeaderMap, names: seq<string>)
    requires LoweredNames(names) == SubscriptionKeys
    ensures var r := Passthrough(base, upstream, names);
      (forall k :: k in SubscriptionKeys ==>
         (k in r <==> k in base || (k in upstream && upstream[k] != "")) &&
         (k in r && k in upstream && upstream[k] != "" ==> r[k] == upstream[k])) &&
      (forall k :: k !in SubscriptionKeys ==> (k in r <==> k in base) && (k in r ==> r[k] == base[k]))
  {
    PassthroughCopies(base, upstream, names);
  }
}
