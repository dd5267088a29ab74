/**
 * Whole requests through `Respond`, each with a concrete composite path: a
 * plain GET that is forwarded, a host the allow-list refuses, a well-known
 * path that redirects, and an override prefix that is not JSON.
 */
module Scenarios {
  import opened Wrappers
  import opened JsString
  import opened Http
  import opened DomainMatcher
  import opened UrlParser
  import opened HeaderReconciler
  import opened Proxy

  /** A string without the first character of `t` does not contain `t`. */
  lemma FirstCharAbsent(s: string, t: string)
    requires |t| > 0 && t[0] !in s
    ensures !Contains(s, t) && IndexOf(s, t) == -1
  {
    forall k | 0 <= k <= |s| - |t|
      ensures !OccursAt(s, t, k)
    {
      assert s[k..k + |t|][0] == s[k];
    }
    IndexOfNotFound(s, t);
  }

  /** A scheme-less target with a `.` at index `dot` and no `h` passes validation and gets `http://`. */
  lemma PlainTarget(target: string, dot: nat)
    requires dot < |target| && target[dot] == '.' && |target| >= 3
    requires target[0] != '/' && ':' !in target && 'h' !in target && IsLowerCase(target)
    ensures TargetShaped(target) && IsValidTarget(target)
    ensures WithScheme(target) == "http://" + target
  {
    FirstCharAbsent(target, "://");
    assert OccursAt(target, ".", dot);
    LowerCaseIsFixed(target);
    FirstCharAbsent(target, "http");
  }

  /** A scheme-less, `h`-free target decoded from the path parses to itself with no overrides. */
  lemma PlainTargetParse(rt: Runtime, host: string, encoded: string, target: string, dot: nat)
    requires '/' !in host && rt.decodeURIComponent(encoded) == Success(target)
    requires dot < |target| && target[dot] == '.' && |target| >= 3
    requires target[0] != '/' && ':' !in target && 'h' !in target && IsLowerCase(target)
    ensures ParseURL(rt, "https://" + host + "/" + encoded) == Success(ParsedURL(target, map[]))
  {
    PlainTarget(target, dot);
    ParseBareTarget(rt, "https://", host, encoded, target);
  }

  // Proof helpers: the literal concatenations the scenarios meet, each
  // evaluated once in a lemma of its own so that the scenario proofs do not
  // unfold them. They model nothing by themselves.
  lemma ApiUrlLiteral()
    ensures "http://" + "api.example.com/data" == "http://api.example.com/data"
  {
  }

  lemma EvilUrlLiteral()
    ensures "http://" + "evil.com" == "http://evil.com"
  {
  }

  lemma EvilMessageLiteral()
    ensures DeniedMessage("evil.com") == "Access denied: domain 'evil.com' is not in the allowed list"
  {
  }

  lemma MalformedPathLiteral()
    ensures "not-json" + "/" + "http://x.com" == "not-json/http://x.com"
  {
  }

  /** The inbound request used by every scenario: a GET through the gateway `https://<host>/`. */
  function GatewayGet(host: string, encoded: string, inbound: HeaderMap): Request
  {
    Request("GET", "https://" + host + "/" + encoded, inbound, "")
  }

  lemma ApiTargetAdmitted(rt: Runtime, target: string, host: string)
    requires target == "api.example.com/data" && host == "api.example.com"
    requires rt.hostnameOf("http://" + target) == host
    ensures IsValidTarget(target) && !IsWellKnownPath(target)
    ensures WithScheme(target) == "http://" + target && IsAllowedDomain([host], rt.hostnameOf(WithScheme(target)))
  {
    ApiTargetPlain(target);
    ApiHostAllowed(host);
  }

  lemma ApiTargetPlain(target: string)
    requires target == "api.example.com/data"
    ensures IsValidTarget(target) && WithScheme(target) == "http://" + target
  {
    PlainTarget(target, 3);
  }

  lemma ApiHostAllowed(host: string)
    requires host == "api.example.com"
    ensures IsAllowedDomain([host], host)
  {
    LowerCaseIsFixed(host);
  }

  lemma ApiTargetRoute(rt: Runtime, req: Request, fr: UpstreamResponse, target: string, host: string)
    requires target == "api.example.com/data" && host == "api.example.com"
    requires req.verb == "GET"
    requires rt.hostnameOf("http://" + target) == host
    requires rt.fetch(OutboundRequest("http://" + target, "GET", ForwardableHeaders(req.headers), NoBody)) == Success(fr)
    ensures Route(rt, [host], req, Success(ParsedURL(target, map[]))) ==
      Fetched(OutboundRequest("http://" + target, "GET", ForwardableHeaders(req.headers), NoBody), fr)
  {
    ApiTargetAdmitted(rt, target, host);
    var url := "http://" + target;
    PlainGetPlan(rt, req, url);
    RouteFetches(rt, [host], req, ParsedURL(target, map[]), OutboundRequest(url, "GET", ForwardableHeaders(req.headers), NoBody));
  }

  /**
   * `api.example.com/data` with no overrides, by GET, with `api.example.com`
   * allowed: a body-less GET to `http://api.example.com/data` carrying the
   * inbound headers minus content-length and content-type; the response
   * streams the upstream body with the upstream status.
   */
  lemma ForwardedGet(rt: Runtime, allowList: seq<string>, host: string, encoded: string, inbound: HeaderMap,
                     fr: UpstreamResponse)
    requires allowList == ["api.example.com"] && '/' !in host
    requires rt.decodeURIComponent(encoded) == Success("api.example.com/data")
    requires rt.hostnameOf("http://api.example.com/data") == "api.example.com"
    requires rt.fetch(OutboundRequest("http://api.example.com/data", "GET", ForwardableHeaders(inbound), NoBody)) == Success(fr)
    ensures var r := Respond(rt, allowList, GatewayGet(host, encoded, inbound));
      r.sent == Some(OutboundRequest("http://api.example.com/data", "GET", ForwardableHeaders(inbound), NoBody)) &&
      r.status == fr.status && r.body == Stream(fr.body)
  {
    var req := GatewayGet(host, encoded, inbound);
    var t := ParsedURL("api.example.com/data", map[]);
    var fp := OutboundRequest("http://api.example.com/data", "GET", ForwardableHeaders(inbound), NoBody);
    ApiParse(rt, host, encoded);
    ApiRoute(rt, allowList, host, encoded, inbound, fr);
    RespondWith(rt, allowList, req, Success(t), Fetched(fp, fr));
  }
  lemma ApiParse(rt: Runtime, host: string, encoded: string)
    requires '/' !in host
    requires rt.decodeURIComponent(encoded) == Success("api.example.com/data")
    ensures ParseURL(rt, "https://" + host + "/" + encoded) == Success(ParsedURL("api.example.com/data", map[]))
  {
    PlainTargetParse(rt, host, encoded, "api.example.com/data", 3);
  }
  lemma ApiRoute(rt: Runtime, allowList: seq<string>, host: string, encoded: string, inbound: HeaderMap, fr: UpstreamResponse)
    requires allowList == ["api.example.com"]
    requires rt.hostnameOf("http://api.example.com/data") == "api.example.com"
    requires rt.fetch(OutboundRequest("http://api.example.com/data", "GET", ForwardableHeaders(inbound), NoBody)) == Success(fr)
    ensures Route(rt, allowList, GatewayGet(host, encoded, inbound), Success(ParsedURL("api.example.com/data", map[]))) == Fetched(OutboundRequest("http://api.example.com/data", "GET", ForwardableHeaders(inbound), NoBody), fr)
  {
    ApiUrlLiteral();
    ApiTargetRoute(rt, GatewayGet(host, encoded, inbound), fr, "api.example.com/data", "api.example.com");
  }

  lemma EvilTargetRoute(rt: Runtime, req: Request, target: string, allowed: string)
    requires target == "evil.com" && allowed == "example.com"
    requires rt.hostnameOf("http://" + target) == target
    ensures Route(rt, [allowed], req, Success(ParsedURL(target, map[]))) == Deny(target)
  {
    PlainTarget(target, 4);
    LowerCaseIsFixed(allowed);
    assert !IsAllowedDomain([allowed], target);
    RouteDecisions(rt, [allowed], req, Success(ParsedURL(target, map[])));
  }

  /** `evil.com` against the allow-list `example.com`: 403 with the exact message, nothing fetched. */
  lemma RefusedHost(rt: Runtime, allowList: seq<string>, host: string, encoded: string, inbound: HeaderMap)
    requires allowList == ["example.com"] && '/' !in host
    requires rt.decodeURIComponent(encoded) == Success("evil.com")
    requires rt.hostnameOf("http://evil.com") == "evil.com"
    ensures var r := Respond(rt, allowList, GatewayGet(host, encoded, inbound));
      r.status == 403 && r.sent == None &&
      r.body == Json(403, "Access denied: domain 'evil.com' is not in the allowed list")
  {
    var req := GatewayGet(host, encoded, inbound);
    EvilParse(rt, host, encoded);
    EvilRoute(rt, allowList, req);
    RespondWith(rt, allowList, req, Success(ParsedURL("evil.com", map[])), Deny("evil.com"));
  }

  lemma EvilParse(rt: Runtime, host: string, encoded: string)
    requires '/' !in host
    requires rt.decodeURIComponent(encoded) == Success("evil.com")
    ensures ParseURL(rt, "https://" + host + "/" + encoded) == Success(ParsedURL("evil.com", map[]))
  {
    PlainTargetParse(rt, host, encoded, "evil.com", 4);
  }

  lemma EvilRoute(rt: Runtime, allowList: seq<string>, req: Request)
    requires allowList == ["example.com"]
    requires rt.hostnameOf("http://evil.com") == "evil.com"
    ensures Route(rt, allowList, req, Success(ParsedURL("evil.com", map[]))) == Deny("evil.com")
    ensures DeniedMessage("evil.com") == "Access denied: domain 'evil.com' is not in the allowed list"
  {
    EvilUrlLiteral();
    EvilMessageLiteral();
    EvilTargetRoute(rt, req, "evil.com", "example.com");
  }

  lemma FaviconRoute(rt: Runtime, allowList: seq<string>, req: Request, target: string)
    requires target == "favicon.ico"
    ensures TargetShaped(target)
    ensures Route(rt, allowList, req, Success(ParsedURL(target, map[]))) == Redirect
  {
    FirstCharAbsent(target, "://");
    assert OccursAt(target, ".", 7);
  }

  /** A path decoding to `favicon.ico` is redirected, whatever the allow-list, and nothing is fetched. */
  lemma FaviconRedirect(rt: Runtime, allowList: seq<string>, host: string, encoded: string, inbound: HeaderMap)
    requires '/' !in host
    requires rt.decodeURIComponent(encoded) == Success("favicon.ico")
    ensures Respond(rt, allowList, GatewayGet(host, encoded, inbound)) == RedirectResponse()
  {
    var req := GatewayGet(host, encoded, inbound);
    FaviconRoute(rt, allowList, req, "favicon.ico");
    ParseBareTarget(rt, "https://", host, encoded, "favicon.ico");
    RespondWith(rt, allowList, req, Success(ParsedURL("favicon.ico", map[])), Redirect);
  }

  /** `http://x.com` is a target the parser splits off: its `://` comes before any `/`. */
  lemma SchemeTargetShaped(target: string, prefix: string)
    requires target == "http://x.com" && prefix == "not-json"
    ensures TargetShaped(target) && Contains(target, "://")
    ensures !Contains(prefix + "/", "://")
  {
    assert OccursAt(target, "://", 4);
    forall j | 0 <= j < 4
      ensures !OccursAt(target, "://", j)
    {
      assert target[j..j + 3][0] == target[j];
    }
    IndexOfIsFirst(target, "://", 4);
    FirstCharAbsent(prefix + "/", "://");
  }

  /** The malformed prefix parses to the `Invalid URL headers string` error. */
  lemma MalformedParse(rt: Runtime, host: string, encoded: string, prefix: string, target: string)
    requires prefix == "not-json" && target == "http://x.com" && '/' !in host
    requires rt.decodeURIComponent(encoded) == Success(prefix + "/" + target)
    requires rt.decodeURIComponent(prefix) == Success(prefix)
    ensures ParseURL(rt, "https://" + host + "/" + encoded) == Failure(Thrown("Invalid URL headers string: " + prefix))
  {
    SchemeTargetShaped(target, prefix);
    assert prefix[..1][0] == 'n';
    ParseWithOverrides(rt, "https://", host, encoded, prefix, target);
    OverridesDecodedOnce(rt, prefix, prefix);
  }

  /**
   * `not-json/http://x.com`: the prefix `not-json` (which decodes to itself)
   * does not start with `{`, so the request ends in the 500 envelope with the
   * fallback message and nothing is fetched.
   */
  lemma MalformedOverrides(rt: Runtime, allowList: seq<string>, host: string, encoded: string, inbound: HeaderMap)
    requires '/' !in host
    requires rt.decodeURIComponent(encoded) == Success("not-json/http://x.com")
    requires rt.decodeURIComponent("not-json") == Success("not-json")
    ensures var r := Respond(rt, allowList, GatewayGet(host, encoded, inbound));
      r.status == 500 && r.body == Json(-1, "Internal proxy error") && r.sent == None
  {
    var req := GatewayGet(host, encoded, inbound);
    MalformedPathLiteral();
    var e := Thrown("Invalid URL headers string: " + "not-json");
    MalformedParse(rt, host, encoded, "not-json", "http://x.com");
    RespondWith(rt, allowList, req, Failure(e), Failed(None, e));
    ErrorEnvelope(req, None, e);
  }
}
