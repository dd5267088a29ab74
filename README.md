# cloudflare-workers-uniproxy in Dafny

A model of the request handling of a Cloudflare Worker that proxies
requests to a target named inside its own URL. The client calls
`https://<gateway>/<encoded composite>`, where the percent-encoded composite is
`[override-json/]target-url`. The worker then does the following:

- decodes the composite and splits it into the target and an optional JSON
  object of overrides (`_method`, `_body` and extra headers);
- validates the target, redirects `favicon.ico`/`robots.txt`, prefixes a
  missing scheme, and refuses (403) hosts outside its domain allow-list;
- builds the outbound request (method, merged headers, a body chosen by the
  content type);
- answers with the upstream response, plus CORS headers and a few
  subscription headers copied through. Any failure becomes a 500 JSON
  envelope.

Everything in the model comes from `index.js`. The model has these modules:

- `JsString`: the JavaScript string operations the worker relies on, with
  their edge cases:
  - `indexOf` returning -1;
  - `lastIndexOf` clamping its position (so position -1 looks at index 0 only);
  - `substr` clamping (Annex B of ECMAScript);
  - ASCII `toLowerCase`/`toUpperCase`.
- `DomainMatcher`: `isAllowedDomain`, over an allow-list given as a
  parameter. `IsAllowedDomain` is the search and `AnyPatternAdmits` the
  recursive scan.
- `Http`: requests, responses and header maps. A header map has lower-case
  names, as a fetch `Headers` object stores them, and `Get` lower-cases the
  name it looks up. The foreign functions the worker calls are fields of a
  `Runtime` value passed in, each of which may fail:
  - `decodeURIComponent`;
  - `JSON.parse` of the override object;
  - `JSON.stringify(await request.json())`;
  - `extractHostname`;
  - `fetch`.
- `UrlParser`: `parseURL`. A `throw` becomes `Failure(Thrown(..))`, and a
  runtime exception becomes `Failure(RuntimeError(..))`.
- `HeaderReconciler`: the CORS headers, the outbound header merge, and the
  subscription-header passthrough.
- `BodyTranscoder`: the content-type dispatch of the outbound body and the
  `_body` override.
- `Proxy`: `handleRequest`, in two forms:
  - as functions: `Route` (the `try` block's decisions given the parse
    result), `Assemble` (the response once the `try` block has ended) and
    `Respond` (the whole request, including the `OPTIONS` short-cut);
  - as imperative methods proved to compute those functions: the header
    copy loop, the subscription passthrough loop, the construction of the
    outbound request, the `try` block and the response assembly.
- `Scenarios`: whole requests with concrete composites: a forwarded GET, a
  refused host, a redirect, and a malformed override prefix.

Some behaviours of `index.js` that are easy to miss, all modelled as written:

- The 403 response carries only `Content-Type` and
  `Access-Control-Allow-Origin`, not the full CORS set (index.js:146-149).
- The preflight response also carries `X-Request-Type: CORS Preflight`
  (index.js:109).
- `Access-Control-Allow-Headers` falls back to the default list when the
  inbound header is absent *or empty* (JavaScript `||`, index.js:118).
- The scheme test prefixes `http://` only when `http` appears nowhere in the
  lower-cased target, so `example.com/http-docs` is left without a scheme
  (index.js:134, `Proxy.SchemeTestIsSubstringSearch`).
- The redirect's `Location` is the serialised URL
  `https://workers.cloudflare.com/`, with the path `/` added by URL
  serialisation (index.js:132).
- Overrides are recognised only before a target that carries a scheme: the
  split at index.js:70 looks for the last `/` before the first `://`, so a
  path decoding to `{x}/a.com` is not split at all, and the whole of it
  becomes the target (`UrlParser.ShapedTargetNotSplit`).
- The target length test of index.js:129 counts UTF-16 code units, so a
  character outside the Basic Multilingual Plane counts twice
  (`Proxy.AstralTargetIsValid`).

## Model

| member | source | states |
|---|---|---|
| `JsString.IndexOf` | index.js:68 | the result is -1 or the position of an occurrence, and no occurrence starts before it |
| `JsString.IndexOfNotFound` | index.js:129 | `indexOf` is -1 exactly when the string does not contain the needle |
| `JsString.Substr` | index.js:67-75 | `substr` as the worker calls it: `substr(k)` is the suffix from `k`, `substr(0, k)` the prefix of length `k`, with the clamping of out-of-range and negative arguments (stated by `JsString.SubstrShapes`) |
| `JsString.SubstrShapes` | index.js:67-75 | `substr(k)` is `s[k..]` inside the string, empty past the end and counted from the end when negative; `substr(0, k)` is `s[..k]`, all of `s` past the end and empty when negative |
| `JsString.Utf16Length` | index.js:129 | `url.length` in UTF-16 code units: between the character count and twice it |
| `JsString.Utf16LengthOfBmp` | index.js:129 | the UTF-16 length equals the character count exactly when no character lies outside the Basic Multilingual Plane |
| `JsString.HasThreeUnits` | index.js:129 | `url.length >= 3` decided without counting: three characters, or two of which one is a surrogate pair (stated by `JsString.HasThreeUnitsIff`) |
| `JsString.HasThreeUnitsIff` | index.js:129 | that test holds exactly when the UTF-16 length is at least 3 |
| `JsString.LastIndexOf` | index.js:70 | the result is -1 or an occurrence at or before the clamped position, with no occurrence between it and that position |
| `DomainMatcher.IsAllowedDomain` | index.js:21-46 | `isAllowedDomain`: true for an empty list, else the scan of the lower-cased hostname over the lower-cased patterns (stated by `DomainMatcher.AllowedIffSomeEntryMatches` and `DomainMatcher.EmptyListAllowsAll`) |
| `DomainMatcher.AnyPatternAdmits` | index.js:29-45 | the scan succeeds exactly when some pattern of the list, lower-cased, admits the hostname |
| `DomainMatcher.EmptyListAllowsAll` | index.js:21-25 | an empty allow-list admits every hostname |
| `DomainMatcher.AllowedIffSomeEntryMatches` | index.js:27-45 | for a non-empty list: allowed exactly when some entry `*.s` has `lower(h) == s` or `lower(h)` ending in `.s`, or some other entry equals `lower(h)` after lower-casing |
| `DomainMatcher.HostnameCaseIgnored` | index.js:27 | the hostname's case does not change the verdict |
| `DomainMatcher.PatternCaseIgnored` | index.js:30 | the patterns' case does not change the verdict |
| `DomainMatcher.WildcardExample` | index.js:32-38 | `*.mydomain.com` admits `mydomain.com` and `A.MyDomain.com` and refuses `notmydomain.com` |
| `UrlParser.EncodedPath` | index.js:67-68 | the still-encoded composite: `url.substr(8)`, then everything after its first `/` (stated by `UrlParser.EncodedPathOf`) |
| `UrlParser.EncodedPathOf` | index.js:67-68 | for a gateway URL `https://` + host + `/` + path, with no `/` in the host, the encoded composite is exactly the path |
| `UrlParser.SplitIndex` | index.js:70 | the split is -1 or the index of a `/` inside the composite |
| `UrlParser.ParseURL` | index.js:66-98 | a successful parse has a non-empty target |
| `UrlParser.ParseSteps` | index.js:67-83 | a successful parse decoded the path, took the target after the split, and has no overrides when the split is at index 0 or absent |
| `UrlParser.ParsedTargetShape` | index.js:67-83 | the target is a non-empty suffix of the decoded composite, preceded by nothing or `/`; it contains `://` exactly when the composite does, with no `/` before it then; a one-character or empty prefix gives no overrides |
| `UrlParser.SplitTargetShape` | index.js:70-71 | what follows the split is a suffix after a `/`, containing `://` exactly when the composite does, with no `/` before it |
| `UrlParser.ShapedTargetNotSplit` | index.js:70 | a target that does not start with `/` and has no `/` before its `://` is not split at all |
| `UrlParser.ParseBareTarget` | index.js:66-83 | round trip: a gateway URL whose path decodes to such a target parses to that target with no overrides |
| `UrlParser.ParseWithOverrides` | index.js:66-97 | round trip: when the target carries `://` with no `/` before it and the prefix contains no `://`, a path decoding to `prefix/target` splits at that `/`, parses to the target, and yields the overrides decoded from the prefix |
| `UrlParser.DecodeOverrides` | index.js:84-92 | the override prefix: decoded once unless it starts with `{`, refused with `Invalid URL headers string` unless it then starts with `{`, else `JSON.parse` of it (stated by `UrlParser.BracedOverridesNotDecoded` and `UrlParser.OverridesDecodedOnce`) |
| `UrlParser.BracedOverridesNotDecoded` | index.js:84-92 | a prefix starting with `{` is not decoded again; its overrides are `JSON.parse` of the prefix |
| `UrlParser.OverridesDecodedOnce` | index.js:84-92 | any other prefix is decoded exactly once; it must then start with `{`, otherwise the parse throws `Invalid URL headers string` |
| `UrlParser.EmptyTargetThrows` | index.js:70-74 | the parse throws `Invalid real URL` exactly when nothing follows the split |
| `HeaderReconciler.CorsHeaders` | index.js:115-119 | the three CORS headers of the 500 envelope and of the fetched response (not of the 307 or the 403), Allow-Headers echoing the inbound value or the default (stated by `Proxy.ErrorEnvelope`, `Proxy.BaseHeaders` and `Proxy.FetchedResponse` through `HasCors`) |
| `HeaderReconciler.OutboundHeaders` | index.js:158-175 | `fp.headers` after the copy loop, the override merge and the content-type line (stated by `HeaderReconciler.OutboundHeadersMerge`) |
| `HeaderReconciler.OutboundHeadersMerge` | index.js:158-175 | outbound headers: the inbound ones except content-length/content-type, overlaid by every override key, then the inbound content-type set last for POST/PUT/PATCH/DELETE with a non-empty content-type |
| `HeaderReconciler.Passthrough` | index.js:228-234 | the passthrough loop over a list of names, in order (stated by `HeaderReconciler.PassthroughCopies` and `Proxy.PassthroughOnto`) |
| `HeaderReconciler.PassthroughCopies` | index.js:228-234 | the passthrough adds exactly the listed headers (lower-cased) that upstream sends non-empty, with upstream's value, and keeps every other header |
| `HeaderReconciler.SubscriptionNamesLowered` | index.js:217-226 | the eight spellings name four headers |
| `BodyTranscoder.Classify` | index.js:176-189 | the first matching content-type marker picks the reader (stated by `BodyTranscoder.DispatchPrecedence`) |
| `BodyTranscoder.ReadBody` | index.js:177-188 | what each reader yields (stated by `BodyTranscoder.ReadersYield`) |
| `BodyTranscoder.BodyPlan` | index.js:170-193 | `fp.body` after the body block and the `_body` override (stated by `BodyTranscoder.BodiedRequestPlan`, `BodyTranscoder.BodyPlanFailsOnlyOnBadJson`, `BodyTranscoder.BodyOverrideWins` and `BodyTranscoder.BodyFollowsInboundVerb`, with `BodyTranscoder.DispatchPrecedence` and `BodyTranscoder.ReadersYield` for the reader chosen) |
| `BodyTranscoder.BodiedRequestPlan` | index.js:170-189 | a POST/PUT/PATCH/DELETE without `_body` sends what its content type's reader yields: re-serialised JSON, the raw text of a text body or url-encoded form, form data for multipart, otherwise a blob |
| `BodyTranscoder.BodyPlanFailsOnlyOnBadJson` | index.js:170-193 | body planning fails exactly for a bodied inbound method with a JSON content type whose body does not re-serialise |
| `BodyTranscoder.BodyOverrideWins` | index.js:191-193 | a present `_body` replaces the body unconditionally |
| `BodyTranscoder.BodyFollowsInboundVerb` | index.js:170 | no body is derived for other inbound methods; `_method` has no effect on the body |
| `BodyTranscoder.DispatchPrecedence` | index.js:176-189 | a JSON marker beats every other marker; either text marker without JSON selects text; url-encoded is selected exactly when it is the first marker present, multipart likewise, and a blob exactly when no marker is present |
| `BodyTranscoder.ReadersYield` | index.js:177-188 | JSON is re-serialised or fails with the runtime's error; both text kinds and url-encoded forms yield the raw text (a form is never re-encoded); multipart yields form data and the rest a blob |
| `Http.ErrorMessage` | index.js:207 | the envelope's `msg`: `err.message`, or `Internal proxy error` when that is empty or absent (stated by `Http.ErrorMessageFallback`) |
| `Http.ErrorMessageFallback` | index.js:207 | the message is never empty: a runtime error's own message when non-empty, otherwise the fallback, always the fallback for a thrown string |
| `Proxy.IsValidTarget` | index.js:129 | a target passes when it is at least 3 UTF-16 code units long and contains a `.` (stated by `Proxy.InvalidTargetIsError`, `Proxy.AstralTargetIsValid` and `JsString.HasThreeUnitsIff`) |
| `Proxy.Plan` | index.js:153-193 | the whole `fp` object: target URL, resolved method, merged headers and planned body, or the body-read failure (stated by `Proxy.OutboundRequestShape`, `Proxy.PlainGetPlan` and `Proxy.BuildRequest`) |
| `Proxy.PreflightResponse` | index.js:101-112 | the fixed `OPTIONS` answer (stated by `Proxy.PreflightShortCircuit`) |
| `Proxy.RedirectResponse` | index.js:132 | the 307 to `https://workers.cloudflare.com/` (stated by `Proxy.WellKnownPathRedirects`) |
| `Proxy.DeniedResponse` | index.js:141-150 | the 403 answer (stated by `Proxy.DomainGate`) |
| `Proxy.Forward` | index.js:121-199 | the `try` block on the parse of `request.url` (stated by `Proxy.DomainGate`, `Proxy.OutboundRequestShape` and, for the method, `Proxy.TryForward`) |
| `Proxy.Route` | index.js:121-199 | the `try` block's decisions given the parse result (stated by `Proxy.RouteDecisions` and `Proxy.RouteFetches`) |
| `Proxy.Assemble` | index.js:195-240 | the response once the `try` block has ended (stated by `Proxy.ErrorEnvelope`, `Proxy.FetchedResponse` and `Proxy.DomainGate`) |
| `Proxy.Respond` | index.js:100-241 | the whole handler as a function (stated by `Proxy.PreflightShortCircuit`, `Proxy.OutboundRequestShape` and the other `Proxy` lemmas) |
| `Proxy.CopyForwardableHeaders` | index.js:158-163 | the loop copies exactly the inbound headers other than content-length and content-type, with their values |
| `Proxy.ForwardSubscriptionHeaders` | index.js:216-235 | the loop computes the subscription passthrough over the eight names in order |
| `Proxy.BuildRequest` | index.js:153-193 | the outbound request built step by step is the planned one (or the body-read failure) |
| `Proxy.TryForward` | index.js:121-199 | the `try` block computes the route of the parsed URL |
| `Proxy.BuildResponse` | index.js:195-240 | the response assembled after the `try`/`catch` is `Assemble` of the outcome |
| `Proxy.HandleRequest` | index.js:100-241 | the whole handler computes `Respond` |
| `Proxy.PreflightShortCircuit` | index.js:101-112 | `OPTIONS` gets the same fixed 200 response whatever the URL, headers, runtime and allow-list, and nothing is fetched |
| `Proxy.RouteDecisions` | index.js:123-199 | decisions in order: parse failure, invalid target, redirect exactly for well-known paths, 403 exactly for a disallowed host; a fetched request always has the scheme-prefixed target of an allowed host |
| `Proxy.RouteFetches` | index.js:195-199 | a target past every gate is fetched with the planned request; a fetch failure keeps the attempted request |
| `Proxy.PlainGetPlan` | index.js:153-193 | a GET without overrides is forwarded as a GET with the forwardable inbound headers and no body |
| `Proxy.InvalidTargetIsError` | index.js:129-130 | a target shorter than 3 UTF-16 code units or without `.` gives 500 with `{code:-1, msg:"Internal proxy error"}` and no fetch |
| `Proxy.AstralTargetIsValid` | index.js:129 | `😀.` (U+1F600 then `.`) is 2 characters, 3 UTF-16 code units, and passes validation |
| `Proxy.WellKnownPathRedirects` | index.js:131-132 | `favicon.ico` and `robots.txt` give the 307 redirect and no fetch |
| `Proxy.WithScheme` | index.js:134-136 | the scheme prefixing (stated by `Proxy.SchemePrefixedIff` and `Proxy.SchemeIdempotent`) |
| `Proxy.SchemePrefixedIff` | index.js:134-136 | `http://` is prepended exactly when the lower-cased target contains no `http` |
| `Proxy.SchemeIdempotent` | index.js:134-136 | a prefixed target is not prefixed again |
| `Proxy.SchemeTestIsSubstringSearch` | index.js:134 | `example.com/http-docs` is left without a scheme |
| `Proxy.ResolveMethod` | index.js:153-167 | `fp.method`: the inbound method, replaced by `_method` upper-cased (stated by `Proxy.MethodOverride`) |
| `Proxy.MethodOverride` | index.js:165-167 | with `_method`, the outbound method is upper-case and equals `_method` up to case, so it is `_method` upper-cased (case of `_method` irrelevant); without it, the inbound method |
| `Proxy.DomainGate` | index.js:138-151 | 403 exactly for a valid, ordinary target whose host the allow-list refuses, with the exact message, only `Content-Type` and `Access-Control-Allow-Origin` as headers, and no fetch; never with an empty list |
| `Proxy.OutboundRequestShape` | index.js:134-195 | whatever is fetched goes to an allowed host at the scheme-prefixed target, with the resolved method, merged headers and planned body |
| `Proxy.ErrorEnvelope` | index.js:200-216 | a caught failure, including a failed fetch, gives 500 with the CORS headers, JSON content type and no other header (in particular no subscription header) and `{code:-1, msg}`; a thrown string shows the fallback message |
| `Proxy.FetchedResponse` | index.js:195-240 | a fetched response keeps upstream status and body; it carries CORS, the upstream content type when non-empty, and exactly the non-empty subscription headers under lower-case names, nothing else |
| `Proxy.BaseHeaders` | index.js:211-213 | content-type is set on top of the CORS headers exactly when the content type is non-empty |
| `Proxy.PassthroughOnto` | index.js:228-234 | only the four subscription names can be added or overwritten by the passthrough |
| `Scenarios.ForwardedGet` | index.js:100-240 | `api.example.com/data` by GET with it allowed: a body-less GET to `http://api.example.com/data`, upstream status and body returned |
| `Scenarios.RefusedHost` | index.js:138-151 | `evil.com` against `[example.com]`: 403, `Access denied: domain 'evil.com' is not in the allowed list`, no fetch |
| `Scenarios.FaviconRedirect` | index.js:131-132 | a path decoding to `favicon.ico` gives the redirect |
| `Scenarios.MalformedOverrides` | index.js:84-90 | `not-json/http://x.com` gives 500 with the fallback message and no fetch |

## Left out

- `extractHostname` (index.js:53-64) and the URL parser behind it are not
  modelled: the hostname is `Runtime.hostnameOf`, an arbitrary total function.
- `decodeURIComponent`, `JSON.parse`, `JSON.stringify(await request.json())`
  and `fetch` are not modelled either. They are parameters (`Runtime`) that
  may fail; their failure message becomes the error's message.
- `JSON.parse` of the overrides is modelled as producing a map from strings
  to strings. Non-string values (for which `toUpperCase` on `_method` would
  throw) are not modelled.
- Reading the inbound body as text, form data or a blob is taken to succeed
  and yields the raw body. Only the JSON read can fail. Form-data and blob
  re-encoding, and body streaming in either direction, are not modelled;
  the upstream body is carried as an opaque `Stream`.
- `toLowerCase`/`toUpperCase` are modelled on ASCII letters only. Full
  Unicode case mapping is not modelled.
- Positions taken and given by `indexOf`, `lastIndexOf`, `search` and
  `substr` are counted in characters, not UTF-16 code units. Each position
  is produced by one of these on a string and consumed by another on the
  same string, so the substrings are the same. The constant 8 of
  `url.substr(8)` (index.js:67) is applied to `request.url`, which a
  serialised URL keeps in ASCII. The one length compared with
  a constant, `url.length < 3` (index.js:129), is counted in UTF-16 code
  units (`JsString.Utf16Length`).
- `search("://")` is modelled as `indexOf("://")`. The regular expression
  built from `://` has no special characters, so the two agree.
- The runtime's normalisation of `request.method` and the joining of
  repeated header values are not modelled. The model takes the method string
  and a header map as given.
- `console.log`/`console.error` are diagnostics without behaviour and are
  left out. So are `addEventListener` and the construction of
  `Request`/`Response` objects.
- The concrete `ALLOWED_TARGET_DOMAINS` (index.js:5-9) is not fixed: the
  allow-list is a parameter of every member.
- `parseURL` assigns the parsed overrides to an implicit global (index.js:92).
  Sharing it between concurrent requests is not modelled. Within one request
  it is the value returned.
- `Response.sent` records the request handed to `fetch`. It is a modelling
  device that says whether a fetch happened and with what.
