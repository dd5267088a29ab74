/**
 * The three header sets the worker builds: CORS headers for its response,
 * the outbound request's headers, and the subscription headers copied from
 * the upstream response.
 */
module HeaderReconciler {
  import opened Wrappers
  import opened JsString
  import opened Http

  const DefaultAllowHeaders: string :=
    "Accept, Authorization, Cache-Control, Content-Type, DNT, If-Modified-Since, Keep-Alive, Origin, User-Agent, X-Requested-With, Token, x-access-token"

  const AllowedMethods: string := "GET, POST, PUT, PATCH, DELETE, OPTIONS"

  /**
   * The initial `outHeaders`: any origin, a fixed method list, and the
   * inbound `Access-Control-Allow-Headers` echoed back (the default list when
   * that header is absent or empty).
   */
  function CorsHeaders(inbound: HeaderMap): map<string, string>
  {
    map["access-control-allow-origin" := "*",
        "access-control-allow-methods" := AllowedMethods,
        "access-control-allow-headers" := GetOr(inbound, "Access-Control-Allow-Headers", DefaultAllowHeaders)]
  }

  /** `["POST", "PUT", "PATCH", "DELETE"].indexOf(method) >= 0`: exact, case-sensitive. */
  predicate IsBodiedVerb(verb: string)
  {
    verb in ["POST", "PUT", "PATCH", "DELETE"]
  }

  /** The headers the copy loop keeps: every inbound header but content-length and content-type. */
  predicate IsForwardable(name: string)
  {
    name != "content-length" && name != "content-type"
  }

  function ForwardableHeaders(inbound: HeaderMap): map<string, string>
  {
    map name | name in inbound && IsForwardable(name) :: inbound[name]
  }

  /**
   * `fp.headers`: the forwardable inbound headers, overlaid by every override
   * key (`Object.assign`), and for a bodied inbound verb with a non-empty
   * content type, that content type written last.
   */
  function OutboundHeaders(inbound: HeaderMap, overrides: map<string, string>, verb: string): map<string, string>
  {
    var merged := ForwardableHeaders(inbound) + overrides;
    var ct := Lower(GetOr(inbound, "content-type", ""));
    if IsBodiedVerb(verb) && ct != "" then merged["content-type" := GetOr(inbound, "content-type", "")]
    else merged
  }

  /** True when a header value is present and non-empty (JavaScript truthiness of the string). */
  predicate Truthy(v: Option<string>)
  {
    v.Some? && v.value != ""
  }

  /** The inbound request declares a non-empty content type. */
  predicate HasContentType(inbound: HeaderMap)
  {
    "content-type" in inbound && inbound["content-type"] != ""
  }

  /**
   * The merge in three steps: an outbound header comes from the inbound
   * request only if it is neither content-length nor content-type, any
   * override beats it, and the inbound content type (for a bodied verb) beats
   * any override.
   */
  lemma OutboundHeadersMerge(inbound: HeaderMap, overrides: map<string, string>, verb: string)
    ensures var r := OutboundHeaders(inbound, overrides, verb);
      var ctLast := IsBodiedVerb(verb) && HasContentType(inbound);
      (forall k :: k in r <==>
         (k in inbound && IsForwardable(k)) || k in overrides || (k == "content-type" && ctLast)) &&
      (forall k :: k in r ==>
         r[k] == if k == "content-type" && ctLast then inbound["content-type"]
                 else if k in overrides then overrides[k]
                 else inbound[k])
  {
    LowerCaseIsFixed("content-type");
  }

  /** The subscription headers the worker copies from upstream, in both spellings. */
  const SubscriptionHeaderNames: seq<string> := [
    "subscription-userinfo", "Subscription-Userinfo",
    "profile-update-interval", "Profile-Update-Interval",
    "profile-title", "Profile-Title",
    "content-disposition", "Content-Disposition"
  ]

  /** One step of the passthrough loop: copy a truthy upstream value under the lower-cased name. */
  function PassOne(out: map<string, string>, upstream: HeaderMap, name: string): map<string, string>
  {
    var v := Get(upstream, name);
    if Truthy(v) then out[Lower(name) := v.value] else out
  }

  /** The passthrough loop over `names`, in order. */
  function Passthrough(out: map<string, string>, upstream: HeaderMap, names: seq<string>): map<string, string>
  {
    if names == [] then out
    else PassOne(Passthrough(out, upstream, names[..|names| - 1]), upstream, names[|names| - 1])
  }

  function LoweredNames(names: seq<string>): set<string>
  {
    set name | name in names :: Lower(name)
  }

  /**
   * The passthrough adds exactly the listed headers (by lower-cased name)
   * that upstream sends with a non-empty value, with upstream's value, and
   * leaves every other header as it was.
   */
  lemma {:induction false} PassthroughCopies(out: map<string, string>, upstream: HeaderMap, names: seq<string>)
    ensures var r := Passthrough(out, upstream, names);
      (forall k :: k in r <==> k in out || (k in LoweredNames(names) && k in upstream && upstream[k] != "")) &&
      (forall k :: k in r ==>
         r[k] == if k in LoweredNames(names) && k in upstream && upstream[k] != "" then upstream[k] else out[k])
  {
    if names != [] {
      var init := names[..|names| - 1];
      var last := names[|names| - 1];
      PassthroughCopies(out, upstream, init);
      assert names == init + [last];
      assert LoweredNames(names) == LoweredNames(init) + {Lower(last)};
    }
  }

  // Proof helpers for SubscriptionNamesLowered: the lower-casing of each
  // literal name, evaluated in a lemma of its own to keep each proof small.

  lemma LowerSubscriptionUserinfo()
    ensures Lower("Subscription-Userinfo") == "subscription-userinfo"
  {
  }

  lemma LowerProfileUpdateInterval()
    ensures Lower("Profile-Update-Interval") == "profile-update-interval"
  {
  }

  lemma LowerProfileTitle()
    ensures Lower("Profile-Title") == "profile-title"
  {
  }

  lemma LowerContentDisposition()
    ensures Lower("Content-Disposition") == "content-disposition"
  {
  }

  lemma LowerCaseSubscriptionNames()
    ensures Lower("subscription-userinfo") == "subscription-userinfo"
    ensures Lower("profile-update-interval") == "profile-update-interval"
    ensures Lower("profile-title") == "profile-title"
    ensures Lower("content-disposition") == "content-disposition"
  {
  }

  /** The four subscription headers, by their lower-case names. */
  const SubscriptionKeys: set<string> :=
    {"subscription-userinfo", "profile-update-interval", "profile-title", "content-disposition"}

  /** The eight spellings name four headers. */
  lemma SubscriptionNamesLowered()
    ensures LoweredNames(SubscriptionHeaderNames) == SubscriptionKeys
  {
    var names := SubscriptionHeaderNames;
    LowerSubscriptionUserinfo();
    LowerProfileUpdateInterval();
    LowerProfileTitle();
    LowerContentDisposition();
    LowerCaseSubscriptionNames();
    forall i | 0 <= i < |names|
      ensures Lower(names[i]) in SubscriptionKeys
    {
    }
    assert names[0] in names && names[2] in names && names[4] in names && names[6] in names;
  }
}
