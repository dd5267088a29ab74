/**
 * `parseURL`: the inbound URL carries, after the gateway's own origin, a
 * percent-encoded composite `[overrides-json/]target-url`.
 */
module UrlParser {
  import opened Wrappers
  import opened JsString
  import opened Http

  /** The target and the override object (`_method`, `_body` and extra headers). */
  datatype ParsedURL = ParsedURL(url: string, headers: map<string, string>)

  /**
   * `url.substr(8)` drops `https://`; then everything after the first `/`
   * (the whole rest when there is none, since -1 + 1 is 0).
   */
  function EncodedPath(url: string): string
  {
    var urlbody := SubstrFrom(url, 8);
    SubstrFrom(urlbody, IndexOf(urlbody, "/") + 1)
  }

  /**
   * `urlbody.lastIndexOf("/", urlbody.search("://"))`: the last `/` at or
   * before the first `://`; with no `://` the position is -1, which only
   * looks at index 0.
   */
  function SplitIndex(urlbody: string): (k: int)
    ensures -1 <= k < |urlbody|
    ensures k >= 0 ==> urlbody[k] == '/'
  {
    var k := LastIndexOf(urlbody, "/", IndexOf(urlbody, "://"));
    assert k >= 0 ==> urlbody[k..k + 1] == "/";
    k
  }

  /**
   * The override prefix: decoded once more unless it already starts with
   * `{`, then required to start with `{`, then parsed as JSON.
   */
  function DecodeOverrides(rt: Runtime, headersBody: string): Result<map<string, string>, ProxyError>
  {
    var once := if StartsWith(headersBody, "{") then Success(headersBody) else rt.decodeURIComponent(headersBody);
    match once
    case Failure(m) => Failure(RuntimeError(m))
    case Success(hb) =>
      if !StartsWith(hb, "{") then Failure(Thrown("Invalid URL headers string: " + hb))
      else match rt.parseJsonObject(hb)
        case Failure(m) => Failure(RuntimeError(m))
        case Success(h) => Success(h)
  }

  /** `parseURL(url)`; a `throw` becomes `Failure`. */
  function ParseURL(rt: Runtime, url: string): (r: Result<ParsedURL, ProxyError>)
    ensures r.Success? ==> r.value.url != ""
  {
    match rt.decodeURIComponent(EncodedPath(url))
    case Failure(m) => Failure(RuntimeError(m))
    case Success(urlbody) =>
      var split := SplitIndex(urlbody);
      var realUrl := SubstrFrom(urlbody, split + 1);
      if realUrl == "" then Failure(Thrown("Invalid real URL: " + urlbody))
      else
        var headersBody := Substr(urlbody, 0, split);
        if headersBody == "" then Success(ParsedURL(realUrl, map[]))
        else match DecodeOverrides(rt, headersBody)
          case Failure(e) => Failure(e)
          case Success(h) => Success(ParsedURL(realUrl, h))
  }

  /** No `/` at or before the first `://` (at or before index 0 when there is none). */
  predicate NoSlashBeforeScheme(s: string)
  {
    forall i :: 0 <= i < |s| && i <= IndexOf(s, "://") ==> s[i] != '/'
  }

  /** A target the parser hands back unchanged: non-empty, not starting with `/`, no `/` before its `://`. */
  predicate TargetShaped(s: string)
  {
    s != "" && s[0] != '/' && NoSlashBeforeScheme(s)
  }

  lemma SlashAt(s: string, j: int)
    requires 0 <= j < |s|
    ensures OccursAt(s, "/", j) <==> s[j] == '/'
  {
    if s[j] == '/' {
      assert s[j..j + 1] == "/";
    }
  }

  /** An occurrence inside a suffix is an occurrence in the whole string, shifted. */
  lemma SuffixOccurs(b: string, n: nat, t: string, j: int)
    requires n <= |b|
    ensures OccursAt(b[n..], t, j) <==> 0 <= j && OccursAt(b, t, n + j)
  {
    if 0 <= j && j + |t| <= |b| - n {
      assert b[n..][j..j + |t|] == b[n + j..n + j + |t|];
    }
  }

  /** The split `/` lies strictly before the first `://`. */
  lemma SplitBeforeScheme(b: string)
    requires Contains(b, "://")
    ensures SplitIndex(b) < IndexOf(b, "://")
  {
    var k := IndexOf(b, "://");
    assert b[k..k + 3] == "://";
    assert b[k..k + 3][0] == b[k];
  }

  /** The first `://` after the split is the composite's first `://`. */
  lemma {:induction false} TailScheme(b: string, s: int)
    requires Contains(b, "://")
    requires -1 <= s < IndexOf(b, "://")
    ensures IndexOf(b[s + 1..], "://") == IndexOf(b, "://") - s - 1
  {
    var k := IndexOf(b, "://");
    var t := b[s + 1..];
    SuffixOccurs(b, s + 1, "://", k - s - 1);
    forall j | 0 <= j < k - s - 1
      ensures !OccursAt(t, "://", j)
    {
      SuffixOccurs(b, s + 1, "://", j);
    }
    assert OccursAt(t, "://", k - s - 1);
    assert forall j :: 0 <= j < k - s - 1 ==> !OccursAt(t, "://", j);
    IndexOfIsFirst(t, "://", k - s - 1);
    assert IndexOf(t, "://") == k - s - 1;
  }

  /** No `/` lies after the split and at or before the first `://`. */
  lemma SplitIsLast(b: string, j: int)
    requires SplitIndex(b) < j < |b| && j <= IndexOf(b, "://")
    ensures b[j] != '/'
  {
    var p := IndexOf(b, "://");
    assert SplitIndex(b) == LastIndexOf(b, "/", p);
    assert j <= Clamp(p, |b|);
    SlashAt(b, j);
  }

  /** What follows the split contains `://` exactly when the composite does. */
  lemma SplitTailContains(b: string)
    ensures Contains(b[SplitIndex(b) + 1..], "://") <==> Contains(b, "://")
  {
    var s := SplitIndex(b);
    var t := b[s + 1..];
    if Contains(t, "://") {
      var j :| 0 <= j <= |t| - 3 && OccursAt(t, "://", j);
      SuffixOccurs(b, s + 1, "://", j);
    }
    if Contains(b, "://") {
      var k := IndexOf(b, "://");
      SplitBeforeScheme(b);
      SuffixOccurs(b, s + 1, "://", k - s - 1);
    }
  }

  /** When the composite contains `://`, no `/` precedes it in what follows the split. */
  lemma {:induction false} SplitTailNoSlash(b: string)
    requires Contains(b, "://")
    ensures NoSlashBeforeScheme(b[SplitIndex(b) + 1..])
  {
    var s := SplitIndex(b);
    var t := b[s + 1..];
    SplitBeforeScheme(b);
    TailScheme(b, s);
    forall i | 0 <= i < |t| && i <= IndexOf(t, "://")
      ensures t[i] != '/'
    {
      assert t[i] == b[s + 1 + i];
      SplitIsLast(b, s + 1 + i);
    }
  }

  /**
   * What follows the split of a decoded composite contains `://` exactly when
   * the composite does, and then no `/` precedes it.
   */
  lemma SplitTail(b: string)
    ensures var t := b[SplitIndex(b) + 1..];
      (Contains(t, "://") <==> Contains(b, "://")) &&
      (Contains(b, "://") ==> NoSlashBeforeScheme(t))
  {
    SplitTailContains(b);
    if Contains(b, "://") {
      SplitTailNoSlash(b);
    }
  }

  /**
   * The target is the part of the decoded composite after the last `/` at or
   * before its first `://`: a non-empty suffix preceded by nothing or by `/`,
   * containing `://` exactly when the composite does, with no `/` before it;
   * the overrides are empty when nothing but that `/` precedes it.
   */
  lemma ParsedTargetShape(rt: Runtime, url: string, b: string, p: ParsedURL)
    requires rt.decodeURIComponent(EncodedPath(url)) == Success(b)
    requires ParseURL(rt, url) == Success(p)
    ensures p.url != "" && EndsWith(b, p.url) && (|b| == |p.url| || b[|b| - |p.url| - 1] == '/')
    ensures Contains(p.url, "://") <==> Contains(b, "://")
    ensures Contains(p.url, "://") ==> NoSlashBeforeScheme(p.url)
    ensures |b| - |p.url| <= 1 ==> p.headers == map[]
  {
    ParseSteps(rt, url, p);
    ShapeFromSteps(b, p);
  }

  lemma ShapeFromSteps(b: string, p: ParsedURL)
    requires p.url == b[SplitIndex(b) + 1..] && (SplitIndex(b) <= 0 ==> p.headers == map[])
    requires p.url != ""
    ensures p.url != "" && EndsWith(b, p.url) && (|b| == |p.url| || b[|b| - |p.url| - 1] == '/')
    ensures Contains(p.url, "://") <==> Contains(b, "://")
    ensures Contains(p.url, "://") ==> NoSlashBeforeScheme(p.url)
    ensures |b| - |p.url| <= 1 ==> p.headers == map[]
  {
    SplitTargetShape(b);
  }

  /** What follows the split is a suffix of the composite, preceded by nothing or by the split `/`. */
  lemma SplitTargetShape(b: string)
    ensures var t := b[SplitIndex(b) + 1..];
      EndsWith(b, t) && (|b| == |t| || b[|b| - |t| - 1] == '/') &&
      (Contains(t, "://") <==> Contains(b, "://")) &&
      (Contains(b, "://") ==> NoSlashBeforeScheme(t))
  {
    var t := b[SplitIndex(b) + 1..];
    assert b[|b| - |t|..] == t;
    SplitTail(b);
  }

  /** A successful parse took the target after the split, and no overrides when nothing precedes the split. */
  lemma ParseSteps(rt: Runtime, url: string, p: ParsedURL)
    requires ParseURL(rt, url) == Success(p)
    ensures rt.decodeURIComponent(EncodedPath(url)).Success?
    ensures var b := rt.decodeURIComponent(EncodedPath(url)).value;
      p.url == b[SplitIndex(b) + 1..] && (SplitIndex(b) <= 0 ==> p.headers == map[])
  {
    var b := rt.decodeURIComponent(EncodedPath(url)).value;
    var s := SplitIndex(b);
    assert SubstrFrom(b, s + 1) == b[s + 1..];
    assert s <= 0 ==> Substr(b, 0, s) == "";
  }

  /** The characters of a slice of a concatenation, one side at a time. */
  lemma EncodedPathOf(gateway: string, host: string, encoded: string)
    requires |gateway| == 8 && '/' !in host
    ensures EncodedPath(gateway + host + "/" + encoded) == encoded
  {
    var url := gateway + host + "/" + encoded;
    var urlbody := SubstrFrom(url, 8);
    assert urlbody == host + "/" + encoded;
    forall j | 0 <= j < |host|
      ensures !OccursAt(urlbody, "/", j)
    {
      SlashAt(urlbody, j);
    }
    SlashAt(urlbody, |host|);
    IndexOfIsFirst(urlbody, "/", |host|);
  }

  /** A target-shaped string has no `/` where the split looks, so nothing is split off. */
  lemma {:induction false} ShapedTargetNotSplit(target: string)
    requires TargetShaped(target)
    ensures SplitIndex(target) == -1
  {
    var k := IndexOf(target, "://");
    forall j | 0 <= j <= Clamp(k, |target|)
      ensures !OccursAt(target, "/", j)
    {
      if j < |target| {
        SlashAt(target, j);
      }
    }
  }

  /**
   * Round trip without overrides: a gateway URL whose path decodes to a
   * target-shaped URL parses to exactly that target and an empty override map.
   */
  lemma {:induction false} ParseBareTarget(rt: Runtime, gateway: string, host: string, encoded: string, target: string)
    requires |gateway| == 8 && '/' !in host
    requires rt.decodeURIComponent(encoded) == Success(target)
    requires TargetShaped(target)
    ensures ParseURL(rt, gateway + host + "/" + encoded) == Success(ParsedURL(target, map[]))
  {
    EncodedPathOf(gateway, host, encoded);
    ShapedTargetNotSplit(target);
    assert SubstrFrom(target, 0) == target;
  }

  /** In `prefix/target`, no `://` starts before the target's own first one. */
  lemma NoSchemeBeforeTarget(prefix: string, target: string, j: int)
    requires TargetShaped(target) && Contains(target, "://")
    requires !Contains(prefix + "/", "://")
    requires 0 <= j < |prefix| + 1 + IndexOf(target, "://")
    ensures !OccursAt(prefix + "/" + target, "://", j)
  {
    var b := prefix + "/" + target;
    var n := |prefix| + 1;
    if j + 3 <= n {
      assert (prefix + "/")[j..j + 3] == b[j..j + 3];
      assert !OccursAt(prefix + "/", "://", j);
    } else if j == n - 1 {
      assert b[j] == '/';
      assert j + 3 > |b| || b[j..j + 3][0] == '/';
    } else if j == n - 2 {
      assert b[j + 2] == target[0];
      assert j + 3 > |b| || b[j..j + 3][2] != '/';
    } else {
      assert b[n..] == target;
      SuffixOccurs(b, n, "://", j - n);
    }
  }

  /** In `prefix/target`, with `://` in the target and not across the prefix, the split is the `/` after the prefix. */
  lemma {:induction false} SplitAfterPrefix(prefix: string, target: string)
    requires TargetShaped(target) && Contains(target, "://")
    requires !Contains(prefix + "/", "://")
    ensures SplitIndex(prefix + "/" + target) == |prefix|
  {
    var b := prefix + "/" + target;
    var n := |prefix| + 1;
    var k := IndexOf(target, "://");
    assert b[n..] == target;
    SuffixOccurs(b, n, "://", k);
    forall j | 0 <= j < n + k
      ensures !OccursAt(b, "://", j)
    {
      NoSchemeBeforeTarget(prefix, target, j);
    }
    IndexOfIsFirst(b, "://", n + k);
    SlashAt(b, n - 1);
    forall j | n - 1 < j <= n + k
      ensures !OccursAt(b, "/", j)
    {
      SlashAt(b, j);
    }
  }

  /**
   * Round trip with overrides: when the path decodes to `prefix/target`, the
   * target carries `://` and the prefix (with its `/`) does not, the parser
   * splits exactly there and the overrides are those of the prefix.
   */
  lemma {:induction false} ParseWithOverrides(rt: Runtime, gateway: string, host: string, encoded: string,
                                              prefix: string, target: string)
    requires |gateway| == 8 && '/' !in host
    requires rt.decodeURIComponent(encoded) == Success(prefix + "/" + target)
    requires TargetShaped(target) && Contains(target, "://")
    requires prefix != "" && !Contains(prefix + "/", "://")
    ensures ParseURL(rt, gateway + host + "/" + encoded) ==
      match DecodeOverrides(rt, prefix)
      case Success(h) => Success(ParsedURL(target, h))
      case Failure(e) => Failure(e)
  {
    EncodedPathOf(gateway, host, encoded);
    var b := prefix + "/" + target;
    SplitAfterPrefix(prefix, target);
    assert SubstrFrom(b, |prefix| + 1) == target;
    assert Substr(b, 0, |prefix|) == prefix;
  }

  /**
   * A prefix that already starts with `{` is not decoded again: the result
   * does not depend on `decodeURIComponent` at all.
   */
  lemma BracedOverridesNotDecoded(rt: Runtime, rt': Runtime, headersBody: string)
    requires StartsWith(headersBody, "{")
    requires rt.parseJsonObject == rt'.parseJsonObject
    ensures DecodeOverrides(rt, headersBody) == DecodeOverrides(rt', headersBody)
    ensures rt.parseJsonObject(headersBody).Success? ==>
      DecodeOverrides(rt, headersBody) == Success(rt.parseJsonObject(headersBody).value)
  {
  }

  /**
   * Any other prefix is decoded exactly once: if that yields `{...}` it is
   * treated as a braced prefix (never decoded a second time), otherwise it is
   * rejected with the decoded text in the message.
   */
  lemma OverridesDecodedOnce(rt: Runtime, headersBody: string, decoded: string)
    requires !StartsWith(headersBody, "{")
    requires rt.decodeURIComponent(headersBody) == Success(decoded)
    ensures StartsWith(decoded, "{") ==> DecodeOverrides(rt, headersBody) == DecodeOverrides(rt, decoded)
    ensures !StartsWith(decoded, "{") ==>
      DecodeOverrides(rt, headersBody) == Failure(Thrown("Invalid URL headers string: " + decoded))
  {
  }

  /**
   * The parse throws `Invalid real URL` exactly when the split falls on the
   * composite's last character (or the composite is empty), so no target is
   * left after it.
   */
  lemma EmptyTargetThrows(rt: Runtime, url: string, b: string)
    requires rt.decodeURIComponent(EncodedPath(url)) == Success(b)
    ensures ParseURL(rt, url) == Failure(Thrown("Invalid real URL: " + b)) <==> SplitIndex(b) == |b| - 1
  {
    var split := SplitIndex(b);
    var realUrl := SubstrFrom(b, split + 1);
    assert realUrl == b[split + 1..];
    if realUrl != "" {
      var r := ParseURL(rt, url);
      if r.Failure? && r.error.Thrown? {
        var hb := if StartsWith(Substr(b, 0, split), "{") then Substr(b, 0, split)
                  else rt.decodeURIComponent(Substr(b, 0, split)).value;
        assert r.error.text == "Invalid URL headers string: " + hb;
        assert r.error.text[8] == 'U';
        assert ("Invalid real URL: " + b)[8] == 'r';
      }
    }
  }
}
