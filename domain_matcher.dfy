/**
 * The target-domain allow-list (`isAllowedDomain`). The list itself is a
 * parameter, so every statement here holds for any configuration.
 */
module DomainMatcher {
  import opened JsString

  /**
   * Whether one (already lower-cased) pattern admits a lower-cased hostname:
   * `*.suffix` admits `suffix` itself and every name ending in `.suffix`; any
   * other pattern admits only itself.
   */
  predicate PatternAdmits(lowerPattern: string, hostname: string)
  {
    if StartsWith(lowerPattern, "*.") then
      EndsWith(hostname, lowerPattern[1..]) || hostname == lowerPattern[2..]
    else
      hostname == lowerPattern
  }

  /** The `for ... of` scan with early return over the patterns. */
  function AnyPatternAdmits(patterns: seq<string>, hostname: string): (r: bool)
    ensures r <==> exists i :: 0 <= i < |patterns| && PatternAdmits(Lower(patterns[i]), hostname)
  {
    if |patterns| == 0 then false
    else if PatternAdmits(Lower(patterns[0]), hostname) then true
    else
      var r := AnyPatternAdmits(patterns[1..], hostname);
      assert forall i :: 1 <= i < |patterns| ==> patterns[i] == patterns[1..][i - 1];
      r
  }

  /** `isAllowedDomain(hostname)` against the configured allow-list. */
  function IsAllowedDomain(allowList: seq<string>, hostname: string): bool
  {
    if |allowList| == 0 then true
    else AnyPatternAdmits(allowList, Lower(hostname))
  }

  /** The declarative reading of a wildcard entry `*.suffix`. */
  predicate WildcardAdmits(suffix: string, hostname: string)
  {
    hostname == suffix || EndsWith(hostname, "." + suffix)
  }

  /** An empty allow-list admits every hostname. */
  lemma EmptyListAllowsAll(hostname: string)
    ensures IsAllowedDomain([], hostname)
  {
  }

  /**
   * For a non-empty list, a hostname is allowed exactly when some entry,
   * compared case-insensitively, is either `*.s` with the hostname equal to
   * `s` or ending in `.s`, or is not a wildcard and equals the hostname.
   */
  lemma {:induction false} AllowedIffSomeEntryMatches(allowList: seq<string>, hostname: string)
    requires |allowList| > 0
    ensures IsAllowedDomain(allowList, hostname) <==>
      exists i :: 0 <= i < |allowList| &&
        var p := Lower(allowList[i]);
        if StartsWith(p, "*.") then WildcardAdmits(p[2..], Lower(hostname))
        else Lower(hostname) == p
  {
    var h := Lower(hostname);
    forall i | 0 <= i < |allowList|
      ensures PatternAdmits(Lower(allowList[i]), h) <==>
        var p := Lower(allowList[i]);
        if StartsWith(p, "*.") then WildcardAdmits(p[2..], h) else h == p
    {
      var p := Lower(allowList[i]);
      if StartsWith(p, "*.") {
        assert p[1..] == "." + p[2..];
      }
    }
  }

  /** The hostname's case never matters. */
  lemma HostnameCaseIgnored(allowList: seq<string>, hostname: string)
    ensures IsAllowedDomain(allowList, hostname) == IsAllowedDomain(allowList, Lower(hostname))
  {
    LowerIdempotent(hostname);
  }

  /** Nor does the case in which the entries are written. */
  lemma {:induction false} PatternCaseIgnored(allowList: seq<string>, hostname: string)
    ensures IsAllowedDomain(allowList, hostname) ==
            IsAllowedDomain(seq(|allowList|, i requires 0 <= i < |allowList| => Lower(allowList[i])), hostname)
  {
    var lowered := seq(|allowList|, i requires 0 <= i < |allowList| => Lower(allowList[i]));
    forall i | 0 <= i < |allowList|
      ensures Lower(lowered[i]) == Lower(allowList[i])
    {
      LowerIdempotent(allowList[i]);
    }
  }

  /** `*.mydomain.com` admits the apex and its subdomains, but not a look-alike. */
  lemma WildcardExample()
    ensures IsAllowedDomain(["*.mydomain.com"], "mydomain.com")
    ensures IsAllowedDomain(["*.mydomain.com"], "A.MyDomain.com")
    ensures !IsAllowedDomain(["*.mydomain.com"], "notmydomain.com")
  {
    WildcardPatternLowered();
    WildcardAdmitsApex();
    WildcardAdmitsSubdomain();
    WildcardRefusesLookalike();
  }

  // Proof helpers for WildcardExample: each case evaluated on its own literal,
  // so that no single proof has to unfold the case mapping of all of them.

  lemma WildcardPatternLowered()
    ensures Lower("*.mydomain.com") == "*.mydomain.com"
  {
  }

  lemma WildcardAdmitsApex()
    ensures PatternAdmits("*.mydomain.com", Lower("mydomain.com"))
  {
    assert Lower("mydomain.com") == "mydomain.com";
  }

  lemma WildcardAdmitsSubdomain()
    ensures PatternAdmits("*.mydomain.com", Lower("A.MyDomain.com"))
  {
    assert Lower("A.MyDomain.com") == "a.mydomain.com";
  }

  lemma WildcardRefusesLookalike()
    ensures !PatternAdmits("*.mydomain.com", Lower("notmydomain.com"))
  {
    var h := Lower("notmydomain.com");
    var p := "*.mydomain.com";
    assert h == "notmydomain.com";
    assert |h| == 15 && |p[1..]| == 13 && |p[2..]| == 12;
    assert h[2..][0] == 't' && p[1..][0] == '.';
  }
}
