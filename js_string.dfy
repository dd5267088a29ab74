/**
 * The JavaScript string operations the worker relies on, with their ECMAScript
 * semantics written out: clamped positions of `substr` and `lastIndexOf`, -1 for
 * "not found" in `indexOf`. Case mapping is restricted to ASCII.
 */
module JsString {

  function LowerChar(c: char): char
  {
    if 'A' <= c <= 'Z' then (c as int + 32) as char else c
  }

  function UpperChar(c: char): char
  {
    if 'a' <= c <= 'z' then (c as int - 32) as char else c
  }

  /** `s.toLowerCase()` on ASCII letters. */
  function Lower(s: string): string
  {
    seq(|s|, i requires 0 <= i < |s| => LowerChar(s[i]))
  }

  /** `s.toUpperCase()` on ASCII letters. */
  function Upper(s: string): string
  {
    seq(|s|, i requires 0 <= i < |s| => UpperChar(s[i]))
  }

  predicate IsLowerCase(s: string)
  {
    forall i :: 0 <= i < |s| ==> !('A' <= s[i] <= 'Z')
  }

  predicate IsUpperCase(s: string)
  {
    forall i :: 0 <= i < |s| ==> !('a' <= s[i] <= 'z')
  }

  /** A character outside the Basic Multilingual Plane: two UTF-16 code units. */
  predicate IsAstral(c: char)
  {
    c as int >= 0x1_0000
  }

  /** The positions of `s` holding a character outside the Basic Multilingual Plane. */
  function AstralPositions(s: string): set<nat>
  {
    set i: nat | i < |s| && IsAstral(s[i])
  }

  /**
   * `s.length`: the number of UTF-16 code units, so a character outside the
   * Basic Multilingual Plane (a surrogate pair) counts twice.
   */
  function Utf16Length(s: string): (n: nat)
    ensures |s| <= n <= 2 * |s|
  {
    AstralPositionsBounded(s);
    |s| + |AstralPositions(s)|
  }

  /** The UTF-16 length is the character count exactly when every character lies in the Basic Multilingual Plane. */
  lemma Utf16LengthOfBmp(s: string)
    ensures Utf16Length(s) == |s| <==> forall i :: 0 <= i < |s| ==> !IsAstral(s[i])
  {
    if Utf16Length(s) == |s| {
      assert AstralPositions(s) == {};
      forall i | 0 <= i < |s|
        ensures !IsAstral(s[i])
      {
        assert i !in AstralPositions(s);
      }
    } else {
      var i :| i in AstralPositions(s);
      assert IsAstral(s[i]);
    }
  }

  /**
   * `s.length >= 3` without counting: three characters, or two of which one
   * is a surrogate pair.
   */
  predicate HasThreeUnits(s: string)
  {
    |s| >= 3 || (|s| == 2 && (IsAstral(s[0]) || IsAstral(s[1])))
  }

  lemma HasThreeUnitsIff(s: string)
    ensures HasThreeUnits(s) <==> Utf16Length(s) >= 3
  {
    if |s| == 2 {
      Utf16LengthOfBmp(s);
      if !IsAstral(s[0]) && !IsAstral(s[1]) {
        forall i | 0 <= i < |s|
          ensures !IsAstral(s[i])
        {
        }
      }
    }
  }

  lemma {:induction false} AstralPositionsBounded(s: string)
    ensures |AstralPositions(s)| <= |s|
  {
    if |s| > 0 {
      var init := s[..|s| - 1];
      AstralPositionsBounded(init);
      var extra := AstralPositions(init) + {|s| - 1};
      AstralPositionsGrow(s, init);
      assert extra == AstralPositions(s) + (extra - AstralPositions(s));
    }
  }

  lemma AstralPositionsGrow(s: string, init: string)
    requires |s| > 0 && init == s[..|s| - 1]
    ensures AstralPositions(s) <= AstralPositions(init) + {|s| - 1}
  {
    forall i: nat | i in AstralPositions(s)
      ensures i in AstralPositions(init) + {|s| - 1}
    {
      if i < |s| - 1 {
        assert init[i] == s[i];
      }
    }
  }

  /** `s.startsWith(p)` */
  predicate StartsWith(s: string, p: string)
  {
    |p| <= |s| && s[..|p|] == p
  }

  /** `s.endsWith(t)` */
  predicate EndsWith(s: string, t: string)
  {
    |t| <= |s| && s[|s| - |t|..] == t
  }

  /** `t` occurs in `s` starting at index `k`. */
  predicate OccursAt(s: string, t: string, k: int)
  {
    0 <= k && k + |t| <= |s| && s[k..k + |t|] == t
  }

  /** `s.includes(t)` */
  predicate Contains(s: string, t: string)
  {
    exists k :: 0 <= k <= |s| - |t| && OccursAt(s, t, k)
  }

  function IndexOfFrom(s: string, t: string, from: nat): (r: int)
    ensures r == -1 || (from <= r && OccursAt(s, t, r))
    ensures forall k :: from <= k && (r == -1 || k < r) ==> !OccursAt(s, t, k)
    decreases |s| - from
  {
    if from + |t| > |s| then -1
    else if s[from..from + |t|] == t then from
    else IndexOfFrom(s, t, from + 1)
  }

  /** `s.indexOf(t)`: the first occurrence of `t`, or -1. */
  function IndexOf(s: string, t: string): (r: int)
    ensures r == -1 || OccursAt(s, t, r)
    ensures forall k :: 0 <= k && (r == -1 || k < r) ==> !OccursAt(s, t, k)
  {
    IndexOfFrom(s, t, 0)
  }

  function LastIndexOfAtOrBefore(s: string, t: string, k: int): (r: int)
    ensures r == -1 || (0 <= r <= k && OccursAt(s, t, r))
    ensures forall j :: r < j <= k ==> !OccursAt(s, t, j)
    decreases k
  {
    if k < 0 then -1
    else if OccursAt(s, t, k) then k
    else LastIndexOfAtOrBefore(s, t, k - 1)
  }

  /**
   * `s.lastIndexOf(t, position)`: the last occurrence of `t` that starts at or
   * before `position`, the position first clamped to 0..|s| (so a negative
   * position looks only at index 0).
   */
  function LastIndexOf(s: string, t: string, position: int): (r: int)
    ensures r == -1 || (0 <= r <= Clamp(position, |s|) && OccursAt(s, t, r))
    ensures forall j :: r < j <= Clamp(position, |s|) ==> !OccursAt(s, t, j)
  {
    LastIndexOfAtOrBefore(s, t, Clamp(position, |s|))
  }

  function Clamp(x: int, hi: nat): nat
  {
    if x < 0 then 0 else if x > hi then hi else x
  }

  /**
   * `s.substr(start, length)` (ECMAScript Annex B): a negative start counts
   * from the end, a negative length is 0, both are clamped to the string.
   */
  function Substr(s: string, start: int, length: int): string
  {
    var from := if start < 0 then Clamp(|s| + start, |s|) else Clamp(start, |s|);
    var to := if from + length > |s| then |s| else if length < 0 then from else from + length;
    s[from..to]
  }

  /** `s.substr(start)`, length omitted. */
  function SubstrFrom(s: string, start: int): string
  {
    Substr(s, start, |s|)
  }

  /**
   * The calls the worker makes: `substr(k)` is the suffix from `k` (empty past
   * the end, counted from the end when negative), `substr(0, k)` the prefix of
   * length `k` (empty for a negative `k`).
   */
  lemma SubstrShapes(s: string, k: int)
    ensures 0 <= k <= |s| ==> SubstrFrom(s, k) == s[k..] && Substr(s, 0, k) == s[..k]
    ensures k > |s| ==> SubstrFrom(s, k) == [] && Substr(s, 0, k) == s
    ensures k < 0 ==> SubstrFrom(s, k) == s[Clamp(|s| + k, |s|)..] && Substr(s, 0, k) == []
  {
  }

  lemma LowerIsLowerCase(s: string)
    ensures IsLowerCase(Lower(s))
  {
  }

  lemma LowerCaseIsFixed(s: string)
    requires IsLowerCase(s)
    ensures Lower(s) == s
  {
  }

  lemma LowerIdempotent(s: string)
    ensures Lower(Lower(s)) == Lower(s)
  {
    LowerIsLowerCase(s);
    LowerCaseIsFixed(Lower(s));
  }

  lemma LowerAppend(a: string, b: string)
    ensures Lower(a + b) == Lower(a) + Lower(b)
  {
  }

  /** Upper-casing forgets the original case: two strings equal up to case upper-case alike. */
  lemma UpperIgnoresCase(a: string, b: string)
    requires Lower(a) == Lower(b)
    ensures Upper(a) == Upper(b)
  {
    forall i | 0 <= i < |a|
      ensures Upper(a)[i] == Upper(b)[i]
    {
      assert Lower(a)[i] == Lower(b)[i];
    }
  }

  /** Upper-casing keeps the letters: lower-casing the result gives what lower-casing the input gives. */
  lemma LowerOfUpper(s: string)
    ensures Lower(Upper(s)) == Lower(s)
  {
  }

  lemma UpperIsUpperCase(s: string)
    ensures IsUpperCase(Upper(s))
  {
  }

  /** A first occurrence found by hand is the one `indexOf` reports. */
  lemma IndexOfIsFirst(s: string, t: string, k: int)
    requires OccursAt(s, t, k)
    requires forall j :: 0 <= j < k ==> !OccursAt(s, t, j)
    ensures IndexOf(s, t) == k
  {
  }

  lemma IndexOfNotFound(s: string, t: string)
    ensures IndexOf(s, t) == -1 <==> !Contains(s, t)
  {
  }
}
