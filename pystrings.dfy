/**
 * The few Python `str` operations the plugin relies on, with CPython's exact
 * behaviour: `startswith`, `endswith`, `strip()` with no argument,
 * `lstrip(c)` for one character, and `replace(pattern, "")`.
 */
module PyStrings {

  predicate StartsWith(s: string, prefix: string) {
    prefix <= s
  }

  predicate EndsWith(s: string, suffix: string) {
    |suffix| <= |s| && s[|s| - |suffix|..] == suffix
  }

  /**
   * The characters `str.isspace()` accepts, which are the ones `str.strip()`
   * removes: the ASCII controls 0x09-0x0D and 0x1C-0x1F, the space, NEL,
   * NO-BREAK SPACE and the Unicode space separators and line/paragraph separators.
   */
  predicate IsSpace(c: char) {
    || ('\t' <= c <= '\r')
    || ('\U{1C}' <= c <= '\U{1F}')
    || c == ' '
    || c == '\U{85}'
    || c == '\U{A0}'
    || c == '\U{1680}'
    || ('\U{2000}' <= c <= '\U{200A}')
    || c == '\U{2028}'
    || c == '\U{2029}'
    || c == '\U{202F}'
    || c == '\U{205F}'
    || c == '\U{3000}'
  }

  predicate AllSpace(s: string) {
    forall i :: 0 <= i < |s| ==> IsSpace(s[i])
  }

  /** Number of whitespace characters at the front of `s`. */
  function LeadingSpaces(s: string): (n: nat)
    ensures n <= |s|
    ensures AllSpace(s[..n])
    ensures n == |s| || !IsSpace(s[n])
  {
    if s == [] || !IsSpace(s[0]) then 0 else 1 + LeadingSpaces(s[1..])
  }

  /** Number of whitespace characters at the end of `s`. */
  function TrailingSpaces(s: string): (n: nat)
    ensures n <= |s|
    ensures AllSpace(s[|s| - n..])
    ensures n == |s| || !IsSpace(s[|s| - n - 1])
  {
    if s == [] || !IsSpace(s[|s| - 1]) then 0 else 1 + TrailingSpaces(s[..|s| - 1])
  }

  /** `s.strip()`: `s` without its leading and trailing whitespace. */
  function Strip(s: string): (r: string)
    ensures |r| <= |s|
    ensures r == [] || (!IsSpace(r[0]) && !IsSpace(r[|r| - 1]))
    ensures AllSpace(s) ==> r == []
    ensures exists i :: 0 <= i <= |s| - |r| && r == s[i..i + |r|] && AllSpace(s[..i]) && AllSpace(s[i + |r|..])
  {
    var t := s[LeadingSpaces(s)..];
    t[..|t| - TrailingSpaces(t)]
  }

  /** Text padded with whitespace on both sides strips back to the text itself. */
  lemma {:induction false} StripPadded(pre: string, d: string, post: string)
    requires AllSpace(pre) && AllSpace(post)
    requires d != [] && !IsSpace(d[0]) && !IsSpace(d[|d| - 1])
    ensures Strip(pre + d + post) == d
  {
    var s := pre + d + post;
    LeadingSpacesOfPadded(pre, d + post);
    assert s == pre + (d + post);
    assert s[|pre|..] == d + post;
    TrailingSpacesOfPadded(d, post);
  }

  lemma {:induction false} LeadingSpacesOfPadded(pre: string, rest: string)
    requires AllSpace(pre)
    requires rest != [] && !IsSpace(rest[0])
    ensures LeadingSpaces(pre + rest) == |pre|
  {
    if pre != [] {
      assert (pre + rest)[1..] == pre[1..] + rest;
      LeadingSpacesOfPadded(pre[1..], rest);
    }
  }

  lemma {:induction false} TrailingSpacesOfPadded(rest: string, post: string)
    requires AllSpace(post)
    requires rest != [] && !IsSpace(rest[|rest| - 1])
    ensures TrailingSpaces(rest + post) == |post|
  {
    if post != [] {
      var s := rest + post;
      assert s[..|s| - 1] == rest + post[..|post| - 1];
      TrailingSpacesOfPadded(rest, post[..|post| - 1]);
    }
  }

  /** `s.lstrip(c)`: `s` without every leading copy of `c`. */
  function LStripChar(s: string, c: char): (r: string)
    ensures |r| <= |s| && r == s[|s| - |r|..]
    ensures forall i :: 0 <= i < |s| - |r| ==> s[i] == c
    ensures r == [] || r[0] != c
  {
    if s != [] && s[0] == c then LStripChar(s[1..], c) else s
  }

  /**
   * `s.replace(pattern, "")`: scanning left to right, every non-overlapping
   * occurrence of `pattern` in `s` is dropped; the output is not re-scanned.
   */
  function RemoveAll(s: string, pattern: string): (r: string)
    requires pattern != []
    ensures |r| <= |s|
    decreases |s|
  {
    if s == [] then []
    else if StartsWith(s, pattern) then RemoveAll(s[|pattern|..], pattern)
    else [s[0]] + RemoveAll(s[1..], pattern)
  }

  predicate Occurs(pattern: string, s: string) {
    exists i :: 0 <= i <= |s| && StartsWith(s[i..], pattern)
  }

  /** Replacing a pattern that does not occur leaves the text as it was. */
  lemma {:induction false} RemoveAllAbsent(s: string, pattern: string)
    requires pattern != []
    requires !Occurs(pattern, s)
    ensures RemoveAll(s, pattern) == s
  {
    if s != [] {
      assert !StartsWith(s[0..], pattern);
      assert s[0..] == s;
      forall i | 0 <= i <= |s[1..]|
        ensures !StartsWith(s[1..][i..], pattern)
      {
        assert s[1..][i..] == s[i + 1..];
      }
      RemoveAllAbsent(s[1..], pattern);
    }
  }

  /**
   * `replace` drops the leftmost occurrence of the pattern, keeps the text in
   * front of it, and carries on after the occurrence.
   */
  lemma {:induction false} RemoveAllFirst(s: string, pattern: string, i: nat)
    requires pattern != []
    requires i <= |s| && StartsWith(s[i..], pattern)
    requires forall k :: 0 <= k < i ==> !StartsWith(s[k..], pattern)
    ensures RemoveAll(s, pattern) == s[..i] + RemoveAll(s[i + |pattern|..], pattern)
  {
    if i == 0 {
      assert s[..0] == [];
    } else {
      assert !StartsWith(s, pattern) by {
        assert s[0..] == s;
      }
      var t := s[1..];
      forall k | 0 <= k < i - 1 ensures !StartsWith(t[k..], pattern) {
        assert t[k..] == s[k + 1..];
      }
      assert t[i - 1..] == s[i..];
      RemoveAllFirst(t, pattern, i - 1);
      calc {
        RemoveAll(s, pattern);
        [s[0]] + RemoveAll(t, pattern);
        [s[0]] + (t[..i - 1] + RemoveAll(t[i - 1 + |pattern|..], pattern));
        { assert t[i - 1 + |pattern|..] == s[i + |pattern|..];
          assert [s[0]] + t[..i - 1] == s[..i]; }
        s[..i] + RemoveAll(s[i + |pattern|..], pattern);
      }
    }
  }
}
