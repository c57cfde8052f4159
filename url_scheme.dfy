/** The URL rewrite the Universal binding applies before connecting: http and
    https URLs become the ws and wss URIs of section 3 of RFC 6455. */
module UrlScheme {

  /** Ordinal prefix test. */
  predicate StartsWith(s: string, prefix: string) {
    |prefix| <= |s| && s[..|prefix|] == prefix
  }

  /** `pattern` occurs somewhere in `s`. */
  predicate Occurs(s: string, pattern: string)
    decreases |s|
  {
    |pattern| <= |s| && (s[..|pattern|] == pattern || (|s| > 0 && Occurs(s[1..], pattern)))
  }

  /** Ordinal replacement of every non-overlapping occurrence of `pattern`,
      scanning left to right, as string.Replace does. */
  function Replace(s: string, pattern: string, replacement: string): (r: string)
    requires pattern != []
    ensures !Occurs(s, pattern) ==> r == s
    ensures StartsWith(s, pattern) ==> StartsWith(r, replacement)
    decreases |s|
  {
    if |s| < |pattern| then s
    else if s[..|pattern|] == pattern then replacement + Replace(s[|pattern|..], pattern, replacement)
    else [s[0]] + Replace(s[1..], pattern, replacement)
  }

  const SecureHttp: string := "https://"
  const PlainHttp: string := "http://"
  const SecureWs: string := "wss://"
  const PlainWs: string := "ws://"

  /** The URL handed to the socket's connect call. */
  function ToWebSocketUrl(url: string): (r: string)
    ensures !StartsWith(url, "http") ==> r == url
    ensures !Occurs(url, SecureHttp) && !Occurs(url, PlainHttp) ==> r == url
    ensures StartsWith(url, "https") ==> !Occurs(r, SecureHttp)
    ensures StartsWith(url, "http") && !StartsWith(url, "https") ==> !Occurs(r, PlainHttp)
  {
    if StartsWith(url, "https") then
      ReplaceLeavesNoOccurrence(url, SecureHttp, SecureWs);
      Replace(url, SecureHttp, SecureWs)
    else if StartsWith(url, "http") then
      ReplaceLeavesNoOccurrence(url, PlainHttp, PlainWs);
      Replace(url, PlainHttp, PlainWs)
    else url
  }

  /** A string lacking one of the pattern's characters cannot contain the pattern. */
  lemma {:induction false} AbsentWithoutChar(s: string, pattern: string, c: char)
    requires c in pattern && c !in s
    ensures !Occurs(s, pattern)
    decreases |s|
  {
    var k :| 0 <= k < |pattern| && pattern[k] == c;
    if |pattern| <= |s| {
      assert s[..|pattern|][k] == s[k] && s[k] in s;
      if |s| > 0 {
        assert forall x :: x in s[1..] ==> x in s;
        AbsentWithoutChar(s[1..], pattern, c);
      }
    }
  }

  /** Replacing at the front of the string leaves the rest to the recursive scan. */
  lemma ReplaceLeading(rest: string, pattern: string, replacement: string)
    requires pattern != []
    ensures Replace(pattern + rest, pattern, replacement) == replacement + Replace(rest, pattern, replacement)
  {
    var s := pattern + rest;
    assert s[..|pattern|] == pattern;
    assert s[|pattern|..] == rest;
  }

  /** An https URL whose remainder holds no further "https://" becomes the same wss URL. */
  lemma SecureUrlBecomesWss(rest: string)
    requires !Occurs(rest, SecureHttp)
    ensures ToWebSocketUrl(SecureHttp + rest) == SecureWs + rest
  {
    var url := SecureHttp + rest;
    assert url[..5] == "https";
    ReplaceLeading(rest, SecureHttp, SecureWs);
  }

  /** An http URL whose remainder holds no further "http://" becomes the same ws URL. */
  lemma PlainUrlBecomesWs(rest: string)
    requires !Occurs(rest, PlainHttp)
    ensures ToWebSocketUrl(PlainHttp + rest) == PlainWs + rest
  {
    var url := PlainHttp + rest;
    assert url[..4] == "http";
    assert url[4] == ':';
    assert !StartsWith(url, "https");
    ReplaceLeading(rest, PlainHttp, PlainWs);
  }

  /** `pattern` sits at index `k` of `s`. */
  predicate At(s: string, pattern: string, k: int) {
    0 <= k && k + |pattern| <= |s| && s[k..k + |pattern|] == pattern
  }

  /** Occurs is the existence of a position where the pattern sits. */
  lemma {:induction false} OccursAt(s: string, pattern: string)
    ensures Occurs(s, pattern) <==> exists k :: At(s, pattern, k)
    decreases |s|
  {
    if |pattern| <= |s| {
      assert At(s, pattern, 0) <==> s[..|pattern|] == pattern;
      if |s| > 0 {
        OccursAt(s[1..], pattern);
        forall k | At(s[1..], pattern, k) ensures At(s, pattern, k + 1) {
          assert s[1..][k..k + |pattern|] == s[k + 1..k + 1 + |pattern|];
        }
        forall k | At(s, pattern, k) && k > 0 ensures At(s[1..], pattern, k - 1) {
          assert s[1..][k - 1..k - 1 + |pattern|] == s[k..k + |pattern|];
        }
      }
    }
  }

  /** Every prefix of a rewritten string either copies the original or
      contains the first character of the replacement. */
  lemma {:induction false} ReplacePrefix(t: string, pattern: string, replacement: string, n: nat)
    requires pattern != [] && replacement != []
    requires n <= |Replace(t, pattern, replacement)|
    ensures (n <= |t| && Replace(t, pattern, replacement)[..n] == t[..n])
         || replacement[0] in Replace(t, pattern, replacement)[..n]
    decreases |t|
  {
    var r := Replace(t, pattern, replacement);
    if n > 0 && |pattern| <= |t| {
      if t[..|pattern|] == pattern {
        assert r[..n][0] == replacement[0];
      } else {
        var rest := Replace(t[1..], pattern, replacement);
        assert r == [t[0]] + rest;
        ReplacePrefix(t[1..], pattern, replacement, n - 1);
        assert r[..n] == [t[0]] + rest[..n - 1];
        if n - 1 <= |t[1..]| && rest[..n - 1] == t[1..][..n - 1] {
          assert t[..n] == [t[0]] + t[1..][..n - 1];
        } else {
          assert replacement[0] in rest[..n - 1];
        }
      }
    }
  }

  /** A stretch without the pattern's first character cannot start an
      occurrence, so placing it in front adds none. */
  lemma {:induction false} NoOccurrenceAfterPrefix(front: string, rest: string, pattern: string)
    requires pattern != [] && pattern[0] !in front
    requires !Occurs(rest, pattern)
    ensures !Occurs(front + rest, pattern)
    decreases |front|
  {
    if front == [] {
      assert front + rest == rest;
    } else {
      var s := front + rest;
      if |pattern| <= |s| {
        assert s[..|pattern|][0] == front[0];
      }
      assert s[1..] == front[1..] + rest;
      NoOccurrenceAfterPrefix(front[1..], rest, pattern);
    }
  }

  /** Replace leaves no occurrence of the pattern behind, provided the
      replacement cannot start an occurrence and the pattern cannot contain
      the replacement's first character (both hold for the two URL schemes). */
  lemma {:induction false} ReplaceLeavesNoOccurrence(s: string, pattern: string, replacement: string)
    requires pattern != [] && replacement != []
    requires replacement[0] !in pattern && pattern[0] !in replacement
    ensures !Occurs(Replace(s, pattern, replacement), pattern)
    decreases |s|
  {
    if |s| >= |pattern| {
      if s[..|pattern|] == pattern {
        ReplaceLeavesNoOccurrence(s[|pattern|..], pattern, replacement);
        NoOccurrenceAfterPrefix(replacement, Replace(s[|pattern|..], pattern, replacement), pattern);
      } else {
        var rest := Replace(s[1..], pattern, replacement);
        var r := [s[0]] + rest;
        ReplaceLeavesNoOccurrence(s[1..], pattern, replacement);
        assert r[1..] == rest;
        if |pattern| <= |r| {
          ReplacePrefix(s[1..], pattern, replacement, |pattern| - 1);
          assert r[..|pattern|] == [s[0]] + rest[..|pattern| - 1];
          if |pattern| - 1 <= |s[1..]| && rest[..|pattern| - 1] == s[1..][..|pattern| - 1] {
            assert s[..|pattern|] == [s[0]] + s[1..][..|pattern| - 1];
          } else {
            assert replacement[0] in r[..|pattern|];
          }
        }
      }
    }
  }

  /** Dropping the first character shifts every position down by one. */
  lemma AtTail(s: string, pattern: string, j: nat)
    requires s != []
    ensures At(s[1..], pattern, j) <==> At(s, pattern, j + 1)
  {
    if j + |pattern| <= |s[1..]| {
      assert s[1..][j..j + |pattern|] == s[j + 1..j + 1 + |pattern|];
    }
  }

  /** A position where the pattern does not start is copied by the scan. */
  lemma ReplaceCopiesHead(s: string, pattern: string, replacement: string)
    requires pattern != [] && s != []
    requires |s| < |pattern| || s[..|pattern|] != pattern
    ensures Replace(s, pattern, replacement) == [s[0]] + Replace(s[1..], pattern, replacement)
  {
    if |s| < |pattern| {
      assert Replace(s[1..], pattern, replacement) == s[1..];
      assert [s[0]] + s[1..] == s;
    }
  }

  /** The same, for the suffix of `s` from a position where the pattern does not sit. */
  lemma ReplaceCopiesAt(s: string, pattern: string, replacement: string, k: nat)
    requires pattern != [] && k < |s| && !At(s, pattern, k)
    ensures Replace(s[k..], pattern, replacement) == [s[k]] + Replace(s[k + 1..], pattern, replacement)
  {
    var u := s[k..];
    if |pattern| <= |u| {
      assert u[..|pattern|] == s[k..k + |pattern|];
    }
    ReplaceCopiesHead(u, pattern, replacement);
    assert u[1..] == s[k + 1..];
  }

  /** The pattern starts at none of the first `n` positions of `s`. */
  predicate NoneBefore(s: string, pattern: string, n: nat) {
    forall j :: 0 <= j < n ==> !At(s, pattern, j)
  }

  /** The scan copies positions `k` to `n` unchanged when no occurrence starts there. */
  lemma {:induction false} ReplaceSkipsFrom(s: string, pattern: string, replacement: string, k: nat, n: nat)
    requires pattern != [] && k <= n <= |s| && NoneBefore(s, pattern, n)
    ensures Replace(s[k..], pattern, replacement) == s[k..n] + Replace(s[n..], pattern, replacement)
    decreases n - k
  {
    if k == n {
      assert s[k..n] == [];
    } else {
      ReplaceCopiesAt(s, pattern, replacement, k);
      ReplaceSkipsFrom(s, pattern, replacement, k + 1, n);
      var rest := Replace(s[n..], pattern, replacement);
      assert [s[k]] + (s[k + 1..n] + rest) == s[k..n] + rest;
    }
  }

  /** The scan copies a leading stretch unchanged when no occurrence starts in it. */
  lemma ReplaceSkipsClean(a: string, t: string, pattern: string, replacement: string)
    requires pattern != [] && NoneBefore(a + t, pattern, |a|)
    ensures Replace(a + t, pattern, replacement) == a + Replace(t, pattern, replacement)
  {
    var s := a + t;
    ReplaceSkipsFrom(s, pattern, replacement, 0, |a|);
    assert s[0..] == s && s[0..|a|] == a && s[|a|..] == t;
  }

  /** When the pattern's first character does not recur in it, an occurrence
      in `a + pattern + b` starting inside `a` would have to lie inside `a`. */
  lemma NoWindowBefore(a: string, b: string, pattern: string)
    requires pattern != [] && pattern[0] !in pattern[1..]
    requires !Occurs(a, pattern)
    ensures NoneBefore(a + (pattern + b), pattern, |a|)
  {
    var s := a + (pattern + b);
    OccursAt(a, pattern);
    forall j | 0 <= j < |a| ensures !At(s, pattern, j) {
      if j + |pattern| <= |a| {
        assert a[j..j + |pattern|] == s[j..j + |pattern|];
        assert !At(a, pattern, j);
      } else {
        var d := |a| - j;
        assert s[|a|] == pattern[0];
        assert pattern[d] == pattern[1..][d - 1];
        if j + |pattern| <= |s| {
          assert s[j..j + |pattern|][d] == s[|a|];
        }
      }
    }
  }

  /** Pattern-free text followed by one occurrence and more pattern-free text
      has just that occurrence replaced. */
  lemma ReplaceAfterClean(a: string, b: string, pattern: string, replacement: string)
    requires pattern != [] && pattern[0] !in pattern[1..]
    requires !Occurs(a, pattern) && !Occurs(b, pattern)
    ensures Replace(a + (pattern + b), pattern, replacement) == a + (replacement + b)
  {
    NoWindowBefore(a, b, pattern);
    ReplaceSkipsClean(a, pattern + b, pattern, replacement);
    ReplaceLeading(b, pattern, replacement);
  }

  /** Two occurrences, each followed by pattern-free text, are both replaced. */
  lemma ReplaceBothOccurrences(a: string, b: string, pattern: string, replacement: string)
    requires pattern != [] && pattern[0] !in pattern[1..]
    requires !Occurs(a, pattern) && !Occurs(b, pattern)
    ensures Replace(pattern + a + pattern + b, pattern, replacement) == replacement + a + replacement + b
  {
    var middle := a + (pattern + b);
    assert pattern + a + pattern + b == pattern + middle;
    ReplaceLeading(middle, pattern, replacement);
    ReplaceAfterClean(a, b, pattern, replacement);
    assert replacement + (a + (replacement + b)) == replacement + a + replacement + b;
  }

  /** An http URL that is not https is rewritten from "http://" to "ws://". */
  lemma PlainBranch(url: string)
    requires StartsWith(url, PlainHttp)
    ensures ToWebSocketUrl(url) == Replace(url, PlainHttp, PlainWs)
  {
    assert url[..4] == PlainHttp[..4] && url[4] == PlainHttp[4] == ':';
  }

  /** An https URL is rewritten from "https://" to "wss://". */
  lemma SecureBranch(url: string)
    requires StartsWith(url, SecureHttp)
    ensures ToWebSocketUrl(url) == Replace(url, SecureHttp, SecureWs)
  {
    assert url[..5] == SecureHttp[..5];
  }

  /** Neither scheme prefix repeats its first letter. */
  lemma SchemesStartOnce()
    ensures PlainHttp[0] !in PlainHttp[1..] && SecureHttp[0] !in SecureHttp[1..]
  {
    assert PlainHttp[1..] == "ttp://";
    assert SecureHttp[1..] == "ttps://";
  }

  /** Not only the scheme is rewritten: an http URL that carries a second
      http URL, say in its query, has both turned into ws URLs. */
  lemma PlainUrlRewritesEveryOccurrence(a: string, b: string)
    requires !Occurs(a, PlainHttp) && !Occurs(b, PlainHttp)
    ensures ToWebSocketUrl(PlainHttp + a + PlainHttp + b) == PlainWs + a + PlainWs + b
  {
    PlainBranch(PlainHttp + a + PlainHttp + b);
    SchemesStartOnce();
    ReplaceBothOccurrences(a, b, PlainHttp, PlainWs);
  }

  /** The same holds for a second https URL inside an https URL. */
  lemma SecureUrlRewritesEveryOccurrence(a: string, b: string)
    requires !Occurs(a, SecureHttp) && !Occurs(b, SecureHttp)
    ensures ToWebSocketUrl(SecureHttp + a + SecureHttp + b) == SecureWs + a + SecureWs + b
  {
    SecureBranch(SecureHttp + a + SecureHttp + b);
    SchemesStartOnce();
    ReplaceBothOccurrences(a, b, SecureHttp, SecureWs);
  }
}
