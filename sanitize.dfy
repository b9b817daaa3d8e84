/**
 * Metric-path sanitisation (build_graphite_friendly_url).
 *
 * Python's `str.replace(old, new)` scans left to right and replaces every
 * non-overlapping occurrence of `old` in one pass; the output is not scanned
 * again.  Replace models exactly that for a non-empty pattern, and
 * GraphiteFriendlyUrl chains six such passes in the order of the source.
 */
module Sanitize {

  /** One left-to-right, non-overlapping pass of `s.replace(pat, rep)`. */
  function Replace(s: string, pat: string, rep: string): (r: string)
    requires pat != []
    ensures forall c :: c in r ==> c in s || c in rep
    ensures |s| < |pat| ==> r == s
    decreases |s|
  {
    if |s| < |pat| then s
    else if s[..|pat|] == pat then rep + Replace(s[|pat|..], pat, rep)
    else [s[0]] + Replace(s[1..], pat, rep)
  }

  /** build_graphite_friendly_url: drop the scheme prefixes, then turn `/ ? & .` into `_`. */
  function GraphiteFriendlyUrl(url: string): (r: string)
    ensures forall c :: c in r ==> c in url || c == '_'
  {
    Replace(Replace(Replace(Replace(Replace(Replace(url, "https://", ""), "http://", ""), "/", "_"), "?", "_"), "&", "_"), ".", "_")
  }

  /** The characters a metric-path component must not contain. */
  const Forbidden: string := "/?&."

  /** The scheme-stripping half of the chain. */
  function StripSchemes(url: string): string
  {
    Replace(Replace(url, "https://", ""), "http://", "")
  }

  /** Reference definition of the character-mapping half: each forbidden character becomes `_`. */
  function Underscored(s: string): (r: string)
    ensures |r| == |s|
    ensures forall c :: c in Forbidden ==> c !in r
    ensures forall c :: c in r ==> c in s || c == '_'
  {
    seq(|s|, i requires 0 <= i < |s| => if s[i] in Forbidden then '_' else s[i])
  }

  /** Replacing a pattern by something no longer never makes the string longer. */
  lemma {:induction false} ReplaceNoLonger(s: string, pat: string, rep: string)
    requires pat != [] && |rep| <= |pat|
    ensures |Replace(s, pat, rep)| <= |s|
    decreases |s|
  {
    if |s| < |pat| {
    } else if s[..|pat|] == pat {
      ReplaceNoLonger(s[|pat|..], pat, rep);
    } else {
      ReplaceNoLonger(s[1..], pat, rep);
    }
  }

  /** A pattern with a character absent from `s` never matches: the pass changes nothing. */
  lemma {:induction false} ReplaceAbsent(s: string, pat: string, rep: string, c: char)
    requires pat != [] && c in pat && c !in s
    ensures Replace(s, pat, rep) == s
    decreases |s|
  {
    if |s| < |pat| {
    } else if s[..|pat|] == pat {
      assert false;
    } else {
      ReplaceAbsent(s[1..], pat, rep, c);
      assert [s[0]] + s[1..] == s;
    }
  }

  /** Replacing a single character is a character-by-character map. */
  lemma {:induction false} ReplaceChar(s: string, c: char, d: char)
    ensures |Replace(s, [c], [d])| == |s|
    ensures forall i :: 0 <= i < |s| ==> Replace(s, [c], [d])[i] == (if s[i] == c then d else s[i])
    decreases |s|
  {
    if |s| >= 1 {
      ReplaceChar(s[1..], c, d);
      if s[..1] == [c] {
        assert s[0] == c;
      } else {
        assert s[0] != c;
      }
    }
  }

  /** The output contains none of `/ ? & .`. */
  lemma GraphiteFriendlyUrlClean(url: string)
    ensures forall c :: c in Forbidden ==> c !in GraphiteFriendlyUrl(url)
  {
    var s0 := StripSchemes(url);
    var s1 := Replace(s0, "/", "_");
    var s2 := Replace(s1, "?", "_");
    var s3 := Replace(s2, "&", "_");
    var s4 := Replace(s3, ".", "_");
    ReplaceChar(s0, '/', '_');
    ReplaceChar(s1, '?', '_');
    ReplaceChar(s2, '&', '_');
    ReplaceChar(s3, '.', '_');
    assert '/' !in s1;
    assert '/' !in s2 && '?' !in s2;
    assert '/' !in s3 && '?' !in s3 && '&' !in s3;
    assert '/' !in s4 && '?' !in s4 && '&' !in s4 && '.' !in s4;
  }

  /** Sanitising never makes the url longer. */
  lemma GraphiteFriendlyUrlNoLonger(url: string)
    ensures |GraphiteFriendlyUrl(url)| <= |url|
  {
    var s0 := Replace(url, "https://", "");
    var s1 := Replace(s0, "http://", "");
    ReplaceNoLonger(url, "https://", "");
    ReplaceNoLonger(s0, "http://", "");
    ReplaceChar(s1, '/', '_');
    var s2 := Replace(s1, "/", "_");
    ReplaceChar(s2, '?', '_');
    var s3 := Replace(s2, "?", "_");
    ReplaceChar(s3, '&', '_');
    var s4 := Replace(s3, "&", "_");
    ReplaceChar(s4, '.', '_');
  }

  /**
   * After the schemes are stripped, the chain maps each character to itself,
   * except that `/ ? & .` become `_`.
   */
  lemma GraphiteFriendlyUrlMapsChars(url: string)
    ensures GraphiteFriendlyUrl(url) == Underscored(StripSchemes(url))
  {
    var s0 := StripSchemes(url);
    var s1 := Replace(s0, "/", "_");
    var s2 := Replace(s1, "?", "_");
    var s3 := Replace(s2, "&", "_");
    var s4 := Replace(s3, ".", "_");
    ReplaceChar(s0, '/', '_');
    ReplaceChar(s1, '?', '_');
    ReplaceChar(s2, '&', '_');
    ReplaceChar(s3, '.', '_');
    assert s4 == Underscored(s0);
  }

  /** A url without `:` carries no scheme, so stripping leaves it as it is. */
  lemma StripSchemesWithoutColon(url: string)
    requires ':' !in url
    ensures StripSchemes(url) == url
  {
    ReplaceAbsent(url, "https://", "", ':');
    ReplaceAbsent(url, "http://", "", ':');
  }

  /** Sanitising an already sanitised path changes nothing. */
  lemma GraphiteFriendlyUrlIdempotent(url: string)
    ensures GraphiteFriendlyUrl(GraphiteFriendlyUrl(url)) == GraphiteFriendlyUrl(url)
  {
    var s := GraphiteFriendlyUrl(url);
    GraphiteFriendlyUrlClean(url);
    assert '/' !in s && '?' !in s && '&' !in s && '.' !in s;
    ReplaceAbsent(s, "https://", "", '/');
    ReplaceAbsent(s, "http://", "", '/');
    ReplaceAbsent(s, "/", "_", '/');
    ReplaceAbsent(s, "?", "_", '?');
    ReplaceAbsent(s, "&", "_", '&');
    ReplaceAbsent(s, ".", "_", '.');
  }
}
