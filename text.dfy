/**
 * The handful of Python `str` operations the setup scripts use, over
 * `string` (a sequence of Unicode scalar values: code points other than
 * surrogates).
 */
module Text {

  /** `s.startswith(p)` */
  predicate StartsWith(s: string, p: string)
  {
    |p| <= |s| && s[..|p|] == p
  }

  /** `s.endswith(p)` */
  predicate EndsWith(s: string, p: string)
  {
    |p| <= |s| && s[|s| - |p|..] == p
  }

  /** `pat in s`: pat occurs somewhere in s. */
  predicate Contains(s: string, pat: string)
    decreases |s|
  {
    StartsWith(s, pat) || (|s| > 0 && Contains(s[1..], pat))
  }

  /** A pattern holding a character that s lacks cannot occur in s. */
  lemma {:induction false} MissingCharNotContained(s: string, pat: string, c: char)
    requires c in pat && c !in s
    ensures !Contains(s, pat)
    decreases |s|
  {
    if |s| > 0 {
      MissingCharNotContained(s[1..], pat, c);
    }
  }

  /**
   * `s.replace(pat, "")` for a non-empty pat: occurrences are found from the
   * left and removed without overlapping.
   */
  function RemoveAll(s: string, pat: string): (r: string)
    requires pat != []
    ensures |r| <= |s|
    ensures !Contains(s, pat) ==> r == s
    decreases |s|
  {
    if |s| == 0 then []
    else if StartsWith(s, pat) then RemoveAll(s[|pat|..], pat)
    else [s[0]] + RemoveAll(s[1..], pat)
  }

  /**
   * An occurrence at the front is removed and the scan goes on after it, so
   * repeated occurrences all go: `("ab" * k + s).replace("ab", "")` is
   * `s.replace("ab", "")`.
   */
  lemma RemoveAllLeading(pat: string, s: string)
    requires pat != []
    ensures RemoveAll(pat + s, pat) == RemoveAll(s, pat)
  {
    assert StartsWith(pat + s, pat) && (pat + s)[|pat|..] == s;
  }

  /**
   * When pat occurs nowhere in s and cannot straddle the separator, removal
   * leaves s and the separator in place.
   */
  lemma {:induction false} RemoveAllBeforeSeparator(s: string, sep: char, rest: string, pat: string)
    requires pat != [] && sep !in pat && !Contains(s, pat)
    ensures RemoveAll(s + [sep] + rest, pat) == s + [sep] + RemoveAll(rest, pat)
    decreases |s|
  {
    var w := s + [sep] + rest;
    NoMatchBeforeSeparator(s, sep, rest, pat);
    KeptFirst(w, pat);
    if s == [] {
      assert w[0] == sep && w[1..] == rest;
    } else {
      var t := s[1..] + [sep] + rest;
      assert w[0] == s[0] && w[1..] == t;
      assert Contains(s, pat) == (StartsWith(s, pat) || Contains(s[1..], pat));
      RemoveAllBeforeSeparator(s[1..], sep, rest, pat);
      ConsAppend(s, sep, RemoveAll(rest, pat));
    }
  }

  /** Putting the head of a non-empty s back in front of its tail, the separator and more. */
  lemma ConsAppend(s: string, sep: char, more: string)
    requires s != []
    ensures [s[0]] + (s[1..] + [sep] + more) == s + [sep] + more
  {
    assert [s[0]] + s[1..] == s;
  }

  /** A character that does not start an occurrence is kept and the scan moves on by one. */
  lemma KeptFirst(w: string, pat: string)
    requires pat != [] && w != [] && !StartsWith(w, pat)
    ensures RemoveAll(w, pat) == [w[0]] + RemoveAll(w[1..], pat)
  {
  }

  /** The pattern cannot start within s: s does not contain it and it cannot hold the separator. */
  lemma NoMatchBeforeSeparator(s: string, sep: char, rest: string, pat: string)
    requires pat != [] && sep !in pat && !Contains(s, pat)
    ensures !StartsWith(s + [sep] + rest, pat)
  {
    var w := s + [sep] + rest;
    if |pat| <= |s| {
      assert s[..|pat|] == w[..|pat|];
    } else if |pat| <= |w| {
      assert w[..|pat|][|s|] == sep;
      assert pat[|s|] in pat;
    }
  }


  /** `s.rstrip(chars)`: the longest prefix of s not ending in one of chars. */
  function RStrip(s: string, chars: set<char>): (r: string)
    ensures |r| <= |s| && r == s[..|r|]
    ensures r == [] || r[|r| - 1] !in chars
    ensures forall i :: |r| <= i < |s| ==> s[i] in chars
    decreases |s|
  {
    if |s| > 0 && s[|s| - 1] in chars then RStrip(s[..|s| - 1], chars) else s
  }

  /** Stripping never reaches past a character that is not stripped. */
  lemma {:induction false} RStripAfterKept(p: string, c: char, t: string, chars: set<char>)
    requires c !in chars
    ensures RStrip(p + [c] + t, chars) == p + [c] + RStrip(t, chars)
    decreases |t|
  {
    var w := p + [c] + t;
    if t == [] {
      assert w == p + [c];
    } else if t[|t| - 1] in chars {
      assert w[..|w| - 1] == p + [c] + t[..|t| - 1];
      RStripAfterKept(p, c, t[..|t| - 1], chars);
    }
  }

  /** A prefix ending in a kept character survives stripping. */
  lemma RStripKeepsPrefix(s: string, p: string, chars: set<char>)
    requires StartsWith(s, p) && p != [] && p[|p| - 1] !in chars
    ensures StartsWith(RStrip(s, chars), p)
  {
  }

  /** `s.split(sep)[0]`: everything before the first sep (all of s if none). */
  function BeforeFirst(s: string, sep: char): (r: string)
    ensures |r| <= |s| && r == s[..|r|]
    ensures sep !in r
    ensures |r| < |s| ==> s[|r|] == sep
    decreases |s|
  {
    if |s| == 0 || s[0] == sep then [] else [s[0]] + BeforeFirst(s[1..], sep)
  }

  /** Splitting at the first separator returns exactly what comes before it. */
  lemma {:induction false} BeforeFirstOfSeparated(s: string, sep: char, rest: string)
    requires sep !in s
    ensures BeforeFirst(s + [sep] + rest, sep) == s
    decreases |s|
  {
    var w := s + [sep] + rest;
    if s == [] {
      assert w[0] == sep;
    } else {
      assert w[0] == s[0] != sep;
      assert w[1..] == s[1..] + [sep] + rest;
      BeforeFirstOfSeparated(s[1..], sep, rest);
      assert s == [s[0]] + s[1..];
    }
  }

  /** ASCII case folding of one character. */
  function LowerChar(c: char): char
  {
    if 'A' <= c <= 'Z' then (c as int + 32) as char else c
  }

  /** `s.lower()`, for the ASCII letters. */
  function Lower(s: string): (r: string)
    ensures |r| == |s|
    ensures forall i :: 0 <= i < |s| ==> r[i] == LowerChar(s[i])
    decreases |s|
  {
    if s == [] then [] else [LowerChar(s[0])] + Lower(s[1..])
  }

  /** A lower-cased string holds no upper-case ASCII letter. */
  lemma LowerHasNoCapital(s: string, c: char)
    requires 'A' <= c <= 'Z'
    ensures c !in Lower(s)
  {
  }

  /** The characters Python's `str` regular expressions match with `\s`. */
  const Whitespace: set<char> := {
    '\t', '\n', '\U{0B}', '\U{0C}', '\r', '\U{1C}', '\U{1D}', '\U{1E}', '\U{1F}', ' ',
    '\U{85}', '\U{A0}', '\U{1680}',
    '\U{2000}', '\U{2001}', '\U{2002}', '\U{2003}', '\U{2004}', '\U{2005}',
    '\U{2006}', '\U{2007}', '\U{2008}', '\U{2009}', '\U{200A}',
    '\U{2028}', '\U{2029}', '\U{202F}', '\U{205F}', '\U{3000}' }

  predicate NoSpace(s: string)
  {
    forall i :: 0 <= i < |s| ==> s[i] !in Whitespace
  }

  /** Length of the longest prefix of s without whitespace (`\S*`, greedy). */
  function NonSpaceRun(s: string): (n: nat)
    ensures n <= |s| && NoSpace(s[..n])
    ensures n < |s| ==> s[n] in Whitespace
    decreases |s|
  {
    if |s| == 0 || s[0] in Whitespace then 0 else 1 + NonSpaceRun(s[1..])
  }

  /** The run reaches at least as far as any whitespace-free prefix. */
  lemma {:induction false} NonSpaceRunCovers(s: string, k: nat)
    requires k <= |s| && NoSpace(s[..k])
    ensures NonSpaceRun(s) >= k
    decreases k
  {
    if k > 0 {
      assert s[0] == s[..k][0];
      assert s[1..][..k - 1] == s[..k][1..];
      NonSpaceRunCovers(s[1..], k - 1);
    }
  }

  /** The run stops at or before any whitespace. */
  lemma {:induction false} NonSpaceRunStopsAt(s: string, k: nat)
    requires k < |s| && s[k] in Whitespace
    ensures NonSpaceRun(s) <= k
    decreases k
  {
    if k > 0 && s[0] !in Whitespace {
      NonSpaceRunStopsAt(s[1..], k - 1);
    }
  }
}
