/**
 * Shell-style pattern matching as Python's `fnmatch.fnmatch` does it on a
 * POSIX system for patterns built from literal characters, `?` and `*`. The
 * whole string must match, and `*` matches any run of characters,
 * separators included.
 */
module Glob {

  /**
   * Whether `s` matches the pattern `pat`. A non-empty pattern of stars only
   * matches every string; a pattern without a star matches only strings of
   * its own length, since each `?` stands for exactly one character.
   */
  function Match(pat: string, s: string): (m: bool)
    ensures pat != [] && (forall i :: 0 <= i < |pat| ==> pat[i] == '*') ==> m
    ensures '*' !in pat && m ==> |s| == |pat|
    decreases |pat| + |s|
  {
    if pat == [] then s == []
    else if pat[0] == '*' then
      assert (forall i :: 0 <= i < |pat| ==> pat[i] == '*') ==> forall i :: 0 <= i < |pat[1..]| ==> pat[1..][i] == '*';
      Match(pat[1..], s) || (s != [] && Match(pat, s[1..]))
    else s != [] && (pat[0] == '?' || pat[0] == s[0]) && Match(pat[1..], s[1..])
  }

  /** A pattern without wildcards. */
  predicate Literal(pat: string) {
    '*' !in pat && '?' !in pat
  }

  /** A pattern without wildcards matches exactly itself. */
  lemma {:induction false} LiteralMatch(pat: string, s: string)
    requires Literal(pat)
    ensures Match(pat, s) <==> s == pat
  {
    if pat != [] && s != [] {
      LiteralMatch(pat[1..], s[1..]);
      assert s == [s[0]] + s[1..];
      assert pat == [pat[0]] + pat[1..];
    }
  }

  /**
   * A pattern without a star matches exactly the strings of its length that
   * agree with it at every position other than a `?`.
   */
  lemma {:induction false} StarFreeMatch(pat: string, s: string)
    requires '*' !in pat
    ensures Match(pat, s) <==> |s| == |pat| && forall i :: 0 <= i < |pat| ==> pat[i] == '?' || pat[i] == s[i]
  {
    if pat != [] && s != [] {
      assert '*' !in pat[1..] by {
        assert forall i :: 0 <= i < |pat[1..]| ==> pat[1..][i] == pat[i + 1];
      }
      StarFreeMatch(pat[1..], s[1..]);
      if |s| == |pat| {
        assert (forall i :: 0 <= i < |pat| ==> pat[i] == '?' || pat[i] == s[i]) <==>
               (pat[0] == '?' || pat[0] == s[0]) &&
               forall i :: 0 <= i < |pat[1..]| ==> pat[1..][i] == '?' || pat[1..][i] == s[1..][i]
        by {
          forall i | 0 < i < |pat| ensures pat[i] == pat[1..][i - 1] && s[i] == s[1..][i - 1] {}
        }
      }
    }
  }

  /** A star followed by a literal suffix matches exactly the strings that end with the suffix. */
  lemma {:induction false} StarSuffix(suffix: string, s: string)
    requires Literal(suffix)
    ensures Match("*" + suffix, s) <==> |suffix| <= |s| && s[|s| - |suffix|..] == suffix
  {
    var pat := "*" + suffix;
    assert pat[0] == '*' && pat[1..] == suffix;
    LiteralMatch(suffix, s);
    if s != [] {
      StarSuffix(suffix, s[1..]);
      if |suffix| <= |s| - 1 {
        assert s[|s| - |suffix|..] == s[1..][|s[1..]| - |suffix|..];
      }
    }
  }

  /** `*` alone matches every string. */
  lemma {:induction false} StarMatchesAll(s: string)
    ensures Match("*", s)
  {
    if s != [] {
      StarMatchesAll(s[1..]);
    }
  }

  /**
   * A literal prefix followed by `*` matches exactly the strings that start
   * with the prefix, however many segments follow: the pattern "apps/"
   * followed by a star matches `apps/frontend/app.yaml`.
   */
  lemma {:induction false} PrefixStar(prefix: string, s: string)
    requires Literal(prefix)
    ensures Match(prefix + "*", s) <==> prefix <= s
  {
    if prefix == [] {
      assert prefix + "*" == "*";
      StarMatchesAll(s);
    } else {
      var pat := prefix + "*";
      assert pat[0] == prefix[0] && pat[1..] == prefix[1..] + "*";
      if s != [] {
        PrefixStar(prefix[1..], s[1..]);
        assert prefix <= s <==> prefix[0] == s[0] && prefix[1..] <= s[1..];
      }
    }
  }
}
