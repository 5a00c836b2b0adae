/** The part of `java.lang.String` the form validation depends on:
    `trim()` and the "blank after trimming" test `s.trim().equals("")`. */
module JavaString {

  /** Java's `trim()` removes every character whose code is at most U+0020
      (space and all ASCII control characters), not only the space. */
  predicate IsTrimmable(c: char) {
    c <= ' '
  }

  /** Reference definition: a string is blank when every character of it
      would be removed by `trim()`. The empty string is blank. */
  predicate IsBlank(s: string) {
    forall i :: 0 <= i < |s| ==> IsTrimmable(s[i])
  }

  /** Removes the leading trimmable characters. */
  function TrimStart(s: string): string {
    if |s| > 0 && IsTrimmable(s[0]) then TrimStart(s[1..]) else s
  }

  /** Removes the trailing trimmable characters. */
  function TrimEnd(s: string): string {
    if |s| > 0 && IsTrimmable(s[|s| - 1]) then TrimEnd(s[..|s| - 1]) else s
  }

  /** `TrimStart` keeps a suffix, everything it drops is trimmable, and what
      it keeps does not start with a trimmable character. */
  lemma {:induction false} TrimStartFacts(s: string)
    ensures |TrimStart(s)| <= |s| && TrimStart(s) == s[|s| - |TrimStart(s)|..]
    ensures forall i :: 0 <= i < |s| - |TrimStart(s)| ==> IsTrimmable(s[i])
    ensures TrimStart(s) != [] ==> !IsTrimmable(TrimStart(s)[0])
  {
    if |s| > 0 && IsTrimmable(s[0]) {
      TrimStartFacts(s[1..]);
    }
  }

  /** `TrimEnd` keeps a prefix, everything it drops is trimmable, and what it
      keeps does not end with a trimmable character. */
  lemma {:induction false} TrimEndFacts(s: string)
    ensures |TrimEnd(s)| <= |s| && TrimEnd(s) == s[..|TrimEnd(s)|]
    ensures forall i :: |TrimEnd(s)| <= i < |s| ==> IsTrimmable(s[i])
    ensures TrimEnd(s) != [] ==> !IsTrimmable(TrimEnd(s)[|TrimEnd(s)| - 1])
  {
    if |s| > 0 && IsTrimmable(s[|s| - 1]) {
      TrimEndFacts(s[..|s| - 1]);
    }
  }

  /** `String.trim()`: the longest substring that neither starts nor ends with
      a trimmable character; empty when the whole string is trimmable. */
  function Trim(s: string): (r: string)
    ensures r == [] <==> IsBlank(s)
    ensures r != [] ==> !IsTrimmable(r[0]) && !IsTrimmable(r[|r| - 1])
    ensures |r| <= |s|
    ensures exists i, j :: 0 <= i <= j <= |s| && r == s[i..j] && IsBlank(s[..i]) && IsBlank(s[j..])
  {
    var front := TrimStart(s);
    var r := TrimEnd(front);
    TrimStartFacts(s);
    TrimEndFacts(front);
    var i := |s| - |front|;
    var j := i + |r|;
    assert r == s[i..j];
    assert IsBlank(s[..i]);
    assert IsBlank(s[j..]) by {
      forall k | 0 <= k < |s| - j ensures IsTrimmable(s[j..][k]) {
        assert s[j..][k] == front[|r| + k];
      }
    }
    r
  }
}
