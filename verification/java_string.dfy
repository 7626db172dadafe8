/** The two `java.lang.String` operations the chat dispatcher relies on. */
module JavaString {

  /** `String.trim` removes every character whose code is at most U+0020. */
  predicate IsTrimmable(c: char) {
    c <= ' '
  }

  /** `s.startsWith(String.valueOf(c))`. */
  predicate StartsWith(s: string, c: char) {
    |s| > 0 && s[0] == c
  }

  /** Number of trimmable characters at the start of `s`. */
  function LeadingCount(s: string): (n: nat)
    ensures n <= |s|
    ensures forall k :: 0 <= k < n ==> IsTrimmable(s[k])
    ensures n < |s| ==> !IsTrimmable(s[n])
  {
    if |s| == 0 || !IsTrimmable(s[0]) then 0 else 1 + LeadingCount(s[1..])
  }

  /** Number of trimmable characters at the end of `s`. */
  function TrailingCount(s: string): (n: nat)
    ensures n <= |s|
    ensures forall k :: |s| - n <= k < |s| ==> IsTrimmable(s[k])
    ensures n < |s| ==> !IsTrimmable(s[|s| - 1 - n])
  {
    if |s| == 0 || !IsTrimmable(s[|s| - 1]) then 0 else 1 + TrailingCount(s[..|s| - 1])
  }

  /** `s.trim()`: the longest infix of `s` that neither starts nor ends with a trimmable character. */
  function Trim(s: string): (r: string)
    ensures |r| <= |s|
    ensures r != [] ==> !IsTrimmable(r[0]) && !IsTrimmable(r[|r| - 1])
    ensures r == [] <==> forall k :: 0 <= k < |s| ==> IsTrimmable(s[k])
  {
    var rest := s[LeadingCount(s)..];
    rest[..|rest| - TrailingCount(rest)]
  }

  /**
    Trim removes exactly the trimmable characters outside the window `s[lo..hi]` whose
    end characters are not trimmable (or the whole string, when all of it is trimmable).
   */
  lemma TrimCharacterization(s: string, lo: nat, hi: nat)
    requires lo <= hi <= |s|
    requires forall k :: 0 <= k < lo ==> IsTrimmable(s[k])
    requires forall k :: hi <= k < |s| ==> IsTrimmable(s[k])
    requires lo < hi ==> !IsTrimmable(s[lo]) && !IsTrimmable(s[hi - 1])
    requires lo == hi ==> forall k :: 0 <= k < |s| ==> IsTrimmable(s[k])
    ensures Trim(s) == s[lo..hi]
  {
  }

  /** Trimming twice is trimming once. */
  lemma TrimIdempotent(s: string)
    ensures Trim(Trim(s)) == Trim(s)
  {
  }
}
