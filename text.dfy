/** The string primitives the core relies on: Java's `String.trim()` and `equalsIgnoreCase`,
    and JavaScript's `String.prototype.trim()`. */
module Text {

  /** Java's `trim()` strips every character whose code is at most U+0020 (space and all C0 controls). */
  predicate IsJavaTrimmable(c: char)
  {
    c <= ' '
  }

  /** JavaScript's `trim()` strips WhiteSpace and LineTerminator code points (ECMAScript, section 12.2 and 12.3). */
  predicate IsJsWhitespace(c: char)
  {
    || c == '\t' || c == '\n' || c == '\U{000B}' || c == '\U{000C}' || c == '\r' || c == ' '
    || c == '\U{00A0}' || c == '\U{1680}' || ('\U{2000}' <= c <= '\U{200A}')
    || c == '\U{2028}' || c == '\U{2029}' || c == '\U{202F}' || c == '\U{205F}'
    || c == '\U{3000}' || c == '\U{FEFF}'
  }

  /** Number of leading characters satisfying `ws`. */
  function LeadingCount(s: string, ws: char -> bool): (n: nat)
    ensures n <= |s|
    ensures forall k | 0 <= k < n :: ws(s[k])
    ensures n < |s| ==> !ws(s[n])
  {
    if |s| > 0 && ws(s[0]) then 1 + LeadingCount(s[1..], ws) else 0
  }

  /** Number of trailing characters satisfying `ws`. */
  function TrailingCount(s: string, ws: char -> bool): (n: nat)
    ensures n <= |s|
    ensures forall k | |s| - n <= k < |s| :: ws(s[k])
    ensures n < |s| ==> !ws(s[|s| - 1 - n])
  {
    if |s| > 0 && ws(s[|s| - 1]) then 1 + TrailingCount(s[..|s| - 1], ws) else 0
  }

  /** `s` with its leading and trailing `ws` characters removed. */
  function TrimBy(s: string, ws: char -> bool): (r: string)
    ensures LeadingCount(s, ws) + |r| <= |s|
    ensures r == [] || (!ws(r[0]) && !ws(r[|r| - 1]))
    ensures r == s[LeadingCount(s, ws)..LeadingCount(s, ws) + |r|]
    ensures forall k | 0 <= k < LeadingCount(s, ws) :: ws(s[k])
    ensures forall k | LeadingCount(s, ws) + |r| <= k < |s| :: ws(s[k])
  {
    var lo := LeadingCount(s, ws);
    var rest := s[lo..];
    rest[..|rest| - TrailingCount(rest, ws)]
  }

  /** Java `s.trim()`. */
  function JavaTrim(s: string): string
  {
    TrimBy(s, IsJavaTrimmable)
  }

  /** JavaScript `s.trim()`. */
  function JsTrim(s: string): string
  {
    TrimBy(s, IsJsWhitespace)
  }

  /** Trimming a string that neither starts nor ends with a stripped character gives it back. */
  lemma TrimKeepsClean(s: string, ws: char -> bool)
    requires s == [] || (!ws(s[0]) && !ws(s[|s| - 1]))
    ensures TrimBy(s, ws) == s
  {
    var lo := LeadingCount(s, ws);
    assert lo == 0;
    assert s[lo..] == s;
  }

  /** Trimming twice is trimming once. */
  lemma TrimIdempotent(s: string, ws: char -> bool)
    ensures TrimBy(TrimBy(s, ws), ws) == TrimBy(s, ws)
  {
    TrimKeepsClean(TrimBy(s, ws), ws);
  }

  /** A string of stripped characters only trims to the empty string, and only such a string does. */
  lemma TrimEmptyIffBlank(s: string, ws: char -> bool)
    ensures TrimBy(s, ws) == [] <==> forall k | 0 <= k < |s| :: ws(s[k])
  {
  }

  /** ASCII lower-casing: `A`..`Z` map to `a`..`z`, every other character is unchanged. */
  function AsciiLower(c: char): (d: char)
    ensures 'A' <= c <= 'Z' ==> 'a' <= d <= 'z'
    ensures !('A' <= c <= 'Z') ==> d == c
  {
    if 'A' <= c <= 'Z' then (c as int + 32) as char else c
  }

  /** Java `a.equalsIgnoreCase(b)` for non-null arguments, with case folding restricted to ASCII. */
  predicate EqualsIgnoreCase(a: string, b: string)
  {
    |a| == |b| && forall i | 0 <= i < |a| :: AsciiLower(a[i]) == AsciiLower(b[i])
  }
}
