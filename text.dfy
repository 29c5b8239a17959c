/** Whitespace trimming as done by Python's `str.strip()` and JavaScript's
    `String.prototype.trim()`. Both remove a maximal run of whitespace from each
    end; they differ only in which characters count as whitespace. */
module Text {

  /** The characters for which Python's `str.isspace()` holds. */
  const PyWhitespace: set<char> := {
    '\t', '\n', '\U{000B}', '\U{000C}', '\r', '\U{001C}', '\U{001D}', '\U{001E}', '\U{001F}',
    ' ', '\U{0085}', '\U{00A0}', '\U{1680}',
    '\U{2000}', '\U{2001}', '\U{2002}', '\U{2003}', '\U{2004}', '\U{2005}',
    '\U{2006}', '\U{2007}', '\U{2008}', '\U{2009}', '\U{200A}',
    '\U{2028}', '\U{2029}', '\U{202F}', '\U{205F}', '\U{3000}'
  }

  /** The WhiteSpace and LineTerminator characters of ECMAScript, which `trim()` removes. */
  const JsWhitespace: set<char> := {
    '\t', '\n', '\U{000B}', '\U{000C}', '\r', ' ', '\U{00A0}', '\U{1680}',
    '\U{2000}', '\U{2001}', '\U{2002}', '\U{2003}', '\U{2004}', '\U{2005}',
    '\U{2006}', '\U{2007}', '\U{2008}', '\U{2009}', '\U{200A}',
    '\U{2028}', '\U{2029}', '\U{202F}', '\U{205F}', '\U{3000}', '\U{FEFF}'
  }

  /** True when every character of `s` is in `ws`. */
  predicate AllIn(s: string, ws: set<char>) {
    forall k :: 0 <= k < |s| ==> s[k] in ws
  }

  /** Length of the longest prefix of `s` made of characters in `ws`. */
  function LeadingCount(s: string, ws: set<char>): (n: nat)
    ensures n <= |s|
    ensures forall k :: 0 <= k < n ==> s[k] in ws
    ensures n < |s| ==> s[n] !in ws
  {
    if |s| > 0 && s[0] in ws then 1 + LeadingCount(s[1..], ws) else 0
  }

  /** Length of the longest suffix of `s` made of characters in `ws`. */
  function TrailingCount(s: string, ws: set<char>): (n: nat)
    ensures n <= |s|
    ensures forall k :: |s| - n <= k < |s| ==> s[k] in ws
    ensures n < |s| ==> s[|s| - 1 - n] !in ws
  {
    if |s| > 0 && s[|s| - 1] in ws then 1 + TrailingCount(s[..|s| - 1], ws) else 0
  }

  /** `s` with the whitespace run at each end removed. */
  function Trim(s: string, ws: set<char>): (r: string)
    ensures |r| <= |s|
    ensures r == [] <==> AllIn(s, ws)
    ensures r != [] ==> r[0] !in ws && r[|r| - 1] !in ws
  {
    var t := s[LeadingCount(s, ws)..];
    t[..|t| - TrailingCount(t, ws)]
  }

  /** Python's `s.strip()`. */
  function PyStrip(s: string): (r: string) { Trim(s, PyWhitespace) }

  /** JavaScript's `s.trim()`. */
  function JsTrim(s: string): (r: string) { Trim(s, JsWhitespace) }

  /** Trim is the unique infix of `s` whose two cut-off ends are whitespace and
      whose own ends are not: an independent characterisation of the result. */
  lemma TrimUnique(s: string, ws: set<char>, i: nat, j: nat)
    requires i <= j <= |s|
    requires AllIn(s[..i], ws) && AllIn(s[j..], ws)
    requires i < j ==> s[i] !in ws && s[j - 1] !in ws
    ensures Trim(s, ws) == s[i..j]
  {
  }

  /** Trimming twice is the same as trimming once. */
  lemma TrimIdempotent(s: string, ws: set<char>)
    ensures Trim(Trim(s, ws), ws) == Trim(s, ws)
  {
  }

  /** A string with no whitespace at its ends is left as it is. */
  lemma TrimOfTrimmed(s: string, ws: set<char>)
    requires s != [] ==> s[0] !in ws && s[|s| - 1] !in ws
    ensures Trim(s, ws) == s
  {
  }
}
