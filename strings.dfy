/**
 * The java.lang.String operations the core relies on: isBlank, trim, an ASCII
 * lower-casing (standing for toLowerCase and SQLite's LOWER), and the binary
 * collation SQLite uses to compare TEXT values.
 */
module Strings {
  import opened Wrappers

  /** Character.isWhitespace: the ASCII controls U+0009..U+000D and U+001C..U+001F, the
      space, and the Unicode space, line and paragraph separators except the no-break ones. */
  predicate IsWhitespace(c: char) {
    ('\t' <= c <= '\r') || ('\U{001C}' <= c <= ' ')
    || c == '\U{1680}' || ('\U{2000}' <= c <= '\U{2006}') || ('\U{2008}' <= c <= '\U{200A}')
    || c == '\U{2028}' || c == '\U{2029}' || c == '\U{205F}' || c == '\U{3000}'
  }

  /** String.isBlank: empty or whitespace only. */
  predicate IsBlank(s: string) {
    forall i :: 0 <= i < |s| ==> IsWhitespace(s[i])
  }

  /** The test `s != null && !s.isBlank()` that the source repeats for names and phones. */
  predicate NonBlank(s: Option<string>) {
    s.Some? && !IsBlank(s.value)
  }

  /** String.trim removes every leading and trailing character at or below U+0020. */
  function TrimStart(s: string): (r: string)
    ensures |r| <= |s| && r == s[|s| - |r|..]
    ensures r == "" || r[0] > ' '
    ensures forall i :: 0 <= i < |s| - |r| ==> s[i] <= ' '
  {
    if |s| > 0 && s[0] <= ' ' then TrimStart(s[1..]) else s
  }

  function TrimEnd(s: string): (r: string)
    ensures |r| <= |s| && r == s[..|r|]
    ensures r == "" || r[|r| - 1] > ' '
    ensures forall i :: |r| <= i < |s| ==> s[i] <= ' '
  {
    if |s| > 0 && s[|s| - 1] <= ' ' then TrimEnd(s[..|s| - 1]) else s
  }

  function Trim(s: string): string {
    TrimEnd(TrimStart(s))
  }

  /** Trimming twice trims nothing more. */
  lemma TrimIdempotent(s: string)
    ensures Trim(Trim(s)) == Trim(s)
  {
    var u := TrimStart(s);
    var t := TrimEnd(u);
    if t != "" {
      assert t[0] == u[0];
      assert TrimStart(t) == t;
    }
  }

  /** trim() yields the empty string exactly when every character is at or below U+0020. */
  lemma TrimEmptyIff(s: string)
    ensures Trim(s) == "" <==> forall i :: 0 <= i < |s| ==> s[i] <= ' '
  {
  }

  /** Lower-casing of one character, ASCII letters only. */
  function LowerChar(c: char): char {
    if 'A' <= c <= 'Z' then (c as int + 32) as char else c
  }

  function AsciiLower(s: string): (r: string)
    ensures |r| == |s|
    ensures forall i :: 0 <= i < |s| ==> r[i] == LowerChar(s[i])
  {
    seq(|s|, i requires 0 <= i < |s| => LowerChar(s[i]))
  }

  /** `needle` occurs in `hay` at some offset, ignoring ASCII case. */
  ghost predicate ContainsIgnoringCase(hay: string, needle: string) {
    exists k :: OccursAt(hay, needle, k)
  }

  /** `needle` occurs in `hay` starting at offset k, ignoring ASCII case. */
  predicate OccursAt(hay: string, needle: string, k: int) {
    0 <= k && k + |needle| <= |hay| && AsciiLower(hay[k..k + |needle|]) == AsciiLower(needle)
  }

  /** SQLite's BINARY collation on TEXT: lexicographic order of the code points. */
  predicate LexLe(a: string, b: string) {
    |a| == 0 || (|b| > 0 && (a[0] < b[0] || (a[0] == b[0] && LexLe(a[1..], b[1..]))))
  }

  lemma {:induction false} LexLeTotal(a: string, b: string)
    ensures LexLe(a, b) || LexLe(b, a)
  {
    if |a| > 0 && |b| > 0 && a[0] == b[0] {
      LexLeTotal(a[1..], b[1..]);
    }
  }

  lemma {:induction false} LexLeTransitive(a: string, b: string, c: string)
    requires LexLe(a, b) && LexLe(b, c)
    ensures LexLe(a, c)
  {
    if |a| > 0 && a[0] == b[0] && b[0] == c[0] {
      LexLeTransitive(a[1..], b[1..], c[1..]);
    }
  }

  lemma {:induction false} LexLeAntisymmetric(a: string, b: string)
    requires LexLe(a, b) && LexLe(b, a)
    ensures a == b
  {
    if |a| > 0 {
      LexLeAntisymmetric(a[1..], b[1..]);
    }
  }

  /** The shortening both printers apply to product names: null prints as "", a name of at
      most `n` characters is kept, a longer one keeps its first n - 3 characters and gains
      "..." (`substring(0, n - 3)` throws for n < 3, hence the precondition). */
  function Abbreviate(s: Option<string>, n: int): (r: string)
    requires n >= 3
    ensures |r| <= n
    ensures s.None? ==> r == ""
    ensures s.Some? && |s.value| <= n ==> r == s.value
    ensures s.Some? && |s.value| > n ==> |r| == n && r[..n - 3] == s.value[..n - 3] && r[n - 3..] == "..."
  {
    match s
    case None => ""
    case Some(t) => if |t| <= n then t else t[..n - 3] + "..."
  }

  /** Shortening is idempotent: a result already fits the width. */
  lemma AbbreviateIdempotent(s: Option<string>, n: int)
    requires n >= 3
    ensures Abbreviate(Some(Abbreviate(s, n)), n) == Abbreviate(s, n)
  {
  }
}
