/** The java.lang.String operations the session relies on: trim(), isEmpty() and the
    null-to-empty normalisation written as `s == null ? "" : s`. */
module JavaText {
  import opened Wrappers

  /** String.trim() removes every character whose code is at most U+0020. */
  predicate IsTrimmed(c: char) {
    c <= ' '
  }

  /** Leading trimmable characters removed: the result is the suffix of `s` that starts
      at its first non-trimmable character. */
  function TrimStart(s: string): (r: string)
    ensures |r| <= |s| && r == s[|s| - |r|..]
    ensures forall i :: 0 <= i < |s| - |r| ==> IsTrimmed(s[i])
    ensures |r| > 0 ==> !IsTrimmed(r[0])
  {
    if |s| > 0 && IsTrimmed(s[0]) then TrimStart(s[1..]) else s
  }

  /** Trailing trimmable characters removed: the result is the prefix of `s` that ends
      at its last non-trimmable character. */
  function TrimEnd(s: string): (r: string)
    ensures |r| <= |s| && r == s[..|r|]
    ensures forall i :: |r| <= i < |s| ==> IsTrimmed(s[i])
    ensures |r| > 0 ==> !IsTrimmed(r[|r| - 1])
  {
    if |s| > 0 && IsTrimmed(s[|s| - 1]) then TrimEnd(s[..|s| - 1]) else s
  }

  /** String.trim(). */
  function Trim(s: string): string {
    TrimEnd(TrimStart(s))
  }

  /** `s.trim().isEmpty()`. */
  predicate IsBlank(s: string) {
    Trim(s) == ""
  }

  /** `s != null && !s.trim().isEmpty()`, the guard the session puts on every optional text. */
  predicate NonBlank(s: Option<string>) {
    s.Some? && !IsBlank(s.value)
  }

  /** `s == null ? "" : s`. */
  function OrEmpty(s: Option<string>): string {
    if s.Some? then s.value else ""
  }

  /** A string is blank exactly when every one of its characters is trimmable. */
  lemma BlankIffAllTrimmed(s: string)
    ensures IsBlank(s) <==> forall i :: 0 <= i < |s| ==> IsTrimmed(s[i])
  {
  }

  /** A string whose first character survives trimming is not blank. */
  lemma VisibleStartNotBlank(s: string)
    requires |s| > 0 && !IsTrimmed(s[0])
    ensures !IsBlank(s)
  {
  }

  /** Where the trimmed text starts inside the original one. */
  function TrimOffset(s: string): nat
  {
    |s| - |TrimStart(s)|
  }

  /** Trimming keeps the text between the first and the last non-trimmable character:
      the result is a contiguous piece of `s`, and trimming it again changes nothing. */
  lemma TrimIsInfixAndIdempotent(s: string)
    ensures TrimOffset(s) + |Trim(s)| <= |s|
    ensures Trim(s) == s[TrimOffset(s)..TrimOffset(s) + |Trim(s)|]
    ensures Trim(Trim(s)) == Trim(s)
  {
  }
}
