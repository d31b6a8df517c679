/** The two JavaScript string operations the components rely on:
    `String.prototype.trim` (the send guards and the send-button rules) and
    `String.prototype.startsWith` (the API-endpoint check of the settings form). */
module Text {

  /** The characters `trim` removes: ECMAScript's WhiteSpace (tab, vertical tab,
      form feed, space, no-break space, the byte-order mark and the other Unicode
      space separators) and LineTerminator (line feed, carriage return, line and
      paragraph separators). */
  predicate IsWhitespace(c: char) {
    || c == '\t' || c == '\n' || c == '\U{B}' || c == '\U{C}' || c == '\r' || c == ' '
    || c == '\U{A0}' || c == '\U{1680}' || ('\U{2000}' <= c <= '\U{200A}')
    || c == '\U{2028}' || c == '\U{2029}' || c == '\U{202F}' || c == '\U{205F}'
    || c == '\U{3000}' || c == '\U{FEFF}'
  }

  /** Every character of `s` from index `lo` up to (not including) `hi` is whitespace. */
  ghost predicate WhitespaceBetween(s: string, lo: int, hi: int) {
    forall i :: lo <= i < hi && 0 <= i < |s| ==> IsWhitespace(s[i])
  }

  /** The index of the first visible character of `s` at or after `i`, or `|s|`
      when there is none. */
  function VisibleFrom(s: string, i: nat): (k: nat)
    requires i <= |s|
    ensures i <= k <= |s|
    ensures WhitespaceBetween(s, i, k)
    ensures k < |s| ==> !IsWhitespace(s[k])
    decreases |s| - i
  {
    if i == |s| || !IsWhitespace(s[i]) then i else VisibleFrom(s, i + 1)
  }

  /** The index just after the last visible character of `s` before `j` and
      not before `lo`, or `lo` when there is none. */
  function VisibleUntil(s: string, lo: nat, j: nat): (k: nat)
    requires lo <= j <= |s|
    ensures lo <= k <= j
    ensures WhitespaceBetween(s, k, j)
    ensures k > lo ==> !IsWhitespace(s[k - 1])
    decreases j
  {
    if j == lo || !IsWhitespace(s[j - 1]) then j else VisibleUntil(s, lo, j - 1)
  }

  /** `s.trim()`: the piece of `s` between its first and its last visible
      character, both included. What that piece is, is stated by
      `TrimCharacterisation`. */
  function Trim(s: string): (r: string)
    ensures |r| <= |s|
    ensures r == [] || (!IsWhitespace(r[0]) && !IsWhitespace(r[|r| - 1]))
  {
    var a := VisibleFrom(s, 0);
    s[a..VisibleUntil(s, a, |s|)]
  }

  /** `Trim(s)` is the piece `s[k..k + |r|]` left once the whitespace on both
      sides is cut off: it begins and ends with a visible character, and it is
      empty exactly when `s` holds only whitespace. */
  lemma TrimCharacterisation(s: string)
    ensures var r := Trim(s);
            && (exists k :: 0 <= k <= |s| - |r| && r == s[k..k + |r|]
                            && WhitespaceBetween(s, 0, k) && WhitespaceBetween(s, k + |r|, |s|))
            && (r == [] || (!IsWhitespace(r[0]) && !IsWhitespace(r[|r| - 1])))
            && (r == [] <==> WhitespaceBetween(s, 0, |s|))
  {
    var a := VisibleFrom(s, 0);
    var b := VisibleUntil(s, a, |s|);
    var r := Trim(s);
    assert r == s[a..b];
    if a == b {
      assert WhitespaceBetween(s, 0, |s|);
    } else {
      assert r[0] == s[a] && r[|r| - 1] == s[b - 1];
      assert !IsWhitespace(s[a]);
    }
  }

  /** `!s.trim()`: the trimmed string is empty, which JavaScript treats as
      false. That happens exactly when `s` has no visible character. */
  predicate IsBlank(s: string): (b: bool)
    ensures b <==> WhitespaceBetween(s, 0, |s|)
  {
    TrimCharacterisation(s);
    Trim(s) == []
  }

  /** Trimming is idempotent: a trimmed string has nothing more to trim. */
  lemma TrimIdempotent(s: string)
    ensures Trim(Trim(s)) == Trim(s)
  {
    var r := Trim(s);
    TrimCharacterisation(s);
    if r != [] {
      assert VisibleFrom(r, 0) == 0;
      assert VisibleUntil(r, 0, |r|) == |r|;
    }
  }

  /** `s.startsWith(prefix)`, compared character by character. */
  function StartsWith(s: string, prefix: string): (b: bool)
    ensures b <==> |prefix| <= |s| && s[..|prefix|] == prefix
  {
    if prefix == [] then true
    else if s == [] || s[0] != prefix[0] then false
    else StartsWith(s[1..], prefix[1..])
  }
}
