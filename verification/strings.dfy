/** String tests used by both halves of the application: substring search,
    case folding and whitespace trimming.  JavaScript's `trim` and Python's
    `strip` disagree on which code points are whitespace, so each gets its
    own predicate. */
module Strings {

  /** `p` is a prefix of `s` (JavaScript `startsWith`, Python `startswith`). */
  predicate StartsWith(s: string, p: string) {
    |p| <= |s| && s[..|p|] == p
  }

  /** `needle` occurs in `hay` (JavaScript `includes`, Python `in`). */
  predicate Contains(hay: string, needle: string) {
    exists i :: 0 <= i <= |hay| - |needle| && StartsWith(hay[i..], needle)
  }

  /** Lower-cases ASCII letters and leaves every other code point alone. */
  function LowerChar(c: char): char {
    if 'A' <= c <= 'Z' then (c as int + 32) as char else c
  }

  /** Case folding as used by `toLowerCase()` and `.lower()`, restricted to ASCII. */
  function Lower(s: string): (r: string)
    ensures |r| == |s|
    ensures forall i :: 0 <= i < |s| ==> r[i] == LowerChar(s[i])
  {
    seq(|s|, i requires 0 <= i < |s| => LowerChar(s[i]))
  }

  /** Code points removed by JavaScript's `String.prototype.trim`
      (WhiteSpace and LineTerminator of ECMA-262). */
  predicate IsJsSpace(c: char) {
    || c == '\t' || c == '\n' || c == '\U{000B}' || c == '\U{000C}' || c == '\r'
    || c == ' ' || c == '\U{00A0}' || c == '\U{1680}' || '\U{2000}' <= c <= '\U{200A}'
    || c == '\U{2028}' || c == '\U{2029}' || c == '\U{202F}' || c == '\U{205F}'
    || c == '\U{3000}' || c == '\U{FEFF}'
  }

  /** Code points for which Python's `str.isspace` holds, the set `str.strip()` removes. */
  predicate IsPySpace(c: char) {
    || '\t' <= c <= '\r' || '\U{001C}' <= c <= '\U{001F}' || c == ' '
    || c == '\U{0085}' || c == '\U{00A0}' || c == '\U{1680}' || '\U{2000}' <= c <= '\U{200A}'
    || c == '\U{2028}' || c == '\U{2029}' || c == '\U{202F}' || c == '\U{205F}'
    || c == '\U{3000}'
  }

  /** Drops leading code points satisfying `space`. */
  function TrimStart(s: string, space: char -> bool): string
    decreases |s|
  {
    if |s| > 0 && space(s[0]) then TrimStart(s[1..], space) else s
  }

  /** Drops trailing code points satisfying `space`. */
  function TrimEnd(s: string, space: char -> bool): string {
    if |s| > 0 && space(s[|s| - 1]) then TrimEnd(s[..|s| - 1], space) else s
  }

  /** `TrimStart` removes exactly the longest prefix of `space` code points:
      what remains is a suffix of the input that does not start with one. */
  lemma {:induction false} TrimStartRemovesPrefix(s: string, space: char -> bool)
    ensures var r := TrimStart(s, space);
      && |r| <= |s| && r == s[|s| - |r|..]
      && (r == [] || !space(r[0]))
      && forall i :: 0 <= i < |s| - |r| ==> space(s[i])
    decreases |s|
  {
    if |s| > 0 && space(s[0]) {
      TrimStartRemovesPrefix(s[1..], space);
      var r := TrimStart(s[1..], space);
      assert forall i :: 1 <= i < |s| - |r| ==> s[i] == s[1..][i - 1];
    }
  }

  /** `TrimEnd` removes exactly the longest suffix of `space` code points. */
  lemma {:induction false} TrimEndRemovesSuffix(s: string, space: char -> bool)
    ensures var r := TrimEnd(s, space);
      && |r| <= |s| && r == s[..|r|]
      && (r == [] || !space(r[|r| - 1]))
      && forall i :: |r| <= i < |s| ==> space(s[i])
    decreases |s|
  {
    if |s| > 0 && space(s[|s| - 1]) {
      TrimEndRemovesSuffix(s[..|s| - 1], space);
    }
  }

  /** JavaScript `s.trim()`. */
  function JsTrim(s: string): string {
    TrimEnd(TrimStart(s, IsJsSpace), IsJsSpace)
  }

  /** Python `s.strip()`. */
  function PyStrip(s: string): string {
    TrimEnd(TrimStart(s, IsPySpace), IsPySpace)
  }

  /** `!s.trim()` in JavaScript: the text is empty once trimmed. */
  predicate IsBlank(s: string) {
    JsTrim(s) == ""
  }

  /** A text is blank exactly when every code point in it is JavaScript whitespace. */
  lemma BlankIffAllSpace(s: string)
    ensures IsBlank(s) <==> forall i :: 0 <= i < |s| ==> IsJsSpace(s[i])
  {
    var t := TrimStart(s, IsJsSpace);
    TrimStartRemovesPrefix(s, IsJsSpace);
    TrimEndRemovesSuffix(t, IsJsSpace);
    assert t == s[|s| - |t|..];
  }

  /** A witness position proves containment. */
  lemma ContainsAt(hay: string, needle: string, i: int)
    requires 0 <= i <= |hay| - |needle| && StartsWith(hay[i..], needle)
    ensures Contains(hay, needle)
  {
  }

  /** Every code point of a contained needle occurs in the haystack, so a
      missing code point refutes containment. */
  lemma ContainsNeedsChar(hay: string, needle: string, k: int)
    requires 0 <= k < |needle| && needle[k] !in hay
    ensures !Contains(hay, needle)
  {
    forall i | 0 <= i <= |hay| - |needle|
      ensures !StartsWith(hay[i..], needle)
    {
      assert hay[i + k] in hay;
      assert hay[i..][k] == hay[i + k];
    }
  }

  /** A needle found in the tail of a concatenation is found in the whole. */
  lemma ContainsInSuffix(front: string, back: string, needle: string)
    requires Contains(back, needle)
    ensures Contains(front + back, needle)
  {
    var i :| 0 <= i <= |back| - |needle| && StartsWith(back[i..], needle);
    assert (front + back)[|front| + i..] == back[i..];
    ContainsAt(front + back, needle, |front| + i);
  }

  /** A needle found in the head of a concatenation is found in the whole. */
  lemma ContainsInPrefix(front: string, back: string, needle: string)
    requires Contains(front, needle)
    ensures Contains(front + back, needle)
  {
    var i :| 0 <= i <= |front| - |needle| && StartsWith(front[i..], needle);
    assert (front + back)[i..][..|needle|] == front[i..][..|needle|];
    ContainsAt(front + back, needle, i);
  }

  /** Every text contains itself. */
  lemma ContainsSelf(s: string)
    ensures Contains(s, s)
  {
    ContainsAt(s, s, 0);
  }

  /** A needle found in the folded middle piece of a text is found in the
      folded whole. */
  lemma ContainsInFoldedMiddle(front: string, middle: string, back: string, needle: string)
    requires Contains(Lower(middle), needle)
    ensures Contains(Lower(front + middle + back), needle)
  {
    LowerAppend(front + middle, back);
    LowerAppend(front, middle);
    ContainsInSuffix(Lower(front), Lower(middle), needle);
    ContainsInPrefix(Lower(front) + Lower(middle), Lower(back), needle);
  }

  /** Concatenation is associative. */
  lemma AppendAssoc<T>(a: seq<T>, b: seq<T>, c: seq<T>)
    ensures a + b + c == a + (b + c)
  {
  }

  /** Case folding distributes over concatenation. */
  lemma LowerAppend(a: string, b: string)
    ensures Lower(a + b) == Lower(a) + Lower(b)
  {
  }

  /** Folded text contains no upper-case ASCII letter. */
  lemma LowerHasNoUpper(s: string, c: char)
    requires 'A' <= c <= 'Z'
    ensures c !in Lower(s)
  {
    forall i | 0 <= i < |s|
      ensures Lower(s)[i] != c
    {
    }
  }

  /** Folding leaves text without upper-case ASCII letters unchanged. */
  lemma LowerFixes(s: string)
    requires forall i :: 0 <= i < |s| ==> !('A' <= s[i] <= 'Z')
    ensures Lower(s) == s
  {
  }
}
