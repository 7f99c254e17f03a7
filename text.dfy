/**
 * String trimming as JavaScript's `String.prototype.trim` performs it
 * (ECMAScript 2024, section 22.1.3.32 and the abstract operation TrimString
 * in section 22.1.3.32.1): the longest prefix and the longest suffix made of
 * WhiteSpace and LineTerminator code points are removed.
 */
module Text {

  /** The WhiteSpace (section 12.2) and LineTerminator (section 12.3) code points
      of ECMAScript. All of them lie in the Basic Multilingual Plane, so it does
      not matter that JavaScript strings are sequences of UTF-16 code units. */
  predicate IsWhitespace(c: char) {
    || c == '\t' || c == '\n' || c == '\U{B}' || c == '\U{C}' || c == '\r'
    || c == ' ' || c == '\U{A0}' || c == '\U{1680}'
    || ('\U{2000}' <= c <= '\U{200A}')
    || c == '\U{2028}' || c == '\U{2029}' || c == '\U{202F}' || c == '\U{205F}'
    || c == '\U{3000}' || c == '\U{FEFF}'
  }

  /** Neither starts nor ends with whitespace. */
  predicate IsTrimmed(s: string) {
    s == [] || (!IsWhitespace(s[0]) && !IsWhitespace(s[|s| - 1]))
  }

  /** A string that may stand in a skills or achievements list: non-empty and trimmed. */
  predicate IsListItem(s: string) {
    s != [] && IsTrimmed(s)
  }

  /** Every character of s is whitespace (vacuously true of ""). */
  predicate IsBlank(s: string) {
    forall k :: 0 <= k < |s| ==> IsWhitespace(s[k])
  }

  /** The length of the longest whitespace prefix of s. */
  function LeadingWhitespace(s: string): (n: nat)
    ensures n <= |s|
    ensures forall k :: 0 <= k < n ==> IsWhitespace(s[k])
    ensures n < |s| ==> !IsWhitespace(s[n])
    decreases |s|
  {
    if s != [] && IsWhitespace(s[0]) then 1 + LeadingWhitespace(s[1..]) else 0
  }

  /** The length of the longest whitespace suffix of s. */
  function TrailingWhitespace(s: string): (n: nat)
    ensures n <= |s|
    ensures forall k :: |s| - n <= k < |s| ==> IsWhitespace(s[k])
    ensures n < |s| ==> !IsWhitespace(s[|s| - 1 - n])
    decreases |s|
  {
    if s != [] && IsWhitespace(s[|s| - 1]) then 1 + TrailingWhitespace(s[..|s| - 1]) else 0
  }

  /** `s.trim()`: the contiguous slice of s left once the whitespace prefix and
      suffix are cut off. It is empty exactly when s is blank, and otherwise it
      starts and ends with a non-whitespace character. */
  function Trim(s: string): (r: string)
    ensures |r| <= |s|
    ensures IsTrimmed(r)
    ensures r == [] <==> IsBlank(s)
    ensures exists i, j :: 0 <= i <= j <= |s| && r == s[i..j]
                           && (forall k :: 0 <= k < i ==> IsWhitespace(s[k]))
                           && (forall k :: j <= k < |s| ==> IsWhitespace(s[k]))
  {
    var lead := LeadingWhitespace(s);
    if lead == |s| then
      assert s[|s|..|s|] == [];
      []
    else
      var trail := TrailingWhitespace(s);
      assert lead < |s| - trail;
      s[lead..|s| - trail]
  }

  /** A string that is already trimmed is left alone by trim; in particular
      trimming is idempotent. */
  lemma TrimOfTrimmed(s: string)
    requires IsTrimmed(s)
    ensures Trim(s) == s
  {
  }

  /** What addSkill and addAchievement commit, trim(buffer) when it is non-empty,
      is a valid list item, and trimming it again gives it back. */
  lemma TrimmedIsListItem(s: string)
    requires Trim(s) != []
    ensures IsListItem(Trim(s))
    ensures Trim(Trim(s)) == Trim(s)
  {
  }

  /** The two concrete cases of the editor's validation gate: a padded word is
      committed without its padding, spaces alone are refused. */
  lemma TrimExamples()
    ensures Trim("Go ") == "Go"
    ensures Trim("  ") == ""
    ensures Trim("") == ""
  {
  }
}
