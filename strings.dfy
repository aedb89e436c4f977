/**
 * The blank test the managers use to decide whether an optional string
 * setting is present (Apache Commons Lang's StringUtils.isNotBlank).
 */
module Strings {

  /** Java's Character.isWhitespace, on a Unicode scalar value: the ASCII
      controls TAB, LF, VT, FF, CR and FS..US, plus the Unicode space, line and
      paragraph separators other than the non-breaking spaces U+00A0, U+2007
      and U+202F. No supplementary code point is whitespace in Java, and Java's
      test is false on surrogates, so blankness agrees with Java's. */
  predicate IsWhitespace(c: char) {
    || ('\t' <= c <= '\r')
    || ('\U{001C}' <= c <= ' ')
    || c == '\U{1680}'
    || ('\U{2000}' <= c <= '\U{2006}')
    || ('\U{2008}' <= c <= '\U{200A}')
    || c == '\U{2028}' || c == '\U{2029}'
    || c == '\U{205F}' || c == '\U{3000}'
  }

  /** StringUtils.isBlank: empty or made only of whitespace. */
  predicate IsBlank(s: string) {
    forall i :: 0 <= i < |s| ==> IsWhitespace(s[i])
  }

  /** StringUtils.isNotBlank. */
  predicate IsNotBlank(s: string) {
    !IsBlank(s)
  }

  /** Java's edge cases: the empty string and the ASCII whitespace controls are
      blank; the non-breaking spaces, which Java does not count as
      whitespace, are not; neither are the separator-looking controls NUL,
      U+0085 and the zero-width space. */
  lemma BlankEdgeCases()
    ensures !IsNotBlank("")
    ensures !IsNotBlank("\t\n\U{000B}\U{000C}\r\U{001C}\U{001D}\U{001E}\U{001F} ")
    ensures !IsNotBlank("\U{1680}\U{2000}\U{2006}\U{2008}\U{200A}\U{2028}\U{2029}\U{205F}\U{3000}")
    ensures IsNotBlank("\U{00A0}") && IsNotBlank("\U{2007}") && IsNotBlank("\U{202F}")
    ensures IsNotBlank("\U{0000}") && IsNotBlank("\U{0085}") && IsNotBlank("\U{200B}")
    ensures IsNotBlank(" x ")
  {
    var ws := "\t\n\U{000B}\U{000C}\r\U{001C}\U{001D}\U{001E}\U{001F} ";
    assert forall i :: 0 <= i < |ws| ==> IsWhitespace(ws[i]);
    var seps := "\U{1680}\U{2000}\U{2006}\U{2008}\U{200A}\U{2028}\U{2029}\U{205F}\U{3000}";
    assert forall i :: 0 <= i < |seps| ==> IsWhitespace(seps[i]);
    assert !IsWhitespace(" x "[1]);
    assert !IsWhitespace("\U{00A0}"[0]) && !IsWhitespace("\U{2007}"[0]) && !IsWhitespace("\U{202F}"[0]);
    assert !IsWhitespace("\U{0000}"[0]) && !IsWhitespace("\U{0085}"[0]) && !IsWhitespace("\U{200B}"[0]);
  }

  /** A concatenation is not blank exactly when one of its parts is not. */
  lemma NotBlankConcat(s: string, t: string)
    ensures IsNotBlank(s + t) <==> IsNotBlank(s) || IsNotBlank(t)
  {
    if IsNotBlank(s) {
      var i :| 0 <= i < |s| && !IsWhitespace(s[i]);
      assert (s + t)[i] == s[i];
    } else if IsNotBlank(t) {
      var j :| 0 <= j < |t| && !IsWhitespace(t[j]);
      assert (s + t)[|s| + j] == t[j];
    } else {
      forall k | 0 <= k < |s + t| ensures IsWhitespace((s + t)[k]) {
        if k < |s| { assert (s + t)[k] == s[k]; } else { assert (s + t)[k] == t[k - |s|]; }
      }
    }
  }
}
