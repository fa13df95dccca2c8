/**
 * The string predicates of Spring's `StringUtils` that the aggregation
 * builder relies on, over nullable strings, and Java's
 * `Character.isWhitespace` for the characters they inspect.
 */
module StringUtils {
  import opened Wrappers

  /**
   * Java's `Character.isWhitespace`: the space, line and paragraph
   * separators of Unicode other than the no-break spaces U+00A0, U+2007
   * and U+202F, plus the control characters TAB, LF, VT, FF, CR and
   * U+001C to U+001F.
   */
  predicate IsWhitespace(c: char)
    ensures IsWhitespace(c) ==> c != '\U{00A0}' && c != '\U{2007}' && c != '\U{202F}'
  {
    || c == '\t' || c == '\n' || c == '\U{000B}' || c == '\U{000C}' || c == '\r'
    || ('\U{001C}' <= c <= '\U{001F}')
    || c == ' ' || c == '\U{1680}'
    || ('\U{2000}' <= c <= '\U{2006}') || ('\U{2008}' <= c <= '\U{200A}')
    || c == '\U{2028}' || c == '\U{2029}' || c == '\U{205F}' || c == '\U{3000}'
  }

  /** `StringUtils.hasLength`: not null and at least one character long. */
  predicate HasLength(str: Option<string>) {
    str.Some? && |str.value| > 0
  }

  /**
   * `StringUtils.containsText`: the scan from the front that stops at the
   * first character that is not whitespace.
   */
  predicate ContainsText(s: string) {
    |s| > 0 && (!IsWhitespace(s[0]) || ContainsText(s[1..]))
  }

  /** `StringUtils.hasText`: not null, not empty, and not whitespace only. */
  predicate HasText(str: Option<string>)
    ensures HasText(str) ==> HasLength(str)
  {
    HasLength(str) && ContainsText(str.value)
  }

  /** The scan finds text exactly when some character is not whitespace. */
  lemma {:induction false} ContainsTextIffNonWhitespace(s: string)
    ensures ContainsText(s) <==> exists i :: 0 <= i < |s| && !IsWhitespace(s[i])
  {
    if |s| > 0 {
      ContainsTextIffNonWhitespace(s[1..]);
      if ContainsText(s[1..]) {
        var i :| 0 <= i < |s[1..]| && !IsWhitespace(s[1..][i]);
        assert !IsWhitespace(s[i + 1]);
      }
    }
  }

  /** A string has text exactly when it is non-null and holds a non-whitespace character. */
  lemma HasTextIff(str: Option<string>)
    ensures HasText(str) <==> str.Some? && exists i :: 0 <= i < |str.value| && !IsWhitespace(str.value[i])
  {
    if str.Some? {
      ContainsTextIffNonWhitespace(str.value);
    }
  }

  /** Strings made only of whitespace, the empty string included, contain no text. */
  lemma BlankHasNoText(s: string)
    requires forall i :: 0 <= i < |s| ==> IsWhitespace(s[i])
    ensures !ContainsText(s)
  {
    ContainsTextIffNonWhitespace(s);
  }

  /**
   * `hasLength` accepts exactly the strings that have text and, besides
   * them, the non-empty strings made only of whitespace.
   */
  lemma HasLengthIffTextOrBlank(str: Option<string>)
    ensures HasLength(str) <==>
      || HasText(str)
      || (str.Some? && |str.value| > 0 && forall i :: 0 <= i < |str.value| ==> IsWhitespace(str.value[i]))
  {
    HasTextIff(str);
  }
}
