/**
 * Input filtering for the name field: the single-key allow-list applied on
 * key presses and the character filter applied to pasted text. Both use the
 * class `[a-zA-ZáéíóúÁÉÍÓÚñÑ\s]`.
 */
module NameInput {
  import opened Text

  /** The allow-list of the name field: ASCII letters, the Spanish accented
      vowels and `ñ` in both cases, and JavaScript whitespace. */
  predicate IsNameChar(c: char) {
    || ('a' <= c <= 'z') || ('A' <= c <= 'Z')
    || c in "áéíóúÁÉÍÓÚñÑ"
    || IsWhitespace(c)
  }

  predicate AllNameChars(s: string) {
    forall i | 0 <= i < |s| :: IsNameChar(s[i])
  }

  /** `a` can be obtained from `b` by deleting characters. */
  predicate IsSubsequence(a: string, b: string)
    decreases |b|
  {
    if a == [] then true
    else if b == [] then false
    else if a[0] == b[0] then IsSubsequence(a[1..], b[1..])
    else IsSubsequence(a, b[1..])
  }

  /** The key handler's test: the key passes the anchored pattern `^[...]$`, so it
      must be exactly one allowed character; a named key such as "Backspace" or
      "ArrowLeft" is refused like any other multi-character key. */
  function OnlyLetters(key: string): (accept: bool)
    ensures accept <==> |key| == 1 && AllNameChars(key)
  {
    |key| == 1 && IsNameChar(key[0])
  }

  /** The paste handler's `replace(/[^...]/g, '')`: every disallowed character removed.
      What is left is made only of allowed characters and is a subsequence of the text. */
  function FilterName(text: string): (clean: string)
    ensures AllNameChars(clean)
    ensures IsSubsequence(clean, text)
    ensures |clean| <= |text|
  {
    if text == [] then []
    else if IsNameChar(text[0]) then [text[0]] + FilterName(text[1..])
    else FilterName(text[1..])
  }

  /** Filtering distributes over concatenation, so pasting in pieces is the same as
      pasting at once. */
  lemma {:induction false} FilterNameAppend(a: string, b: string)
    ensures FilterName(a + b) == FilterName(a) + FilterName(b)
  {
    if a == [] {
      assert a + b == b;
    } else {
      assert (a + b)[0] == a[0];
      assert (a + b)[1..] == a[1..] + b;
      FilterNameAppend(a[1..], b);
    }
  }

  /** No allowed character is lost: each one occurs as often in the result as in the text. */
  lemma {:induction false} FilterNameKeepsAllowed(text: string, c: char)
    requires IsNameChar(c)
    ensures Count(FilterName(text), c) == Count(text, c)
  {
    if text != [] {
      FilterNameKeepsAllowed(text[1..], c);
      if IsNameChar(text[0]) {
        assert ([text[0]] + FilterName(text[1..]))[1..] == FilterName(text[1..]);
      }
    }
  }

  /** The filter changes a text exactly when the text holds a disallowed character. */
  lemma {:induction false} FilterNameIdentity(text: string)
    ensures FilterName(text) == text <==> AllNameChars(text)
  {
    if text != [] {
      FilterNameIdentity(text[1..]);
      assert forall i | 1 <= i < |text| :: text[i] == text[1..][i - 1];
      if !IsNameChar(text[0]) {
        assert |FilterName(text)| <= |text[1..]| < |text|;
      }
    }
  }

  /** Typing a key and pasting it agree: a key is accepted exactly when it is a
      single character that the paste filter keeps. */
  lemma KeyFilterAgreesWithPasteFilter(key: string)
    ensures OnlyLetters(key) <==> |key| == 1 && FilterName(key) == key
  {
  }
}
