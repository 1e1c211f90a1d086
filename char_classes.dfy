/**
 * The two character classes the text normaliser's regular expressions use.
 *
 * `IsSpace` is Python's `\s` for `str` patterns, which is also the set of characters
 * `str.isspace()` and `str.strip()` treat as whitespace. `IsWord` stands for Python's
 * Unicode-aware `\w`; it covers ASCII letters, digits and `_`, the Latin-1 letters and
 * numerals, and the Hangul and CJK blocks the product texts are written in. Every proof
 * about the normaliser uses only `SpaceIsNotWord` and `IsSpace(' ')`.
 */
module CharClasses {

  predicate IsSpace(c: char) {
    c == ' ' || ('\t' <= c <= '\r') || ('\U{1C}' <= c <= '\U{1F}')
    || c == '\U{85}' || c == '\U{A0}' || c == '\U{1680}'
    || ('\U{2000}' <= c <= '\U{200A}') || c == '\U{2028}' || c == '\U{2029}'
    || c == '\U{202F}' || c == '\U{205F}' || c == '\U{3000}'
  }

  predicate IsAsciiWord(c: char) {
    ('a' <= c <= 'z') || ('A' <= c <= 'Z') || ('0' <= c <= '9') || c == '_'
  }

  predicate IsWord(c: char) {
    IsAsciiWord(c)
    // Latin-1 letters and numerals: ª ² ³ µ ¹ º ¼ ½ ¾ and the accented letters
    || c == '\U{AA}' || c == '\U{B2}' || c == '\U{B3}' || c == '\U{B5}'
    || c == '\U{B9}' || c == '\U{BA}' || ('\U{BC}' <= c <= '\U{BE}')
    || ('\U{C0}' <= c <= '\U{D6}') || ('\U{D8}' <= c <= '\U{F6}') || ('\U{F8}' <= c <= '\U{FF}')
    // Hangul jamo, Hangul compatibility jamo, CJK unified ideographs, Hangul syllables
    || ('\U{1100}' <= c <= '\U{11FF}') || ('\U{3131}' <= c <= '\U{318E}')
    || ('\U{4E00}' <= c <= '\U{9FFF}') || ('\U{AC00}' <= c <= '\U{D7A3}')
  }

  /** A character kept by `[^\w\s]`-removal: a word or a whitespace character. */
  predicate IsWordOrSpace(c: char) {
    IsWord(c) || IsSpace(c)
  }

  predicate IsNotSpace(c: char) {
    !IsSpace(c)
  }

  /** The two classes are disjoint. */
  lemma SpaceIsNotWord(c: char)
    ensures IsSpace(c) ==> !IsWord(c)
  {
  }
}
