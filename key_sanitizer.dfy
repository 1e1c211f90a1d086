/**
 * `clean_key`: lower-case the key, turn every space into a hyphen, then drop every character
 * outside `[a-z0-9-]`. The result is used both as a vector id and as a metadata key.
 */
module KeySanitizer {
  import opened Seqs

  /** The characters `[a-z0-9-]` that survive the final substitution. */
  predicate IsKeyChar(c: char) {
    ('a' <= c <= 'z') || ('0' <= c <= '9') || c == '-'
  }

  /**
   * `str.lower()` on one character. ASCII capitals map to their small letters. Two non-ASCII
   * characters lower-case to strings holding an ASCII letter: U+0130 (capital I with dot above)
   * to `i` followed by U+0307, and U+212A (the Kelvin sign) to `k`. Every other character is
   * kept as it is: its real lower case is again outside `[a-z0-9-]` and outside `' '`, so the
   * key computed from it is the same.
   */
  function LowerChar(c: char): (r: string)
    ensures 1 <= |r| <= 2
  {
    if 'A' <= c <= 'Z' then [(c as int + 32) as char]
    else if c == '\U{0130}' then ['i', '\U{0307}']
    else if c == '\U{212A}' then ['k']
    else [c]
  }

  /** `str.lower()` as the concatenation of the characters' lower cases. */
  function Lower(s: string): string
  {
    if s == [] then [] else LowerChar(s[0]) + Lower(s[1..])
  }

  /** `str.replace(' ', '-')`. */
  function ReplaceSpaces(s: string): (r: string)
    ensures |r| == |s|
    ensures forall i :: 0 <= i < |s| ==> r[i] == if s[i] == ' ' then '-' else s[i]
  {
    if s == [] then [] else [if s[0] == ' ' then '-' else s[0]] + ReplaceSpaces(s[1..])
  }

  function CleanKey(key: string): (r: string)
    ensures forall i :: 0 <= i < |r| ==> IsKeyChar(r[i])
  {
    Filter(ReplaceSpaces(Lower(key)), IsKeyChar)
  }

  // ---------------------------------------------------------------------------
  // Reference definition: what each input character contributes to the key

  /** The part of the key that one character of the input becomes. */
  function KeyPart(c: char): string {
    if IsKeyChar(c) then [c]
    else if 'A' <= c <= 'Z' then [(c as int + 32) as char]
    else if c == ' ' then ['-']
    else if c == '\U{0130}' then ['i']
    else if c == '\U{212A}' then ['k']
    else []
  }

  function CleanKeyByChar(s: string): string {
    if s == [] then [] else KeyPart(s[0]) + CleanKeyByChar(s[1..])
  }

  lemma ReplaceSpacesAppend(a: string, b: string)
    ensures ReplaceSpaces(a + b) == ReplaceSpaces(a) + ReplaceSpaces(b)
  {
  }

  /** The three steps, applied to one character, give that character's part of the key. */
  lemma KeyPartOfChar(c: char)
    ensures Filter(ReplaceSpaces(LowerChar(c)), IsKeyChar) == KeyPart(c)
  {
    if c == '\U{0130}' {
      var l := ['i', '\U{0307}'];
      assert ReplaceSpaces(l) == l;
      FilterAppend(['i'], ['\U{0307}'], IsKeyChar);
      FilterSingleton('i', IsKeyChar);
      FilterSingleton('\U{0307}', IsKeyChar);
      assert l == ['i'] + ['\U{0307}'];
    } else {
      FilterSingleton(ReplaceSpaces(LowerChar(c))[0], IsKeyChar);
    }
  }

  /** `clean_key` works character by character. */
  lemma {:induction false} CleanKeyIsCharwise(s: string)
    ensures CleanKey(s) == CleanKeyByChar(s)
  {
    if s != [] {
      CleanKeyIsCharwise(s[1..]);
      ReplaceSpacesAppend(LowerChar(s[0]), Lower(s[1..]));
      FilterAppend(ReplaceSpaces(LowerChar(s[0])), ReplaceSpaces(Lower(s[1..])), IsKeyChar);
      KeyPartOfChar(s[0]);
    }
  }

  // ---------------------------------------------------------------------------
  // Properties

  lemma {:induction false} CleanKeyByCharNoLonger(s: string)
    ensures |CleanKeyByChar(s)| <= |s|
  {
    if s != [] {
      CleanKeyByCharNoLonger(s[1..]);
    }
  }

  /** A key is never longer than the string it was cleaned from. */
  lemma CleanKeyNoLonger(s: string)
    ensures |CleanKey(s)| <= |s|
  {
    CleanKeyIsCharwise(s);
    CleanKeyByCharNoLonger(s);
  }

  lemma {:induction false} CleanKeyByCharKeepsKeyChars(s: string)
    requires forall i :: 0 <= i < |s| ==> IsKeyChar(s[i])
    ensures CleanKeyByChar(s) == s
  {
    if s != [] {
      CleanKeyByCharKeepsKeyChars(s[1..]);
      assert s == [s[0]] + s[1..];
    }
  }

  /** A string is left unchanged by `clean_key` exactly when it is made of `[a-z0-9-]`. */
  lemma CleanKeyFixpoints(s: string)
    ensures CleanKey(s) == s <==> forall i :: 0 <= i < |s| ==> IsKeyChar(s[i])
  {
    if forall i :: 0 <= i < |s| ==> IsKeyChar(s[i]) {
      CleanKeyIsCharwise(s);
      CleanKeyByCharKeepsKeyChars(s);
    }
  }

  /** Cleaning a key twice is cleaning it once. */
  lemma CleanKeyIdempotent(s: string)
    ensures CleanKey(CleanKey(s)) == CleanKey(s)
  {
    CleanKeyFixpoints(CleanKey(s));
  }

  /** An ASCII letter, digit, space or hyphen. */
  predicate IsPlainKeyChar(c: char) {
    IsKeyChar(c) || ('A' <= c <= 'Z') || c == ' '
  }

  /** `c` lower-cased, with a space turned into a hyphen. */
  function PlainKeyChar(c: char): char {
    if 'A' <= c <= 'Z' then (c as int + 32) as char else if c == ' ' then '-' else c
  }

  /**
   * On a key made of ASCII letters, digits, spaces and hyphens nothing is dropped: the key has
   * the same length, and each character is lower-cased, a space becoming a hyphen.
   */
  lemma {:induction false} CleanKeyOfPlainKey(s: string)
    requires forall i :: 0 <= i < |s| ==> IsPlainKeyChar(s[i])
    ensures |CleanKey(s)| == |s|
    ensures forall i :: 0 <= i < |s| ==> CleanKey(s)[i] == PlainKeyChar(s[i])
  {
    CleanKeyIsCharwise(s);
    if s != [] {
      CleanKeyOfPlainKey(s[1..]);
      CleanKeyIsCharwise(s[1..]);
      assert KeyPart(s[0]) == [PlainKeyChar(s[0])];
      forall i | 0 <= i < |s|
        ensures CleanKey(s)[i] == PlainKeyChar(s[i])
      {
        if i > 0 {
          assert CleanKey(s)[i] == CleanKey(s[1..])[i - 1];
          assert s[1..][i - 1] == s[i];
        }
      }
    }
  }

  /** A name made of `[a-z0-9-]`, such as the metadata field names, is already a key. */
  lemma KeyNameIsKey(name: string)
    requires name == "category" || name == "url"
    ensures CleanKey(name) == name
  {
    CleanKeyFixpoints(name);
  }

  // ---------------------------------------------------------------------------
  // A worked example

  lemma {:induction false} CleanKeyByCharAppend(a: string, b: string)
    ensures CleanKeyByChar(a + b) == CleanKeyByChar(a) + CleanKeyByChar(b)
  {
    if a != [] {
      assert (a + b)[1..] == a[1..] + b;
      CleanKeyByCharAppend(a[1..], b);
    } else {
      assert a + b == b;
    }
  }

  lemma CleanKeyByCharUnfold(s: string)
    requires s != []
    ensures CleanKeyByChar(s) == KeyPart(s[0]) + CleanKeyByChar(s[1..])
  {
  }

  /** The three pieces of the example key, each cleaned character by character. */
  lemma CleanKeyPiece1(s: string)
    requires s == "Kurly"
    ensures CleanKeyByChar(s) == "kurly"
  {
    CleanKeyByCharUnfold(s);
    CleanKeyByCharUnfold(s[1..]);
    CleanKeyByCharUnfold(s[2..]);
    CleanKeyByCharUnfold(s[3..]);
    CleanKeyByCharUnfold(s[4..]);
  }

  lemma CleanKeyPiece2(s: string)
    requires s == " Pro"
    ensures CleanKeyByChar(s) == "-pro"
  {
    CleanKeyByCharUnfold(s);
    CleanKeyByCharUnfold(s[1..]);
    CleanKeyByCharUnfold(s[2..]);
    CleanKeyByCharUnfold(s[3..]);
  }

  lemma CleanKeyPiece3(s: string)
    requires s == "duct #1"
    ensures CleanKeyByChar(s) == "duct-1"
  {
    CleanKeyByCharUnfold(s);
    CleanKeyByCharUnfold(s[1..]);
    CleanKeyByCharUnfold(s[2..]);
    CleanKeyByCharUnfold(s[3..]);
    CleanKeyByCharUnfold(s[4..]);
    CleanKeyByCharUnfold(s[5..]);
    CleanKeyByCharUnfold(s[6..]);
  }

  /** The example key, cleaned piece by piece. */
  lemma CleanKeyOfPieces(a: string, b: string, c: string)
    requires a == "Kurly" && b == " Pro" && c == "duct #1"
    ensures CleanKeyByChar(a + b + c) == "kurly-product-1"
  {
    CleanKeyPiece1(a);
    CleanKeyPiece2(b);
    CleanKeyPiece3(c);
    CleanKeyByCharAppend(a + b, c);
    CleanKeyByCharAppend(a, b);
  }

  /** The example key cut into the three pieces cleaned above. */
  lemma ExampleKeyPieces(s: string)
    requires s == "Kurly Product #1"
    ensures s == "Kurly" + " Pro" + "duct #1"
  {
  }

  /** `clean_key("Kurly Product #1") == "kurly-product-1"`. */
  lemma CleanKeyExample(s: string)
    requires s == "Kurly Product #1"
    ensures CleanKey(s) == "kurly-product-1"
  {
    CleanKeyIsCharwise(s);
    ExampleKeyPieces(s);
    CleanKeyOfPieces("Kurly", " Pro", "duct #1");
  }
}
