/**
 * `preprocess_text`: delete every character that is neither a word nor a whitespace
 * character, collapse each whitespace run to one space, then strip both ends.
 *
 * The three steps are modelled one function each, as the source composes them. The
 * independent reference is Python's `' '.join(t.split())` (`Join(Split(t))`); the main
 * lemma shows the collapse-then-strip pipeline equals it, and the shape, idempotence and
 * word-preservation properties are proved from that form.
 */
module TextNormalizer {
  import opened Seqs
  import opened CharClasses

  // ---------------------------------------------------------------------------
  // The source's three steps

  /** `re.sub(r'[^\w\s]', '', s)`. */
  function RemovePunctuation(s: string): (r: string)
    ensures forall i :: 0 <= i < |r| ==> IsWord(r[i]) || IsSpace(r[i])
  {
    Filter(s, IsWordOrSpace)
  }

  /** Leading whitespace removed: the result is the suffix after the longest all-space prefix. */
  function TrimStart(s: string): (r: string)
    ensures |r| <= |s| && r == s[|s| - |r|..]
    ensures forall i :: 0 <= i < |s| - |r| ==> IsSpace(s[i])
    ensures r == [] || !IsSpace(r[0])
  {
    if s != [] && IsSpace(s[0]) then
      var r := TrimStart(s[1..]);
      assert r == s[|s| - |r|..];
      r
    else s
  }

  /** Trailing whitespace removed: the result is the prefix before the longest all-space suffix. */
  function TrimEnd(s: string): (r: string)
    ensures |r| <= |s| && r == s[..|r|]
    ensures forall i :: |r| <= i < |s| ==> IsSpace(s[i])
    ensures r == [] || !IsSpace(r[|r| - 1])
  {
    if s != [] && IsSpace(s[|s| - 1]) then TrimEnd(s[..|s| - 1]) else s
  }

  /** `str.strip()` with no argument. */
  function Strip(s: string): string {
    TrimEnd(TrimStart(s))
  }

  /** `re.sub(r'\s+', ' ', s)`: each maximal run of whitespace becomes one `' '`. */
  function CollapseWhitespace(s: string): string
    decreases |s|
  {
    if s == [] then []
    else if IsSpace(s[0]) then [' '] + CollapseWhitespace(TrimStart(s[1..]))
    else [s[0]] + CollapseWhitespace(s[1..])
  }

  /** `preprocess_text(text)` (db_pinecone_uploader.py:17-20). */
  function PreprocessText(text: string): string {
    Strip(CollapseWhitespace(RemovePunctuation(text)))
  }

  // ---------------------------------------------------------------------------
  // Reference definition: `' '.join(t.split())`

  /** A piece of `str.split()`'s output: non-empty, without whitespace. */
  predicate IsToken(w: string) {
    w != [] && forall i :: 0 <= i < |w| ==> !IsSpace(w[i])
  }

  /** The longest prefix of `s` without whitespace. */
  function LeadingWord(s: string): (w: string)
    ensures |w| <= |s| && w == s[..|w|]
    ensures forall i :: 0 <= i < |w| ==> !IsSpace(w[i])
    ensures |w| < |s| ==> IsSpace(s[|w|])
  {
    if s == [] || IsSpace(s[0]) then [] else [s[0]] + LeadingWord(s[1..])
  }

  /** `str.split()` with no separator: the maximal non-whitespace runs, in order. */
  function Split(s: string): (ws: seq<string>)
    ensures forall j :: 0 <= j < |ws| ==> IsToken(ws[j])
    decreases |s|
  {
    var t := TrimStart(s);
    if t == [] then []
    else
      var w := LeadingWord(t);
      LeadingWordIsToken(t);
      [w] + Split(t[|w|..])
  }

  /** A text that does not start with whitespace starts with a token. */
  lemma LeadingWordIsToken(t: string)
    requires t != [] && !IsSpace(t[0])
    ensures IsToken(LeadingWord(t))
  {
  }

  /** `' '.join(ws)`. */
  function Join(ws: seq<string>): string {
    if ws == [] then []
    else if |ws| == 1 then ws[0]
    else ws[0] + [' '] + Join(ws[1..])
  }

  // ---------------------------------------------------------------------------
  // Properties of the output

  /** No whitespace at either end, no two spaces in a row, only word characters and `' '`. */
  ghost predicate IsNormalizedText(s: string) {
    (forall i :: 0 <= i < |s| ==> IsWord(s[i]) || s[i] == ' ')
    && (s != [] ==> s[0] != ' ' && s[|s| - 1] != ' ')
    && (forall i, j {:trigger s[i], s[j]} :: 0 <= i && j == i + 1 && j < |s| ==> s[i] != ' ' || s[j] != ' ')
  }

  /** The word characters of `s`, in order. */
  function WordChars(s: string): string {
    Filter(s, IsWord)
  }

  /** The non-whitespace characters of `s`, in order. */
  function NonSpaceChars(s: string): string {
    Filter(s, IsNotSpace)
  }

  // ---------------------------------------------------------------------------
  // Uniqueness of the trims and of the leading word

  lemma TrimStartIs(s: string, m: nat)
    requires m <= |s|
    requires forall i :: 0 <= i < m ==> IsSpace(s[i])
    requires m == |s| || !IsSpace(s[m])
    ensures TrimStart(s) == s[m..]
  {
  }

  lemma TrimEndIs(s: string, m: nat)
    requires m <= |s|
    requires forall i :: m <= i < |s| ==> IsSpace(s[i])
    requires m == 0 || !IsSpace(s[m - 1])
    ensures TrimEnd(s) == s[..m]
  {
  }

  lemma LeadingWordIs(s: string, m: nat)
    requires m <= |s|
    requires forall i :: 0 <= i < m ==> !IsSpace(s[i])
    requires m == |s| || IsSpace(s[m])
    ensures LeadingWord(s) == s[..m]
  {
  }

  // ---------------------------------------------------------------------------
  // Collapse-then-strip equals split-then-join

  /** A non-empty string that starts with a non-space character collapses to one with the same start. */
  lemma CollapseHead(v: string)
    requires v != [] && !IsSpace(v[0])
    ensures CollapseWhitespace(v) != [] && CollapseWhitespace(v)[0] == v[0]
  {
  }

  /** Leading whitespace makes no difference once the result is stripped. */
  lemma {:induction false} LeadingSpaceIrrelevant(t: string)
    ensures Strip(CollapseWhitespace(t)) == Strip(CollapseWhitespace(TrimStart(t)))
  {
    if t != [] && IsSpace(t[0]) {
      var v := TrimStart(t);
      assert v == TrimStart(t[1..]);
      var c := CollapseWhitespace(v);
      assert CollapseWhitespace(t) == [' '] + c;
      if v != [] {
        CollapseHead(v);
      }
      assert ([' '] + c)[1..] == c;
      assert TrimStart([' '] + c) == TrimStart(c);
      TrimStartIs(c, 0);
    }
  }

  /** Collapsing passes a leading word through unchanged. */
  lemma {:induction false} CollapseLeadingWord(u: string)
    ensures CollapseWhitespace(u) == LeadingWord(u) + CollapseWhitespace(u[|LeadingWord(u)|..])
  {
    if u != [] && !IsSpace(u[0]) {
      CollapseLeadingWord(u[1..]);
      assert u[1..][|LeadingWord(u[1..])|..] == u[|LeadingWord(u)|..];
    }
  }

  /** A string whose strip is empty is all whitespace. */
  lemma StripEmptyIsAllSpace(c: string)
    requires Strip(c) == []
    ensures forall i :: 0 <= i < |c| ==> IsSpace(c[i])
  {
    var t := TrimStart(c);
    assert forall i :: 0 <= i < |t| ==> IsSpace(t[i]);
    assert |t| == 0;
  }

  /** `Join` on a list that starts with `w`. */
  lemma JoinCons(w: string, ws: seq<string>)
    ensures Join([w] + ws) == if ws == [] then w else w + [' '] + Join(ws)
  {
    assert ([w] + ws)[1..] == ws;
  }

  /** One step of `Split`: the leading word of the trimmed input, then the split of what follows. */
  lemma SplitStep(t: string)
    requires TrimStart(t) != []
    ensures Split(t) == [LeadingWord(TrimStart(t))] + Split(TrimStart(t)[|LeadingWord(TrimStart(t))|..])
  {
  }

  /** A word followed by whitespace only strips to the word. */
  lemma StripWordThenSpaces(w: string, c: string)
    requires IsToken(w)
    requires forall i :: 0 <= i < |c| ==> IsSpace(c[i])
    ensures Strip(w + c) == w
  {
    TrimStartIs(w + c, 0);
    TrimEndIs(w + c, |w|);
    assert (w + c)[..|w|] == w;
  }

  /** A space followed by a string that starts with a non-space strips to that string's trim-end. */
  lemma StripSpaceThenWord(c: string)
    requires c != [] && !IsSpace(c[0])
    ensures Strip([' '] + c) == TrimEnd(c)
  {
    TrimStartIs([' '] + c, 1);
    assert ([' '] + c)[1..] == c;
  }

  /** Appending before a string that starts with a non-space leaves the prefix untouched by `TrimEnd`. */
  lemma TrimEndAppend(p: string, c: string)
    requires c != [] && !IsSpace(c[0])
    ensures TrimEnd(p + c) == p + TrimEnd(c)
  {
    var e := TrimEnd(c);
    assert |e| > 0;
    var s := p + c;
    var m := |p| + |e|;
    forall i | m <= i < |s|
      ensures IsSpace(s[i])
    {
      assert s[i] == c[i - |p|];
    }
    assert s[m - 1] == e[|e| - 1];
    TrimEndIs(s, m);
    assert s[..m] == p + e;
  }

  /** A word, a space and a string that starts with a non-space: only the tail is trimmed. */
  lemma StripWordSpaceWord(w: string, c: string, c': string)
    requires w != [] && !IsSpace(w[0])
    requires c' != [] && !IsSpace(c'[0]) && c == [' '] + c'
    ensures Strip(w + c) == w + [' '] + TrimEnd(c')
  {
    assert w + c == w + [' '] + c';
    TrimStartIs(w + [' '] + c', 0);
    TrimEndAppend(w + [' '], c');
  }

  /** What `CollapseWhitespace` does to the text after a leading word. */
  lemma CollapseAfterWord(rest: string)
    requires rest != [] && IsSpace(rest[0])
    ensures TrimStart(rest) == TrimStart(rest[1..])
    ensures CollapseWhitespace(rest) == [' '] + CollapseWhitespace(TrimStart(rest))
  {
  }

  /** `re.sub(r'\s+', ' ', t).strip() == ' '.join(t.split())` for every string `t`. */
  lemma {:induction false} StripCollapseIsJoinSplit(t: string)
    ensures Strip(CollapseWhitespace(t)) == Join(Split(t))
    decreases |t|
  {
    LeadingSpaceIrrelevant(t);
    var u := TrimStart(t);
    if u != [] {
      var w := LeadingWord(u);
      assert |w| >= 1;
      var rest := u[|w|..];
      assert |rest| < |t|;
      SplitStep(t);
      assert Split(t) == [w] + Split(rest);
      CollapseLeadingWord(u);
      assert CollapseWhitespace(u) == w + CollapseWhitespace(rest);
      JoinCons(w, Split(rest));
      StripCollapseIsJoinSplit(rest);
      var c := CollapseWhitespace(rest);
      if Split(rest) == [] {
        StripEmptyIsAllSpace(c);
        StripWordThenSpaces(w, c);
      } else {
        assert rest != [];
        assert IsSpace(rest[0]);
        CollapseAfterWord(rest);
        var v := TrimStart(rest);
        assert v != [];
        CollapseHead(v);
        var c' := CollapseWhitespace(v);
        assert c == [' '] + c';
        StripSpaceThenWord(c');
        assert Strip(c) == TrimEnd(c');
        StripWordSpaceWord(w, c, c');
      }
    } else {
      assert CollapseWhitespace(u) == [];
      assert Strip([]) == [];
      assert Split(t) == [];
    }
  }

  /** `preprocess_text(text) == ' '.join(re.sub(r'[^\w\s]', '', text).split())`. */
  lemma PreprocessIsJoinOfWords(text: string)
    ensures PreprocessText(text) == Join(Split(RemovePunctuation(text)))
  {
    StripCollapseIsJoinSplit(RemovePunctuation(text));
  }


  // ---------------------------------------------------------------------------
  // Word characters are kept, in order

  /** One step of a filter: the verdict on the head, then the filter of the tail. */
  lemma FilterStep(s: string, keep: char -> bool)
    requires s != []
    ensures Filter(s, keep) == (if keep(s[0]) then [s[0]] else []) + Filter(s[1..], keep)
  {
  }

  lemma {:induction false} NonSpaceOfRemovePunctuation(text: string)
    ensures NonSpaceChars(RemovePunctuation(text)) == WordChars(text)
  {
    if text != [] {
      var c, rest := text[0], text[1..];
      FilterStep(text, IsWordOrSpace);
      FilterStep(text, IsWord);
      var head := if IsWordOrSpace(c) then [c] else [];
      FilterAppend(head, RemovePunctuation(rest), IsNotSpace);
      if IsWordOrSpace(c) {
        FilterSingleton(c, IsNotSpace);
      }
      NonSpaceOfRemovePunctuation(rest);
    }
  }

  /** Leading whitespace has no non-space characters. */
  lemma NonSpaceOfTrimStart(t: string)
    ensures NonSpaceChars(TrimStart(t)) == NonSpaceChars(t)
  {
    var u := TrimStart(t);
    var k := |t| - |u|;
    assert t == t[..k] + u;
    FilterAppend(t[..k], u, IsNotSpace);
    FilterKeepsNone(t[..k], IsNotSpace);
  }

  /** The non-space characters of a string that starts with a word: the word, then the rest's. */
  lemma NonSpaceOfLeadingWord(u: string)
    ensures NonSpaceChars(u) == LeadingWord(u) + NonSpaceChars(u[|LeadingWord(u)|..])
  {
    var w := LeadingWord(u);
    assert u == w + u[|w|..];
    FilterAppend(w, u[|w|..], IsNotSpace);
    FilterKeepsAll(w, IsNotSpace);
  }

  lemma {:induction false} NonSpaceOfSplit(t: string)
    ensures Flatten(Split(t)) == NonSpaceChars(t)
    decreases |t|
  {
    var u := TrimStart(t);
    NonSpaceOfTrimStart(t);
    if u != [] {
      var w := LeadingWord(u);
      var rest := u[|w|..];
      SplitStep(t);
      NonSpaceOfLeadingWord(u);
      NonSpaceOfSplit(rest);
      FlattenCons(w, Split(rest));
    }
  }

  /** The non-space characters of a token, a space and more text. */
  lemma NonSpaceOfTokenSpace(w: string, rest: string)
    requires IsToken(w)
    ensures NonSpaceChars(w + [' '] + rest) == w + NonSpaceChars(rest)
  {
    NonSpaceOfTokenThenSpace(w);
    FilterAppend(w + [' '], rest, IsNotSpace);
  }

  /** A token followed by one space keeps the token and loses the space. */
  lemma NonSpaceOfTokenThenSpace(w: string)
    requires IsToken(w)
    ensures NonSpaceChars(w + [' ']) == w
  {
    FilterKeepsAll(w, IsNotSpace);
    FilterSingleton(' ', IsNotSpace);
    FilterAppend(w, [' '], IsNotSpace);
    assert w + [] == w;
  }

  lemma {:induction false} NonSpaceOfJoin(ws: seq<string>)
    requires forall j :: 0 <= j < |ws| ==> IsToken(ws[j])
    ensures NonSpaceChars(Join(ws)) == Flatten(ws)
  {
    if ws != [] {
      var w, rest := ws[0], ws[1..];
      assert ws == [w] + rest;
      JoinCons(w, rest);
      FlattenCons(w, rest);
      if rest != [] {
        NonSpaceOfJoin(rest);
        NonSpaceOfTokenSpace(w, Join(rest));
      } else {
        FilterKeepsAll(w, IsNotSpace);
        assert Flatten(rest) == [];
      }
    }
  }

  /** The non-space characters of `preprocess_text(text)` are exactly the word characters of
    * `text`, in their original order: only punctuation and whitespace are ever dropped. */
  lemma PreprocessKeepsWordChars(text: string)
    ensures NonSpaceChars(PreprocessText(text)) == WordChars(text)
  {
    var t := RemovePunctuation(text);
    PreprocessIsJoinOfWords(text);
    NonSpaceOfJoin(Split(t));
    NonSpaceOfSplit(t);
    NonSpaceOfRemovePunctuation(text);
  }

  // ---------------------------------------------------------------------------
  // Shape of the output

  /** A token made of word characters only. */
  predicate IsWordToken(w: string) {
    w != [] && forall i :: 0 <= i < |w| ==> IsWord(w[i])
  }

  /** If every character of a concatenation is a word character, so is every character of each part. */
  lemma {:induction false} FlattenWordChars(ws: seq<string>)
    requires forall i :: 0 <= i < |Flatten(ws)| ==> IsWord(Flatten(ws)[i])
    ensures forall j, i :: 0 <= j < |ws| && 0 <= i < |ws[j]| ==> IsWord(ws[j][i])
  {
    if ws != [] {
      var w, rest := ws[0], ws[1..];
      var f := Flatten(rest);
      assert Flatten(ws) == w + f;
      forall i | 0 <= i < |f|
        ensures IsWord(f[i])
      {
        assert f[i] == Flatten(ws)[i + |w|];
      }
      FlattenWordChars(rest);
      forall j, i | 0 <= j < |ws| && 0 <= i < |ws[j]|
        ensures IsWord(ws[j][i])
      {
        if j == 0 {
          assert w[i] == Flatten(ws)[i];
        } else {
          assert ws[j] == rest[j - 1];
        }
      }
    }
  }

  /** The words `str.split()` finds after punctuation removal consist of word characters. */
  lemma SplitWordTokens(text: string)
    ensures forall j :: 0 <= j < |Split(RemovePunctuation(text))| ==> IsWordToken(Split(RemovePunctuation(text))[j])
  {
    var t := RemovePunctuation(text);
    var ws := Split(t);
    NonSpaceOfSplit(t);
    NonSpaceOfRemovePunctuation(text);
    assert Flatten(ws) == WordChars(text);
    FlattenWordChars(ws);
  }

  /** A word token on its own is a normalised text. */
  lemma WordTokenNormalized(w: string)
    requires IsWordToken(w)
    ensures IsNormalizedText(w)
  {
    assert forall i :: 0 <= i < |w| ==> w[i] != ' ';
  }

  /** A word token, a space and a normalised text that starts with a word character. */
  lemma NormalizedConcat(w: string, j: string)
    requires IsWordToken(w)
    requires IsNormalizedText(j) && j != [] && IsWord(j[0])
    ensures IsNormalizedText(w + [' '] + j)
  {
    var s := w + [' '] + j;
    assert forall i :: 0 <= i < |w| ==> s[i] == w[i] && s[i] != ' ';
    assert s[|w|] == ' ';
    assert forall i :: |w| < i < |s| ==> s[i] == j[i - |w| - 1];
  }

  /** Joining word tokens gives a normalised text that starts with the first token's first character. */
  lemma {:induction false} JoinIsNormalized(ws: seq<string>)
    requires forall j :: 0 <= j < |ws| ==> IsWordToken(ws[j])
    ensures IsNormalizedText(Join(ws))
    ensures ws != [] ==> Join(ws) != [] && Join(ws)[0] == ws[0][0]
  {
    if ws != [] {
      var w, rest := ws[0], ws[1..];
      assert ws == [w] + rest;
      JoinCons(w, rest);
      if rest == [] {
        WordTokenNormalized(w);
      } else {
        JoinIsNormalized(rest);
        NormalizedConcat(w, Join(rest));
      }
    }
  }

  /** Every character of `preprocess_text(text)` is a word character or `' '`; the output has no
    * whitespace at either end and no two spaces in a row. */
  lemma PreprocessTextIsNormalized(text: string)
    ensures IsNormalizedText(PreprocessText(text))
  {
    PreprocessIsJoinOfWords(text);
    SplitWordTokens(text);
    JoinIsNormalized(Split(RemovePunctuation(text)));
  }

  // ---------------------------------------------------------------------------
  // Idempotence

  /** `Split` ignores leading whitespace. */
  lemma SplitTrimStart(x: string)
    ensures Split(TrimStart(x)) == Split(x)
  {
    TrimStartIs(TrimStart(x), 0);
  }

  /** A join of tokens starts with the first token's first character. */
  lemma {:induction false} JoinHead(ws: seq<string>)
    requires forall j :: 0 <= j < |ws| ==> IsToken(ws[j])
    ensures ws != [] ==> IsToken(ws[0]) && Join(ws) != [] && Join(ws)[0] == ws[0][0]
  {
    if ws != [] {
      JoinCons(ws[0], ws[1..]);
      assert ws == [ws[0]] + ws[1..];
    }
  }

  /** A token on its own splits to itself. */
  lemma SplitToken(w: string)
    requires IsToken(w)
    ensures Split(w) == [w]
  {
    TrimStartIs(w, 0);
    LeadingWordIs(w, |w|);
    assert w[..|w|] == w;
    SplitStep(w);
    assert w[|w|..] == [];
    assert Split([]) == [];
  }

  /** A string that starts with a whole token: the token, then the split of what follows. */
  lemma SplitAfterToken(s: string, w: string, rest: string)
    requires IsToken(w) && s == w + rest
    requires rest == [] || IsSpace(rest[0])
    ensures Split(s) == [w] + Split(rest)
  {
    assert s[0] == w[0];
    TrimStartIs(s, 0);
    forall i | 0 <= i < |w|
      ensures !IsSpace(s[i])
    {
      assert s[i] == w[i];
    }
    LeadingWordIs(s, |w|);
    assert s[..|w|] == w;
    assert s[|w|..] == rest;
    SplitStep(s);
  }

  /** A single leading space makes no difference to the split. */
  lemma SplitSpaceThen(j: string)
    requires j != [] && !IsSpace(j[0])
    ensures Split([' '] + j) == Split(j)
  {
    TrimStartIs([' '] + j, 1);
    assert ([' '] + j)[1..] == j;
    TrimStartIs(j, 0);
    SplitTrimStart([' '] + j);
  }

  /** A token, a space and a string that starts with a non-space: the token, then the string's split. */
  lemma SplitTokenSpace(w: string, j: string)
    requires IsToken(w)
    requires j != [] && !IsSpace(j[0])
    ensures Split(w + [' '] + j) == [w] + Split(j)
  {
    assert w + [' '] + j == w + ([' '] + j);
    SplitAfterToken(w + [' '] + j, w, [' '] + j);
    SplitSpaceThen(j);
  }

  /** Splitting a join of tokens gives the tokens back. */
  lemma {:induction false} SplitJoin(ws: seq<string>)
    requires forall j :: 0 <= j < |ws| ==> IsToken(ws[j])
    ensures Split(Join(ws)) == ws
  {
    if ws != [] {
      var w, rest := ws[0], ws[1..];
      assert ws == [w] + rest;
      JoinCons(w, rest);
      if rest == [] {
        SplitToken(w);
      } else {
        SplitJoin(rest);
        JoinHead(rest);
        SplitTokenSpace(w, Join(rest));
      }
    }
  }

  /** `preprocess_text(preprocess_text(t)) == preprocess_text(t)`. */
  lemma PreprocessTextIdempotent(text: string)
    ensures PreprocessText(PreprocessText(text)) == PreprocessText(text)
  {
    var ws := Split(RemovePunctuation(text));
    var p := PreprocessText(text);
    PreprocessIsJoinOfWords(text);
    SplitWordTokens(text);
    JoinIsNormalized(ws);
    assert forall i :: 0 <= i < |p| ==> IsWordOrSpace(p[i]);
    FilterKeepsAll(p, IsWordOrSpace);
    PreprocessIsJoinOfWords(p);
    SplitJoin(ws);
  }

  /** The text after the first space of a normalised text is normalised and starts with a word character. */
  lemma NormalizedTail(s: string, k: nat)
    requires IsNormalizedText(s) && k < |s| && s[k] == ' '
    ensures IsNormalizedText(s[k + 1..]) && s[k + 1..] != [] && IsWord(s[k + 1..][0])
  {
    var r := s[k + 1..];
    assert forall i :: 0 <= i < |r| ==> r[i] == s[i + k + 1];
  }

  /** A non-empty normalised text is its leading word, then either nothing or a single space
    * and a shorter normalised text. */
  lemma NormalizedShape(s: string)
    requires IsNormalizedText(s) && s != []
    ensures IsToken(LeadingWord(s))
    ensures var k := |LeadingWord(s)|;
      k == |s| || (s[k] == ' ' && IsNormalizedText(s[k + 1..]) && s[k + 1..] != [] && !IsSpace(s[k + 1]))
  {
    var k := |LeadingWord(s)|;
    if k < |s| {
      SpaceIsNotWord(s[k]);
      NormalizedTail(s, k);
    }
  }

  /** A string that starts with a non-space has a non-empty split. */
  lemma SplitNonEmpty(r: string)
    requires r != [] && !IsSpace(r[0])
    ensures Split(r) != []
  {
    TrimStartIs(r, 0);
    SplitStep(r);
  }

  /** A string around one of its positions. */
  lemma SliceAround(s: string, k: nat)
    requires k < |s|
    ensures s == s[..k] + [s[k]] + s[k + 1..]
  {
  }

  /** A normalised text is the join of its own split. */
  lemma {:induction false} NormalizedJoinSplit(s: string)
    requires IsNormalizedText(s)
    ensures Join(Split(s)) == s
    decreases |s|
  {
    if s != [] {
      NormalizedShape(s);
      var w := LeadingWord(s);
      if |w| == |s| {
        assert s == w;
        SplitToken(w);
        JoinCons(w, []);
      } else {
        var r := s[|w| + 1..];
        SliceAround(s, |w|);
        SplitTokenSpace(w, r);
        SplitNonEmpty(r);
        NormalizedJoinSplit(r);
        JoinCons(w, Split(r));
      }
    }
  }

  /** The texts `preprocess_text` leaves unchanged are exactly the normalised ones, so its outputs
    * are exactly the normalised texts. */
  lemma PreprocessFixpoints(s: string)
    ensures PreprocessText(s) == s <==> IsNormalizedText(s)
  {
    if IsNormalizedText(s) {
      assert forall i :: 0 <= i < |s| ==> IsWordOrSpace(s[i]);
      FilterKeepsAll(s, IsWordOrSpace);
      PreprocessIsJoinOfWords(s);
      NormalizedJoinSplit(s);
    } else {
      PreprocessTextIsNormalized(s);
    }
  }

  // ---------------------------------------------------------------------------
  // A worked example

  /** The seven pieces of the example text, each filtered character by character. */
  lemma RemovePunctuationPiece1(s: string)
    requires s == "Hello, "
    ensures RemovePunctuation(s) == "Hello "
  {
    FilterStep(s, IsWordOrSpace);
    FilterStep(s[1..], IsWordOrSpace);
    FilterStep(s[2..], IsWordOrSpace);
    FilterStep(s[3..], IsWordOrSpace);
    FilterStep(s[4..], IsWordOrSpace);
    FilterStep(s[5..], IsWordOrSpace);
    FilterStep(s[6..], IsWordOrSpace);
  }

  lemma RemovePunctuationPiece2(s: string)
    requires s == "World!"
    ensures RemovePunctuation(s) == "World"
  {
    FilterStep(s, IsWordOrSpace);
    FilterStep(s[1..], IsWordOrSpace);
    FilterStep(s[2..], IsWordOrSpace);
    FilterStep(s[3..], IsWordOrSpace);
    FilterStep(s[4..], IsWordOrSpace);
    FilterStep(s[5..], IsWordOrSpace);
  }

  lemma RemovePunctuationPiece3(s: string)
    requires s == "   Pr"
    ensures RemovePunctuation(s) == "   Pr"
  {
    FilterStep(s, IsWordOrSpace);
    FilterStep(s[1..], IsWordOrSpace);
    FilterStep(s[2..], IsWordOrSpace);
    FilterStep(s[3..], IsWordOrSpace);
    FilterStep(s[4..], IsWordOrSpace);
  }

  lemma RemovePunctuationPiece4(s: string)
    requires s == "ice:"
    ensures RemovePunctuation(s) == "ice"
  {
    FilterStep(s, IsWordOrSpace);
    FilterStep(s[1..], IsWordOrSpace);
    FilterStep(s[2..], IsWordOrSpace);
    FilterStep(s[3..], IsWordOrSpace);
  }

  lemma RemovePunctuationPiece5(s: string)
    requires s == " $5"
    ensures RemovePunctuation(s) == " 5"
  {
    FilterStep(s, IsWordOrSpace);
    FilterStep(s[1..], IsWordOrSpace);
    FilterStep(s[2..], IsWordOrSpace);
  }

  lemma RemovePunctuationPiece6(s: string)
    requires s == ".9"
    ensures RemovePunctuation(s) == "9"
  {
    FilterStep(s, IsWordOrSpace);
    FilterStep(s[1..], IsWordOrSpace);
  }

  lemma RemovePunctuationPiece7(s: string)
    requires s == "9"
    ensures RemovePunctuation(s) == "9"
  {
    FilterStep(s, IsWordOrSpace);
  }

  /** Filtering three pieces filters each. */
  lemma FilterOfThree(a: string, b: string, c: string, keep: char -> bool)
    ensures Filter(a + b + c, keep) == Filter(a, keep) + Filter(b, keep) + Filter(c, keep)
  {
    FilterAppend(a + b, c, keep);
    FilterAppend(a, b, keep);
  }

  /** The first three pieces of the example text, filtered piece by piece. */
  lemma RemovePunctuationFirstHalf(a: string, b: string, c: string)
    requires a == "Hello, " && b == "World!" && c == "   Pr"
    ensures RemovePunctuation(a + b + c) == "Hello World   Pr"
  {
    FilterOfThree(a, b, c, IsWordOrSpace);
    RemovePunctuationPiece1(a);
    RemovePunctuationPiece2(b);
    RemovePunctuationPiece3(c);
  }

  /** The last four pieces of the example text, filtered piece by piece. */
  lemma RemovePunctuationSecondHalf(d: string, e: string, f: string, g: string)
    requires d == "ice:" && e == " $5" && f == ".9" && g == "9"
    ensures RemovePunctuation(d + e + (f + g)) == "ice 599"
  {
    FilterOfThree(d, e, f + g, IsWordOrSpace);
    FilterAppend(f, g, IsWordOrSpace);
    RemovePunctuationPiece4(d);
    RemovePunctuationPiece5(e);
    RemovePunctuationPiece6(f);
    RemovePunctuationPiece7(g);
  }

  /** The example text, filtered half by half. */
  lemma RemovePunctuationOfPieces(a: string, b: string, c: string, d: string, e: string, f: string, g: string)
    requires a == "Hello, " && b == "World!" && c == "   Pr"
    requires d == "ice:" && e == " $5" && f == ".9" && g == "9"
    ensures RemovePunctuation(a + b + c + (d + e + (f + g))) == "Hello World   Price 599"
  {
    FilterAppend(a + b + c, d + e + (f + g), IsWordOrSpace);
    RemovePunctuationFirstHalf(a, b, c);
    RemovePunctuationSecondHalf(d, e, f, g);
  }

  /** `re.sub(r'[^\w\s]', '', "Hello, World!   Price: $5.99")` is `"Hello World   Price 599"`. */
  lemma RemovePunctuationExample(t: string)
    requires t == "Hello, World!   Price: $5.99"
    ensures RemovePunctuation(t) == "Hello World   Price 599"
  {
    ExampleTextPieces(t);
    RemovePunctuationOfPieces("Hello, ", "World!", "   Pr", "ice:", " $5", ".9", "9");
  }

  /** The example text cut into the seven pieces filtered above. */
  lemma ExampleTextPieces(t: string)
    requires t == "Hello, World!   Price: $5.99"
    ensures t == "Hello, " + "World!" + "   Pr" + ("ice:" + " $5" + (".9" + "9"))
  {
  }

  /** Collapsing passes a run of non-space characters through unchanged. */
  lemma {:induction false} CollapseToken(w: string, rest: string)
    requires forall i :: 0 <= i < |w| ==> !IsSpace(w[i])
    ensures CollapseWhitespace(w + rest) == w + CollapseWhitespace(rest)
  {
    if w != [] {
      assert (w + rest)[0] == w[0];
      assert (w + rest)[1..] == w[1..] + rest;
      CollapseToken(w[1..], rest);
    } else {
      assert w + rest == rest;
    }
  }

  /** Collapsing turns a whole run of whitespace into one space. */
  lemma CollapseSpaces(sp: string, rest: string)
    requires sp != [] && forall i :: 0 <= i < |sp| ==> IsSpace(sp[i])
    requires rest == [] || !IsSpace(rest[0])
    ensures CollapseWhitespace(sp + rest) == [' '] + CollapseWhitespace(rest)
  {
    var s := sp + rest;
    assert s[1..][|sp| - 1..] == rest;
    TrimStartIs(s[1..], |sp| - 1);
  }

  /** A word followed by a run of whitespace collapses to the word and one space. */
  lemma CollapseWordGap(w: string, sp: string, rest: string)
    requires forall i :: 0 <= i < |w| ==> !IsSpace(w[i])
    requires sp != [] && forall i :: 0 <= i < |sp| ==> IsSpace(sp[i])
    requires rest == [] || !IsSpace(rest[0])
    ensures CollapseWhitespace(w + (sp + rest)) == w + ([' '] + CollapseWhitespace(rest))
  {
    CollapseToken(w, sp + rest);
    CollapseSpaces(sp, rest);
  }

  /** Four words separated by whitespace runs collapse to the words separated by single spaces. */
  lemma CollapseFourWords(w1: string, w2: string, w3: string, w4: string, g1: string, g2: string, g3: string)
    requires IsToken(w1) && IsToken(w2) && IsToken(w3) && IsToken(w4)
    requires IsGap(g1) && IsGap(g2) && IsGap(g3)
    ensures CollapseWhitespace(w1 + (g1 + (w2 + (g2 + (w3 + (g3 + w4))))))
         == w1 + ([' '] + (w2 + ([' '] + (w3 + ([' '] + w4)))))
  {
    CollapseToken(w4, []);
    assert w4 + [] == w4;
    CollapseWordGap(w3, g3, w4);
    CollapseWordGap(w2, g2, w3 + (g3 + w4));
    CollapseWordGap(w1, g1, w2 + (g2 + (w3 + (g3 + w4))));
  }

  /** A non-empty run of whitespace. */
  predicate IsGap(g: string) {
    g != [] && forall i :: 0 <= i < |g| ==> IsSpace(g[i])
  }

  /** The filtered example text, collapsed word by word. */
  lemma CollapseOfPieces(r: string, w1: string, w2: string, w3: string, w4: string, g1: string, g2: string, g3: string)
    requires w1 == "Hello" && w2 == "World" && w3 == "Price" && w4 == "599"
    requires g1 == " " && g2 == "   " && g3 == " "
    requires r == w1 + (g1 + (w2 + (g2 + (w3 + (g3 + w4)))))
    ensures CollapseWhitespace(r) == "Hello World Price 599"
  {
    CollapseFourWords(w1, w2, w3, w4, g1, g2, g3);
  }

  /** `re.sub(r'\s+', ' ', "Hello World   Price 599")` is `"Hello World Price 599"`. */
  lemma CollapseExample(r: string)
    requires r == "Hello World   Price 599"
    ensures CollapseWhitespace(r) == "Hello World Price 599"
  {
    CollapseOfPieces(r, "Hello", "World", "Price", "599", " ", "   ", " ");
  }

  /** `preprocess_text("Hello, World!   Price: $5.99") == "Hello World Price 599"`. */
  lemma PreprocessExample(t: string)
    requires t == "Hello, World!   Price: $5.99"
    ensures PreprocessText(t) == "Hello World Price 599"
  {
    RemovePunctuationExample(t);
    CollapseExample(RemovePunctuation(t));
    var c := CollapseWhitespace(RemovePunctuation(t));
    TrimStartIs(c, 0);
    TrimEndIs(c, |c|);
  }
}
