/** The alphabet-mode reveal map (`characterMapping.ts`): one entry per
    Japanese character (a small kana merged into the character before it),
    each with the romanji shown when it is revealed. */
module CharacterMapping {
  import opened Text
  import opened Domain
  import opened Seqs

  datatype CharMap = CharMap(japanese: string, romanji: string, revealed: bool, index: int)

  /** The small kana that form a digraph with the character before them. */
  predicate IsSmallKana(c: char) {
    c == '\U{3083}' || c == '\U{3085}' || c == '\U{3087}'     // ゃ ゅ ょ
    || c == '\U{30E3}' || c == '\U{30E5}' || c == '\U{30E7}'  // ャ ュ ョ
    || c == '\U{3041}' || c == '\U{3043}' || c == '\U{3045}'  // ぁ ぃ ぅ
    || c == '\U{3047}' || c == '\U{3049}'                     // ぇ ぉ
  }

  predicate IsVowel(c: char) {
    c == 'a' || c == 'i' || c == 'u' || c == 'e' || c == 'o'
  }

  predicate IsAsciiLetter(c: char) {
    'a' <= c <= 'z' || 'A' <= c <= 'Z'
  }

  /** `/^(ch|sh|ts|ky|gy|ny|hy|by|py|my|ry)/i` on two lower-cased letters. */
  predicate IsTwoCharPattern(a: char, b: char) {
    (a == 'c' && b == 'h') || (a == 's' && b == 'h') || (a == 't' && b == 's')
    || (b == 'y' && (a == 'k' || a == 'g' || a == 'n' || a == 'h' || a == 'b'
                     || a == 'p' || a == 'm' || a == 'r'))
  }

  /** `extractNextRomanjiPart`: the romanji for the next character, read
      from `start`: a digraph consonant pair (with its vowel when the
      character is a compound), a consonant and vowel, a vowel, `n`, or any
      single character; empty once the romanji is used up. */
  function ExtractNextRomanjiPart(romanji: string, start: nat, isCompound: bool): (part: string)
    ensures part == [] <==> start >= |romanji|
    ensures part != [] ==>
      && 1 <= |part| <= 3 && start + |part| <= |romanji|
      && (part == romanji[start..start + |part|] || (part == "n" && romanji[start] == 'N'))
    ensures |part| == 3 ==> isCompound && IsVowel(LowerChar(part[2]))
  {
    if start >= |romanji| then ""
    else
      var rest := romanji[start..];
      if |rest| >= 2 && IsTwoCharPattern(LowerChar(rest[0]), LowerChar(rest[1])) then
        (if isCompound && |rest| > 2 && IsVowel(LowerChar(rest[2])) then rest[..3] else rest[..2])
      else if |rest| >= 2 && IsAsciiLetter(rest[0]) && IsVowel(LowerChar(rest[1])) then rest[..2]
      else if IsVowel(LowerChar(rest[0])) then rest[..1]
      else if LowerChar(rest[0]) == 'n' then "n"
      else rest[..1]
  }

  /** The Japanese text of a map, entry after entry. */
  function JoinJapanese(m: seq<CharMap>): string {
    if m == [] then "" else JoinJapanese(m[..|m| - 1]) + m[|m| - 1].japanese
  }

  lemma {:induction false} JoinJapaneseAppend(a: seq<CharMap>, b: seq<CharMap>)
    ensures JoinJapanese(a + b) == JoinJapanese(a) + JoinJapanese(b)
  {
    if b == [] {
      assert a + b == a;
    } else {
      assert (a + b)[..|a + b| - 1] == a + b[..|b| - 1];
      assert (a + b)[|a + b| - 1] == b[|b| - 1];
      JoinJapaneseAppend(a, b[..|b| - 1]);
    }
  }

  // ---------------------------------------------------------------------
  // splitRomanjiByCharacter
  // ---------------------------------------------------------------------

  /** The loop state of `splitRomanjiByCharacter`: the entries so far and
      the read position in the romanji. */
  datatype SplitState = SplitState(result: seq<CharMap>, romanjiIndex: nat)

  /** One iteration: a small kana after the first character joins the
      last entry (its text gains the kana, its romanji gains the compound
      part just read); any other character adds a hidden entry numbered by
      its position. */
  function SplitStep(st: SplitState, ch: char, index: nat, romanji: string): SplitState {
    var compound := IsSmallKana(ch) && |st.result| > 0;
    var part := ExtractNextRomanjiPart(romanji, st.romanjiIndex, compound);
    if compound then
      var prev := st.result[|st.result| - 1];
      SplitState(st.result[..|st.result| - 1] + [prev.(japanese := prev.japanese + [ch], romanji := prev.romanji + part)],
                 st.romanjiIndex + |part|)
    else
      SplitState(st.result + [CharMap([ch], part, false, index)], st.romanjiIndex + |part|)
  }

  /** The state after the first `k` characters. */
  function SplitFold(chars: string, romanji: string, k: nat): SplitState
    requires k <= |chars|
  {
    if k == 0 then SplitState([], 0)
    else SplitStep(SplitFold(chars, romanji, k - 1), chars[k - 1], k - 1, romanji)
  }

  function SplitByCharacter(chars: string, romanji: string): seq<CharMap> {
    SplitFold(chars, romanji, |chars|).result
  }

  /** `splitRomanjiByCharacter`: the `forEach` loop over the characters. */
  method SplitRomanjiByCharacter(chars: string, romanji: string) returns (result: seq<CharMap>)
    ensures result == SplitByCharacter(chars, romanji)
  {
    result := [];
    var romanjiIndex: nat := 0;
    var index := 0;
    while index < |chars|
      invariant index <= |chars|
      invariant SplitState(result, romanjiIndex) == SplitFold(chars, romanji, index)
    {
      var ch := chars[index];
      if IsSmallKana(ch) && |result| > 0 {
        var prev := result[|result| - 1];
        var combined := ExtractNextRomanjiPart(romanji, romanjiIndex, true);
        result := result[..|result| - 1] + [prev.(japanese := prev.japanese + [ch], romanji := prev.romanji + combined)];
        romanjiIndex := romanjiIndex + |combined|;
      } else {
        var part := ExtractNextRomanjiPart(romanji, romanjiIndex, false);
        result := result + [CharMap([ch], part, false, index)];
        romanjiIndex := romanjiIndex + |part|;
      }
      index := index + 1;
    }
  }

  /** Entry by entry: each hidden and non-empty, numbered by the position
      of its first character, every later character of it a small kana,
      and only the first entry possibly starting with a small kana. */
  ghost predicate Shaped(r: seq<CharMap>) {
    if r == [] then true
    else
      var p := r[..|r| - 1];
      var e := r[|r| - 1];
      && Shaped(p)
      && !e.revealed && |e.japanese| >= 1
      && e.index == |JoinJapanese(p)|
      && (forall n | 0 < n < |e.japanese| :: IsSmallKana(e.japanese[n]))
      && (p != [] ==> !IsSmallKana(e.japanese[0]))
  }

  /** What the entries built from the first `k` characters look like: they
      are shaped and together spell exactly those characters. */
  ghost predicate SplitShaped(chars: string, k: nat, r: seq<CharMap>)
    requires k <= |chars|
  {
    && (r == [] <==> k == 0)
    && JoinJapanese(r) == chars[..k]
    && Shaped(r)
  }

  /** The shape, entry by entry. */
  lemma ShapedEntries(r: seq<CharMap>)
    requires Shaped(r)
    ensures forall j | 0 <= j < |r| :: !r[j].revealed && |r[j].japanese| >= 1
    ensures forall j | 0 <= j < |r| :: r[j].index == |JoinJapanese(r[..j])|
    ensures forall j, n | 0 <= j < |r| && 0 < n < |r[j].japanese| :: IsSmallKana(r[j].japanese[n])
    ensures forall j | 0 < j < |r| :: !IsSmallKana(r[j].japanese[0])
  {
    forall j | 0 <= j < |r| ensures !r[j].revealed && |r[j].japanese| >= 1 {
      EntryShaped(r, j);
    }
    forall j | 0 <= j < |r| ensures r[j].index == |JoinJapanese(r[..j])| {
      EntryShaped(r, j);
    }
    forall j, n | 0 <= j < |r| && 0 < n < |r[j].japanese| ensures IsSmallKana(r[j].japanese[n]) {
      EntryShaped(r, j);
    }
    forall j | 0 < j < |r| ensures !IsSmallKana(r[j].japanese[0]) {
      EntryShaped(r, j);
    }
  }

  lemma EntryShaped(r: seq<CharMap>, j: nat)
    requires Shaped(r) && j < |r|
    ensures ShapedAt(r, j)
  {
    ShapedPrefix(r, j + 1);
    assert r[..j + 1][..j] == r[..j];
    assert r[..j + 1][j] == r[j];
  }

  /** What `Shaped` says about the entry at `j`. */
  ghost predicate ShapedAt(r: seq<CharMap>, j: nat)
    requires j < |r|
  {
    && !r[j].revealed && |r[j].japanese| >= 1
    && r[j].index == |JoinJapanese(r[..j])|
    && (forall n | 0 < n < |r[j].japanese| :: IsSmallKana(r[j].japanese[n]))
    && (j > 0 ==> !IsSmallKana(r[j].japanese[0]))
  }

  /** Every prefix of a shaped sequence is shaped. */
  lemma {:induction false} ShapedPrefix(r: seq<CharMap>, k: nat)
    requires Shaped(r) && k <= |r|
    ensures Shaped(r[..k])
    decreases |r| - k
  {
    if k < |r| {
      ShapedPrefix(r, k + 1);
      assert r[..k + 1][..k] == r[..k];
    } else {
      assert r[..k] == r;
    }
  }

  lemma {:induction false} SplitFoldShape(chars: string, romanji: string, k: nat)
    requires k <= |chars|
    ensures SplitShaped(chars, k, SplitFold(chars, romanji, k).result)
  {
    if k > 0 {
      SplitFoldShape(chars, romanji, k - 1);
      StepShape(chars, romanji, k, SplitFold(chars, romanji, k - 1));
    } else {
      assert SplitFold(chars, romanji, 0).result == [];
      assert chars[..0] == [];
    }
  }

  lemma StepShape(chars: string, romanji: string, k1: nat, st: SplitState)
    requires 0 < k1 <= |chars|
    requires SplitShaped(chars, k1 - 1, st.result)
    ensures SplitShaped(chars, k1, SplitStep(st, chars[k1 - 1], k1 - 1, romanji).result)
  {
    var r := st.result;
    assert chars[..k1] == chars[..k1 - 1] + [chars[k1 - 1]];
    if IsSmallKana(chars[k1 - 1]) && |r| > 0 {
      var p := r[..|r| - 1];
      var prev := r[|r| - 1];
      var part := ExtractNextRomanjiPart(romanji, st.romanjiIndex, true);
      var e := prev.(japanese := prev.japanese + [chars[k1 - 1]], romanji := prev.romanji + part);
      assert r == p + [prev];
      MergeShape(p, prev, e, chars[k1 - 1]);
    } else {
      var part := ExtractNextRomanjiPart(romanji, st.romanjiIndex, false);
      var e := CharMap([chars[k1 - 1]], part, false, k1 - 1);
      assert (r + [e])[..|r|] == r;
    }
  }

  /** A small kana joins the last entry. */
  lemma MergeShape(p: seq<CharMap>, prev: CharMap, e: CharMap, ch: char)
    requires IsSmallKana(ch) && Shaped(p + [prev])
    requires e.japanese == prev.japanese + [ch] && !e.revealed && e.index == prev.index
    ensures Shaped(p + [e])
    ensures JoinJapanese(p + [e]) == JoinJapanese(p + [prev]) + [ch]
  {
    assert (p + [prev])[..|p|] == p;
    assert (p + [e])[..|p|] == p;
    forall n | 0 < n < |e.japanese| ensures IsSmallKana(e.japanese[n]) {
      if n < |prev.japanese| {
        assert e.japanese[n] == prev.japanese[n];
      }
    }
  }

  // ---------------------------------------------------------------------
  // mapMultipleWords
  // ---------------------------------------------------------------------

  /** The always-revealed entry between two words. */
  const Space := CharMap(" ", " ", true, 0)

  /** `romanjiParts[wordIndex] || ''`. */
  function PartFor(parts: seq<string>, w: nat): string {
    if w < |parts| then parts[w] else ""
  }

  /** The entries of word `w` before renumbering: its characters split
      against the matching romanji part, then a space unless it is the last
      word. */
  function WordEntries(words: seq<string>, parts: seq<string>, w: nat): seq<CharMap>
    requires w < |words|
  {
    SplitByCharacter(words[w], PartFor(parts, w)) + (if w < |words| - 1 then [Space] else [])
  }

  /** The entries of every word before renumbering, word by word. */
  function WordMaps(words: seq<string>, parts: seq<string>): seq<seq<CharMap>> {
    seq(|words|, w requires 0 <= w < |words| => WordEntries(words, parts, w))
  }

  /** The lists of `ms`, one after another. */
  function Flatten(ms: seq<seq<CharMap>>): seq<CharMap> {
    if ms == [] then [] else Flatten(ms[..|ms| - 1]) + ms[|ms| - 1]
  }

  /** The entries of the first `k` words before renumbering. */
  function RawEntries(words: seq<string>, parts: seq<string>, k: nat): seq<CharMap>
    requires k <= |words|
  {
    Flatten(WordMaps(words, parts)[..k])
  }

  lemma RawEntriesNext(words: seq<string>, parts: seq<string>, w: nat)
    requires w < |words|
    ensures RawEntries(words, parts, w + 1) == RawEntries(words, parts, w) + WordEntries(words, parts, w)
  {
    var ms := WordMaps(words, parts);
    assert ms[..w + 1][..w] == ms[..w];
  }

  /** `index: charIndex++` over the whole output. */
  function Renumber(m: seq<CharMap>): (r: seq<CharMap>)
    ensures |r| == |m|
  {
    seq(|m|, i requires 0 <= i < |m| => m[i].(index := i))
  }

  lemma RenumberSnoc(m: seq<CharMap>, e: CharMap)
    ensures Renumber(m + [e]) == Renumber(m) + [e.(index := |m|)]
  {
    assert forall i | 0 <= i < |m| :: (m + [e])[i] == m[i];
  }

  function MultipleWords(parts: seq<string>, fullJapanese: string): seq<CharMap> {
    var words := SplitOnWhitespace(fullJapanese);
    Renumber(RawEntries(words, parts, |words|))
  }

  /** `mapMultipleWords`: split the Japanese at whitespace, map each word
      against the romanji part at the same position, and number every
      entry, spaces included, consecutively. */
  method MapMultipleWords(romanjiParts: seq<string>, fullJapanese: string) returns (result: seq<CharMap>)
    ensures result == MultipleWords(romanjiParts, fullJapanese)
  {
    var words := SplitOnWhitespace(fullJapanese);
    result := [];
    var w := 0;
    while w < |words|
      invariant w <= |words|
      invariant result == Renumber(RawEntries(words, romanjiParts, w))
    {
      result := PushWord(words, romanjiParts, w, result);
      w := w + 1;
    }
  }

  /** One pass of the outer `forEach`: the word's entries, numbered on from
      the entries before them, then the space unless it is the last word. */
  method PushWord(words: seq<string>, romanjiParts: seq<string>, w: nat, result: seq<CharMap>)
    returns (r: seq<CharMap>)
    requires w < |words|
    requires result == Renumber(RawEntries(words, romanjiParts, w))
    ensures r == Renumber(RawEntries(words, romanjiParts, w + 1))
  {
    var wordMap := SplitRomanjiByCharacter(words[w], PartFor(romanjiParts, w));
    r := PushNumbered(result, wordMap, RawEntries(words, romanjiParts, w));
    WordRenumbered(words, romanjiParts, w, r);
    if w < |words| - 1 {
      r := r + [Space.(index := |r|)];
    }
  }

  /** After a word's entries, the separating space takes the next index. */
  lemma WordRenumbered(words: seq<string>, parts: seq<string>, w: nat, result: seq<CharMap>)
    requires w < |words|
    requires result == Renumber(RawEntries(words, parts, w) + SplitByCharacter(words[w], PartFor(parts, w)))
    ensures (if w < |words| - 1 then result + [Space.(index := |result|)] else result)
         == Renumber(RawEntries(words, parts, w + 1))
  {
    var m := RawEntries(words, parts, w) + SplitByCharacter(words[w], PartFor(parts, w));
    RawEntriesNext(words, parts, w);
    assert WordEntries(words, parts, w) == SplitByCharacter(words[w], PartFor(parts, w)) + (if w < |words| - 1 then [Space] else []);
    if w < |words| - 1 {
      RenumberSnoc(m, Space);
      assert RawEntries(words, parts, w + 1) == m + [Space];
    } else {
      assert RawEntries(words, parts, w + 1) == m;
    }
  }

  /** The inner `forEach` of `mapMultipleWords`: push each entry with the
      next free index. */
  method PushNumbered(result: seq<CharMap>, entries: seq<CharMap>, ghost raw: seq<CharMap>)
    returns (r: seq<CharMap>)
    requires result == Renumber(raw)
    ensures r == Renumber(raw + entries)
  {
    r := result;
    var charIndex := |result|;
    var j := 0;
    while j < |entries|
      invariant j <= |entries|
      invariant r == Renumber(raw + entries[..j]) && charIndex == |r|
    {
      RenumberSnoc(raw + entries[..j], entries[j]);
      r := r + [entries[j].(index := charIndex)];
      assert raw + entries[..j + 1] == (raw + entries[..j]) + [entries[j]];
      charIndex := charIndex + 1;
      j := j + 1;
    }
    assert entries[..j] == entries;
  }


  // ---------------------------------------------------------------------
  // Facts about the split and multi-word maps
  // ---------------------------------------------------------------------

  /** Every character of an entry occurs in the text of the whole map. */
  lemma EntryInJoin(m: seq<CharMap>, j: nat)
    requires j < |m|
    ensures forall c | c in m[j].japanese :: c in JoinJapanese(m)
  {
    assert m == m[..j] + [m[j]] + m[j + 1..];
    JoinJapaneseAppend(m[..j] + [m[j]], m[j + 1..]);
    JoinJapaneseAppend(m[..j], [m[j]]);
    assert JoinJapanese([m[j]]) == m[j].japanese by {
      assert [m[j]][..0] == [];
    }
  }

  /** Each entry of a split map is hidden, non-empty and made of the
      characters of its word. */
  lemma SplitEntries(chars: string, romanji: string)
    ensures var r := SplitByCharacter(chars, romanji);
      && JoinJapanese(r) == chars
      && forall j | 0 <= j < |r| ::
           && !r[j].revealed && |r[j].japanese| >= 1
           && forall c | c in r[j].japanese :: c in chars
  {
    var r := SplitByCharacter(chars, romanji);
    SplitFoldShape(chars, romanji, |chars|);
    ShapedEntries(r);
    assert chars[..|chars|] == chars;
    forall j | 0 <= j < |r| ensures forall c | c in r[j].japanese :: c in chars {
      EntryInJoin(r, j);
    }
  }

  lemma {:induction false} JoinJapaneseRenumber(m: seq<CharMap>)
    ensures JoinJapanese(Renumber(m)) == JoinJapanese(m)
  {
    if m != [] {
      var n := |m| - 1;
      assert Renumber(m)[..n] == Renumber(m[..n]);
      JoinJapaneseRenumber(m[..n]);
    }
  }

  /** Exactly the " " entries are revealed, and they show " ". */
  predicate OnlySeparatorsRevealed(m: seq<CharMap>) {
    forall i | 0 <= i < |m| :: SeparatorOk(m[i])
  }

  predicate SeparatorOk(e: CharMap) {
    && (e.revealed <==> e.japanese == " ")
    && (e.revealed ==> e.romanji == " ")
  }

  /** `OnlySeparatorsRevealed`, entry by entry from the end. */
  ghost predicate SeparatorsOnly(m: seq<CharMap>) {
    m == [] || (SeparatorsOnly(m[..|m| - 1]) && SeparatorOk(m[|m| - 1]))
  }

  lemma {:induction false} SeparatorsOnlyAll(m: seq<CharMap>)
    ensures SeparatorsOnly(m) <==> OnlySeparatorsRevealed(m)
  {
    if m != [] {
      var p := m[..|m| - 1];
      SeparatorsOnlyAll(p);
      assert forall i | 0 <= i < |p| :: m[i] == p[i];
    }
  }

  lemma {:induction false} SeparatorsOnlyAppend(a: seq<CharMap>, b: seq<CharMap>)
    requires SeparatorsOnly(a) && SeparatorsOnly(b)
    ensures SeparatorsOnly(a + b)
  {
    if b != [] {
      SeparatorsOnlyAppend(a, b[..|b| - 1]);
      assert (a + b)[..|a + b| - 1] == a + b[..|b| - 1];
    } else {
      assert a + b == a;
    }
  }

  lemma RawEntriesFlags(words: seq<string>, parts: seq<string>, k: nat)
    requires k <= |words|
    requires forall p, c | p in words && c in p :: !IsWhitespace(c)
    ensures SeparatorsOnly(RawEntries(words, parts, k))
  {
    var ms := WordMaps(words, parts)[..k];
    forall i | 0 <= i < |ms| ensures SeparatorsOnly(ms[i]) {
      assert words[i] in words;
      WordEntriesFlags(words, parts, i);
    }
    FlattenSeparators(ms);
  }

  lemma {:induction false} FlattenSeparators(ms: seq<seq<CharMap>>)
    requires forall i | 0 <= i < |ms| :: SeparatorsOnly(ms[i])
    ensures SeparatorsOnly(Flatten(ms))
  {
    if ms != [] {
      var p := ms[..|ms| - 1];
      assert forall i | 0 <= i < |p| :: p[i] == ms[i];
      FlattenSeparators(p);
      SeparatorsOnlyAppend(Flatten(p), ms[|ms| - 1]);
    }
  }

  lemma WordEntriesFlags(words: seq<string>, parts: seq<string>, w: nat)
    requires w < |words| && forall c | c in words[w] :: !IsWhitespace(c)
    ensures SeparatorsOnly(WordEntries(words, parts, w))
  {
    var split := SplitByCharacter(words[w], PartFor(parts, w));
    SplitHidesAll(words[w], PartFor(parts, w));
    SeparatorsOnlyAll(split);
    var tail: seq<CharMap> := if w < |words| - 1 then [Space] else [];
    assert SeparatorsOnly(tail) by {
      if tail != [] {
        assert tail[..0] == [] && tail[0] == Space;
        assert SeparatorOk(Space);
      }
    }
    SeparatorsOnlyAppend(split, tail);
  }

  /** The split of a word without whitespace reveals nothing and holds no " " entry. */
  lemma SplitHidesAll(word: string, part: string)
    requires forall c | c in word :: !IsWhitespace(c)
    ensures OnlySeparatorsRevealed(SplitByCharacter(word, part))
  {
    var r := SplitByCharacter(word, part);
    SplitEntries(word, part);
    forall i | 0 <= i < |r| ensures SeparatorOk(r[i]) {
      assert r[i].japanese[0] in r[i].japanese;
    }
  }

  /** The raw entries of the first `k` words spell those words joined by
      single spaces, followed by one more space while words remain. */
  lemma RawEntriesJoin(words: seq<string>, parts: seq<string>, k: nat)
    requires k <= |words|
    ensures JoinJapanese(RawEntries(words, parts, k))
         == Join(words[..k], " ") + (if 0 < k < |words| then " " else "")
  {
    var ms := WordMaps(words, parts)[..k];
    forall i | 0 <= i < |ms| ensures JoinJapanese(ms[i]) == words[i] + (if i < |words| - 1 then " " else "") {
      WordEntriesJoin(words, parts, i);
    }
    FlattenJoin(ms, words);
  }

  /** Lists that spell the words, each followed by its separator, spell
      the words joined by single spaces when flattened. */
  lemma {:induction false} FlattenJoin(ms: seq<seq<CharMap>>, words: seq<string>)
    requires |ms| <= |words|
    requires forall i | 0 <= i < |ms| :: JoinJapanese(ms[i]) == words[i] + (if i < |words| - 1 then " " else "")
    ensures JoinJapanese(Flatten(ms)) == Join(words[..|ms|], " ") + (if 0 < |ms| < |words| then " " else "")
  {
    var k := |ms|;
    if k > 0 {
      var p := ms[..k - 1];
      assert forall i | 0 <= i < |p| :: p[i] == ms[i];
      FlattenJoin(p, words);
      JoinJapaneseAppend(Flatten(p), ms[k - 1]);
      JoinedWordsNext(words, k);
    }
  }

  /** One more word extends the joined text by that word and, while words
      remain, its separator. */
  lemma JoinedWordsNext(words: seq<string>, k: nat)
    requires 0 < k <= |words|
    ensures Join(words[..k], " ") + (if k < |words| then " " else "")
         == Join(words[..k - 1], " ") + (if 1 < k then " " else "") + words[k - 1] + (if k - 1 < |words| - 1 then " " else "")
  {
    TakeSnoc(words, k - 1);
    if k > 1 {
      JoinSnoc(words[..k - 1], words[k - 1], " ");
    } else {
      assert words[..k] == [words[0]];
    }
  }

  /** The entries of word `w` spell that word, followed by the separator
      unless it is the last word. */
  lemma WordEntriesJoin(words: seq<string>, parts: seq<string>, w: nat)
    requires w < |words|
    ensures JoinJapanese(WordEntries(words, parts, w)) == words[w] + (if w < |words| - 1 then " " else "")
  {
    var split := SplitByCharacter(words[w], PartFor(parts, w));
    var tail: seq<CharMap> := if w < |words| - 1 then [Space] else [];
    SplitEntries(words[w], PartFor(parts, w));
    JoinJapaneseAppend(split, tail);
    assert JoinJapanese(tail) == (if w < |words| - 1 then " " else "") by {
      if tail != [] {
        assert tail[..0] == [];
      }
    }
  }

  /** `mapMultipleWords` numbers its entries 0, 1, 2, ...; exactly the
      inserted spaces are revealed, and together the entries spell the
      words joined by single spaces. */
  lemma MultipleWordsShape(parts: seq<string>, fullJapanese: string)
    ensures var r := MultipleWords(parts, fullJapanese);
      && (forall i | 0 <= i < |r| :: r[i].index == i)
      && OnlySeparatorsRevealed(r)
      && JoinJapanese(r) == Join(SplitOnWhitespace(fullJapanese), " ")
  {
    var words := SplitOnWhitespace(fullJapanese);
    SplitOnWhitespaceParts(fullJapanese);
    RawEntriesFlags(words, parts, |words|);
    SeparatorsOnlyAll(RawEntries(words, parts, |words|));
    RawEntriesJoin(words, parts, |words|);
    JoinJapaneseRenumber(RawEntries(words, parts, |words|));
    assert words[..|words|] == words;
  }

  // ---------------------------------------------------------------------
  // generateCharacterMap and the reveal operations
  // ---------------------------------------------------------------------

  /** `generateCharacterMap`: a romanji without spaces for several
      characters is split character by character; a romanji with spaces is
      mapped word by word; otherwise every character shows the whole
      romanji. */
  function GenerateCharacterMap(word: Word): (r: seq<CharMap>)
    ensures ' ' !in word.romanji && |word.japanese| > 1 ==> r == SplitByCharacter(word.japanese, word.romanji)
    ensures ' ' in word.romanji ==> r == MultipleWords(SplitOnSpace(word.romanji), word.japanese)
    ensures ' ' !in word.romanji && |word.japanese| <= 1 ==>
      && |r| == |word.japanese|
      && forall i | 0 <= i < |r| :: r[i].romanji == word.romanji && !r[i].revealed && r[i].index == i
  {
    SplitOnSpaceMany(word.romanji);
    var chars := word.japanese;
    var parts := SplitOnSpace(word.romanji);
    if |parts| == 1 && |chars| > 1 then SplitByCharacter(chars, word.romanji)
    else if |parts| > 1 then MultipleWords(parts, word.japanese)
    else seq(|chars|, i requires 0 <= i < |chars| => CharMap([chars[i]], word.romanji, false, i))
  }

  /** Entries built from non-empty pieces of text are numbered in
      increasing order when each index is the text length before it. */
  lemma PositionsIncrease(m: seq<CharMap>, i: nat, j: nat)
    requires i < j < |m|
    requires forall k | 0 <= k < |m| :: |m[k].japanese| >= 1
    ensures |JoinJapanese(m[..i])| < |JoinJapanese(m[..j])|
  {
    assert m[..j] == m[..i] + m[i..j];
    JoinJapaneseAppend(m[..i], m[i..j]);
    assert m[i..j][..|m[i..j]| - 1] + [m[j - 1]] == m[i..j];
  }

  /** A fresh map starts hidden apart from word separators, numbers its
      entries in increasing order, and spells the Japanese text: exactly
      when the romanji has no space, or with each whitespace run turned
      into one space when it does. */
  lemma GenerateCharacterMapShape(word: Word)
    ensures var r := GenerateCharacterMap(word);
      && (forall i | 0 <= i < |r| :: r[i].revealed ==> r[i].japanese == " " && r[i].romanji == " ")
      && (forall i, j | 0 <= i < j < |r| :: r[i].index < r[j].index)
      && (' ' !in word.romanji ==> JoinJapanese(r) == word.japanese)
      && (' ' in word.romanji ==> JoinJapanese(r) == Join(SplitOnWhitespace(word.japanese), " "))
  {
    var chars := word.japanese;
    var r := GenerateCharacterMap(word);
    SplitOnSpaceMany(word.romanji);
    if |SplitOnSpace(word.romanji)| == 1 && |chars| > 1 {
      SplitFoldShape(chars, word.romanji, |chars|);
      ShapedEntries(r);
      assert chars[..|chars|] == chars;
      forall i, j | 0 <= i < j < |r| ensures r[i].index < r[j].index {
        PositionsIncrease(r, i, j);
      }
    } else if |SplitOnSpace(word.romanji)| > 1 {
      MultipleWordsShape(SplitOnSpace(word.romanji), word.japanese);
    } else {
      SingleCharacters(chars, word.romanji);
    }
  }

  lemma {:induction false} SingleCharacters(chars: string, romanji: string)
    ensures JoinJapanese(seq(|chars|, i requires 0 <= i < |chars| => CharMap([chars[i]], romanji, false, i))) == chars
  {
    if chars != [] {
      var n := |chars| - 1;
      var m := seq(|chars|, i requires 0 <= i < |chars| => CharMap([chars[i]], romanji, false, i));
      assert m[..n] == seq(n, i requires 0 <= i < n => CharMap([chars[..n][i]], romanji, false, i));
      SingleCharacters(chars[..n], romanji);
      assert chars == chars[..n] + [chars[n]];
    }
  }

  function IsNotSpace(c: CharMap): bool {
    c.japanese != " "
  }

  /** `areAllRevealed`: every entry other than a space is revealed. */
  predicate AreAllRevealed(m: seq<CharMap>)
    ensures m == [] ==> AreAllRevealed(m)
    ensures (forall i | 0 <= i < |m| :: m[i].revealed) ==> AreAllRevealed(m)
  {
    forall c | c in Filter(m, IsNotSpace) :: c.revealed
  }

  /** The filter-then-every reading agrees with checking each position. */
  lemma AreAllRevealedAt(m: seq<CharMap>)
    ensures AreAllRevealed(m) <==> forall i | 0 <= i < |m| && m[i].japanese != " " :: m[i].revealed
  {
    if !AreAllRevealed(m) {
      var c :| c in Filter(m, IsNotSpace) && !c.revealed;
      var i :| 0 <= i < |m| && m[i] == c;
    } else {
      forall i | 0 <= i < |m| && m[i].japanese != " " ensures m[i].revealed {
        FilterKeeps(m, IsNotSpace, m[i]);
      }
    }
  }

  /** `revealCharacter`: the entry at `index` (if any) becomes revealed. */
  function RevealCharacter(m: seq<CharMap>, index: int): (r: seq<CharMap>)
    ensures |r| == |m|
    ensures forall i | 0 <= i < |m| && i != index :: r[i] == m[i]
    ensures 0 <= index < |m| ==> r[index] == m[index].(revealed := true)
  {
    seq(|m|, i requires 0 <= i < |m| => if i == index then m[i].(revealed := true) else m[i])
  }

  /** Revealing is idempotent, and revealing the last hidden entry
      completes the map. */
  lemma RevealCharacterFacts(m: seq<CharMap>, index: int)
    ensures RevealCharacter(RevealCharacter(m, index), index) == RevealCharacter(m, index)
    ensures AreAllRevealed(RevealCharacter(m, index)) <==>
      forall i | 0 <= i < |m| && i != index && m[i].japanese != " " :: m[i].revealed
  {
    AreAllRevealedAt(RevealCharacter(m, index));
  }

  /** `revealAll`: every entry revealed, nothing else changed. */
  function RevealAll(m: seq<CharMap>): (r: seq<CharMap>)
    ensures |r| == |m|
    ensures forall i | 0 <= i < |m| :: r[i] == m[i].(revealed := true)
  {
    seq(|m|, i requires 0 <= i < |m| => m[i].(revealed := true))
  }

  /** After `revealAll` the map counts as fully revealed, whatever single
      reveals came before. */
  lemma RevealAllCompletes(m: seq<CharMap>, index: int)
    ensures AreAllRevealed(RevealAll(m))
    ensures RevealAll(RevealCharacter(m, index)) == RevealAll(m)
  {
    AreAllRevealedAt(RevealAll(m));
  }

  // ---------------------------------------------------------------------
  // The romanji of a merged compound
  // ---------------------------------------------------------------------

  /** The romanji of a map, entry after entry. */
  function JoinRomanji(m: seq<CharMap>): string {
    if m == [] then "" else JoinRomanji(m[..|m| - 1]) + m[|m| - 1].romanji
  }

  /** The loop step as written: merging a small kana replaces the romanji
      of the last entry by the compound part just read. */
  function AsWrittenSplitStep(st: SplitState, ch: char, index: nat, romanji: string): SplitState {
    var compound := IsSmallKana(ch) && |st.result| > 0;
    var part := ExtractNextRomanjiPart(romanji, st.romanjiIndex, compound);
    if compound then
      var prev := st.result[|st.result| - 1];
      SplitState(st.result[..|st.result| - 1] + [prev.(japanese := prev.japanese + [ch], romanji := part)],
                 st.romanjiIndex + |part|)
    else
      SplitState(st.result + [CharMap([ch], part, false, index)], st.romanjiIndex + |part|)
  }

  function AsWrittenSplitFold(chars: string, romanji: string, k: nat): SplitState
    requires k <= |chars|
  {
    if k == 0 then SplitState([], 0)
    else AsWrittenSplitStep(AsWrittenSplitFold(chars, romanji, k - 1), chars[k - 1], k - 1, romanji)
  }

  function AsWrittenSplitByCharacter(chars: string, romanji: string): seq<CharMap> {
    AsWrittenSplitFold(chars, romanji, |chars|).result
  }

  /** As written, merging a small kana replaces the romanji of the entry
      before it with the part read for the kana alone: "きょ" read as "kyo"
      shows only "o", and the "ky" read for "き" is lost. */
  lemma CompoundDropsConsonant()
    ensures AsWrittenSplitByCharacter("\U{304D}\U{3087}", "kyo") == [CharMap("\U{304D}\U{3087}", "o", false, 0)]
    ensures JoinRomanji(AsWrittenSplitByCharacter("\U{304D}\U{3087}", "kyo")) != "kyo"
  {
    var chars, romanji := "\U{304D}\U{3087}", "kyo";
    KyoParts();
    assert AsWrittenSplitFold(chars, romanji, 1) == SplitState([CharMap("\U{304D}", "ky", false, 0)], 2) by {
      assert AsWrittenSplitFold(chars, romanji, 0) == SplitState([], 0);
    }
    assert chars[1] == '\U{3087}' && IsSmallKana(chars[1]);
    assert "\U{304D}" + [chars[1]] == chars;
    assert AsWrittenSplitFold(chars, romanji, 2) == AsWrittenSplitStep(AsWrittenSplitFold(chars, romanji, 1), chars[1], 1, romanji);
    assert AsWrittenSplitFold(chars, romanji, 2) == SplitState([CharMap("\U{304D}\U{3087}", "o", false, 0)], 3);
    var r := [CharMap("\U{304D}\U{3087}", "o", false, 0)];
    assert r[..0] == [];
    assert JoinRomanji(r) == "o";
  }

  /** Reading "kyo": "ky" for the first character, then "o" for a small kana. */
  lemma KyoParts()
    ensures ExtractNextRomanjiPart("kyo", 0, false) == "ky"
    ensures ExtractNextRomanjiPart("kyo", 2, true) == "o"
  {
    assert "kyo"[0..] == "kyo" && "kyo"[..2] == "ky";
    assert "kyo"[2..] == "o" && "o"[..1] == "o";
  }

  lemma LowerAppend(a: string, b: string)
    ensures Lower(a + b) == Lower(a) + Lower(b)
  {
    assert forall i | 0 <= i < |a + b| :: (a + b)[i] == if i < |a| then a[i] else b[i - |a|];
  }

  /** Up to letter case, the part read is the romanji text it consumed. */
  lemma PartMatchesRomanji(romanji: string, start: nat, isCompound: bool)
    requires start <= |romanji|
    ensures var part := ExtractNextRomanjiPart(romanji, start, isCompound);
      Lower(part) == Lower(romanji[start..start + |part|])
  {
    var part := ExtractNextRomanjiPart(romanji, start, isCompound);
    if part == "n" && romanji[start] == 'N' {
      assert romanji[start..start + 1] == "N";
    }
  }

  /** No romanji is lost: up to letter case the
      entries' romanji spells exactly the romanji read so far. */
  lemma {:induction false} SplitKeepsRomanji(chars: string, romanji: string, k: nat)
    requires k <= |chars|
    ensures SplitFold(chars, romanji, k).romanjiIndex <= |romanji|
    ensures var st := SplitFold(chars, romanji, k);
      Lower(JoinRomanji(st.result)) == Lower(romanji[..st.romanjiIndex])
  {
    if k == 0 {
      assert SplitFold(chars, romanji, 0).result == [];
      assert romanji[..0] == [];
    } else {
      SplitKeepsRomanji(chars, romanji, k - 1);
      StepKeepsRomanji(SplitFold(chars, romanji, k - 1), chars[k - 1], k - 1, romanji);
    }
  }

  /** A step adds its romanji part at the end of the map's romanji. */
  lemma StepAppendsPart(st: SplitState, ch: char, index: nat, romanji: string)
    ensures var compound := IsSmallKana(ch) && |st.result| > 0;
      JoinRomanji(SplitStep(st, ch, index, romanji).result)
        == JoinRomanji(st.result) + ExtractNextRomanjiPart(romanji, st.romanjiIndex, compound)
  {
    var r := st.result;
    var next := SplitStep(st, ch, index, romanji);
    if IsSmallKana(ch) && |r| > 0 {
      var n := |r| - 1;
      assert next.result[..n] == r[..n];
      assert JoinRomanji(r) == JoinRomanji(r[..n]) + r[n].romanji;
    } else {
      assert next.result[..|r|] == r;
    }
  }

  /** Either kind of step appends to the spelled romanji exactly the part
      it reads. */
  lemma StepKeepsRomanji(st: SplitState, ch: char, index: nat, romanji: string)
    requires st.romanjiIndex <= |romanji|
    requires Lower(JoinRomanji(st.result)) == Lower(romanji[..st.romanjiIndex])
    ensures SplitStep(st, ch, index, romanji).romanjiIndex <= |romanji|
    ensures var next := SplitStep(st, ch, index, romanji);
      Lower(JoinRomanji(next.result)) == Lower(romanji[..next.romanjiIndex])
  {
    var r, ri := st.result, st.romanjiIndex;
    var compound := IsSmallKana(ch) && |r| > 0;
    var part := ExtractNextRomanjiPart(romanji, ri, compound);
    var next := SplitStep(st, ch, index, romanji);
    assert next.romanjiIndex == ri + |part|;
    StepAppendsPart(st, ch, index, romanji);
    PartMatchesRomanji(romanji, ri, compound);
    assert romanji[..ri + |part|] == romanji[..ri] + romanji[ri..ri + |part|];
    LowerAppend(JoinRomanji(r), part);
    LowerAppend(romanji[..ri], romanji[ri..ri + |part|]);
  }

  /** "きょ" read as "kyo" shows "kyo". */
  lemma CompoundKeepsConsonant()
    ensures SplitByCharacter("\U{304D}\U{3087}", "kyo") == [CharMap("\U{304D}\U{3087}", "kyo", false, 0)]
  {
    var chars, romanji := "\U{304D}\U{3087}", "kyo";
    var s1 := SplitState([CharMap("\U{304D}", "ky", false, 0)], 2);
    var s2 := SplitState([CharMap("\U{304D}\U{3087}", "kyo", false, 0)], 3);
    KyoParts();
    assert SplitFold(chars, romanji, 1) == s1 by {
      assert SplitFold(chars, romanji, 0) == SplitState([], 0);
      assert SplitStep(SplitState([], 0), chars[0], 0, romanji) == s1;
    }
    assert SplitStep(s1, chars[1], 1, romanji) == s2 by {
      assert chars[1] == '\U{3087}' && IsSmallKana(chars[1]);
      assert s1.result[..0] == [];
      assert "\U{304D}" + [chars[1]] == chars;
      assert "ky" + "o" == "kyo";
    }
    assert SplitFold(chars, romanji, 2) == SplitStep(SplitFold(chars, romanji, 1), chars[1], 1, romanji);
  }
}
