/** Multiple-choice quiz generation for sentence mode (`quizGenerator.ts`).
    `Math.random()` enters twice: as the given draws `noise` (one per input
    sentence) in the similarity score, and as the unconstrained choice of
    the swap partner in the Fisher-Yates shuffle. */
module QuizGenerator {
  import opened Text
  import opened Seqs
  import opened Domain

  datatype QuizOption = QuizOption(text: string, correct: bool)
  datatype QuizQuestion = QuizQuestion(sentence: Word, options: seq<QuizOption>)

  /** A sentence that may serve as a distractor, with its similarity score. */
  datatype Candidate = Candidate(english: string, score: real)

  // ---------------------------------------------------------------------
  // calculateSimilarityScore
  // ---------------------------------------------------------------------

  /** Length similarity: 30 points within 20% of the correct length, 15
      within 40%. An empty correct answer makes the ratio NaN or Infinity,
      which compares false: no points. */
  function LengthPoints(correctLength: nat, candidateLength: nat): int {
    var diff := if candidateLength >= correctLength then candidateLength - correctLength
                else correctLength - candidateLength;
    if correctLength == 0 then 0
    else if (diff as real) / (correctLength as real) <= 0.2 then 30
    else if (diff as real) / (correctLength as real) <= 0.4 then 15
    else 0
  }

  /** How many of the candidate's lower-cased words (with repetitions)
      occur among the correct answer's lower-cased words. */
  function OverlapCount(correctWords: seq<string>, candidateWords: seq<string>): nat {
    if candidateWords == [] then 0
    else (if candidateWords[0] in correctWords then 1 else 0)
         + OverlapCount(correctWords, candidateWords[1..])
  }

  /** The score without its random part. */
  function DeterministicScore(correct: string, candidate: string): int {
    var correctWords := SplitOnWhitespace(Lower(correct));
    var candidateWords := SplitOnWhitespace(Lower(candidate));
    LengthPoints(|correct|, |candidate|)
    + 10 * OverlapCount(correctWords, candidateWords)
    + (if Lower(SplitOnWhitespace(correct)[0]) == Lower(SplitOnWhitespace(candidate)[0]) then 20 else 0)
  }

  /** `calculateSimilarityScore`, with `draw` the value `Math.random()`
      returned. */
  function SimilarityScore(correct: string, candidate: string, draw: real): real {
    DeterministicScore(correct, candidate) as real + draw * 5.0
  }

  /** The length points follow the 20% and 40% bands. */
  lemma LengthPointsBands(correctLength: nat, candidateLength: nat)
    requires correctLength > 0
    ensures var diff := if candidateLength >= correctLength then candidateLength - correctLength
                        else correctLength - candidateLength;
      && (LengthPoints(correctLength, candidateLength) == 30 <==> 5 * diff <= correctLength)
      && (LengthPoints(correctLength, candidateLength) == 15 <==> correctLength < 5 * diff <= 2 * correctLength)
      && (LengthPoints(correctLength, candidateLength) == 0 <==> 2 * correctLength < 5 * diff)
  {
    var diff := if candidateLength >= correctLength then candidateLength - correctLength
                else correctLength - candidateLength;
    RatioAtMost(diff, correctLength, 1, 5);
    RatioAtMost(diff, correctLength, 2, 5);
  }

  /** `a / b <= p / q` on reals exactly when `q * a <= p * b`. */
  lemma RatioAtMost(a: nat, b: nat, p: nat, q: nat)
    requires b > 0 && q > 0
    ensures (a as real) / (b as real) <= (p as real) / (q as real) <==> q * a <= p * b
  {
    var x := (a as real) / (b as real);
    assert x * (b as real) == a as real;
    var y := (p as real) / (q as real);
    assert y * (q as real) == p as real;
    if x <= y {
      assert x * (b as real) * (q as real) <= y * (b as real) * (q as real);
    } else {
      assert x * (b as real) * (q as real) > y * (b as real) * (q as real);
    }
  }

  /** The deterministic part adds up the three bonuses: at most 30 for
      length, 10 per shared word, 20 for a shared first word; the random
      part adds less than 5. */
  lemma ScoreBounds(correct: string, candidate: string, draw: real)
    requires 0.0 <= draw < 1.0
    ensures var shared := OverlapCount(SplitOnWhitespace(Lower(correct)), SplitOnWhitespace(Lower(candidate)));
      10 * shared <= DeterministicScore(correct, candidate) <= 10 * shared + 50
    ensures DeterministicScore(correct, candidate) as real <= SimilarityScore(correct, candidate, draw)
            < DeterministicScore(correct, candidate) as real + 5.0
  {
  }

  /** A candidate equal to a non-empty correct answer up to letter case
      earns every bonus: full length points, all its words shared, and the
      same first word. */
  lemma SameTextScoresHighest(correct: string, candidate: string)
    requires Lower(correct) == Lower(candidate) && |correct| > 0
    ensures DeterministicScore(correct, candidate) == 50 + 10 * |SplitOnWhitespace(Lower(candidate))|
  {
    var words := SplitOnWhitespace(Lower(candidate));
    OverlapAll(words, words);
    assert |candidate| == |Lower(candidate)| == |correct|;
    assert LengthPoints(|correct|, |candidate|) == 30;
    LowerSplitFirst(correct);
    LowerSplitFirst(candidate);
  }

  /** Every candidate word found among the correct words counts. */
  lemma {:induction false} OverlapAll(correctWords: seq<string>, candidateWords: seq<string>)
    requires forall w | w in candidateWords :: w in correctWords
    ensures OverlapCount(correctWords, candidateWords) == |candidateWords|
  {
    if candidateWords != [] {
      OverlapAll(correctWords, candidateWords[1..]);
    }
  }

  /** Lower-casing ASCII letters does not move word boundaries, so the
      first word of the lower-cased text is the lower-cased first word. */
  lemma {:induction false} LowerSplitFirst(s: string)
    ensures Lower(SplitOnWhitespace(s)[0]) == SplitOnWhitespace(Lower(s))[0]
  {
    if s != [] {
      LowerSplitFirst(s[1..]);
      assert Lower(s)[1..] == Lower(s[1..]);
      assert IsWhitespace(s[0]) <==> IsWhitespace(Lower(s)[0]);
      if |s| > 1 {
        assert IsWhitespace(s[1]) <==> IsWhitespace(Lower(s)[1]);
      }
      var rest := SplitOnWhitespace(s[1..]);
      if !IsWhitespace(s[0]) {
        assert Lower([s[0]] + rest[0]) == [LowerChar(s[0])] + Lower(rest[0]);
      }
    }
  }

  // ---------------------------------------------------------------------
  // Candidates and their ranking
  // ---------------------------------------------------------------------

  /** A sentence other than the target can be a distractor. */
  predicate IsDistractorSource(target: Word, s: Word) {
    s.id != target.id && s.wordType == SentenceEntry
  }

  /** The filter-and-map step: each other sentence with its score, in input
      order; `noise[i]` is the draw made for `all[i]`. */
  function Candidates(target: Word, all: seq<Word>, noise: seq<real>): (r: seq<Candidate>)
    requires |noise| == |all|
    ensures |r| <= |all|
  {
    if all == [] then []
    else
      (if IsDistractorSource(target, all[0])
       then [Candidate(all[0].english, SimilarityScore(target.english, all[0].english, noise[0]))]
       else [])
      + Candidates(target, all[1..], noise[1..])
  }

  /** Exactly the other sentences become candidates, each with its own
      English text. */
  lemma {:induction false} CandidatesFromOtherSentences(target: Word, all: seq<Word>, noise: seq<real>)
    requires |noise| == |all|
    ensures |Candidates(target, all, noise)| == |Filter(all, (s: Word) => IsDistractorSource(target, s))|
    ensures forall c | c in Candidates(target, all, noise) ::
      exists i | 0 <= i < |all| :: IsDistractorSource(target, all[i]) && all[i].english == c.english
  {
    if all != [] {
      CandidatesFromOtherSentences(target, all[1..], noise[1..]);
      forall c | c in Candidates(target, all, noise)
        ensures exists i | 0 <= i < |all| :: IsDistractorSource(target, all[i]) && all[i].english == c.english
      {
        if c in Candidates(target, all[1..], noise[1..]) {
          var i :| 0 <= i < |all[1..]| && IsDistractorSource(target, all[1..][i]) && all[1..][i].english == c.english;
          assert all[i + 1] == all[1..][i];
        } else {
          assert IsDistractorSource(target, all[0]) && all[0].english == c.english;
        }
      }
    }
  }

  /** Highest score first. */
  ghost predicate SortedByScore(s: seq<Candidate>) {
    forall i, j | 0 <= i < j < |s| :: s[i].score >= s[j].score
  }

  /** Insert after every element scoring at least as much, so that equal
      scores keep their order as the stable library sort does. */
  function Insert(c: Candidate, s: seq<Candidate>): (r: seq<Candidate>)
    ensures |r| == |s| + 1
    ensures multiset(r) == multiset(s) + multiset{c}
  {
    if s == [] then [c]
    else if s[0].score >= c.score then
      assert s == [s[0]] + s[1..];
      [s[0]] + Insert(c, s[1..])
    else [c] + s
  }

  lemma {:induction false} InsertSorted(c: Candidate, s: seq<Candidate>)
    requires SortedByScore(s)
    ensures SortedByScore(Insert(c, s))
  {
    if s != [] && s[0].score >= c.score {
      InsertSorted(c, s[1..]);
      var r := Insert(c, s);
      forall j | 0 < j < |r| ensures r[0].score >= r[j].score {
        assert r[j] in multiset(Insert(c, s[1..]));
        assert r[j] in multiset(s[1..]) || r[j] == c;
      }
    }
  }

  /** `.sort((a, b) => b.score - a.score)`. */
  function SortByScore(s: seq<Candidate>): (r: seq<Candidate>)
    ensures multiset(r) == multiset(s)
  {
    if s == [] then []
    else
      assert s == s[..|s| - 1] + [s[|s| - 1]];
      Insert(s[|s| - 1], SortByScore(s[..|s| - 1]))
  }

  lemma {:induction false} SortByScoreSorted(s: seq<Candidate>)
    ensures SortedByScore(SortByScore(s))
  {
    if s != [] {
      SortByScoreSorted(s[..|s| - 1]);
      InsertSorted(s[|s| - 1], SortByScore(s[..|s| - 1]));
    }
  }

  function RankedCandidates(target: Word, all: seq<Word>, noise: seq<real>): seq<Candidate>
    requires |noise| == |all|
  {
    SortByScore(Candidates(target, all, noise))
  }

  /** The ranking is a reordering of the candidates, best score first. */
  lemma RankedCandidatesFacts(target: Word, all: seq<Word>, noise: seq<real>)
    requires |noise| == |all|
    ensures multiset(RankedCandidates(target, all, noise)) == multiset(Candidates(target, all, noise))
    ensures SortedByScore(RankedCandidates(target, all, noise))
  {
    SortByScoreSorted(Candidates(target, all, noise));
  }

  // ---------------------------------------------------------------------
  // generateFallbackDistractor and generateDistractors
  // ---------------------------------------------------------------------

  const FallbackPhrases: seq<string> := [
    "This is a placeholder answer.",
    "Another option to consider.",
    "A different translation entirely.",
    "Not the correct meaning."]

  /** `generateFallbackDistractor`: the phrases in turn. */
  function FallbackDistractor(index: nat): string {
    FallbackPhrases[index % |FallbackPhrases|]
  }

  /** Up to four fallbacks in a row are all different. */
  lemma FallbacksDistinct(i: nat, j: nat)
    requires i < j < i + 4
    ensures FallbackDistractor(i) != FallbackDistractor(j)
    ensures FallbackDistractor(i + 4) == FallbackDistractor(i)
  {
    assert FallbackPhrases[0] != FallbackPhrases[1] && FallbackPhrases[0] != FallbackPhrases[2];
    assert FallbackPhrases[0] != FallbackPhrases[3] && FallbackPhrases[1] != FallbackPhrases[2];
    assert FallbackPhrases[1] != FallbackPhrases[3] && FallbackPhrases[2] != FallbackPhrases[3];
  }

  /** How many real distractors are taken: `Math.min(count, length)`, and
      none when that is negative. */
  function TakeCount(count: int, available: nat): (k: nat)
    ensures k <= available
    ensures count >= 0 ==> k == if count < available then count else available
  {
    if count <= 0 then 0 else if count < available then count else available
  }

  /** Every draw is one `Math.random()` could return. */
  predicate Draws(noise: seq<real>) {
    forall i | 0 <= i < |noise| :: 0.0 <= noise[i] < 1.0
  }

  /** `generateDistractors`: the best-ranked other sentences, then fallback
      phrases until there are `count`. */
  method GenerateDistractors(target: Word, all: seq<Word>, count: int, noise: seq<real>)
    returns (distractors: seq<string>)
    requires |noise| == |all| && Draws(noise)
    ensures var ranked := RankedCandidates(target, all, noise);
      var k := TakeCount(count, |ranked|);
      && |distractors| == (if count > 0 then count else 0)
      && (forall i | 0 <= i < k :: distractors[i] == ranked[i].english)
      && (forall i | k <= i < |distractors| :: distractors[i] == FallbackDistractor(i + 1))
  {
    var candidates := RankedCandidates(target, all, noise);
    var k := TakeCount(count, |candidates|);
    distractors := [];
    var i := 0;
    while i < k
      invariant 0 <= i <= k
      invariant |distractors| == i
      invariant forall n | 0 <= n < i :: distractors[n] == candidates[n].english
    {
      distractors := distractors + [candidates[i].english];
      i := i + 1;
    }
    while |distractors| < count
      invariant |distractors| >= i
      invariant |distractors| <= (if count > i then count else i)
      invariant forall n | 0 <= n < i :: distractors[n] == candidates[n].english
      invariant forall n | i <= n < |distractors| :: distractors[n] == FallbackDistractor(n + 1)
      decreases count - |distractors|
    {
      distractors := distractors + [FallbackDistractor(|distractors| + 1)];
    }
  }

  /** Every real distractor is the English of another sentence, and the
      ones taken score at least as high as every one left out. */
  lemma DistractorsAreBest(target: Word, all: seq<Word>, count: int, noise: seq<real>, i: nat, j: nat)
    requires |noise| == |all|
    requires i < TakeCount(count, |RankedCandidates(target, all, noise)|) <= j < |RankedCandidates(target, all, noise)|
    ensures RankedCandidates(target, all, noise)[i].score >= RankedCandidates(target, all, noise)[j].score
    ensures exists n | 0 <= n < |all| ::
      IsDistractorSource(target, all[n]) && all[n].english == RankedCandidates(target, all, noise)[i].english
  {
    var ranked := RankedCandidates(target, all, noise);
    RankedCandidatesFacts(target, all, noise);
    CandidatesFromOtherSentences(target, all, noise);
    assert ranked[i] in multiset(ranked);
  }

  // ---------------------------------------------------------------------
  // shuffleArray, generateQuizQuestion, getRandomQuizSentences
  // ---------------------------------------------------------------------

  /** `shuffleArray`: Fisher-Yates on a copy; any swap partner `j <= i` may
      be drawn. */
  method ShuffleArray<T>(items: seq<T>) returns (r: seq<T>)
    ensures multiset(r) == multiset(items)
  {
    if |items| == 0 {
      return [];
    }
    var shuffled := new T[|items|](n requires 0 <= n < |items| => items[n]);
    assert shuffled[..] == items;
    var i := shuffled.Length - 1;
    while i > 0
      invariant 0 <= i < shuffled.Length
      invariant multiset(shuffled[..]) == multiset(items)
    {
      var j :| 0 <= j <= i;
      shuffled[i], shuffled[j] := shuffled[j], shuffled[i];
      i := i - 1;
    }
    r := shuffled[..];
  }

  /** Whether `t` is a text a distractor can have. */
  ghost predicate IsDistractorText(target: Word, all: seq<Word>, noise: seq<real>, t: string)
    requires |noise| == |all|
  {
    (exists c | c in RankedCandidates(target, all, noise) :: c.english == t) || t in FallbackPhrases
  }

  /** `generateQuizQuestion`: the correct answer plus `distractorCount`
      distractors, shuffled; exactly one option is correct and it carries
      the target's English. */
  method GenerateQuizQuestion(target: Word, all: seq<Word>, distractorCount: int, noise: seq<real>)
    returns (q: QuizQuestion)
    requires |noise| == |all| && Draws(noise)
    ensures q.sentence == target
    ensures |q.options| == (if distractorCount > 0 then distractorCount else 0) + 1
    ensures multiset(q.options)[QuizOption(target.english, true)] == 1
    ensures forall o | o in q.options && o.correct :: o.text == target.english
    ensures forall o | o in q.options && !o.correct :: IsDistractorText(target, all, noise, o.text)
  {
    var distractors := GenerateDistractors(target, all, distractorCount, noise);
    ghost var ranked := RankedCandidates(target, all, noise);
    ghost var k := TakeCount(distractorCount, |ranked|);
    var wrong := seq(|distractors|, n requires 0 <= n < |distractors| => QuizOption(distractors[n], false));
    var options := [QuizOption(target.english, true)] + wrong;
    forall o | o in wrong ensures !o.correct && IsDistractorText(target, all, noise, o.text) {
      var n :| 0 <= n < |wrong| && wrong[n] == o;
      if n < k {
        assert ranked[n] in ranked;
      } else {
        assert FallbackDistractor(n + 1) in FallbackPhrases;
      }
    }
    assert QuizOption(target.english, true) !in multiset(wrong);
    var shuffled := ShuffleArray(options);
    q := QuizQuestion(target, shuffled);
    forall o | o in q.options ensures o in options {
      assert o in multiset(q.options);
    }
  }

  /** `getRandomQuizSentences`: the first `Math.min(count, length)` of a
      shuffled copy, as `slice` reads that bound. */
  method GetRandomQuizSentences(sentences: seq<Word>, count: int) returns (r: seq<Word>)
    ensures |r| == SliceEnd(|sentences|, if count < |sentences| then count else |sentences|)
    ensures count >= 0 ==> |r| == if count < |sentences| then count else |sentences|
    ensures multiset(r) <= multiset(sentences)
  {
    var shuffled := ShuffleArray(sentences);
    assert |shuffled| == |sentences| by {
      assert |multiset(shuffled)| == |multiset(sentences)|;
    }
    var end := SliceEnd(|shuffled|, if count < |sentences| then count else |sentences|);
    r := shuffled[..end];
    assert shuffled == r + shuffled[end..];
  }
}
