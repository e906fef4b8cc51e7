/** Learning progress and its updaters (`ProgressContext.tsx`). Each updater
    returns a new progress record; an updater that would throw returns
    `None`. Clock readings are parameters. */
module ProgressStore {
  import opened Wrappers
  import opened Domain

  datatype Mode = AlphabetMode | SentenceMode | FlashcardMode

  /** `${mode}Mode`: the property of `sessionScore` a mode reads. */
  function ModeKey(m: Mode): string {
    match m
    case AlphabetMode => "alphabetMode"
    case SentenceMode => "sentenceMode"
    case FlashcardMode => "flashcardMode"
  }

  /** `sessionScore[key]`. */
  function Lookup(entries: seq<ScoreEntry>, key: string): Option<Score> {
    if entries == [] then None
    else if entries[0].key == key then Some(entries[0].score)
    else Lookup(entries[1..], key)
  }

  /** `{ ...sessionScore, [key]: s }` for a key that is already present. */
  function Replace(entries: seq<ScoreEntry>, key: string, s: Score): (r: seq<ScoreEntry>)
    ensures |r| == |entries|
  {
    if entries == [] then []
    else if entries[0].key == key then [ScoreEntry(key, s)] + Replace(entries[1..], key, s)
    else [entries[0]] + Replace(entries[1..], key, s)
  }

  lemma {:induction false} LookupReplace(entries: seq<ScoreEntry>, key: string, s: Score, other: string)
    requires Lookup(entries, key).Some?
    ensures Lookup(Replace(entries, key, s), key) == Some(s)
    ensures other != key ==> Lookup(Replace(entries, key, s), other) == Lookup(entries, other)
  {
    if entries[0].key != key {
      LookupReplace(entries[1..], key, s, other);
    } else if other != key && Lookup(entries[1..], key).Some? {
      LookupReplace(entries[1..], key, s, other);
    } else if other != key {
      ReplaceAbsent(entries[1..], key, s);
    }
  }

  lemma {:induction false} ReplaceAbsent(entries: seq<ScoreEntry>, key: string, s: Score)
    requires Lookup(entries, key).None?
    ensures Replace(entries, key, s) == entries
  {
    if entries != [] {
      ReplaceAbsent(entries[1..], key, s);
    }
  }

  /** `incrementScore`: one more correct or incorrect answer in the given
      mode and a new study date. When the score table has no entry for the
      mode, reading its counter throws a TypeError: `None`. */
  function IncrementScore(p: Progress, m: Mode, correct: bool, now: string): (r: Option<Progress>)
    ensures r.None? <==> Lookup(p.sessionScore, ModeKey(m)).None?
    ensures r.Some? ==> var old_ := Lookup(p.sessionScore, ModeKey(m)).value;
      && Lookup(r.value.sessionScore, ModeKey(m)) == Some(
           if correct then Score(old_.correct + 1, old_.incorrect)
           else Score(old_.correct, old_.incorrect + 1))
      && (forall k | k != ModeKey(m) :: Lookup(r.value.sessionScore, k) == Lookup(p.sessionScore, k))
      && r.value.(sessionScore := p.sessionScore, lastStudyDate := p.lastStudyDate) == p
      && r.value.lastStudyDate == now
  {
    match Lookup(p.sessionScore, ModeKey(m))
    case None => None
    case Some(s) =>
      var bumped := if correct then Score(s.correct + 1, s.incorrect) else Score(s.correct, s.incorrect + 1);
      var entries := Replace(p.sessionScore, ModeKey(m), bumped);
      LookupReplaceAll(p.sessionScore, ModeKey(m), bumped);
      Some(p.(sessionScore := entries, lastStudyDate := now))
  }

  lemma LookupReplaceAll(entries: seq<ScoreEntry>, key: string, s: Score)
    requires Lookup(entries, key).Some?
    ensures Lookup(Replace(entries, key, s), key) == Some(s)
    ensures forall k | k != key :: Lookup(Replace(entries, key, s), k) == Lookup(entries, k)
  {
    LookupReplace(entries, key, s, key);
    forall k | k != key ensures Lookup(Replace(entries, key, s), k) == Lookup(entries, k) {
      LookupReplace(entries, key, s, k);
    }
  }

  /** The score table `resetSessionScore` writes. */
  const ZeroScores := [
    ScoreEntry("alphabetMode", Score(0, 0)),
    ScoreEntry("sentenceMode", Score(0, 0)),
    ScoreEntry("flashcardMode", Score(0, 0))]

  /** `resetSessionScore`: every mode's tally back to 0/0, nothing else
      changed. */
  function ResetSessionScore(p: Progress): (r: Progress)
    ensures forall m: Mode :: Lookup(r.sessionScore, ModeKey(m)) == Some(Score(0, 0))
    ensures r.(sessionScore := p.sessionScore) == p
  {
    p.(sessionScore := ZeroScores)
  }

  /** After a session reset, recording an answer in any mode succeeds. */
  lemma IncrementAfterSessionReset(p: Progress, m: Mode, correct: bool, now: string)
    ensures IncrementScore(ResetSessionScore(p), m, correct, now).Some?
  {
    assert Lookup(ResetSessionScore(p).sessionScore, ModeKey(m)).Some?;
  }

  /** `markAsMastered`: one more mastered word, or one fewer but never
      below zero. */
  function MarkAsMastered(p: Progress, mastered: bool): (r: Progress)
    ensures mastered ==> r.masteredWords == p.masteredWords + 1
    ensures !mastered ==> r.masteredWords >= 0
    ensures !mastered && p.masteredWords > 0 ==> r.masteredWords == p.masteredWords - 1
    ensures !mastered && p.masteredWords <= 0 ==> r.masteredWords == 0
    ensures r.(masteredWords := p.masteredWords) == p
  {
    p.(masteredWords := if mastered then p.masteredWords + 1
                        else if p.masteredWords - 1 > 0 then p.masteredWords - 1 else 0)
  }

  /** `markNeedsReview`: the same clamped counter for words to review. */
  function MarkNeedsReview(p: Progress, needs: bool): (r: Progress)
    ensures needs ==> r.wordsNeedingReview == p.wordsNeedingReview + 1
    ensures !needs ==> r.wordsNeedingReview >= 0
    ensures !needs && p.wordsNeedingReview > 0 ==> r.wordsNeedingReview == p.wordsNeedingReview - 1
    ensures !needs && p.wordsNeedingReview <= 0 ==> r.wordsNeedingReview == 0
    ensures r.(wordsNeedingReview := p.wordsNeedingReview) == p
  {
    p.(wordsNeedingReview := if needs then p.wordsNeedingReview + 1
                             else if p.wordsNeedingReview - 1 > 0 then p.wordsNeedingReview - 1 else 0)
  }

  /** Unmarking undoes marking whenever the counter was not negative. */
  lemma MarkThenUnmark(p: Progress)
    requires p.masteredWords >= 0 && p.wordsNeedingReview >= 0
    ensures MarkAsMastered(MarkAsMastered(p, true), false) == p
    ensures MarkNeedsReview(MarkNeedsReview(p, true), false) == p
  {
  }

  /** `Math.round(correct / total * 100)`, with `Math.round` as
      `floor(x + 1/2)`, for a non-zero total. */
  function RoundedPercent(correct: int, total: int): int
    requires total != 0
  {
    if total > 0 then (200 * correct + total) / (2 * total)
    else (-(200 * correct + total)) / (-2 * total)
  }

  /** 0 when nothing was answered, otherwise the rounded percentage. */
  function Accuracy(correct: int, incorrect: int): int {
    var total := correct + incorrect;
    if total == 0 then 0 else RoundedPercent(correct, total)
  }

  function SumCorrect(entries: seq<ScoreEntry>): int {
    if entries == [] then 0 else entries[0].score.correct + SumCorrect(entries[1..])
  }

  function SumIncorrect(entries: seq<ScoreEntry>): int {
    if entries == [] then 0 else entries[0].score.incorrect + SumIncorrect(entries[1..])
  }

  /** `getAccuracyRate`: for one mode, its accuracy (a missing entry makes
      the destructuring throw: `None`); without a mode, the accuracy over
      every entry of the table, whatever its key. */
  function GetAccuracyRate(p: Progress, m: Option<Mode>): (r: Option<int>)
    ensures m.Some? ==> (r.None? <==> Lookup(p.sessionScore, ModeKey(m.value)).None?)
    ensures m.None? ==> r.Some?
  {
    match m
    case Some(mode) =>
      (match Lookup(p.sessionScore, ModeKey(mode))
       case None => None
       case Some(s) => Some(Accuracy(s.correct, s.incorrect)))
    case None => Some(Accuracy(SumCorrect(p.sessionScore), SumIncorrect(p.sessionScore)))
  }

  /** `n / d >= k` exactly when `n >= k * d`, for a positive divisor. */
  lemma DivAtLeast(n: int, d: int, k: int)
    requires d > 0
    ensures n / d >= k <==> n >= k * d
  {
    var q, r := n / d, n % d;
    assert n == q * d + r && 0 <= r < d;
    if q >= k {
      MulNonNeg(q - k, d);
      assert q * d - k * d == (q - k) * d;
    } else {
      MulNonNeg(k - q - 1, d);
      assert k * d - q * d - d == (k - q - 1) * d;
    }
  }

  lemma MulNonNeg(a: int, b: int)
    requires a >= 0 && b >= 0
    ensures a * b >= 0
  {
  }

  /** With non-negative tallies the rate is a percentage; it is 100 exactly
      when the correct answers are at least 99.5% of all (Math.round rounds
      99.5 up) and 0 exactly when they are under 0.5%. */
  lemma AccuracyIsPercentage(correct: int, incorrect: int)
    requires correct >= 0 && incorrect >= 0
    ensures 0 <= Accuracy(correct, incorrect) <= 100
    ensures correct + incorrect > 0 ==>
      (Accuracy(correct, incorrect) == 100 <==> correct >= 199 * incorrect)
    ensures correct + incorrect > 0 ==>
      (Accuracy(correct, incorrect) == 0 <==> 199 * correct < incorrect)
  {
    var total := correct + incorrect;
    if total > 0 {
      var n, d := 200 * correct + total, 2 * total;
      DivAtLeast(n, d, 0);
      DivAtLeast(n, d, 1);
      DivAtLeast(n, d, 100);
      DivAtLeast(n, d, 101);
    }
  }

  /** `updateCurrentDay`: only the current day changes. */
  function UpdateCurrentDay(p: Progress, day: int): (r: Progress)
    ensures r.currentDay == day && r.(currentDay := p.currentDay) == p
  {
    p.(currentDay := day)
  }

  /** `resetAllProgress`: back to the default progress, in which every
      mode has a 0/0 score. */
  function ResetAllProgress(loadedAt: string): (r: Progress)
    ensures r.masteredWords == 0 && r.wordsNeedingReview == 0 && r.currentDay == 1
    ensures r.totalWords == 0 && r.totalSentences == 0 && r.masteredSentences == 0
    ensures r.dailyStreak == 0 && r.totalStudyTime == 0 && r.lastStudyDate == loadedAt
    ensures forall m: Mode :: Lookup(r.sessionScore, ModeKey(m)) == Some(Score(0, 0))
  {
    DefaultProgress(loadedAt)
  }

  /** After a full reset every mode can record answers, and its accuracy
      is 0. */
  lemma IncrementAfterReset(loadedAt: string, m: Mode, correct: bool, now: string)
    ensures IncrementScore(ResetAllProgress(loadedAt), m, correct, now).Some?
    ensures GetAccuracyRate(ResetAllProgress(loadedAt), Some(m)) == Some(0)
  {
    assert Lookup(ResetAllProgress(loadedAt).sessionScore, ModeKey(m)) == Some(Score(0, 0));
  }

  /** `resetAllProgress` with the default as written. */
  function AsWrittenResetAllProgress(loadedAt: string): (r: Progress)
    ensures r.masteredWords == 0 && r.wordsNeedingReview == 0 && r.currentDay == 1
    ensures r.totalWords == 0 && r.totalSentences == 0 && r.masteredSentences == 0
    ensures r.dailyStreak == 0 && r.totalStudyTime == 0 && r.lastStudyDate == loadedAt
    ensures Lookup(r.sessionScore, ModeKey(AlphabetMode)).None?
  {
    AsWrittenDefaultProgress(loadedAt)
  }

  /** As written, the default score table uses the key "wordMode", so after
      a full reset recording an alphabet-mode answer throws, and so does
      asking for the alphabet-mode accuracy. */
  lemma AlphabetScoreLostAfterReset(loadedAt: string, correct: bool, now: string)
    ensures IncrementScore(AsWrittenResetAllProgress(loadedAt), AlphabetMode, correct, now).None?
    ensures GetAccuracyRate(AsWrittenResetAllProgress(loadedAt), Some(AlphabetMode)).None?
  {
  }
}
