/** How the typed records look once serialised to JSON, and the typed reading
    of a validated word. `JSON.stringify` followed by `JSON.parse` is taken
    to round-trip, so a serialised record is modelled as its parsed value. */
module Serialise {
  import opened Wrappers
  import opened Json
  import opened Domain
  import opened Validation

  function WordTypeName(t: WordType): string {
    match t
    case WordEntry => "word"
    case SentenceEntry => "sentence"
  }

  function WordToJson(w: Word): Json {
    var fields := map[
      "id" := JStr(w.id),
      "japanese" := JStr(w.japanese),
      "romanji" := JStr(w.romanji),
      "english" := JStr(w.english),
      "day" := JNum(w.day),
      "type" := JStr(WordTypeName(w.wordType)),
      "mastered" := JBool(w.mastered),
      "needsReview" := JBool(w.needsReview),
      "reviewCount" := JNum(w.reviewCount),
      "correctCount" := JNum(w.correctCount),
      "incorrectCount" := JNum(w.incorrectCount),
      "lastReviewed" := JStr(w.lastReviewed),
      "createdAt" := JStr(w.createdAt)];
    match w.lastModified
    case None => JObj(fields)
    case Some(t) => JObj(fields["lastModified" := JNum(t as real)])
  }

  /** What `validateWord` demands, stated on a typed word. */
  predicate WordValid(w: Word, validDate: string -> bool) {
    && |w.japanese| > 0 && |w.romanji| > 0 && |w.english| > 0
    && w.day > 0.0
    && validDate(w.lastReviewed) && validDate(w.createdAt)
  }

  /** The typed word a validated JSON value stands for; `lastModified` is kept
      when it is an integral number. */
  function DecodeWord(v: Json, validDate: string -> bool): (r: Option<Word>)
    ensures r.Some? <==> ValidateWord(v, validDate)
    ensures r.Some? ==> WordValid(r.value, validDate)
  {
    if !ValidateWord(v, validDate) then None
    else
      var lm := Field(v, "lastModified");
      Some(Word(
        StringOf(Field(v, "id")),
        StringOf(Field(v, "japanese")),
        StringOf(Field(v, "romanji")),
        StringOf(Field(v, "english")),
        Field(v, "day").value.n,
        if Field(v, "type") == Some(JStr("word")) then WordEntry else SentenceEntry,
        Field(v, "mastered").value.b,
        Field(v, "needsReview").value.b,
        Field(v, "reviewCount").value.n,
        Field(v, "correctCount").value.n,
        Field(v, "incorrectCount").value.n,
        StringOf(Field(v, "lastReviewed")),
        StringOf(Field(v, "createdAt")),
        if lm.Some? && lm.value.JNum? && lm.value.n.Floor as real == lm.value.n
        then Some(lm.value.n.Floor) else None))
  }

  /** The properties `validateWord` reads, as a serialised word has them
      (stated in four groups to keep each proof small). */
  lemma WordTextFields(w: Word)
    ensures var v := WordToJson(w);
      && Field(v, "id") == Some(JStr(w.id))
      && Field(v, "japanese") == Some(JStr(w.japanese))
      && Field(v, "romanji") == Some(JStr(w.romanji))
      && Field(v, "english") == Some(JStr(w.english))
  {
  }

  lemma WordKindFields(w: Word)
    ensures var v := WordToJson(w);
      && Field(v, "day") == Some(JNum(w.day))
      && Field(v, "type") == Some(JStr(WordTypeName(w.wordType)))
      && Field(v, "mastered") == Some(JBool(w.mastered))
      && Field(v, "needsReview") == Some(JBool(w.needsReview))
  {
  }

  lemma WordCountFields(w: Word)
    ensures var v := WordToJson(w);
      && Field(v, "reviewCount") == Some(JNum(w.reviewCount))
      && Field(v, "correctCount") == Some(JNum(w.correctCount))
      && Field(v, "incorrectCount") == Some(JNum(w.incorrectCount))
  {
  }

  lemma WordDateFields(w: Word)
    ensures var v := WordToJson(w);
      && Field(v, "lastReviewed") == Some(JStr(w.lastReviewed))
      && Field(v, "createdAt") == Some(JStr(w.createdAt))
      && Field(v, "lastModified") == (match w.lastModified
           case None => None
           case Some(t) => Some(JNum(t as real)))
  {
  }

  lemma WordFields(w: Word)
    ensures var v := WordToJson(w);
      && Field(v, "id") == Some(JStr(w.id))
      && Field(v, "japanese") == Some(JStr(w.japanese))
      && Field(v, "romanji") == Some(JStr(w.romanji))
      && Field(v, "english") == Some(JStr(w.english))
      && Field(v, "day") == Some(JNum(w.day))
      && Field(v, "type") == Some(JStr(WordTypeName(w.wordType)))
      && Field(v, "mastered") == Some(JBool(w.mastered))
      && Field(v, "needsReview") == Some(JBool(w.needsReview))
      && Field(v, "reviewCount") == Some(JNum(w.reviewCount))
      && Field(v, "correctCount") == Some(JNum(w.correctCount))
      && Field(v, "incorrectCount") == Some(JNum(w.incorrectCount))
      && Field(v, "lastReviewed") == Some(JStr(w.lastReviewed))
      && Field(v, "createdAt") == Some(JStr(w.createdAt))
      && Field(v, "lastModified") == (match w.lastModified
           case None => None
           case Some(t) => Some(JNum(t as real)))
  {
    WordTextFields(w);
    WordKindFields(w);
    WordCountFields(w);
    WordDateFields(w);
  }

  /** A serialised word passes `validateWord` exactly when its texts are
      non-empty, its day positive and its dates parseable. */
  lemma WordValidation(w: Word, validDate: string -> bool)
    ensures ValidateWord(WordToJson(w), validDate) <==> WordValid(w, validDate)
  {
    WordFields(w);
  }

  /** Reading a valid serialised word back gives the same word. */
  lemma WordRoundTrip(w: Word, validDate: string -> bool)
    requires WordValid(w, validDate)
    ensures DecodeWord(WordToJson(w), validDate) == Some(w)
  {
    WordFields(w);
    WordValidation(w, validDate);
    assert w.wordType == WordEntry <==> WordTypeName(w.wordType) == "word";
  }

  function ScoreToJson(s: Score): Json {
    JObj(map["correct" := JNum(s.correct as real), "incorrect" := JNum(s.incorrect as real)])
  }

  function ScoresToJson(entries: seq<ScoreEntry>): map<string, Json> {
    if entries == [] then map[]
    else ScoresToJson(entries[..|entries| - 1])[entries[|entries| - 1].key := ScoreToJson(entries[|entries| - 1].score)]
  }

  function ProgressToJson(p: Progress): Json {
    JObj(map[
      "totalWords" := JNum(p.totalWords as real),
      "totalSentences" := JNum(p.totalSentences as real),
      "masteredWords" := JNum(p.masteredWords as real),
      "masteredSentences" := JNum(p.masteredSentences as real),
      "wordsNeedingReview" := JNum(p.wordsNeedingReview as real),
      "currentDay" := JNum(p.currentDay as real),
      "sessionScore" := JObj(ScoresToJson(p.sessionScore)),
      "dailyStreak" := JNum(p.dailyStreak as real),
      "lastStudyDate" := JStr(p.lastStudyDate),
      "totalStudyTime" := JNum(p.totalStudyTime as real)])
  }

  function OptionalString(o: Option<string>): Json {
    match o
    case None => JNull
    case Some(s) => JStr(s)
  }

  function SyncedSettingsToJson(s: SyncedSettings): Json {
    JObj(map[
      "reviewMode" := JStr(match s.reviewMode
        case Sequential => "sequential"
        case RandomOrder => "random"
        case NeedsReviewFirst => "needsReviewFirst"),
      "flashcardDirection" := JStr(match s.flashcardDirection
        case JapaneseToEnglish => "japaneseToEnglish"
        case EnglishToJapanese => "englishToJapanese"
        case BothDirections => "both"),
      "showStudyModeByDefault" := JBool(s.showStudyModeByDefault),
      "claudeApiKey" := OptionalString(s.claudeApiKey),
      "lastExportDate" := OptionalString(s.lastExportDate),
      "dataVersion" := JStr(s.dataVersion)])
  }
}
