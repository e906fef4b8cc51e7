/** The application's records: vocabulary entries, learning progress and
    settings, and the payload that export files and the synced snapshot
    carry. */
module Domain {
  import opened Wrappers

  datatype WordType = WordEntry | SentenceEntry

  /** A vocabulary entry. Numbers are JavaScript numbers; `lastModified` is
      set by the word-list updaters and may be absent on imported entries. */
  datatype Word = Word(
    id: string,
    japanese: string,
    romanji: string,
    english: string,
    day: real,
    wordType: WordType,
    mastered: bool,
    needsReview: bool,
    reviewCount: real,
    correctCount: real,
    incorrectCount: real,
    lastReviewed: string,
    createdAt: string,
    lastModified: Option<int>)

  /** A correct/incorrect tally of one study mode. */
  datatype Score = Score(correct: int, incorrect: int)

  /** One property of the `sessionScore` object, in insertion order. */
  datatype ScoreEntry = ScoreEntry(key: string, score: Score)

  datatype Progress = Progress(
    totalWords: int,
    totalSentences: int,
    masteredWords: int,
    masteredSentences: int,
    wordsNeedingReview: int,
    currentDay: int,
    sessionScore: seq<ScoreEntry>,
    dailyStreak: int,
    lastStudyDate: string,
    totalStudyTime: int)

  datatype Theme = Dark | Light
  datatype ReviewMode = Sequential | RandomOrder | NeedsReviewFirst
  datatype FlashcardDirection = JapaneseToEnglish | EnglishToJapanese | BothDirections

  /** The settings that travel between devices: everything but the theme. */
  datatype SyncedSettings = SyncedSettings(
    reviewMode: ReviewMode,
    flashcardDirection: FlashcardDirection,
    showStudyModeByDefault: bool,
    claudeApiKey: Option<string>,
    lastExportDate: Option<string>,
    dataVersion: string)

  datatype AppSettings = AppSettings(theme: Theme, synced: SyncedSettings)

  /** The `data` part of an export file and of the synced snapshot. */
  datatype Payload = Payload(words: seq<Word>, progress: Progress, settings: SyncedSettings)

  /** `DEFAULT_SETTINGS`. */
  const DefaultSettings := AppSettings(Dark, SyncedSettings(Sequential, JapaneseToEnglish, true, None, None, "1.0"))

  /** `DEFAULT_PROGRESS`, with a score for each of the three study modes;
      `lastStudyDate` was fixed when the module loaded. */
  function DefaultProgress(loadedAt: string): Progress {
    Progress(0, 0, 0, 0, 0, 1,
      [ScoreEntry("alphabetMode", Score(0, 0)),
       ScoreEntry("sentenceMode", Score(0, 0)),
       ScoreEntry("flashcardMode", Score(0, 0))],
      0, loadedAt, 0)
  }

  /** `DEFAULT_PROGRESS` as written: its first score uses the key
      "wordMode", which no study mode reads. */
  function AsWrittenDefaultProgress(loadedAt: string): Progress {
    Progress(0, 0, 0, 0, 0, 1,
      [ScoreEntry("wordMode", Score(0, 0)),
       ScoreEntry("sentenceMode", Score(0, 0)),
       ScoreEntry("flashcardMode", Score(0, 0))],
      0, loadedAt, 0)
  }
}
