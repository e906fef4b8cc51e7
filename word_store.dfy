/** The word list and its updaters and queries (`WordContext.tsx`). Every
    updater maps the previous list to a new one; persisting it to storage and
    the sync trigger that follows are not part of this module. Fresh ids
    (`nanoid`) and clock readings are parameters. */
module WordStore {
  import opened Wrappers
  import opened Json
  import opened Domain
  import opened Seqs
  import opened Validation
  import opened Serialise
  import ImportExport

  /** A word as the editing forms submit it: everything but the id and the
      two timestamps. */
  datatype WordDraft = WordDraft(
    japanese: string,
    romanji: string,
    english: string,
    day: real,
    wordType: WordType,
    mastered: bool,
    needsReview: bool,
    reviewCount: real,
    correctCount: real,
    incorrectCount: real,
    lastReviewed: string)

  /** `Partial<Word>`: the properties an update overwrites. */
  datatype WordPatch = WordPatch(
    id: Option<string>,
    japanese: Option<string>,
    romanji: Option<string>,
    english: Option<string>,
    day: Option<real>,
    wordType: Option<WordType>,
    mastered: Option<bool>,
    needsReview: Option<bool>,
    reviewCount: Option<real>,
    correctCount: Option<real>,
    incorrectCount: Option<real>,
    lastReviewed: Option<string>,
    createdAt: Option<string>)

  function FromDraft(d: WordDraft, id: string, createdAt: string, now: int): Word {
    Word(id, d.japanese, d.romanji, d.english, d.day, d.wordType, d.mastered, d.needsReview,
         d.reviewCount, d.correctCount, d.incorrectCount, d.lastReviewed, createdAt, Some(now))
  }

  /** Every field the draft supplies reached the entry unchanged. */
  predicate CarriesDraft(w: Word, d: WordDraft) {
    && w.japanese == d.japanese && w.romanji == d.romanji && w.english == d.english
    && w.day == d.day && w.wordType == d.wordType
    && w.mastered == d.mastered && w.needsReview == d.needsReview
    && w.reviewCount == d.reviewCount && w.correctCount == d.correctCount
    && w.incorrectCount == d.incorrectCount && w.lastReviewed == d.lastReviewed
  }

  /** `{ ...word, ...updates, lastModified: now }`. */
  function ApplyPatch(w: Word, p: WordPatch, now: int): Word {
    Word(p.id.GetOr(w.id), p.japanese.GetOr(w.japanese), p.romanji.GetOr(w.romanji),
         p.english.GetOr(w.english), p.day.GetOr(w.day), p.wordType.GetOr(w.wordType),
         p.mastered.GetOr(w.mastered), p.needsReview.GetOr(w.needsReview),
         p.reviewCount.GetOr(w.reviewCount), p.correctCount.GetOr(w.correctCount),
         p.incorrectCount.GetOr(w.incorrectCount), p.lastReviewed.GetOr(w.lastReviewed),
         p.createdAt.GetOr(w.createdAt), Some(now))
  }

  predicate HasId(words: seq<Word>, id: string) {
    exists i | 0 <= i < |words| :: words[i].id == id
  }

  predicate UniqueIds(words: seq<Word>) {
    forall i, j | 0 <= i < j < |words| :: words[i].id != words[j].id
  }

  // The element tests of the filters below, named so that every use
  // denotes the same function.
  function IdIsNot(id: string): Word -> bool { (w: Word) => w.id != id }
  function DayIs(day: real): Word -> bool { (w: Word) => w.day == day }
  function TypeIs(t: WordType): Word -> bool { (w: Word) => w.wordType == t }
  function NeedsReview(): Word -> bool { (w: Word) => w.needsReview }
  function IsMastered(): Word -> bool { (w: Word) => w.mastered }
  function ReviewFlagIs(b: bool): Word -> bool { (w: Word) => w.needsReview == b }
  function MasteredFlagIs(b: bool): Word -> bool { (w: Word) => w.mastered == b }

  /** Initial load: the stored entries that pass `validateWord`, in order. */
  function InitialWords(saved: seq<Json>, validDate: string -> bool): (r: seq<Word>)
    ensures var kept := Filter(saved, (v: Json) => ValidateWord(v, validDate));
      |r| == |kept| && forall i | 0 <= i < |r| :: DecodeWord(kept[i], validDate) == Some(r[i])
    ensures forall w | w in r :: WordValid(w, validDate)
  {
    if saved == [] then []
    else
      match DecodeWord(saved[0], validDate)
      case Some(w) => [w] + InitialWords(saved[1..], validDate)
      case None => InitialWords(saved[1..], validDate)
  }

  /** Persisting a list and loading it again gives back exactly its valid
      entries, in order. */
  lemma {:induction false} ReloadKeepsValidWords(words: seq<Word>, validDate: string -> bool)
    ensures InitialWords(ImportExport.WordsToJson(words), validDate)
         == Filter(words, (w: Word) => WordValid(w, validDate))
  {
    if words != [] {
      var saved := ImportExport.WordsToJson(words);
      assert saved[1..] == ImportExport.WordsToJson(words[1..]);
      WordValidation(words[0], validDate);
      if WordValid(words[0], validDate) {
        WordRoundTrip(words[0], validDate);
      }
      ReloadKeepsValidWords(words[1..], validDate);
    }
  }

  /** `addWord`: one new entry at the end with the fresh id, the creation
      date and `lastModified` set; the earlier entries are untouched. */
  function AddWord(words: seq<Word>, d: WordDraft, id: string, createdAt: string, now: int): (r: seq<Word>)
    ensures |r| == |words| + 1 && r[..|words|] == words
    ensures r[|words|].id == id && r[|words|].createdAt == createdAt
    ensures r[|words|].lastModified == Some(now)
    ensures CarriesDraft(r[|words|], d)
  {
    words + [FromDraft(d, id, createdAt, now)]
  }

  /** With a fresh id, adding keeps ids unique. */
  lemma AddWordKeepsIdsUnique(words: seq<Word>, d: WordDraft, id: string, createdAt: string, now: int)
    requires UniqueIds(words) && !HasId(words, id)
    ensures UniqueIds(AddWord(words, d, id, createdAt, now))
  {
    var r := AddWord(words, d, id, createdAt, now);
    forall i, j | 0 <= i < j < |r| ensures r[i].id != r[j].id {
      if j == |words| {
        assert r[i] == words[i];
      } else {
        assert r[i] == words[i] && r[j] == words[j];
      }
    }
  }

  /** `updateWord`: every entry with the id gets the patch and a new
      `lastModified`; all other entries keep their value and position. */
  function UpdateWord(words: seq<Word>, id: string, p: WordPatch, now: int): (r: seq<Word>)
    ensures |r| == |words|
    ensures forall i | 0 <= i < |words| && words[i].id != id :: r[i] == words[i]
    ensures forall i | 0 <= i < |words| && words[i].id == id :: r[i] == ApplyPatch(words[i], p, now)
  {
    seq(|words|, i requires 0 <= i < |words| =>
      if words[i].id == id then ApplyPatch(words[i], p, now) else words[i])
  }

  /** Updating an id that no entry carries changes nothing. */
  lemma UpdateMissingIsIdentity(words: seq<Word>, id: string, p: WordPatch, now: int)
    requires !HasId(words, id)
    ensures UpdateWord(words, id, p, now) == words
  {
  }

  /** `deleteWord`: exactly the entries with the id go; the rest stay in
      order. */
  function DeleteWord(words: seq<Word>, id: string): (r: seq<Word>)
    ensures !HasId(r, id)
    ensures forall w | w in words && w.id != id :: w in r
    ensures forall w | w in r :: w in words
  {
    var r := Filter(words, IdIsNot(id));
    forall w | w in words && w.id != id ensures w in r {
      FilterKeeps(words, IdIsNot(id), w);
    }
    forall i | 0 <= i < |r| ensures r[i].id != id {
      assert IdIsNot(id)(r[i]);
    }
    r
  }

  /** Deleting after an update of the same id (one that keeps the id) is the
      same as deleting straight away. */
  lemma {:induction false} DeleteAfterUpdate(words: seq<Word>, id: string, p: WordPatch, now: int)
    requires p.id.None?
    ensures DeleteWord(UpdateWord(words, id, p, now), id) == DeleteWord(words, id)
  {
    if words != [] {
      var u := UpdateWord(words, id, p, now);
      assert u[1..] == UpdateWord(words[1..], id, p, now);
      DeleteAfterUpdate(words[1..], id, p, now);
    }
  }

  /** `bulkAddWords`: the new entries follow the old ones in the given
      order, one fresh id each, all sharing one creation date and one
      `lastModified`. */
  function BulkAddWords(words: seq<Word>, drafts: seq<WordDraft>, ids: seq<string>,
                        createdAt: string, now: int): (r: seq<Word>)
    requires |ids| == |drafts|
    ensures |r| == |words| + |drafts| && r[..|words|] == words
    ensures forall i | 0 <= i < |drafts| ::
      && r[|words| + i].id == ids[i]
      && r[|words| + i].createdAt == createdAt
      && r[|words| + i].lastModified == Some(now)
      && CarriesDraft(r[|words| + i], drafts[i])
  {
    words + seq(|drafts|, i requires 0 <= i < |drafts| => FromDraft(drafts[i], ids[i], createdAt, now))
  }

  /** Adding one word in bulk is the same as adding it alone. */
  lemma BulkAddOfOne(words: seq<Word>, d: WordDraft, id: string, createdAt: string, now: int)
    ensures BulkAddWords(words, [d], [id], createdAt, now) == AddWord(words, d, id, createdAt, now)
  {
    assert BulkAddWords(words, [d], [id], createdAt, now)[|words|] == FromDraft(d, id, createdAt, now);
  }

  /** `getWordsByDay` and friends: order-preserving filters that keep
      exactly the matching entries. */
  function GetWordsByDay(words: seq<Word>, day: real): (r: seq<Word>)
    ensures forall w | w in r :: w in words && w.day == day
    ensures forall w | w in words && w.day == day :: w in r
  {
    var r := Filter(words, DayIs(day));
    forall w | w in words && w.day == day ensures w in r {
      FilterKeeps(words, DayIs(day), w);
    }
    r
  }

  function GetWordsByType(words: seq<Word>, t: WordType): (r: seq<Word>)
    ensures forall w | w in r :: w in words && w.wordType == t
    ensures forall w | w in words && w.wordType == t :: w in r
  {
    var r := Filter(words, TypeIs(t));
    forall w | w in words && w.wordType == t ensures w in r {
      FilterKeeps(words, TypeIs(t), w);
    }
    r
  }

  function GetWordsNeedingReview(words: seq<Word>): (r: seq<Word>)
    ensures forall w | w in r :: w in words && w.needsReview
    ensures forall w | w in words && w.needsReview :: w in r
  {
    var r := Filter(words, NeedsReview());
    forall w | w in words && w.needsReview ensures w in r {
      FilterKeeps(words, NeedsReview(), w);
    }
    r
  }

  function GetMasteredWords(words: seq<Word>): (r: seq<Word>)
    ensures forall w | w in r :: w in words && w.mastered
    ensures forall w | w in words && w.mastered :: w in r
  {
    var r := Filter(words, IsMastered());
    forall w | w in words && w.mastered ensures w in r {
      FilterKeeps(words, IsMastered(), w);
    }
    r
  }

  /** The optional filters of `getRandomWords`; `None` is an absent key. */
  datatype WordFilter = WordFilter(
    day: Option<real>, wordType: Option<WordType>, needsReview: Option<bool>, mastered: Option<bool>)

  predicate Matches(w: Word, f: WordFilter) {
    && (f.day.Some? ==> w.day == f.day.value)
    && (f.wordType.Some? ==> w.wordType == f.wordType.value)
    && (f.needsReview.Some? ==> w.needsReview == f.needsReview.value)
    && (f.mastered.Some? ==> w.mastered == f.mastered.value)
  }

  /** The four filters applied one after the other, as the source does. */
  function ApplyFilters(words: seq<Word>, f: WordFilter): seq<Word> {
    var byDay := if f.day.Some? then Filter(words, DayIs(f.day.value)) else words;
    var byType := if f.wordType.Some? then Filter(byDay, TypeIs(f.wordType.value)) else byDay;
    var byReview := if f.needsReview.Some? then Filter(byType, ReviewFlagIs(f.needsReview.value)) else byType;
    if f.mastered.Some? then Filter(byReview, MasteredFlagIs(f.mastered.value)) else byReview
  }

  /** The chained filters keep exactly the entries that satisfy every given
      filter, as a sub-multiset of the list. */
  lemma ApplyFiltersExactly(words: seq<Word>, f: WordFilter)
    ensures forall w | w in ApplyFilters(words, f) :: w in words && Matches(w, f)
    ensures forall w | w in words && Matches(w, f) :: w in ApplyFilters(words, f)
    ensures multiset(ApplyFilters(words, f)) <= multiset(words)
  {
    var byDay := if f.day.Some? then Filter(words, DayIs(f.day.value)) else words;
    var byType := if f.wordType.Some? then Filter(byDay, TypeIs(f.wordType.value)) else byDay;
    var byReview := if f.needsReview.Some? then Filter(byType, ReviewFlagIs(f.needsReview.value)) else byType;
    var r := ApplyFilters(words, f);
    if f.day.Some? { FilterSubMultiset(words, DayIs(f.day.value)); }
    if f.wordType.Some? { FilterSubMultiset(byDay, TypeIs(f.wordType.value)); }
    if f.needsReview.Some? { FilterSubMultiset(byType, ReviewFlagIs(f.needsReview.value)); }
    if f.mastered.Some? { FilterSubMultiset(byReview, MasteredFlagIs(f.mastered.value)); }
    forall w | w in words && Matches(w, f) ensures w in r {
      if f.day.Some? { FilterKeeps(words, DayIs(f.day.value), w); }
      if f.wordType.Some? { FilterKeeps(byDay, TypeIs(f.wordType.value), w); }
      if f.needsReview.Some? { FilterKeeps(byType, ReviewFlagIs(f.needsReview.value), w); }
      if f.mastered.Some? { FilterKeeps(byReview, MasteredFlagIs(f.mastered.value), w); }
    }
  }

  /** `getRandomWords`: the matching entries in a random order (the
      `Math.random` comparator makes the order arbitrary), cut to `count`
      by `slice(0, Math.min(count, length))`. */
  method GetRandomWords(words: seq<Word>, count: int, f: WordFilter) returns (r: seq<Word>)
    ensures |r| == SliceEnd(|ApplyFilters(words, f)|, count)
    ensures forall w | w in r :: w in words && Matches(w, f)
    ensures multiset(r) <= multiset(words)
  {
    var filtered := ApplyFilters(words, f);
    ApplyFiltersExactly(words, f);
    var shuffled :| multiset(shuffled) == multiset(filtered);
    var n := SliceEnd(|shuffled|, if count < |shuffled| then count else |shuffled|);
    r := shuffled[..n];
    assert shuffled == r + shuffled[n..];
    assert multiset(r) <= multiset(shuffled);
    forall w | w in r ensures w in words && Matches(w, f) {
      assert w in multiset(shuffled);
    }
  }

  /** What `localStorage` holds besides the word list. */
  datatype StoredSettings = StoredSettings(theme: Option<Theme>, synced: SyncedSettings, lastModified: Option<int>)
  datatype LocalStore = LocalStore(words: seq<Word>, progress: Option<Progress>, settings: Option<StoredSettings>)

  /** The data of an imported record; progress and settings may be absent
      at run time. */
  datatype ImportPayload = ImportPayload(words: seq<Word>, progress: Option<Progress>, settings: Option<SyncedSettings>)

  /** `currentSettings.theme`, read with `DEFAULT_SETTINGS` as fallback. */
  function CurrentTheme(store: LocalStore): Option<Theme> {
    match store.settings
    case None => Some(DefaultSettings.theme)
    case Some(s) => s.theme
  }

  /** `importData`: the word list is replaced wholesale, progress replaced
      when present, and imported settings stored with the current theme
      (dark when none) and a new `lastModified`. */
  function ImportIntoStore(store: LocalStore, data: ImportPayload, now: int): (r: LocalStore)
    ensures r.words == data.words
    ensures r.progress == if data.progress.Some? then data.progress else store.progress
    ensures data.settings.None? ==> r.settings == store.settings
    ensures data.settings.Some? ==> r.settings == Some(StoredSettings(
      Some(CurrentTheme(store).GetOr(Dark)), data.settings.value, Some(now)))
  {
    LocalStore(
      data.words,
      if data.progress.Some? then data.progress else store.progress,
      if data.settings.Some?
      then Some(StoredSettings(Some(CurrentTheme(store).GetOr(Dark)), data.settings.value, Some(now)))
      else store.settings)
  }

  /** `exportData`: the list with the stored progress and settings (the
      defaults when absent), without the theme. */
  function ExportFromStore(store: LocalStore, exportDate: string, loadedAt: string): (e: ImportExport.ExportFile)
    ensures e.version == "1.0" && e.data.words == store.words
    ensures e.data.progress == store.progress.GetOr(DefaultProgress(loadedAt))
    ensures e.data.settings == match store.settings
      case None => DefaultSettings.synced
      case Some(s) => s.synced
  {
    var settings := match store.settings
      case None => DefaultSettings.synced
      case Some(s) => s.synced;
    ImportExport.ExportFile("1.0", exportDate, Payload(store.words, store.progress.GetOr(DefaultProgress(loadedAt)), settings))
  }

  /** Exporting right after a complete import yields the imported data,
      while the device's theme survives the import. */
  lemma ExportAfterImport(store: LocalStore, words: seq<Word>, p: Progress, s: SyncedSettings,
                          now: int, exportDate: string, loadedAt: string)
    ensures var after := ImportIntoStore(store, ImportPayload(words, Some(p), Some(s)), now);
      && ExportFromStore(after, exportDate, loadedAt).data == Payload(words, p, s)
      && CurrentTheme(after) == Some(CurrentTheme(store).GetOr(Dark))
  {
  }
}
