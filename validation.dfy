/** Structural validation of untrusted data (`validation.ts`). Date parsing
    is not modelled: `validDate` stands for `isValidDate`, whatever strings
    the platform's `Date` accepts. */
module Validation {
  import opened Wrappers
  import opened Json
  import Text

  predicate NonEmptyString(o: Option<Json>) {
    IsString(o) && |StringOf(o)| > 0
  }

  predicate DateString(o: Option<Json>, validDate: string -> bool) {
    IsString(o) && validDate(StringOf(o))
  }

  /** `validateWord`: a non-null object carrying every field of a word with
      the right type, non-empty texts, a positive day and parseable dates. */
  predicate ValidateWord(v: Json, validDate: string -> bool)
    ensures !IsObject(v) ==> !ValidateWord(v, validDate)
    ensures ValidateWord(v, validDate) ==>
      Field(v, "type") == Some(JStr("word")) || Field(v, "type") == Some(JStr("sentence"))
  {
    && IsObject(v)
    && IsString(Field(v, "id"))
    && NonEmptyString(Field(v, "japanese"))
    && NonEmptyString(Field(v, "romanji"))
    && NonEmptyString(Field(v, "english"))
    && IsNumber(Field(v, "day")) && Field(v, "day").value.n > 0.0
    && (Field(v, "type") == Some(JStr("word")) || Field(v, "type") == Some(JStr("sentence")))
    && IsBoolean(Field(v, "mastered"))
    && IsBoolean(Field(v, "needsReview"))
    && IsNumber(Field(v, "reviewCount"))
    && IsNumber(Field(v, "correctCount"))
    && IsNumber(Field(v, "incorrectCount"))
    && DateString(Field(v, "lastReviewed"), validDate)
    && DateString(Field(v, "createdAt"), validDate)
  }

  /** Non-objects and null are rejected outright. */
  lemma RejectsNonObjects(v: Json, validDate: string -> bool)
    requires !IsObject(v)
    ensures !ValidateWord(v, validDate)
  {
  }

  predicate AllWordsValid(items: seq<Json>, validDate: string -> bool) {
    forall i | 0 <= i < |items| :: ValidateWord(items[i], validDate)
  }

  /** `validateExportData`: version "1.0", a parseable export date, a
      non-null `data` object whose `words` is an array of valid words.
      Progress and settings are not inspected. */
  predicate ValidateExportData(v: Json, validDate: string -> bool)
    ensures ValidateExportData(v, validDate) ==> Field(v, "version") == Some(JStr("1.0"))
    ensures ValidateExportData(v, validDate) ==>
      && Field(v, "data").Some? && Field(Field(v, "data").value, "words").Some?
      && var words := Field(Field(v, "data").value, "words").value;
         words.JArr? && forall i | 0 <= i < |words.items| :: ValidateWord(words.items[i], validDate)
  {
    && IsObject(v)
    && Field(v, "version") == Some(JStr("1.0"))
    && DateString(Field(v, "exportDate"), validDate)
    && Field(v, "data").Some? && IsObject(Field(v, "data").value)
    && Field(Field(v, "data").value, "words").Some?
    && Field(Field(v, "data").value, "words").value.JArr?
    && AllWordsValid(Field(Field(v, "data").value, "words").value.items, validDate)
  }

  /** The verdict does not depend on the `progress` or `settings` entries
      of `data`, nor on whether they are present. */
  lemma ExportValidationIgnores(top: map<string, Json>, data: map<string, Json>,
                                key: string, x: Json, validDate: string -> bool)
    requires key == "progress" || key == "settings"
    ensures ValidateExportData(JObj(top["data" := JObj(data[key := x])]), validDate)
        == ValidateExportData(JObj(top["data" := JObj(data)]), validDate)
    ensures ValidateExportData(JObj(top["data" := JObj(data - {key})]), validDate)
        == ValidateExportData(JObj(top["data" := JObj(data)]), validDate)
  {
    assert key != "words";
    assert Field(JObj(data[key := x]), "words") == Field(JObj(data), "words");
    assert Field(JObj(data - {key}), "words") == Field(JObj(data), "words");
  }

  /** `sanitizeInput`: surrounding whitespace removed. */
  function SanitizeInput(input: string): (r: string)
    ensures Text.TrimmedFrom(input, r)
    ensures r == [] || (!Text.IsWhitespace(r[0]) && !Text.IsWhitespace(r[|r| - 1]))
    ensures Text.Trim(r) == r
  {
    Text.TrimIdempotent(input);
    Text.Trim(input)
  }

  /** `validateDayNumber`: an integral number strictly between 0 and 1000. */
  function ValidateDayNumber(day: real): (ok: bool)
    ensures ok <==> day == day.Floor as real && 1 <= day.Floor <= 999
  {
    day.Floor as real == day && day > 0.0 && day < 1000.0
  }
}
