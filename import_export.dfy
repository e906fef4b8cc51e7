/** Export files (`importExport.ts`): building the export record and
    checking an import file. `JSON.parse` is not modelled: the caller passes
    what parsing the text produced. */
module ImportExport {
  import opened Wrappers
  import opened Json
  import opened Domain
  import opened Validation
  import opened Serialise

  /** An export file: schema version, export date and the payload. */
  datatype ExportFile = ExportFile(version: string, exportDate: string, data: Payload)

  /** `exportData`: the current schema version, the words and progress as
      they are, and the settings without the device-local theme. The export
      date (`new Date().toISOString()`) is a parameter. */
  function ExportData(words: seq<Word>, progress: Progress, settings: AppSettings,
                      exportDate: string): (e: ExportFile)
    ensures e.version == "1.0" && e.exportDate == exportDate
    ensures e.data.words == words && e.data.progress == progress
    ensures e.data.settings == settings.synced
  {
    ExportFile("1.0", exportDate, Payload(words, progress, settings.synced))
  }

  function WordsToJson(words: seq<Word>): (r: seq<Json>)
    ensures |r| == |words| && forall i | 0 <= i < |words| :: r[i] == WordToJson(words[i])
  {
    seq(|words|, i requires 0 <= i < |words| => WordToJson(words[i]))
  }

  function DataToJson(p: Payload): Json {
    JObj(map[
      "words" := JArr(WordsToJson(p.words)),
      "progress" := ProgressToJson(p.progress),
      "settings" := SyncedSettingsToJson(p.settings)])
  }

  /** The export record as `JSON.stringify` writes it. */
  function ExportToJson(e: ExportFile): Json {
    JObj(map[
      "version" := JStr(e.version),
      "exportDate" := JStr(e.exportDate),
      "data" := DataToJson(e.data)])
  }

  /** What `JSON.parse` did with the import text. */
  datatype ParseOutcome = Parsed(value: Json) | SyntaxError | OtherError

  const InvalidStructure := "Invalid export data structure"
  const InvalidJson := "Invalid JSON format"
  const UnknownParseError := "Unknown error parsing import data"

  /** The message of the version check. Only strings can reach it with a
      version other than "1.0" displayed faithfully; the check is never
      reached anyway (see `VersionCheckUnreachable`). */
  function UnsupportedVersion(version: Option<Json>): string {
    "Unsupported version: "
    + (match version
       case Some(JStr(s)) => s
       case Some(JNull) => "null"
       case Some(JBool(b)) => if b then "true" else "false"
       case None => "undefined"
       case _ => "[value]")
    + ". Expected 1.0"
  }

  /** `importData`: the parsed value when it is a valid export file;
      otherwise a failure with the list of error messages. */
  function ImportData(input: ParseOutcome, validDate: string -> bool): (r: Result<Json, seq<string>>)
    ensures r.Success? ==> input.Parsed? && r.value == input.value
    ensures r.Success? ==> ValidateExportData(r.value, validDate)
    ensures (input.Parsed? && !ValidateExportData(input.value, validDate))
              ==> r == Failure([InvalidStructure])
    ensures input.SyntaxError? ==> r == Failure([InvalidJson])
    ensures input.OtherError? ==> r == Failure([UnknownParseError])
  {
    match input
    case SyntaxError => Failure([InvalidJson])
    case OtherError => Failure([UnknownParseError])
    case Parsed(v) =>
      if !ValidateExportData(v, validDate) then Failure([InvalidStructure])
      else if Field(v, "version") != Some(JStr("1.0")) then Failure([UnsupportedVersion(Field(v, "version"))])
      else Success(v)
  }

  /** Validation already demands version "1.0", so `importData` never reports
      an unsupported version: every failure is exactly one of the three
      other messages, and every valid parse succeeds. */
  lemma VersionCheckUnreachable(input: ParseOutcome, validDate: string -> bool)
    ensures var r := ImportData(input, validDate);
      && (r.Failure? ==> r.error == [InvalidStructure] || r.error == [InvalidJson] || r.error == [UnknownParseError])
      && (input.Parsed? && ValidateExportData(input.value, validDate) ==> r == Success(input.value))
  {
  }

  lemma ExportFields(e: ExportFile)
    ensures var v := ExportToJson(e);
      && Field(v, "version") == Some(JStr(e.version))
      && Field(v, "exportDate") == Some(JStr(e.exportDate))
      && Field(v, "data") == Some(DataToJson(e.data))
      && Field(DataToJson(e.data), "words") == Some(JArr(WordsToJson(e.data.words)))
  {
  }

  /** Importing what `exportData` wrote (serialised and parsed back) succeeds
      exactly when every word passes `validateWord`, given a parseable export
      date; on success the import hands back that very record. */
  lemma ImportOfExport(words: seq<Word>, progress: Progress, settings: AppSettings,
                       exportDate: string, validDate: string -> bool)
    requires validDate(exportDate)
    ensures var v := ExportToJson(ExportData(words, progress, settings, exportDate));
      && (ImportData(Parsed(v), validDate).Success? <==>
            forall i | 0 <= i < |words| :: WordValid(words[i], validDate))
      && (ImportData(Parsed(v), validDate).Success? ==> ImportData(Parsed(v), validDate).value == v)
  {
    var e := ExportData(words, progress, settings, exportDate);
    var v := ExportToJson(e);
    ExportFields(e);
    var items := WordsToJson(words);
    forall i | 0 <= i < |words|
      ensures ValidateWord(items[i], validDate) <==> WordValid(words[i], validDate)
    {
      WordValidation(words[i], validDate);
    }
    assert ValidateExportData(v, validDate) <==> AllWordsValid(items, validDate);
  }
}
