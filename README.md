# Japanese study app: sync engine and learning utilities in Dafny

This project models the core of a Japanese vocabulary study app written in
TypeScript. The model has two parts.

The Google Drive sync layer:
- the persisted sync configuration;
- the queue of sync requests with its single debounce timer;
- connectivity polling;
- sync rounds, which decide by last-write-wins or by asking the user;
- failure bookkeeping with capped exponential retry;
- the Drive client's credential checks, retry loop and configuration side effects;
- the React provider that shows sync status and holds a one-slot conflict prompt.

The pure utilities around it:
- kana-to-romanji character maps and their reveal operations;
- quiz question and distractor generation;
- word and export-file validation;
- import and export;
- the word-list and progress updaters.

Modules, one per file:
- `Wrappers`, `Text`, `Seqs`, `Json`: option/result types, JavaScript string and array operations, parsed JSON values.
- `Domain`, `SyncTypes`: the app's records.
- `Validation`, `Serialise`, `ImportExport`: `validation.ts`, the JSON form of the records, `importExport.ts`.
- `WordStore`, `ProgressStore`: `WordContext.tsx` and `ProgressContext.tsx`.
- `CharacterMapping`, `QuizGenerator`: `characterMapping.ts`, `quizGenerator.ts`.
- `DriveService`: `GoogleDriveService.ts`.
- `Engine`: `SyncEngine.ts`. Its class `SyncEngine` keeps the engine's fields and the persisted configuration, and every method is proved against a pure transition on the `EngineState` snapshot.
- `Provider`: `SyncContext.tsx`. Its class `SyncProvider` holds the React state and the conflict slot.

How the outside world is represented:
- A remote call (Drive request, sign-in popup, conflict prompt answer) is a parameter holding its outcome, `Ok(value)` or `Fail(message)`.
- Every Drive request first passes the token check of `getAccessToken`.
- Timers are flags or lists of pending delays; their firing is a method call.
- `Date.now()` and `navigator.onLine` are parameters.
- `Math.random` is a nondeterministic choice (`:|`) in the Fisher-Yates shuffle. In the similarity score it is one draw per sentence, passed in. `GenerateDistractors`, `GenerateQuizQuestion` and `ScoreBounds` require every draw to lie in `[0, 1)`. The helpers that score and rank candidates accept any real draws.
- `isValidDate` is a function parameter.
- `JSON.parse` is a parse outcome (`Parsed`, `SyntaxError`, other error).
- The storage helpers the engine imports (`getSyncConfig`, `updateSyncConfig`, `exportAllDataForSync`, `importAllDataFromSync`, `setLastLocalChangeTime`) are not part of this model. They are reads and writes of the engine's `config` and `local` fields.
- `clearSyncConfig` is not part of this model either. It is modelled as storing `SyncTypes.ClearedConfig`: disabled, no tokens, no file, empty queue, no errors.

Behaviours of the code worth noting:
- A cancelled conflict prompt still makes the round a success, so the whole queue is emptied and a sync time recorded (`Engine.CancelEmptiesQueue`).
- `enableSync` turns sync off again only when sign-in fails. The load-time sync after it never throws, so its failures do not revert anything (`Provider.SyncProvider.EnableSync`).
- An expired token makes `processSyncQueue` record an error only. It neither polls nor counts a failure (`Engine.ProcessGuards`).
- `withRetry` has no caller, so it is modelled on its own.
- A successful round empties the whole queue, including requests queued while the round ran.

The two defects listed under Findings are modelled both ways. The as-written definitions are `Domain.AsWrittenDefaultProgress` and `CharacterMapping.AsWrittenSplitStep`. Each comes with a lemma that shows the defect on a concrete input. The rest of the model uses the corrected `Domain.DefaultProgress` and `CharacterMapping.SplitStep`.

## Model

| member | source | states |
|---|---|---|
| Text.SplitOnSpace | app/src/utils/characterMapping.ts:17 | `split(' ')` always yields at least one part |
| Text.SplitOnSpaceJoin | app/src/utils/characterMapping.ts:17 | joining the parts of `split(' ')` with a space gives back the string |
| Text.SplitOnSpaceMany | app/src/utils/characterMapping.ts:20-27 | `split(' ')` has more than one part exactly when the string holds a space |
| Text.SplitOnWhitespaceParts | app/src/utils/characterMapping.ts:128 | no part of `split(/\s+/)` contains whitespace |
| Text.Lower | app/src/utils/quizGenerator.ts:90-97 | lower-casing keeps the length and maps each ASCII capital to its small letter |
| Text.Trim | app/src/utils/validation.ts:56-58 | the result is a slice `s[k..k+|r|]` of the input with only whitespace outside it, and has no whitespace at either end |
| Text.TrimIdempotent | app/src/utils/validation.ts:56-58 | trimming twice equals trimming once |
| Seqs.Filter | app/src/contexts/WordContext.tsx:59-73 | a filter keeps only elements of the input that pass the predicate |
| Seqs.FilterKeeps | app/src/contexts/WordContext.tsx:59-73 | every element that passes the predicate is kept |
| Seqs.FilterAppend | app/src/contexts/WordContext.tsx:59-73 | filtering distributes over concatenation, so relative order is kept |
| Seqs.FilterSubMultiset | app/src/contexts/WordContext.tsx:75-96 | the filtered elements form a sub-multiset of the input |
| Seqs.SliceEnd | app/src/utils/quizGenerator.ts:137-140 | `slice(0, n)` ends at `n` clamped to the length, counting a negative `n` from the end |
| Json.Field | app/src/utils/validation.ts:8 | a property is present exactly when the value is an object holding that key |
| Validation.RejectsNonObjects | app/src/utils/validation.ts:4-6 | a non-object or null is never a valid word |
| Validation.ValidateWord | app/src/utils/validation.ts:3-31 | a non-object or null is rejected; an accepted value has type "word" or "sentence" (the full field-by-field characterisation is `Serialise.WordValidation`) |
| Validation.ValidateExportData | app/src/utils/validation.ts:33-48 | an accepted export has version "1.0" and a `data.words` array whose every element passes `validateWord` |
| Validation.ExportValidationIgnores | app/src/utils/validation.ts:40-48 | changing or removing `progress` or `settings` never changes the export-file verdict |
| Validation.SanitizeInput | app/src/utils/validation.ts:56-58 | the result is the input with only surrounding whitespace removed: a slice of it, whitespace outside, none at its ends; it is its own trim |
| Validation.ValidateDayNumber | app/src/utils/validation.ts:60-62 | true exactly for the integers 1..999 |
| Serialise.DecodeWord | app/src/utils/validation.ts:10-29 | a typed word is read exactly when `validateWord` accepts, and it satisfies every field condition |
| Serialise.WordFields | app/src/types/word.ts:1-24 | a serialised word carries every field under its own key with its own value |
| Serialise.WordValidation | app/src/utils/validation.ts:10-29 | `validateWord` accepts a serialised word exactly when its texts are non-empty, its day positive and its dates valid |
| Serialise.WordRoundTrip | app/src/utils/validation.ts:3-31 | reading back a valid serialised word gives the same word |
| ImportExport.ExportData | app/src/utils/importExport.ts:4-20 | version "1.0", the given date, words and progress unchanged, settings without the theme |
| ImportExport.WordsToJson | app/src/utils/importExport.ts:14-18 | one serialised entry per word, in order |
| ImportExport.ImportData | app/src/utils/importExport.ts:22-52 | success returns the parsed object and it passes `validateExportData`; invalid structure, bad JSON and other errors each give their single message |
| ImportExport.VersionCheckUnreachable | app/src/utils/importExport.ts:38-41 | the "Unsupported version" message is never produced |
| ImportExport.ImportOfExport | app/src/utils/importExport.ts:4-43 | importing an export with a valid date succeeds exactly when every word passes `validateWord`, and returns the exported record |
| WordStore.InitialWords | app/src/contexts/WordContext.tsx:28-31 | the initial list is, in order, the decoded stored entries that pass `validateWord`, each valid |
| WordStore.ReloadKeepsValidWords | app/src/contexts/WordContext.tsx:28-31 | saving valid words and loading them again gives the same list |
| WordStore.AddWord | app/src/contexts/WordContext.tsx:98-107 | one word appended with the given id, creation date and `lastModified`, and every other field (texts, day, type, flags, counters, `lastReviewed`) taken from the draft; earlier entries untouched |
| WordStore.AddWordKeepsIdsUnique | app/src/contexts/WordContext.tsx:98-107 | with a fresh id, ids stay unique |
| WordStore.UpdateWord | app/src/contexts/WordContext.tsx:109-116 | same length; entries with another id unchanged; matching entries patched with a new `lastModified` |
| WordStore.UpdateMissingIsIdentity | app/src/contexts/WordContext.tsx:109-116 | updating an absent id changes nothing |
| WordStore.DeleteWord | app/src/contexts/WordContext.tsx:118-120 | no entry with the id remains; every other entry remains; nothing new appears |
| WordStore.DeleteAfterUpdate | app/src/contexts/WordContext.tsx:109-120 | deleting after an update that keeps the id equals deleting at once |
| WordStore.BulkAddWords | app/src/contexts/WordContext.tsx:122-132 | all drafts appended in order, each with its own fresh id and every draft field, all sharing one creation date and one `lastModified` |
| WordStore.BulkAddOfOne | app/src/contexts/WordContext.tsx:98-132 | adding one word in bulk equals adding it alone |
| WordStore.GetWordsByDay | app/src/contexts/WordContext.tsx:59-61 | exactly the words of that day |
| WordStore.GetWordsByType | app/src/contexts/WordContext.tsx:63-65 | exactly the words of that type |
| WordStore.GetWordsNeedingReview | app/src/contexts/WordContext.tsx:67-69 | exactly the flagged words |
| WordStore.GetMasteredWords | app/src/contexts/WordContext.tsx:71-73 | exactly the mastered words |
| WordStore.ApplyFiltersExactly | app/src/contexts/WordContext.tsx:75-90 | the chained filters keep exactly the words matching every given field, as a sub-multiset |
| WordStore.GetRandomWords | app/src/contexts/WordContext.tsx:75-96 | min(count, matches) words, each matching every filter, drawn without repetition |
| WordStore.ImportIntoStore | app/src/contexts/WordContext.tsx:134-160 | words replaced wholesale; progress and synced settings replaced when given; the current theme kept, dark by default |
| WordStore.ExportFromStore | app/src/contexts/WordContext.tsx:162-177 | version "1.0", stored words, stored progress or else the corrected default progress (see Findings), synced settings without the theme |
| WordStore.ExportAfterImport | app/src/contexts/WordContext.tsx:134-177 | exporting after an import returns the imported words, progress and settings |
| ProgressStore.IncrementScore | app/src/contexts/ProgressContext.tsx:31-48 | fails exactly when the mode has no score; otherwise one counter of that mode grows by one, every other score and field is unchanged, the study date is now |
| ProgressStore.LookupReplaceAll | app/src/contexts/ProgressContext.tsx:36-44 | replacing a present key changes its score only |
| ProgressStore.ResetSessionScore | app/src/contexts/ProgressContext.tsx:50-59 | all three mode scores 0/0, nothing else changed |
| ProgressStore.IncrementAfterSessionReset | app/src/contexts/ProgressContext.tsx:31-59 | after a session reset every mode can be scored |
| ProgressStore.MarkAsMastered | app/src/contexts/ProgressContext.tsx:61-66 | one more, or one fewer but never below zero; nothing else changed |
| ProgressStore.MarkNeedsReview | app/src/contexts/ProgressContext.tsx:68-73 | one more, or one fewer but never below zero; nothing else changed |
| ProgressStore.MarkThenUnmark | app/src/contexts/ProgressContext.tsx:61-73 | marking then unmarking restores a non-negative count |
| ProgressStore.GetAccuracyRate | app/src/contexts/ProgressContext.tsx:84-103 | undefined exactly for a mode without a score; always defined over all modes |
| ProgressStore.AccuracyIsPercentage | app/src/contexts/ProgressContext.tsx:84-103 | the rate lies in 0..100; it is 100 exactly when correct >= 199·incorrect and 0 exactly when 199·correct < incorrect |
| ProgressStore.UpdateCurrentDay | app/src/contexts/ProgressContext.tsx:105-110 | only `currentDay` changes |
| ProgressStore.ResetAllProgress | app/src/contexts/ProgressContext.tsx:119-121 | the progress becomes the default: every counter, streak and study time zero, day 1, the study date fixed at load, every mode scored 0/0 (corrected default, see Findings) |
| ProgressStore.IncrementAfterReset | app/src/contexts/ProgressContext.tsx:31-48 | after a full reset every mode can be scored and its accuracy is 0 |
| ProgressStore.AsWrittenResetAllProgress | app/src/utils/constants.ts:21-36 | resetting to the default as written zeroes every counter and sets day 1, but leaves no `alphabetMode` score |
| ProgressStore.AlphabetScoreLostAfterReset | app/src/utils/constants.ts:29 | after that reset, scoring alphabet mode and reading its accuracy both fail |
| CharacterMapping.ExtractNextRomanjiPart | app/src/utils/characterMapping.ts:78-117 | empty exactly at the end; otherwise 1-3 characters read from the start position (a lone N lower-cased); three only for a compound before a vowel |
| CharacterMapping.SplitRomanjiByCharacter | app/src/utils/characterMapping.ts:41-73 | the loop computes the fold of `SplitStep` over the kana (with the corrected merge, see Findings) |
| CharacterMapping.SplitFoldShape | app/src/utils/characterMapping.ts:45-70 | entries spell the kana read so far, start hidden, carry their source position, and small kana merge into the previous entry |
| CharacterMapping.MapMultipleWords | app/src/utils/characterMapping.ts:122-157 | the loop computes the renumbered word entries with space entries between words |
| CharacterMapping.MultipleWordsShape | app/src/utils/characterMapping.ts:130-154 | indices count 0, 1, 2, ...; only the separators are revealed; the entries spell the words joined by single spaces |
| CharacterMapping.GenerateCharacterMapShape | app/src/utils/characterMapping.ts:13-35 | revealed entries are exactly spaces; indices increase; the map spells the kana (or the space-normalised kana for several words) |
| CharacterMapping.GenerateCharacterMap | app/src/utils/characterMapping.ts:13-35 | a romanji without spaces for several characters is split character by character; a romanji with a space is mapped word by word; otherwise every character gets the whole romanji, hidden, numbered from 0 |
| CharacterMapping.SingleCharacters | app/src/utils/characterMapping.ts:28-34 | the fallback's entries, one per character, spell the Japanese text |
| CharacterMapping.AreAllRevealed | app/src/utils/characterMapping.ts:178-180 | true for an empty map and for any map whose entries are all revealed |
| CharacterMapping.AreAllRevealedAt | app/src/utils/characterMapping.ts:178-180 | all revealed exactly when every non-space entry is revealed; true for an empty map |
| CharacterMapping.RevealCharacter | app/src/utils/characterMapping.ts:162-166 | same length; only the entry at the index changes, and it becomes revealed |
| CharacterMapping.RevealCharacterFacts | app/src/utils/characterMapping.ts:162-166 | revealing twice equals revealing once |
| CharacterMapping.RevealAll | app/src/utils/characterMapping.ts:171-173 | same length, kana, romanji and index; every entry revealed |
| CharacterMapping.RevealAllCompletes | app/src/utils/characterMapping.ts:171-180 | after revealing all, all are revealed |
| CharacterMapping.CompoundDropsConsonant | app/src/utils/characterMapping.ts:49-58 | with the merge as written, きょ / "kyo" gives one entry whose romanji reads "o" |
| CharacterMapping.SplitKeepsRomanji | app/src/utils/characterMapping.ts:45-70 | up to letter case, the entries' romanji spell exactly the romanji consumed so far |
| CharacterMapping.CompoundKeepsConsonant | app/src/utils/characterMapping.ts:49-58 | きょ / "kyo" gives one entry reading "kyo" |
| QuizGenerator.LengthPointsBands | app/src/utils/quizGenerator.ts:86-93 | 30 points exactly when 5·diff <= length, 15 when within 2·length, otherwise 0 |
| QuizGenerator.ScoreBounds | app/src/utils/quizGenerator.ts:77-106 | the deterministic score is between 10·shared words and that plus 50; the noise adds less than 5 |
| QuizGenerator.SameTextScoresHighest | app/src/utils/quizGenerator.ts:77-106 | a candidate equal to the answer scores 50 + 10 per word |
| QuizGenerator.CandidatesFromOtherSentences | app/src/utils/quizGenerator.ts:51-53 | one candidate per sentence other than the target, each with that sentence's English |
| QuizGenerator.SortByScoreSorted | app/src/utils/quizGenerator.ts:56 | sorting yields a permutation in non-increasing score order |
| QuizGenerator.RankedCandidatesFacts | app/src/utils/quizGenerator.ts:51-56 | the ranked list is a sorted permutation of the candidates |
| QuizGenerator.FallbacksDistinct | app/src/utils/quizGenerator.ts:111-120 | fallback i is phrase i mod 4, and four consecutive fallbacks differ |
| QuizGenerator.GenerateDistractors | app/src/utils/quizGenerator.ts:41-71 | exactly `count` strings: the best-ranked candidates first, then fallbacks |
| QuizGenerator.DistractorsAreBest | app/src/utils/quizGenerator.ts:58-63 | every real distractor scores at least as high as every unused candidate |
| QuizGenerator.ShuffleArray | app/src/utils/quizGenerator.ts:125-132 | the result is a permutation of the input |
| QuizGenerator.GenerateQuizQuestion | app/src/utils/quizGenerator.ts:16-36 | count+1 options, exactly one correct carrying the target's English, all others distractors |
| QuizGenerator.GetRandomQuizSentences | app/src/utils/quizGenerator.ts:137-140 | min(count, length) sentences drawn from the input |
| DriveService.ValidTokenFacts | app/src/services/GoogleDriveService.ts:114-124 | validity is lost over time, never gained; at a non-negative time it means a stored token expiring more than 300000 ms ahead |
| DriveService.HasValidToken | app/src/services/GoogleDriveService.ts:114-124 | false without a token or an expiry; when true, the expiry lies more than 300000 ms after now |
| DriveService.GetAccessToken | app/src/services/GoogleDriveService.ts:130-142 | the token exactly when valid; "No access token" exactly when none is stored |
| DriveService.AccessTokenErrorsAreAuthErrors | app/src/services/GoogleDriveService.ts:133-139 | both credential errors contain "authenticate" |
| DriveService.DriveCall | app/src/services/GoogleDriveService.ts:154-156 | an invalid token fails every request with the credential error; otherwise the request's outcome |
| DriveService.CreateAppDataFile | app/src/services/GoogleDriveService.ts:182-214 | on success the new id is stored; on failure nothing changes |
| DriveService.DeleteAppDataFile | app/src/services/GoogleDriveService.ts:285-303 | on success the id is cleared; on failure nothing changes |
| DriveService.DeleteAfterCreate | app/src/services/GoogleDriveService.ts:182-303 | deleting the file just created leaves no file id and nothing else changed |
| DriveService.InitiateOAuth | app/src/services/GoogleDriveService.ts:42-81 | fails exactly without a client id, without the Google script or on an error response; success stores the token, sets expiry now + expires_in·1000 and enables sync |
| DriveService.SignedInTokenIsValid | app/src/services/GoogleDriveService.ts:60-68 | a fresh token is valid exactly when non-empty and longer-lived than 300 s |
| DriveService.RevokeToken | app/src/services/GoogleDriveService.ts:87-109 | no-op without a token; error without the script; otherwise token and expiry cleared and sync disabled |
| DriveService.RevokedTokenNeverValid | app/src/services/GoogleDriveService.ts:87-124 | after a revoke no moment has a valid token |
| DriveService.WithRetry | app/src/services/GoogleDriveService.ts:308-343 | at most `maxRetries` attempts; the first success or an auth error ends them at once; otherwise the last error after all attempts; waits exponential for 429, linear otherwise |
| Engine.PerformSync | app/src/services/SyncEngine.ts:176-226 | a failed round changes nothing; success needs a valid token; only the file id and the change time can change; uploads send the local data; downloads install the remote data and time |
| Engine.WithinToleranceTransfersNothing | app/src/services/SyncEngine.ts:236-242 | timestamps within 1 s give none/same and change nothing |
| Engine.CallbackDecides | app/src/services/SyncEngine.ts:245-273 | with a callback the outcome is manual or cancelled; cancel transfers nothing yet succeeds; keep-local uploads; keep-remote installs the download |
| Engine.LastWriteWins | app/src/services/SyncEngine.ts:276-287 | without a callback a newer local copy is uploaded and an older one replaced by the download |
| Engine.MissingFileIsCreated | app/src/services/SyncEngine.ts:181-197 | without a file id the local data goes to a new file, whose id is stored |
| Engine.EnqueueFacts | app/src/services/SyncEngine.ts:66-89 | disabled changes nothing; enabled appends one operation with retry count 0, keeps the earlier ones, sets the change time and arms the debounce |
| Engine.BurstArmsOneTimer | app/src/services/SyncEngine.ts:94-104 | a burst queues one operation per request and leaves one debounce timer at most |
| Engine.ProcessGuards | app/src/services/SyncEngine.ts:109-136 | no change in flight or with nothing queued; offline only polls; an invalid token only records the error; otherwise a round begins |
| Engine.RetryDelayBounds | app/src/services/SyncEngine.ts:159 | the retry delay doubles per failure up to 60000 ms, reached at the sixth |
| Engine.CompleteFacts | app/src/services/SyncEngine.ts:138-170 | a round ends not in progress; success empties the queue, clears failures and error, records the time; failure counts one more than at the start, records an error and schedules one retry |
| Engine.CancelEmptiesQueue | app/src/services/SyncEngine.ts:259-260 | a cancelled prompt still empties the queue and records a sync time |
| Engine.CheckOnLoadKeepsBookkeeping | app/src/services/SyncEngine.ts:293-310 | the load-time round leaves queue, failure count, error and sync time alone |
| Engine.PollTickFacts | app/src/services/SyncEngine.ts:322-362 | a tick offline, with a bad token or without polling changes nothing; a confirmed tick stops polling |
| Engine.ManualSyncFacts | app/src/services/SyncEngine.ts:367-386 | refused without change during a round; otherwise success means a sync time exists, so offline with an old sync it reports success |
| Engine.StatusOf | app/src/services/SyncEngine.ts:391-407 | an error is reported exactly when one is stored; pending count zero exactly when the queue is empty |
| Engine.SyncEngine.SetConflictResolutionCallback | app/src/services/SyncEngine.ts:43-47 | a callback is registered; nothing else changes |
| Engine.SyncEngine.ClearConflictResolutionCallback | app/src/services/SyncEngine.ts:52-54 | no callback is registered; nothing else changes |
| Engine.SyncEngine.GetSyncStatus | app/src/services/SyncEngine.ts:391-407 | reports the in-progress flag, the stored error, the last sync time and the queue length |
| Engine.SyncEngine.QueueSyncOperation | app/src/services/SyncEngine.ts:66-89 | the state moves as `Enqueue` |
| Engine.SyncEngine.ProcessSyncQueue | app/src/services/SyncEngine.ts:109-136 | the state moves as `Process`; a round starts exactly at `Begin` |
| Engine.SyncEngine.CompleteRound | app/src/services/SyncEngine.ts:137-170 | the state moves as `Complete` |
| Engine.SyncEngine.DebounceFires | app/src/services/SyncEngine.ts:101-103 | the timer is spent and the queue processed |
| Engine.SyncEngine.RetryFires | app/src/services/SyncEngine.ts:160 | that retry is spent and the queue processed |
| Engine.SyncEngine.CheckAndSyncOnLoad | app/src/services/SyncEngine.ts:293-310 | the state moves as `CheckOnLoad` |
| Engine.SyncEngine.StartConnectivityPolling | app/src/services/SyncEngine.ts:322-332 | polling on; nothing else changes |
| Engine.SyncEngine.StopConnectivityPolling | app/src/services/SyncEngine.ts:337-342 | polling off; nothing else changes |
| Engine.SyncEngine.PollIntervalTick | app/src/services/SyncEngine.ts:327-362 | the state moves as `PollTick` |
| Engine.SyncEngine.ManualSync | app/src/services/SyncEngine.ts:367-386 | state and result as `ManualSyncSpec` |
| Engine.SyncEngine.Cleanup | app/src/services/SyncEngine.ts:412-421 | polling, debounce and in-progress flag off; nothing else changes |
| Provider.DeriveStatus | app/src/contexts/SyncContext.tsx:63-71 | syncing, else error, else offline, else idle, each exactly under its condition |
| Provider.Refreshed | app/src/contexts/SyncContext.tsx:52-72 | status by priority, authenticated iff the token is valid, pending count is the queue length |
| Provider.ClearedConfigRefreshesToDisabled | app/src/contexts/SyncContext.tsx:117-128 | a cleared configuration refreshes to the disabled, idle view |
| Provider.SyncProvider.RefreshStatus | app/src/contexts/SyncContext.tsx:52-72 | the view becomes `Refreshed` of the engine |
| Provider.SyncProvider.EnableSync | app/src/contexts/SyncContext.tsx:77-99 | fails exactly when sign-in fails, then sync is off and the error shown; otherwise load-time sync and refresh |
| Provider.SyncProvider.SyncAndRefresh | app/src/contexts/SyncContext.tsx:84-87 | the load-time round runs, then the view is refreshed from the engine |
| Provider.SyncProvider.DisableSync | app/src/contexts/SyncContext.tsx:104-133 | deletes only when asked and a file id exists; a failed delete changes nothing and passes its message on; a failed revoke leaves the file deleted and its id cleared, the view untouched, and reports that the Google script is not loaded; on success the configuration is cleared, the engine stopped and the view disabled |
| Provider.SyncProvider.DeleteRemoteFile | app/src/contexts/SyncContext.tsx:108-111 | the remote file is deleted only when asked and an id is stored; a failed delete changes nothing; a successful one clears the id |
| Provider.SyncProvider.ManualSync | app/src/contexts/SyncContext.tsx:138-152 | refused unless enabled and authenticated; otherwise succeeds with no value after the engine's manual sync and a refresh |
| Provider.SyncProvider.TriggerSync | app/src/contexts/SyncContext.tsx:157-164 | a no-op unless enabled and authenticated; otherwise one request queued and a refresh |
| Provider.SyncProvider.OnConflict | app/src/contexts/SyncContext.tsx:181-188 | the conflict and a resolver fill the single slot |
| Provider.SyncProvider.ResolveConflict | app/src/contexts/SyncContext.tsx:169-175 | with a resolver the choice is delivered and both slots emptied; otherwise nothing |
| Provider.SyncProvider.OnOnline | app/src/contexts/SyncContext.tsx:226-233 | refresh; process the queue only if the pre-refresh view was enabled with pending requests |
| Provider.SyncProvider.OnOffline | app/src/contexts/SyncContext.tsx:235-237 | the status becomes offline; nothing else changes |
| Provider.SyncProvider.Mount | app/src/contexts/SyncContext.tsx:180-212 | callback installed; load-time sync when enabled with a valid token; view refreshed |
| Provider.SyncProvider.Unmount | app/src/contexts/SyncContext.tsx:191-193 | the conflict callback is removed from the engine; nothing else in it changes |

## Left out

- HTTP requests, the Google Identity Services popup and its script loading: these are replaced by given outcomes. The Drive requests `findAppDataFile`, `updateAppDataFile`, `downloadAppDataFile` and `getFileMetadata` are the `find`, `upload`, `download` and `metadata` outcomes of a round.
- Real time: timers do not elapse, and the 2 s debounce, 30 s poll and 5 s status refresh intervals are not modelled. What a timer does when it fires is modelled by `DebounceFires`, `RetryFires` and `PollIntervalTick`.
- Interleaving inside a round: a round reads the configuration and local data when it completes. The failure count it started with is kept in `inFlight`. Changes made between the export and the queue clearing are not modelled.
- Engine.SyncEngine.ManualSync: the round awaited by `manualSync` runs without interleaving.
- `getPendingConflict`: the engine's `pendingConflict` field is never assigned, so it always returns null.
- The 5-second refresh interval and the load-time refresh after a rejected promise: `checkAndSyncOnLoad` never rejects.
- Thrown values that are not `Error` objects, and `NaN` from date parsing of `modifiedTime`: every failure carries a message string.
- `recordReview`, `updateStats` and `clearAllData`: not modelled (statistics bookkeeping and data wipe).
- `downloadJSON`: DOM and Blob I/O.
- `claudeApi.ts`, the UI components, speech, theme and settings wiring, and the static kana and seed tables.
- Strings are sequences of code points, not UTF-16 units.
- Lower-casing covers ASCII letters only.
- QuizGenerator.ScoreBounds: the length ratio is exact, not floating point.
- ProgressStore.AccuracyIsPercentage: `Math.round` of a float is modelled as exact rounding half up.
- CharacterMapping.GenerateCharacterMapShape: the expected map printed by the troubleshooting script is not asserted, because the current code does not produce it.
- `nanoid`: ids are parameters.
- WordStore.ExportFromStore: the stored settings' `lastModified` key is not exported, and without stored settings the keys `claudeModel`, `cachedModels` and `lastModelsFetch` of `DEFAULT_SETTINGS` are not exported either; the synced settings record has none of these keys. Without stored progress the export falls back to the corrected default, not the as-written `DEFAULT_PROGRESS`.
- WordStore.ExportAfterImport: in the code the re-exported settings also carry the `lastModified: now` that the import writes; the model's equality holds up to that key.

## Findings

| source | as written | input that shows it | evidently intended | confidence | as-written member | corrected member |
|---|---|---|---|---|---|---|
| app/src/utils/constants.ts:29 | `DEFAULT_PROGRESS.sessionScore` uses the key `wordMode`, while the modes are `alphabet`, `sentence` and `flashcard` | `resetAllProgress()` then `incrementScore('alphabet', true)`: the `alphabetMode` entry is missing and the update fails | the default holds `alphabetMode` like the other two mode keys | not executed | ProgressStore.AlphabetScoreLostAfterReset | ProgressStore.IncrementAfterReset |
| app/src/utils/characterMapping.ts:49-58 | a small kana merged into the previous entry replaces that entry's romanji with its own part | `splitRomanjiByCharacter(['き','ょ'], 'kyo')` gives one entry with romanji "o" | the merged entry keeps the consonant and reads "kyo" | not executed | CharacterMapping.CompoundDropsConsonant | CharacterMapping.SplitKeepsRomanji |
