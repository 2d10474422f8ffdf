# Code-explanation extension core, modelled in Dafny

The extension takes code or an error message from a popup and asks a generative-language API to
explain it. This project models the parts of it that carry logic: the text helpers, the prompt
builders, the response parser, the retrying request client and the translation hook's state;
then the storage hook, which keeps a settings mirror and a history list in a key-value store;
and last the history hook, which keeps a local copy of that list.

Modules, one per source file, plus shared building blocks:

- `Wrappers`: `Option` and `Result`. A JavaScript `null`/`undefined` is `None`. A thrown `Error` is `Err(message)`.
- `Strings`: `includes` as `Contains`, and `trim`, `toLowerCase`, UTF-16 `length` and
  the decimal rendering of a number.
- `Sequences`: `Array.prototype.filter` and the subsequence relation it guarantees.
- `Helpers` (`src/utils/helpers.js`): `IsEmpty`, `IsWithinCharLimit`, `FormatErrorMessage`, `DetectLanguage`.
- `Gemini` (`src/hooks/useGemini.js`):
  - the two prompt builders;
  - `ParseResponse`;
  - `Attempt`, the `try` block of one attempt, which turns a transport outcome into a body or a thrown message;
  - `FetchFrom`, the recursion on the attempt counter over those attempt results (the `catch` and
    its retry), and `FetchWithRetry`, the loop that computes it;
  - the hook as the class `GeminiHook`.

  The network comes in as a parameter `transport`, whose entry `k` is what attempt `k` produces.
  A timeout is one of those outcomes.

  The fixed wording of the two prompts is a parameter of type `PromptWording`. The constant
  `SourceWording` holds the extension's own texts (`src/hooks/useGemini.js` lines 66, 74-95, 111-114
  and 120-147). Every prompt property is stated for any wording, so none depends on the words.
- `Records`: the stored records, plus `PlatformStore`, a map standing in for `chrome.storage.local`.
  Each store has a fixed read failure and a fixed write failure; either may be absent.
- `Storage` (`src/hooks/useStorage.js`): a settings load with fallbacks, the single-field updates and
  `updateAllSettings`, and the history operations. They are methods of `StorageHook`; pure
  functions specify each of them.
- `History` (`src/hooks/useHistory.js`): the class `HistoryHook` over a `StorageHook`, plus the pure
  `Search`, `Favorites` and `ToggleById`.

Ids and timestamps (`Date.now()`, `toISOString()`) are parameters. The stored entry and the local
entry of `addHistoryItem` get separate ones, because the source stamps them separately.

The model keeps these behaviours as the code has them, and a lemma states each:

- A timed-out attempt is not retried. Its message is Japanese and does not contain `timeout` (`Gemini.TimeoutIsNotRetried`).
- A non-ok response whose body carries `error.message` is classified by that message alone. Its
  status 429/500/503 then plays no part in the retry decision (`Gemini.ErrorBodyHidesStatus`).
- A missing API key is shown as the generic error, not the API-key message
  (`Gemini.MissingKeyShowsGenericError`).
- `translateCode(code)` always builds the prompt with type `auto` and level `simple`. The popup
  passes the string `'code'` as `isRegenerate`, so its requests are all regenerate requests
  (`Gemini.PopupCallRegenerates`).
- `toggleFavorite` saves a new copy of the first entry, not the toggled one (`History.ToggleSavesHeadCopy`).
- A history limit of 0 stores an empty list. A negative limit drops entries from the end, as
  `splice` does (`Storage.PrependBoundedShape`, `Storage.PrependBoundedNegative`).
- A falsy setting (empty text, 0) reloads as its default (`Storage.SettingsRoundTrip`).
- A non-ok response whose body has no `error.message` fails with the text
  `APIエラー (<status>): <statusText>`, which is what the retry test then reads (`Gemini.Attempt`).

## Model

| member | source | states |
|---|---|---|
| Strings.Trim | src/utils/helpers.js:12 | `trim()` yields the empty string exactly when the text is all ECMAScript whitespace |
| Strings.Contains | src/utils/helpers.js:34 | `includes`: the empty string is included in every string, and an included string is no longer than the including one |
| Strings.Lower | src/hooks/useHistory.js:162-166 | `toLowerCase` keeps the length and maps each character on its own |
| Strings.Utf16Length | src/utils/helpers.js:22 | `length` counts between one and two code units per character |
| Helpers.IsEmpty | src/utils/helpers.js:11-13 | true exactly for an absent text or one made only of whitespace |
| Strings.Utf16LengthOfBasicPlane | src/utils/helpers.js:22 | for text inside the Basic Multilingual Plane, `length` counts characters |
| Sequences.Filter | src/hooks/useStorage.js:258 | `filter` keeps exactly the elements that pass, and never lengthens the list |
| Sequences.FilterIsSubsequence | src/hooks/useHistory.js:163 | `filter` keeps the kept elements in their order |
| Sequences.FilterCount | src/hooks/useHistory.js:175 | `filter` keeps every copy of a passing element and no copy of a failing one |
| Sequences.FilterUnique | src/hooks/useHistory.js:163-175 | a subsequence holding each passing element as often as the list, and no failing one, is the filtered list: order and multiplicity determine `filter` |
| Helpers.IsWithinCharLimit | src/utils/helpers.js:21-23 | an absent or empty text is always within the limit; a short text is within it and a long one is not; for basic-plane text, within iff empty or at most the limit |
| Helpers.FormatErrorMessage | src/utils/helpers.js:30-50 | never empty. Each of the four fixed messages appears exactly in its case: no error; network; API key but not network; rate limit but neither of the others. Any other message is the generic prefix followed by the message itself |
| Helpers.GenericMessagesStayDistinct | src/utils/helpers.js:49 | two different unclassified messages are shown differently |
| Helpers.UnclassifiedWithout | src/utils/helpers.js:34-49 | a message lacking `n`, `N`, space, `K` and `q` matches no keyword and is shown after the generic prefix |
| Helpers.DetectLanguage | src/utils/helpers.js:57-102 | the result is one of the seven language names; empty code is `unknown`; a JSX marker gives `jsx`; `unknown` exactly when the code is empty or no rule matches |
| Helpers.ImportReactIsJsx | src/utils/helpers.js:61-63 | code mentioning `import React` is JSX whatever else it contains |
| Helpers.FirstMatch | src/utils/helpers.js:57-102 | a first-match classifier returns `unknown` or the language of a rule whose test passes |
| Helpers.FirstMatchIsEarliest | src/utils/helpers.js:57-102 | the earliest passing rule decides the result |
| Helpers.FirstMatchNone | src/utils/helpers.js:101 | when no rule passes the result is `unknown` |
| Helpers.DetectLanguageIsFirstMatch | src/utils/helpers.js:57-102 | the `if` chain equals first-match classification over its ten rules in source order |
| Helpers.LaterRulesMatch | src/utils/helpers.js:77-102 | once the first five rules fail, the rest of the chain equals first-match classification over the table |
| Gemini.ScaftHeader | src/hooks/useGemini.js:65-96 | for any wording, the prompt header contains the selected hint and the selected level instruction |
| Gemini.UnwrapContent | src/hooks/useGemini.js:97-99 | a text recovered from a delimited block re-delimits to that block |
| Gemini.UnwrapEmbed | src/hooks/useGemini.js:97-99 | delimiting and recovering any text gives it back unchanged |
| Gemini.UniversalPrompt | src/hooks/useGemini.js:50-101 | the prompt is the header for the (defaulted) type and level followed by the delimited text. The text is recovered unchanged from it, and the prompt contains the text, the hint and the instruction |
| Gemini.UnknownTypeAndLevelFallBack | src/hooks/useGemini.js:72-73 | unknown type and level put the `auto` hint and the `simple` instruction in the prompt |
| Gemini.RegeneratePrompt | src/hooks/useGemini.js:109-148 | the code and the previous explanation sit verbatim at fixed offsets; the length is the sum of the parts |
| Gemini.ExtractText | src/hooks/useGemini.js:157-167 | the guarded extraction succeeds exactly when there is a first candidate with a first part |
| Gemini.ParseResponse | src/hooks/useGemini.js:155-172 | fails, always with the same message, exactly when there is no first part; otherwise it returns that part's non-empty text, or the placeholder |
| Gemini.ParseSingleTextResponse | src/hooks/useGemini.js:167 | parsing the service's one-part answer gives the answer back (an empty answer becomes the placeholder) |
| Gemini.ParseRejectsNoCandidates | src/hooks/useGemini.js:157-159 | a body with no candidates, or an empty list of them, is rejected |
| Gemini.Attempt | src/hooks/useGemini.js:182-198 | an attempt succeeds exactly when the response is ok, and then yields its body. A non-ok response throws the body's `error.message` when it is truthy, and otherwise exactly `APIエラー (<status>): <statusText>`, with the status number right after `APIエラー (`. A failed fetch or JSON parse throws its own message; the timer throws the timeout message |
| Gemini.FetchFrom | src/hooks/useGemini.js:181-217 | from attempt `k`, the number of attempts lies between `k+1` and `MAX_RETRIES+1`, with one wait between consecutive attempts; so no more than `MAX_RETRIES` retries happen |
| Gemini.FetchFromWaits | src/hooks/useGemini.js:209-212 | wait `j` from attempt `k` on is `1000 * 2^(k+j)` ms |
| Gemini.FetchFromRetriedBeforeLast | src/hooks/useGemini.js:199-212 | every attempt before the last failed with a retryable error while retries remained |
| Gemini.FetchFromLast | src/hooks/useGemini.js:198-215 | the last attempt's body is returned, or its error, which was not one to retry |
| Gemini.FetchFromClosedForm | src/hooks/useGemini.js:199-215 | when attempts `i` to `k-1` are retried and attempt `k` is not, the result is attempt `k`'s, after `k+1` attempts and the waits `Backoff(i)` to `Backoff(k-1)` |
| Gemini.RetryableFailuresExhaustRetries | src/hooks/useGemini.js:199-215 | when every attempt fails retryably there are exactly 3 attempts, waits of 1000 and 2000 ms, and the third error escapes |
| Gemini.UnavailableIsRetryable | src/hooks/useGemini.js:190-206 | a 503 response without an error message yields an error that is retried |
| Gemini.IsRetryableByKeywords | src/hooks/useGemini.js:201-206 | an error is retryable exactly when its message contains one of `timeout`, `network`, `429`, `500`, `503` |
| Gemini.BackoffDoubles | src/hooks/useGemini.js:210 | the first wait is 1000 ms and each wait is twice the one before |
| Gemini.AlwaysUnavailableMakesThreeAttempts | src/hooks/useGemini.js:201-212 | a transport always answering 503 gets exactly 3 attempts, waits of 1000 and 2000 ms, and the 503 error |
| Gemini.NonRetryableFailsAtOnce | src/hooks/useGemini.js:213-215 | a non-retryable error escapes from the first attempt with no wait |
| Gemini.NotRetryableWithout | src/hooks/useGemini.js:201-206 | a message lacking `e`, `9` and `0` is never retried |
| Gemini.TimeoutMessageNotRetryable | src/hooks/useGemini.js:187 | the timeout message `APIリクエストがタイムアウトしました` matches none of the five retry keywords |
| Gemini.TimeoutIsNotRetried | src/hooks/useGemini.js:183-187 | a timed-out first attempt escapes at once with the timeout message |
| Gemini.ErrorBodyHidesStatus | src/hooks/useGemini.js:190-196 | a 503 whose body message mentions no keyword is not retried |
| Gemini.FetchWithRetry | src/hooks/useGemini.js:181-217 | the loop over the attempt counter computes exactly the recursive `FetchFrom` over the transport's attempt results, from attempt 0 |
| Gemini.RequestFor | src/hooks/useGemini.js:243-266 | topK 32, topP 0.95, 1000 output tokens. Temperature is 0.6 when regenerating, else 0.4. The prompt contains the code; when regenerating it also contains the previous result, otherwise it is the default explanation prompt |
| Gemini.PopupCallRegenerates | src/pages/Popup.jsx:33 | the popup's `'code'` argument is truthy, so its first request is a regenerate request at 0.6 whose previous result renders as `null` |
| Gemini.MissingKeyShowsGenericError | src/hooks/useGemini.js:237-240 | the missing-key error is shown with the generic prefix |
| Gemini.UnprocessableResponseShowsGenericError | src/hooks/useGemini.js:169-171 | a malformed response is shown with the generic prefix |
| Gemini.GeminiHook.constructor | src/hooks/useGemini.js:12-14 | not loading, no error, no result; prompts use the given wording |
| Gemini.GeminiHook.TranslateCode | src/hooks/useGemini.js:225-288 | empty code changes nothing and returns `undefined`. Otherwise loading ends false and a non-regenerate call clears the result. A failing or empty key lookup sends nothing and sets the formatted error. Otherwise the request is sent, and a fetch or parse error sets the formatted error and returns `null`, while success stores and returns the parsed text |
| Gemini.GeminiHook.ClearResult | src/hooks/useGemini.js:302 | clears only the result |
| Gemini.GeminiHook.ClearError | src/hooks/useGemini.js:303 | clears only the error |
| Records.PlatformStore.Get | src/utils/storage.js:34-48 | returns the stored value, or the store's read error |
| Records.PlatformStore.Save | src/utils/storage.js:12-27 | stores the value under the key, or throws and stores nothing |
| Records.PlatformStore.Remove | src/utils/storage.js:74-86 | deletes the key, or throws and deletes nothing |
| Storage.SettingsFrom | src/hooks/useStorage.js:34-49 | each setting is the stored value of its type when truthy, otherwise its default; so a loaded theme, font size, language mode and history limit are never falsy |
| Storage.LoadWithoutSettingsGivesDefaults | src/hooks/useStorage.js:34-40 | a store with every settings key missing or falsy loads as `''`, `dark`, 14, `simple`, 50 |
| Storage.SettingsRoundTrip | src/hooks/useStorage.js:34-49 | written settings reload unchanged iff theme, font size, language mode and history limit are all truthy |
| Storage.StorageHook.constructor | src/hooks/useStorage.js:10-21 | default settings, loading, no error |
| Storage.StorageHook.LoadSettings | src/hooks/useStorage.js:28-56 | on a readable store the mirror becomes the settings read with fallbacks and the error is cleared; on a failing one the mirror is kept and the load error set; loading ends false |
| Storage.WriteEntriesLookup | src/hooks/useStorage.js:184-186 | after a list of writes each key holds the last value written to it, or its old value |
| Storage.LastWrittenConcat | src/hooks/useStorage.js:184-186 | the last write of two lists comes from the second when it wrote the key |
| Storage.FilteredSettingsShape | src/hooks/useStorage.js:171-181 | `filteredSettings` holds one entry per defined field other than the API key, with that field's value, and no key twice |
| Storage.PatchEntriesShape | src/hooks/useStorage.js:166-186 | the writes of `updateAllSettings` put the API key first when it is defined, then one write per other defined field with its value; no key is written twice |
| Storage.LastWrittenOfWriteOf | src/hooks/useStorage.js:179-185 | one field's write puts a value under its own key only, and only when the field is defined |
| Storage.PatchValueDefined | src/hooks/useStorage.js:166-181 | the patch gives a key a value exactly when it is the key of a defined field |
| Storage.PatchEntriesLastWritten | src/hooks/useStorage.js:166-181 | the last value `updateAllSettings` writes under each key is the matching field's value; a key is written exactly when its field is defined |
| Storage.PatchWritesOnlyDefinedFields | src/hooks/useStorage.js:166-186 | keys of undefined fields keep their stored value; defined ones hold the new value |
| Storage.EmptyPatchChangesNothing | src/hooks/useStorage.js:171-189 | a patch with nothing defined writes nothing and leaves the mirror as it was |
| Storage.MergeIdempotent | src/hooks/useStorage.js:189 | merging the same patch twice is merging it once |
| Storage.Merge | src/hooks/useStorage.js:189 | seen as stored values, each settings key of the merged mirror takes the patch's value when the field is defined and keeps the old one otherwise |
| Storage.StoreAndMirrorAgree | src/hooks/useStorage.js:184-189 | reloading after the writes gives the old loaded settings merged with the patch, when the patch's values are truthy |
| Storage.SingleUpdatesArePatches | src/hooks/useStorage.js:66-154 | each single-field update writes and mirrors exactly what `updateAllSettings` does with only that field defined |
| Storage.StorageHook.WriteSetting | src/hooks/useStorage.js:66-78 | writes one key or, on failure, sets the given error; the mirror is untouched and loading ends false |
| Storage.StorageHook.UpdateApiKey | src/hooks/useStorage.js:66-78 | on success only the `apiKey` key and field change. On failure store and mirror are unchanged, the error is set and the store's error is re-raised |
| Storage.StorageHook.UpdateTheme | src/hooks/useStorage.js:85-97 | the same for `theme` |
| Storage.StorageHook.UpdateFontSize | src/hooks/useStorage.js:104-116 | the same for `fontSize` |
| Storage.StorageHook.UpdateLanguageMode | src/hooks/useStorage.js:123-135 | the same for `languageMode` |
| Storage.StorageHook.UpdateMaxHistoryItems | src/hooks/useStorage.js:142-154 | the same for `maxHistoryItems` |
| Storage.StorageHook.WriteAll | src/hooks/useStorage.js:184-186 | the writes are applied in order to a working store; a failing store throws on the first write and keeps its contents; an empty list never fails |
| Storage.StorageHook.UpdateAllSettings | src/hooks/useStorage.js:161-197 | With a working store, the defined fields are written in order and merged into the mirror. With a failing store and anything to write, nothing is written, the mirror is kept, the error is set and the store's error is re-raised. A patch with nothing defined never fails |
| Storage.PrependBounded | src/hooks/useStorage.js:207-222 | the stored list is a prefix of the new entry followed by the old list; it is that whole list below the limit, and never longer than a non-negative limit |
| Storage.PrependBoundedShape | src/hooks/useStorage.js:207-222 | the stored list is a prefix of the new entry followed by the old list. With limit `m >= 0` it has `min(old+1, m)` entries. With `m >= 1` the new entry is first and the old entries follow in order; with `m = 0` it is empty |
| Storage.PrependBoundedNegative | src/hooks/useStorage.js:220-222 | a negative limit `-k` keeps all but the last `k` entries |
| Storage.SaveAtLimitEvictsOldest | src/hooks/useStorage.js:219-222 | at the limit, saving drops exactly the oldest entry |
| Storage.StorageHook.SaveHistoryItem | src/hooks/useStorage.js:204-231 | stores the bounded prepend of the stamped entry using the mirror's limit; a failing read or write stores nothing, sets the error and re-raises |
| Storage.StorageHook.GetHistory | src/hooks/useStorage.js:237-245 | returns the stored list (`[]` when absent), or sets the error and re-raises |
| Storage.RemoveIdSpec | src/hooks/useStorage.js:258 | exactly the entries with another id survive, each as often as the list holds it, in their order |
| Storage.RemoveId | src/hooks/useStorage.js:258 | no entry with the removed id is left, and the list does not grow |
| Storage.RemoveIdIdempotent | src/hooks/useStorage.js:255-261 | removing an absent id changes nothing; removing twice is removing once |
| Storage.StorageHook.RemoveHistoryItem | src/hooks/useStorage.js:252-267 | stores the list without that id, or on failure stores nothing, sets the error and re-raises |
| Storage.ClearedHistoryReadsEmpty | src/hooks/useStorage.js:275 | after the `history` key is removed the history reads as `[]` |
| Storage.StorageHook.ClearHistory | src/hooks/useStorage.js:273-281 | removes the `history` key, or on failure removes nothing, sets the error and re-raises |
| Storage.StorageHook.ClearError | src/hooks/useStorage.js:387 | clears only the error |
| History.SearchSpec | src/hooks/useHistory.js:162-167 | a non-empty query selects exactly the entries whose text, explanation or language, lower-cased, contains the lower-cased query, each as often as the list holds it, in list order |
| History.Search | src/hooks/useHistory.js:159-168 | an absent or empty query gives the list itself; otherwise every entry returned matches the lower-cased query and the list does not grow |
| History.SearchWithoutQuery | src/hooks/useHistory.js:160 | an absent or empty query gives the list unchanged |
| History.SearchIgnoresQueryCase | src/hooks/useHistory.js:162 | lower-casing the query first changes nothing |
| History.SearchFindsContaining | src/hooks/useHistory.js:163-165 | an entry whose original text contains the query is found, whatever the case of the text |
| History.FavoritesSpec | src/hooks/useHistory.js:175 | the favourites are exactly the entries marked favourite, each as often as the list holds it, in list order |
| History.Favorites | src/hooks/useHistory.js:175 | every entry returned is a favourite and the list does not grow |
| History.ToggleById | src/hooks/useHistory.js:134-140 | same length and order; entries with that id have the flag flipped, all others are unchanged |
| History.ToggleTwice | src/hooks/useHistory.js:134-140 | toggling twice restores the list |
| History.ToggleFavoritesElsewhere | src/hooks/useHistory.js:134-140 | toggling an id does not change whether an entry with another id is a favourite |
| History.ToggleSavesHeadCopy | src/hooks/useHistory.js:145 | toggling an entry other than the first saves the first entry's fields unchanged |
| History.HistoryHook.constructor | src/hooks/useHistory.js:10-14 | empty list, loading, no error |
| History.HistoryHook.LoadHistory | src/hooks/useHistory.js:28-46 | the stored list replaces the local one, or on failure the list is kept and the load error set; loading ends false. The storage hook's settings and loading flag are kept, and its error becomes the read error exactly when the read fails |
| History.HistoryHook.AddHistoryItem | src/hooks/useHistory.js:53-79 | Without both texts, or when the store fails, nothing is stored, the list is kept and the error set, with no re-raise. Otherwise the store gets the bounded prepend and the local list gets exactly one new entry in front, untruncated. The storage hook's error becomes its save error exactly when a valid item meets a failing store; its settings and loading flag are kept |
| History.HistoryHook.DeleteHistoryItem | src/hooks/useHistory.js:86-101 | both lists lose the entries of that id and keep order; on failure nothing changes but the error, and the storage hook's error becomes its remove error. Its settings and loading flag are kept |
| History.HistoryHook.DeleteAllHistory | src/hooks/useHistory.js:107-122 | the key is removed and the local list emptied; on failure nothing changes but the error, and the storage hook's error becomes its clear error. Its settings and loading flag are kept |
| History.HistoryHook.ToggleFavorite | src/hooks/useHistory.js:129-152 | the local list is always toggled. The first entry of the toggled list (no fields when it is empty) is saved as a new stored entry, or the error is set and the storage hook's error becomes its save error. Its settings and loading flag are kept |
| History.HistoryHook.SearchHistory | src/hooks/useHistory.js:159-168 | the current list for an absent or empty query. Otherwise a subsequence of the list holding each matching entry as often as the list does and no other entry, which by `Sequences.FilterUnique` is exactly `history.filter` |
| History.HistoryHook.GetFavorites | src/hooks/useHistory.js:174-176 | a subsequence of the current list holding each favourite entry as often as the list does and no other entry, which by `Sequences.FilterUnique` is exactly `history.filter` |
| History.HistoryHook.ClearError | src/hooks/useHistory.js:188 | clears only the error |

## Left out

- Rendering, the components, the pages and the build configuration are presentation only.
  The popup is cited only for its call of `translateCode`.
- `src/utils/storage.js` is not part of this model. Its functions become `Records.PlatformStore`,
  which does not model the "Chrome API not available" branches: `getData` returning `null` and
  `removeData` returning without effect.
- `getStorageData`, `saveStorageData`, `setItem` and `getItem` are direct callbacks into
  `chrome.storage.sync`/`local`, which is outside the model.
- The mount effect of `useStorage.js` (lines 284-304) calls `getStorageData`, which replaces the
  settings mirror with whatever sync storage holds. So in the real hook, the mirror that
  `loadSettings` builds, and the `maxHistoryItems` limit that `saveHistoryItem` reads from it, can
  be overwritten. The model does not include that effect.
- Real time is not modelled: `sleep`, the `withTimeout` race and the `setTimeout` backoff. A timeout
  is a transport outcome (`TimedOut`), and each backoff is the returned wait value.
  `RequestTimeoutMs` only records the constant.
- `fetch`, the URL with the key, the headers, `JSON.stringify` of the body and `response.json()` are
  left out. The request is the record `GenerationRequest`, the response the datatype `ResponseBody`,
  and a failed JSON parse is a `Thrown` outcome.
- Gemini.Attempt: a non-ok response whose JSON body is `null` makes `errorData.error` throw a
  `TypeError` in the source; the model gives such a response the status-line message instead, as for
  a body without `error`.
- Concurrency is not modelled: React state batching, several hook instances sharing a store, the
  unlocked read-modify-write of `history`, and the parallel writes of `Promise.all`.
- Console logging has no bearing on behaviour and is left out.
- Gemini.GeminiHook.constructor: the hook takes the prompt wording as an argument, where the source
  fixes it. With `SourceWording` it builds the extension's prompts; the properties hold for any wording.
- `processMarkdown` returns its argument, so `TranslateCode` uses the parsed text directly.
- Strings.Lower: `toLowerCase` maps only ASCII `A`-`Z`, because full Unicode case mapping is outside the model.
- Storage.SettingsFrom: a stored value of the wrong type under a settings key (a number under
  `theme`, say) loads as the default. JavaScript would load it as it is. The model's writers never store one.
- Storage.StoredHistory: a non-array value under `history` reads as `[]`, where JavaScript would return it.
- Records.PlatformStore: the read and write failures are fixed for a store's lifetime. A store that
  fails only some calls is not modelled. As a result, a store that fails writes does so on the first
  write, so a partly applied `updateAllSettings` never arises.
- Gemini.TypeHint: a type naming an `Object.prototype` member (such as `toString`) would select that
  member in JavaScript. The model treats it as unknown.
- Settings' `fontSize` is modelled as a number, following its default of 14. Its documentation
  mentions names such as `small`, but no caller passes one.
