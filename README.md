# AutoU email classifier client — a Dafny model of its state and decision logic

This project models the client-side logic of a browser front end for an
email-classification service. Three parts hold state:

- the **local result store** (`useEmailStore`): a persisted cache of results, newest first, at most 50 entries, with statistics recomputed from it;
- the **remote access layer** (`APIClient`): it builds requests, merges headers and turns every failure into an `Error` with a message;
- the **remote-data hooks** (`useEmailHistory`, `useSystemStats`): each holds fetched data, a loading flag and an error message.

The other parts decide things:

- the **submission flow** of the upload section;
- the **filtering, counting and export** of the history view;
- the **text helpers** (trim, truncate, validate, relative time);
- the **theme cycle** of the header.

The local store and the remote history are separate read models. Nothing
merges them. The history view reads only the remote hook. The submission
flow writes only the local store.

Modules, one per source file:

- `Wrappers`, `Seqs` and `Domain` hold shared values (Option, Result, thrown values, an order-preserving `Filter`, classifications, files, the confidence percentage).
- `EmailStore` is `class Store`, with the invariant `Valid()`: `stats == ComputeStats(history) && |history| <= 50`.
- `Api` is `class APIClient`. `fetch` is a function parameter from the request sent to a `FetchOutcome`: ok with a body, not ok with status, status text and maybe a parsed body, or a thrown value.
- `Hooks` holds `EmailHistoryHook` and `SystemStatsHook`. Each fetch is split at its `await` into `BeginFetch` and `CompleteFetch`.
- `Upload` is `class UploadSection` over the shared store.
- `HistoryView` and `Header` are pure functions.

Four points of the code's behaviour that are easy to get wrong:

- Transport failures are not a separate error kind. An `Error` raised by `fetch` itself is rethrown unchanged; only a thrown value that is not an `Error` becomes "Erro de rede: …" (`Api.Normalize`).
- There are no separate validation, server or parse error kinds. Every failure of the API layer is one `Error` carrying a message.
- `addResult` is not one atomic update. It sets `currentResult` and `history` first and the statistics afterwards, in `updateStats`. `Valid()` holds when each operation returns, not between the two updates.
- Lengths are JavaScript `.length` values, counted in UTF-16 code units (`Utils.Utf16Length`): a character outside the Basic Multilingual Plane, such as an emoji, counts two. This applies to truncation, to the validation thresholds and to the character count of the text box.

## Model

| member | source | states |
|---|---|---|
| `Wrappers.MessageOr` | src/hooks/useAPIData.ts:23 | a caught `Error` yields its message, any other value the fallback text |
| `Seqs.Filter` | src/store/email-store.ts:90-92 | the result is no longer than the input and holds exactly the input's elements that pass the test |
| `Seqs.FilterConcat` | src/store/email-store.ts:82 | filtering distributes over concatenation, so survivors keep their relative order |
| `Seqs.FilterAll` | src/store/email-store.ts:82 | when every element passes, filtering returns the input unchanged |
| `Seqs.FilterPartition` | src/store/email-store.ts:89-93 | the elements kept by a test plus those kept by its negation number exactly the whole sequence |
| `Seqs.FilterMapLength` | src/components/sections/history-section.tsx:18-26 | two same-length sequences judged alike position by position give filters of equal length |
| `Seqs.WithoutKey` | src/store/email-store.ts:80-85 | `filter(item => item.id !== id)`: exactly the elements whose key differs are kept; when no element has that key, the sequence is unchanged |
| `Seqs.WithoutKeyConcat` | src/hooks/useAPIData.ts:43-45 | removal by key treats each part of a sequence independently, so the remaining entries keep their order |
| `Utils.Trim` | src/lib/utils.ts:104 | `trim()` is the slice from the first non-whitespace character to the last one: everything before and after it is JavaScript whitespace, and the slice starts and ends with non-whitespace; it is empty iff every character is whitespace |
| `Utils.Utf16Length` | src/lib/utils.ts:19 | `.length` counts UTF-16 code units: between one and two per character |
| `Utils.Utf16LengthConcat` | src/lib/utils.ts:19-20 | the `.length` of a concatenation is the sum of the lengths |
| `Utils.Utf16LengthOfBmp` | src/lib/utils.ts:19 | for text without characters beyond U+FFFF, `.length` is the number of characters |
| `Utils.Utf16Prefix` | src/lib/utils.ts:20 | the longest run of whole leading characters whose `.length` fits in m code units |
| `Utils.FirstIndexOf` | src/components/sections/history-section.tsx:55 | the position of the first occurrence of a character, or the length when there is none |
| `Utils.TruncateText` | src/lib/utils.ts:18-21 | a text whose `.length` fits comes back unchanged; a longer one becomes a prefix of itself followed by "...", the prefix being maxLength code units long (0 for a negative maxLength), or one unit shorter when the cut would fall inside a surrogate pair; the result is at most maxLength+3 units long |
| `Utils.TruncateCountsCodeUnits` | src/lib/utils.ts:18-21 | `truncateText("😀😀", 2)` is "😀...": the first emoji already uses both code units |
| `Utils.ValidateEmailContent` | src/lib/utils.ts:100-117 | valid iff the trimmed `.length` is ≥ 10 and the `.length` is ≤ 10000, and then there is no error; blank content gets the "vazio" message first, short trimmed content the minimum message, overlong content the maximum message |
| `Utils.FiveEmojiAreLongEnough` | src/lib/utils.ts:108 | five emoji are ten code units long, so they pass the minimum-length rule |
| `Utils.RelativeAge` | src/lib/utils.ts:33-57 | with s = floor(ms/1000): "just now" iff s<60, minutes iff 60≤s<3600 (n = s/60), hours iff s<86400 (n = s/3600), days iff s<604800 (n = s/86400), the absolute date otherwise |
| `Utils.RelativeAgeMonotone` | src/lib/utils.ts:33-57 | a longer elapsed time never gets a younger bucket, and within a bucket the count never decreases |
| `Utils.FormatRelativeTime` | src/lib/utils.ts:33-57 | each bucket renders as "Agora mesmo", "<n> min atrás", "<n>h atrás", "<n>d atrás" or the formatted date |
| `Utils.NatToString` | src/lib/utils.ts:43 | the rendering of a number is a non-empty string of decimal digits, with no leading zero unless it is 0 |
| `Utils.IntToString` | src/lib/api.ts:130 | `limit.toString()`: the digits, with a minus sign in front for a negative number |
| `Utils.NatToStringRoundTrip` | src/lib/utils.ts:43 | reading the decimal rendering of n back gives n |
| `Utils.IntToStringInjective` | src/lib/api.ts:130 | distinct limits give distinct query values |
| `Domain.ConfidencePercent` | src/components/sections/upload-section.tsx:103 | `Math.round(confidence*100)` is the integer within one half of 100·confidence, halves rounding up; a confidence in [0,1] gives 0..100 |
| `EmailStore.RoundedMean` | src/store/email-store.ts:94-100 | `Math.round(sum/n)`: r satisfies n(2r−1) ≤ 2·sum < n(2r+1) |
| `EmailStore.SumConfidence` | src/store/email-store.ts:97 | the `reduce` of the confidences: a sum of percentages lies in [0, 100·n] |
| `EmailStore.ComputeStats` | src/store/email-store.ts:87-109 | total = length; productive = number of productive entries; unproductive = number of unproductive entries; productive + unproductive = total; the average is 0 for an empty history, else the rounded mean |
| `EmailStore.Prepend` | src/store/email-store.ts:63 | the new result comes first, older entries shift back by one, and the length is min(50, old length + 1) |
| `EmailStore.Store.constructor` | src/store/email-store.ts:46-56 | the initial state is valid: empty history, zero stats, nothing in progress, no input |
| `EmailStore.Store.Rehydrate` | src/store/email-store.ts:117-121 | a reload restores history and stats from the snapshot and resets `isProcessing`, `currentResult`, `currentFile`, `currentText`; the store is valid iff the snapshot is consistent |
| `EmailStore.Store.Partialize` | src/store/email-store.ts:117-121 | exactly history and stats are persisted, and a valid store gives a consistent snapshot |
| `EmailStore.Store.SetProcessing` | src/store/email-store.ts:58 | sets only `isProcessing` |
| `EmailStore.Store.UpdateStats` | src/store/email-store.ts:87-110 | the stats computed as `total − productive` equal those counted from `history` |
| `EmailStore.Store.AddResult` | src/store/email-store.ts:60-66 | keeps `Valid()`; `currentResult` is the new result; history = Prepend(old history, result) |
| `EmailStore.Store.ClearHistory` | src/store/email-store.ts:68-78 | keeps `Valid()`; history is empty, all four stats are zero; the transient fields are outside its frame |
| `EmailStore.Store.RemoveFromHistory` | src/store/email-store.ts:80-85 | keeps `Valid()`; history = WithoutKey(old history, id); an absent id changes neither history nor stats |
| `EmailStore.Store.SetCurrentFile` | src/store/email-store.ts:112 | sets only the pending file |
| `EmailStore.Store.SetCurrentText` | src/store/email-store.ts:113 | sets only the pending text |
| `EmailStore.Store.ClearCurrentInput` | src/store/email-store.ts:114 | resets exactly the pending file (null) and text ("") |
| `EmailStore.Reload` | src/store/email-store.ts:117-121 | persisting a valid store and reloading it gives a valid store with the same history and stats and default transient fields |
| `EmailStore.AddAllKeepsNewest` | src/store/email-store.ts:63 | adding results one by one keeps the newest 50 of (results reversed, then the old history) |
| `EmailStore.FiftyOneAdds` | src/store/email-store.ts:63 | after 51 distinct adds to an empty store, 50 remain, the first one is gone, and the rest are there newest first |
| `EmailStore.RoundedMeanWithin` | src/store/email-store.ts:94-100 | a rounded mean stays within any integer bounds of the values averaged |
| `EmailStore.AverageIsPercentage` | src/store/email-store.ts:94-100 | when every confidence is a percentage, so is `averageConfidence` |
| `EmailStore.TwoResultsScenario` | src/store/email-store.ts:87-109 | confidences 91 (productive) and 40 (unproductive) give stats {2, 1, 1, 66} |
| `EmailStore.ZeroStatsOfEmpty` | src/store/email-store.ts:68-78 | the zeros `clearHistory` writes are exactly the stats of an empty history |
| `Api.ApiBaseUrl` | src/lib/api.ts:6 | a set, non-empty environment URL is used; otherwise "http://localhost:8000/api/v1" |
| `Api.Normalize` | src/lib/api.ts:75-94 | success iff the response was ok, returning its body; every failure is an `Error`; an unparsable error body gives "Erro HTTP s: text"; a parsed body gives its truthy `error` or "Erro HTTP s"; a thrown `Error` is rethrown unchanged; a non-`Error` becomes the network message |
| `Api.NetworkMessageIsDistinct` | src/lib/api.ts:83-93 | the network message never equals a status-derived message |
| `Api.HistoryParams` | src/lib/api.ts:128-136 | `limit` always comes first; `classification` is appended iff given; every key and value is made of characters the query encoder leaves as they are |
| `Api.QueryString` | src/lib/api.ts:135 | `params.toString()` is `key=value` pairs joined by `&`; it is empty iff there are no parameters |
| `Api.QueryStringRoundTrip` | src/lib/api.ts:129-135 | for unreserved keys and values, reading the query back at `&` and `=` gives exactly the parameters, in order |
| `Api.HistoryEndpoint` | src/lib/api.ts:128-136 | the query is "limit=N", or "limit=N&classification=c" when a classification is given |
| `Api.APIClient.constructor` | src/lib/api.ts:57-59 | the client keeps the base URL it is given |
| `Api.APIClient.Request` | src/lib/api.ts:61-95 | the URL is base + endpoint; caller-supplied headers replace the JSON default entirely, absent ones give the JSON default; method and body pass through; the result is Normalize of the fetch outcome |
| `Api.APIClient.HealthCheck` | src/lib/api.ts:98-100 | GET base+"/health" with JSON headers |
| `Api.APIClient.AnalyzeText` | src/lib/api.ts:103-108 | POST base+"/analyze" with JSON headers and the `{content, file_name}` body |
| `Api.APIClient.AnalyzeFile` | src/lib/api.ts:111-120 | POST base+"/analyze/file" with an empty header map (no Content-Type) and the multipart file |
| `Api.APIClient.GetAnalysis` | src/lib/api.ts:123-125 | GET base+"/analysis/"+id |
| `Api.APIClient.GetHistory` | src/lib/api.ts:128-136 | GET base+"/history?"+ the query of HistoryParams; the limit defaults to 50 and the classification to none |
| `Api.APIClient.GetStats` | src/lib/api.ts:139-141 | GET base+"/stats" |
| `Api.APIClient.ClearHistory` | src/lib/api.ts:144-148 | DELETE base+"/history" with JSON headers |
| `Api.DefaultClient` | src/lib/api.ts:152 | the singleton client uses the resolved base URL |
| `Api.AnalyzeEmail` | src/lib/api.ts:155-157 | delegates to AnalyzeText with the content and optional file name |
| `Api.AnalyzeEmailFile` | src/lib/api.ts:159-161 | delegates to AnalyzeFile |
| `Api.GetEmailHistory` | src/lib/api.ts:163-165 | asks for "/history?limit=N", never filtered by classification; the limit defaults to 50 |
| `Api.GetSystemStats` | src/lib/api.ts:167-169 | delegates to GetStats |
| `Api.ClearEmailHistory` | src/lib/api.ts:171-173 | succeeds iff the DELETE was ok; otherwise fails with the normalised error |
| `Api.CheckAPIHealth` | src/lib/api.ts:175-182 | true iff the health request succeeded and reported "healthy"; every failure gives false and nothing escapes |
| `Hooks.ApiFailuresShowTheirMessage` | src/hooks/useAPIData.ts:22-25 | for failures from the API layer, the message shown is the error's own, never the fallback |
| `Hooks.EmailHistoryHook.constructor` | src/hooks/useAPIData.ts:11-13 | the initial state is empty history, not loading, no error |
| `Hooks.EmailHistoryHook.BeginFetch` | src/hooks/useAPIData.ts:16-17 | before the request: loading, error cleared |
| `Hooks.EmailHistoryHook.CompleteFetch` | src/hooks/useAPIData.ts:19-28 | loading is released; success replaces the history; failure keeps it and records the message (or the fallback) |
| `Hooks.EmailHistoryHook.FetchHistory` | src/hooks/useAPIData.ts:15-29 | after a request for 50 entries: success gives that data and no error; failure keeps the old history and shows the API's message |
| `Hooks.EmailHistoryHook.ClearHistory` | src/hooks/useAPIData.ts:31-41 | the history is emptied only if the server DELETE was ok; otherwise it is untouched and the failure message is returned; loading and error are outside its frame |
| `Hooks.EmailHistoryHook.RemoveFromHistory` | src/hooks/useAPIData.ts:43-45 | the local list = WithoutKey(old list, id); no request is made |
| `Hooks.SystemStatsHook.constructor` | src/hooks/useAPIData.ts:62-64 | the initial state is no stats, not loading, no error |
| `Hooks.SystemStatsHook.BeginFetch` | src/hooks/useAPIData.ts:67-68 | before the request: loading, error cleared |
| `Hooks.SystemStatsHook.CompleteFetch` | src/hooks/useAPIData.ts:70-79 | loading is released; success replaces the stats; failure keeps them and records the message (or the fallback) |
| `Hooks.SystemStatsHook.FetchStats` | src/hooks/useAPIData.ts:66-80 | after the stats request: success gives the data and no error; failure keeps the old stats and shows the API's message |
| `Upload.HasAcceptedExtension` | src/components/sections/upload-section.tsx:35 | a name matches `/\.(txt|pdf)$/i` iff it ends in a dot followed by "txt" or "pdf" in any letter case |
| `Upload.ExtensionIgnoresCase` | src/components/sections/upload-section.tsx:35 | any name ending in ".txt" or ".pdf", in any letter case, passes the extension check |
| `Upload.OtherExtensionsRefused` | src/components/sections/upload-section.tsx:35 | a name whose fourth-from-last character is not '.' is refused |
| `Upload.ProcessStep` | src/components/sections/upload-section.tsx:85-97 | file tab with a file → send the file; text tab with non-empty valid text → send the text; non-empty invalid text → the validation message; otherwise no content |
| `Upload.CanProcess` | src/components/sections/upload-section.tsx:129-130 | on the file tab, enabled iff a file is chosen; on the text tab, enabled iff validation passes or fails only because the text is too long |
| `Upload.CanProcessMeansRequest` | src/components/sections/upload-section.tsx:129-130 | an enabled button leads to a request unless the text is over 10000 code units, and every request comes from an enabled state |
| `Upload.ResultFrom` | src/components/sections/upload-section.tsx:99-108 | id, classification, suggested response, timestamp and file name come from the response; confidence is its percentage; the content is the text on the text tab, else the file name or "Arquivo"; the file type is the chosen file's type, or none |
| `Upload.UploadSection.constructor` | src/components/sections/upload-section.tsx:27-29 | the file tab is active and the character count is 0 |
| `Upload.UploadSection.SetActiveTab` | src/components/sections/upload-section.tsx:27 | switches the tab |
| `Upload.UploadSection.OnDrop` | src/components/sections/upload-section.tsx:31-52 | an empty drop does nothing; only the first file is examined; it is loaded iff its extension is accepted and its size is ≤ 5 MiB (exactly 5 MiB passes); a rejected file leaves the current file unchanged |
| `Upload.UploadSection.HandleTextChange` | src/components/sections/upload-section.tsx:67-71 | stores the text and sets the count to its `.length` in code units |
| `Upload.UploadSection.HandleClear` | src/components/sections/upload-section.tsx:73-77 | the file becomes null, the text "", the count 0 |
| `Upload.UploadSection.HandleProcess` | src/components/sections/upload-section.tsx:79-127 | `isProcessing` is false on every exit and the store stays valid; the request sent follows ProcessStep; invalid or missing content sends nothing and changes nothing; success adds the built result once and clears the input; an API failure adds nothing, keeps the input and reports "Erro: <message>" |
| `Upload.UploadSection.ProcessEnabled` | src/components/sections/upload-section.tsx:290 | the button is never enabled while a request is in flight, and pressing an enabled button either sends a request or reports the text as too long |
| `HistoryView.AdaptHistory` | src/components/sections/history-section.tsx:18-26 | same length and order, with the same ids, contents, classifications, suggested responses, timestamps and file names; confidence becomes a percentage |
| `HistoryView.FilteredHistory` | src/components/sections/history-section.tsx:28-30 | "all" gives the items unchanged; another filter keeps exactly the items of that classification, in order |
| `HistoryView.FilterTabs` | src/components/sections/history-section.tsx:64-76 | the "all" count is the length, and the productive and unproductive counts add up to it |
| `HistoryView.ShownMatchesCount` | src/components/sections/history-section.tsx:28-76 | the shown list is as long as the count of the selected filter |
| `HistoryView.CountsFollowHistory` | src/components/sections/history-section.tsx:18-26 | the productive count of the adapted list equals the productive count of the hook's history |
| `HistoryView.ExportHistory` | src/components/sections/history-section.tsx:36-53 | refused iff there is no history; otherwise totalItems = length, and one entry per item with the same id, classification, confidence, timestamp and file name, whose `contentPreview` = truncateText(content, 100), at most 103 code units |
| `HistoryView.DatePart` | src/components/sections/history-section.tsx:55 | `split('T')[0]`: the prefix up to the first 'T', or the whole string when there is none |
| `HistoryView.ExportFileName` | src/components/sections/history-section.tsx:55 | the file name is "autou-email-history-", then a part holding no 'T', then ".json" |
| `HistoryView.ExportFileNameOfIso` | src/components/sections/history-section.tsx:55 | for a timestamp `date + "T" + time`, the file is named "autou-email-history-" + date + ".json" |
| `HistoryView.Render` | src/components/sections/history-section.tsx:78-151 | loading shows the spinner before anything else; when not loading, an empty history renders nothing; otherwise the filtered items are listed when there are any, and else the filter's empty title is shown, which can happen only for a non-"all" filter |
| `Header.IndexOf` | src/components/layout/header.tsx:19 | `indexOf` gives −1 iff the value is absent, else the first position holding it |
| `Header.CycleTheme` | src/components/layout/header.tsx:17-22 | the next theme is always one of the three and always differs from the current one |
| `Header.CycleOrder` | src/components/layout/header.tsx:18-21 | light → dark → system → light |
| `Header.ThreeCyclesReturn` | src/components/layout/header.tsx:18-21 | three presses bring every listed theme back to itself |
| `Header.UnknownThemeGoesToLight` | src/components/layout/header.tsx:19-21 | a value outside the list (index −1) goes to "light" |

## Left out

- Rendering, animation and styling are left out: JSX, framer-motion, Tailwind classes, `cn`. So are the layout, page, footer, hero, button, results and stats sections, and the loading overlay's timer.
- Toasts are left out. What they would report is kept as a returned value: `ProcessOutcome`, `DropOutcome`, and the failure message of the hook's `ClearHistory`.
- `fetch`, `response.json()`, `JSON.stringify` and `FormData` are not modelled as code. They become the `FetchOutcome` parameter and the `Payload` datatype.
- An error body that parses to JSON `null` is not modelled. There, `errorData.error` would itself throw a `TypeError`, which would then be rethrown.
- `URLSearchParams` percent-encoding is not modelled. `QueryString` joins the raw pairs. `HistoryParams` proves that every character in them is one the encoder leaves unchanged.
- zustand's `persist` serialisation and localStorage are left out. Only the `partialize` projection and the merge on reload are modelled. Both decoding failures and write failures are outside the model.
- Concurrency is left out. Two in-flight fetches of one hook racing each other are not modelled. Neither is a subscriber observing `addResult` between its two updates.
- `Domain.ConfidencePercent`: it multiplies by 100 exactly on reals. The IEEE rounding of `confidence * 100` is not modelled.
- `formatFileSize` (logarithms and `toFixed`) is left out because it is floating point.
- `formatDate` (`Intl.DateTimeFormat`) is a string parameter of `FormatRelativeTime`.
- The clock is a parameter: `formatRelativeTime` takes elapsed milliseconds, and the export takes the ISO "now" string.
- Dates are kept as their ISO strings, because `new Date(...)` parsing is not modelled.
- `generateId`, `downloadAsJson` and `extractTextFromFile` are left out. They hold randomness, Blob/DOM calls and FileReader, and none of them is core state.
- The `useEffect` mount calls are left out. Each hook's first fetch is the caller's first `FetchHistory` / `FetchStats`.
- The theme provider and `setTheme` are left out. `CycleTheme` gives the value passed to it.
- The dropzone's own `accept`/`maxFiles` filtering and drag state are left out. `OnDrop` receives the files it would have passed on.
- The `try`/`catch` around `setCurrentFile` in `onDrop` is left out, because that call cannot throw.
- Upload.HasAcceptedExtension folds only ASCII letters. That is what the `/i` flag does for this pattern.
- Utils.TruncateText: when the cut at maxLength code units falls inside a surrogate pair, JavaScript keeps the lone high surrogate. The model cuts before the whole character, because a Dafny `char` cannot hold a lone surrogate.
- The export payload's date and the file name come from two separate `new Date()` readings. They are two separate string parameters (`ExportHistory`'s `exportDate` and `ExportFileName`'s `isoNow`).
