# Fast.com clone front end: translator and speed-test sequencer

This Dafny project models the two controllers of a browser front end that
simulates a network speed test and switches its UI text between English
and Italian.

- `language.dfy`, module `Language`, models `LanguageManager` of
  `js/language.js`:
  - locale validation against the supported set `['en', 'it']`;
  - the per-language catalog cache and its fallback ladder when a language
    file fails to load;
  - the total `translate(key)` lookup;
  - the rewrite of the elements tagged with `data-i18n`;
  - the choice of the initial language;
  - the more-info toggle handler.
- `speedtest.dfy`, module `Speed`, models `SpeedTest` of
  `js/speedtest.js`:
  - the four-field result record and the `isRunning` flag;
  - the fixed phase pipeline: unloaded latency, download, show result,
    upload, loaded latency, refresh all;
  - the error path through `handleError`;
  - `restart`.
- `wrappers.dfy` holds `Option`.

Each controller is written twice, on purpose:

- **As values.** The datatypes `Language.Page` and `Speed.Screen` hold the
  state. Functions such as `AfterSetLanguage`, `Render`, `Run` and
  `HandleErrorOn` say what every operation does to it. The lemmas about
  these functions state the properties.
- **As classes.** `Language.LanguageManager`, `Language.MoreInfoPanel` and
  `Speed.SpeedTest` hold the source's fields. Their methods keep the
  source's loops and branches, and each method is proved to produce exactly
  the state its value-level function describes.

The outside world is passed in:

- `fetch` plus `response.json()` is an oracle `string -> Option<Catalog>`.
- `localStorage['preferredLanguage']` is the field `preferred`.
- `navigator.language` is an `Option<string>`. `None` stands for a missing
  value, where `split` throws and the `catch` chooses English.
- Every `Math.random()` draw is a `real` parameter in `[0, 1)`.
- A ping whose attempt throws is a `None` entry in the ping draws.
- The download sampler sees the elapsed seconds at each interval tick, and
  these are passed in as a sequence.

JavaScript truthiness is kept:

- A catalog counts as loaded as soon as it is cached, even if it is empty
  (`Language.AfterSetLanguage`).
- A translation that is the empty string counts as missing
  (`Language.HasText`).

What the model shows about the code as written:

- The download phase always ends at exactly the 0.1 Mbps floor.
  `totalBytesDownloaded` starts at 0 and nothing adds to it: the simulated
  connections' byte counts are never collected. So every sample reads 0
  (`Speed.SampledReadsZero`), and the floor replaces it
  (`Speed.DownloadEndsOnFloor`, `Speed.CompleteRunResults`). While the
  upload and loaded-latency phases run, the download display shows 0.
- Suppose an Italian load fails while English is cached. English becomes
  current, but the Italian button stays marked active, and neither the
  preference nor `<html lang>` is written (`Language.FallbackToCachedEnglish`).
- `updateTranslations` labels the more-info button from the current catalog
  or from literal defaults. The click handler labels it through `translate`,
  which falls back to English and then to the key. The two can disagree:
  on an English page whose catalog lacks `show-more`, the first writes
  `'SHOW MORE INFO'` and the second writes `'show-more'`
  (`Language.CaptionSourcesDisagree`).
- After `restart`, a run whose first phase fails shows the error state with
  download `'0'`. The upload and latency displays keep the previous run's
  text (`Speed.FailedFirstPhase`).

Further facts about the code that the model follows:

- No phase of a run can fail as written. The download phase never awaits
  the promises of its connections (js/speedtest.js:114-116). The `try` of
  the upload phase wraps only a random draw and a timer
  (js/speedtest.js:187-198). The model gives these two phases no error path.
- The `try` around each ping wraps only `Math.random` and `setTimeout`
  (js/speedtest.js:220-234), so every ping succeeds and `successfulTests`
  ends at 5. The throw at js/speedtest.js:252 and the call to `handleError`
  are therefore unreachable. The model keeps that path: a `None` entry in
  the ping draws stands for a ping whose attempt throws. With every ping
  answered, every run is the full pipeline and `handleError` never runs
  (`Speed.EveryPingAnsweredCompletesRun`).
- On error, `showError` writes `'0'` only into the download display
  (js/speedtest.js:276-282). The upload and latency displays keep their
  text.
- Re-selecting a language changes nothing the second time in three cases:
  - its catalog is cached or loads (`Language.ReselectIsIdempotent`);
  - its load fails and English is cached, with the network answering as
    before (`Language.ReselectAfterCachedFallback`);
  - English cannot load either, with the network answering as before
    (`Language.ReselectAfterEnglishFailure`).
- It does change something in the remaining case: a non-English load fails
  with nothing cached, and the English retry loads. The second call finds
  English cached, takes the cached fallback, and marks the requested
  language's button active again instead of the English one
  (`Language.ReselectAfterRetryMovesButtons`).

## Model

| member | source | states |
|---|---|---|
| `Language.Resolve` | js/language.js:74-77 | the resolved code is always supported; it equals the requested code exactly when that code is supported, and is `'en'` otherwise |
| `Language.Lookup` | js/language.js:171-183 | `translate`: the current catalog's non-empty text is returned when there is one; otherwise English's non-empty text when there is one; otherwise the key; a non-empty key never yields an empty string |
| `Language.Translated` | js/language.js:139-144 | the element loop keeps every element's key and count; an element whose key has a non-empty text takes it; every other element is unchanged (no blanking) |
| `Language.MarkButtons` | js/language.js:80-86 | exactly the buttons whose `data-lang` equals the language are active; no button is added or renamed |
| `Language.MoreInfoCaption` | js/language.js:150-158 | the more-info label follows the expanded state: the catalog's `show-less`/`show-more` text when non-empty, otherwise `'SHOW LESS INFO'`/`'SHOW MORE INFO'`; never empty |
| `Language.InitialChoice` | js/language.js:36-46 | the startup code is always supported; a supported saved preference wins; otherwise a supported primary subtag of the browser language; otherwise `'en'` |
| `Language.BrowserChoice` | js/language.js:51-66 | `detectBrowserLanguage` picks the resolved primary subtag of the browser language, and `'en'` when the language is missing (the `catch`) |
| `Language.PrimarySubtag` | js/language.js:53 | `split('-')[0]`: a hyphen-free prefix of the string that ends at its first hyphen or at its end |
| `Language.PrimarySubtagUnique` | js/language.js:53 | any hyphen-free prefix that ends at a hyphen or at the end of the string is the primary subtag |
| `Language.Render` | js/language.js:131-164 | `updateTranslations` with a catalog for the current language rewrites the tagged elements from it, sets the more-info label from it and the expanded state, and takes its non-empty `page-title` as the title (keeping the old title otherwise); nothing else changes; without a catalog nothing changes at all |
| `Language.AfterSetLanguage` | js/language.js:72-126 | `setLanguage` ends with the requested language (resolved), English, or the old language current; the preference and `<html lang>` are unchanged or the new current language; no catalog is dropped; the number of buttons and of elements and the expanded state are kept |
| `Language.Fetches` | js/language.js:88-111 | one call asks the network at most twice, and the first request is for the resolved language |
| `Language.RegionalBrowserLocale` | js/language.js:36-66 | `it-IT` with nothing saved selects `it`; an unsupported saved `fr` falls through to the browser; a saved `it` beats `en-US`; `de-DE` falls back to `en` |
| `Language.SetLanguageKeepsSupported` | js/language.js:72-126 | whatever is requested and whatever the network answers, the current language stays `en` or `it` and only those are cached |
| `Language.UnsupportedActsAsEnglish` | js/language.js:74-77 | requesting an unsupported code has exactly the effect, and makes exactly the requests, of requesting `'en'` |
| `Language.CachedCatalogsNeverChange` | js/language.js:88-95 | a cached catalog is never replaced or dropped; every newly cached language is one that was fetched |
| `Language.FetchesOnlyWhatIsMissing` | js/language.js:88-111 | only uncached supported languages are fetched; no language is fetched twice in one call; at most two fetches happen (the single English retry); a cached language is never fetched |
| `Language.SuccessCommits` | js/language.js:115-125 | when the language is cached or loads: it becomes current, the preference and `<html lang>` become it, its catalog is cached unchanged, the elements and label are rendered from it, and its button is active |
| `Language.FallbackToCachedEnglish` | js/language.js:99-103 | a failed non-English load with English cached makes English current and renders it, leaves the preference, `<html lang>` and the cache unchanged, keeps the requested button active, and fetches once |
| `Language.MarkButtonsLastWins` | js/language.js:80-86 | marking buttons twice leaves the second language's buttons active, as marking once for it does |
| `Language.RetryEnglishOnce` | js/language.js:104-107 | a failed non-English load with nothing cached is exactly one `setLanguage('en')` (two fetches in all); if English also fails, only the buttons change; if it loads, English becomes current and stored |
| `Language.EnglishFailureChangesOnlyButtons` | js/language.js:108-111 | when English itself cannot load, nothing but the button highlight changes, the current language included |
| `Language.TranslatedIdempotent` | js/language.js:139-144 | rewriting the tagged elements a second time with the same catalog changes nothing |
| `Language.RenderIdempotent` | js/language.js:131-164 | `updateTranslations` run twice has the effect of running it once |
| `Language.ReselectIsIdempotent` | js/language.js:72-126 | re-selecting a language whose catalog is cached or loads changes nothing the second time |
| `Language.ReselectAfterCachedFallback` | js/language.js:99-103 | after a failed non-English load with English cached, selecting the same language again, with the network answering as before, changes nothing |
| `Language.ReselectAfterEnglishFailure` | js/language.js:108-111 | when both the language and English fail to load, selecting the same language again, with the network answering as before, changes nothing |
| `Language.ReselectAfterRetryMovesButtons` | js/language.js:99-111 | after a failed non-English load whose English retry loads, selecting the same language again differs from the first result exactly in the buttons, which go back to the requested language; it differs whenever such a button exists |
| `Language.CaptionSourcesDisagree` | js/language.js:150-158 | on an English page whose catalog lacks `show-more`, `updateTranslations` labels the collapsed button `'SHOW MORE INFO'` while a click handler collapsing it writes `'show-more'` |
| `Language.RenderAgreesWithLookup` | js/language.js:139-144 | after rendering, every element whose key the current catalog translates shows what `translate` returns for that key |
| `Language.RenderWithoutCatalogIsNoOp` | js/language.js:132-137 | without a catalog for the current language `updateTranslations` changes nothing |
| `Language.Toggled` | js/language.js:195-204 | a click flips the expanded state, labels the button with `translate` of `show-less` or `show-more` for the new state (never empty), and changes nothing else |
| `Language.ToggleTwiceRestores` | js/language.js:195-204 | two clicks restore the expanded state; the label then shows the translation of that state; a label that already showed it is restored exactly; the label is never empty |
| `Language.MoreInfoPanel.constructor` | js/language.js:191-192 | the panel starts with the given expanded state and label |
| `Language.LanguageManager.constructor` | js/language.js:7-19 | starts with `en` current, no catalogs and the given stored preference, then ends in the state of `setLanguage` on the startup choice |
| `Language.LanguageManager.Translate` | js/language.js:171-183 | is `Lookup` over the manager's own cache and current language; never empty for a non-empty key |
| `Language.LanguageManager.LoadInitialLanguage` | js/language.js:36-46 | the new state is `setLanguage` applied to `InitialChoice` of the stored preference and the browser language; the invariant is kept |
| `Language.LanguageManager.DetectBrowserLanguage` | js/language.js:51-66 | the new state is `setLanguage` applied to `BrowserChoice` |
| `Language.LanguageManager.SetLanguage` | js/language.js:72-126 | the new state is `AfterSetLanguage` of the old one, the fetch log grows by `Fetches`, and the invariant (current and cached languages supported) is kept |
| `Language.LanguageManager.LoadCatalog` | js/language.js:89-95 | fetches the language once; reports success exactly when the response is ok, and then caches its catalog; nothing else changes |
| `Language.LanguageManager.RecoverFromLoadFailure` | js/language.js:96-111 | the `catch`: with English cached, English becomes current and is rendered; otherwise a non-English language is retried as `setLanguage('en')`, with one more fetch; a failing English changes nothing |
| `Language.LanguageManager.CommitLanguage` | js/language.js:114-125 | the language becomes current, the page is rendered from it, and the preference and `<html lang>` become it |
| `Language.LanguageManager.MarkActiveButtons` | js/language.js:80-86 | the loop leaves the buttons as `MarkButtons` says and changes nothing else |
| `Language.LanguageManager.UpdateTranslations` | js/language.js:131-164 | the loop and the label/title updates leave the state as `Render` says |
| `Language.LanguageManager.ToggleMoreInfo` | js/language.js:195-204 | the new state is `Toggled` of the old one |
| `Speed.ConnectionCount` | js/speedtest.js:259-263 | `Math.min(4, maxConnections)`: at most 4 and at most the maximum, equal to one of them; 4 with the configured 8 |
| `Speed.DownloadFile` | js/speedtest.js:160-181 | the reported bytes are a whole number of MB from `{1, 2, 5, 10, 20}`; the simulated time is that size over a speed in [35, 65) Mbps |
| `Speed.PingDelay` | js/speedtest.js:222-224 | a ping lies in [10, 30) unloaded and [20, 60) loaded |
| `Speed.SuccessTotalBounds` | js/speedtest.js:219-235 | the accumulated `totalLatency` lies between `successfulTests` times the low and the high end of the ping range, strictly below the high end when any ping succeeded |
| `Speed.MeanLatencyInRange` | js/speedtest.js:238-239 | the average of the successful pings lies in the ping range |
| `Speed.AllAnsweredCountsAll` | js/speedtest.js:219-235 | when every ping is answered, `successfulTests` equals the number of pings |
| `Speed.LatencyPhase` | js/speedtest.js:214-253 | `measureLatency` throws exactly when no ping succeeded; otherwise the matching latency field holds `MeanLatency`, the sum of the successful pings over their count, and the download and upload fields, their displays and the panel flags are kept |
| `Speed.LatencyPhaseWritesItsField` | js/speedtest.js:214-253 | `measureLatency` throws exactly when no ping succeeded; otherwise it writes the mean of the successful pings, which lies in the ping range, only to the matching field and display and changes nothing else |
| `Speed.SampledReadsZero` | js/speedtest.js:119-135 | as written, every sampler reading is 0: after any tick that saw time pass the download field and display are 0, and nothing else changes |
| `Speed.Sampled` | js/speedtest.js:119-135 | the sampler's ticks change only the download field and the download display |
| `Speed.DownloadPhase` | js/speedtest.js:105-154 | `measureDownloadSpeed` ends with download at least 0.1 and changes only the download field and display |
| `Speed.DownloadEndsOnFloor` | js/speedtest.js:105-154 | the download result is never below 0.1 and, from a zeroed record or after any tick that saw time pass, is exactly 0.1; the other fields are unchanged |
| `Speed.UploadSpeed` | js/speedtest.js:193 | the upload speed lies in [10, 30) |
| `Speed.UploadPhase` | js/speedtest.js:186-208 | `measureUploadSpeed` stores an upload speed in [10, 30), displays it, and changes nothing else |
| `Speed.HandleErrorOn` | js/speedtest.js:88-100 | the error state always shows the result panel and hides loading; download shows `'0'` unless a positive download exists, which is re-displayed; results and other displays are unchanged |
| `Speed.AttemptedPhases` | js/speedtest.js:59-79 | the `try` block enters a non-empty prefix of the pipeline, the whole pipeline exactly when no latency phase fails |
| `Speed.Attempted` | js/speedtest.js:59-79 | a failing first phase leaves the screen as it was; otherwise the result panel is shown, loading is hidden and download is at least 0.1 |
| `Speed.Run` | js/speedtest.js:56-82 | every run ends with the result panel shown and loading hidden, and its steps begin with the unloaded-latency phase and hold at least two steps |
| `Speed.RunCases` | js/speedtest.js:56-82 | a run ends in `handleError` after the first phase, in `handleError` after the fifth, or after `updateAllMetrics`, as the latency phases succeed |
| `Speed.RunFollowsPipeline` | js/speedtest.js:59-79 | the phases are a full pipeline in order, or its first k phases then `handleError` (with its own `showResult` when a download exists); full exactly when both latency phases succeed; stopped after the first phase exactly when that phase fails; no `handleError` means a full run |
| `Speed.RunTraces` | js/speedtest.js:56-82 | the recorded steps of each of the three outcomes, written out; a failure in the last phase always re-shows the result |
| `Speed.EveryPingAnsweredCompletesRun` | js/speedtest.js:219-252 | when every ping is answered, as the code guarantees, a run is the full pipeline and never reaches `handleError` |
| `Speed.CompleteRunResults` | js/speedtest.js:59-79 | a run without failures from a zeroed record ends with download exactly 0.1, upload in [10, 30), latencies in [10, 30) and [20, 60), all four displayed, result shown |
| `Speed.FailedFirstPhase` | js/speedtest.js:59-100 | a failing unloaded-latency phase stops after that phase and goes to `handleError`; it leaves the record unchanged, shows the error state with download `'0'` (or an earlier positive download), and keeps the other displays |
| `Speed.FailedLastPhase` | js/speedtest.js:59-100 | a failing loaded-latency phase stops after the fifth phase and `handleError` re-shows the result; it keeps the partial results: download 0.1 re-displayed, upload and unloaded latency in range, loaded latency still 0 with its old display |
| `Speed.Restarted` | js/speedtest.js:337-348 | `restart` zeroes all four fields, hides the result and shows loading before the next run, and leaves all four displays as they were |
| `Speed.RestartForgetsPreviousResults` | js/speedtest.js:337-362 | after `restart`, the next run's results and phases do not depend on the previous run's state |
| `Speed.ResultsDetermineRun` | js/speedtest.js:56-82 | a run reads only `testResults` of the screen: equal records give equal results and equal steps |
| `Speed.SpeedTest.constructor` | js/speedtest.js:7-51 | starts from the zeroed record with `isRunning` false and ends in the state and trace of the first run |
| `Speed.SpeedTest.Init` | js/speedtest.js:44-51 | hides the result, shows loading, then ends in the state and trace of one run |
| `Speed.SpeedTest.StartTest` | js/speedtest.js:56-82 | the new state is `Run` of the old one; each phase method records its own step with `isRunning` true, and the recorded steps are those of `Run`; `isRunning` is false afterwards on both paths |
| `Speed.SpeedTest.TryPhases` | js/speedtest.js:59-79 | the `try` block: it fails exactly when a latency phase finds no ping; the new state is `Attempted` of the old one; the phase methods record the steps of `AttemptedPhases` |
| `Speed.SpeedTest.HandleError` | js/speedtest.js:88-100 | the new state is `HandleErrorOn` of the old one; it records its own step, then a `showResult` step when a download exists |
| `Speed.SpeedTest.MeasureLatency` | js/speedtest.js:214-253 | the loop's average is the mean of the successful pings, in range; it reports failure exactly when none succeeded; the new state is `LatencyPhase` of the old one, unchanged on failure |
| `Speed.SpeedTest.MeasureDownloadSpeed` | js/speedtest.js:105-154 | the sampling loop and the floor leave the state as `DownloadPhase` says; the returned speed is the stored one and at least 0.1 |
| `Speed.SpeedTest.MeasureUploadSpeed` | js/speedtest.js:186-208 | stores and returns the upload speed, which lies in [10, 30); the new state is `UploadPhase` of the old one |
| `Speed.SpeedTest.ShowResult` | js/speedtest.js:268-271 | hides loading and shows the result panel |
| `Speed.SpeedTest.ShowError` | js/speedtest.js:276-282 | hides loading, shows the result panel and sets the download display to `'0'` |
| `Speed.SpeedTest.UpdateAllMetrics` | js/speedtest.js:327-332 | every display shows its field of the record |
| `Speed.SpeedTest.Restart` | js/speedtest.js:337-363 | the run starts from the zeroed record with the result hidden; the panel is collapsed and labelled with `translate('show-more')` when a translator exists |
| `Speed.SpeedTest.OnResultClick` | js/speedtest.js:375-379 | while running a click changes nothing; otherwise it is `restart`: the new state and trace are those of a run from the zeroed record, and the panel is collapsed and labelled with `translate('show-more')` when a translator exists |

## Left out

- DOM lookups and their `null` guards. Every element the controllers use is
  assumed to exist. The same holds for a `null` `data-lang` or `data-i18n`
  attribute.
- Event-listener wiring (`initEventListeners`, the `DOMContentLoaded`
  handlers, the 500 ms start delay) and the `window` globals. These become
  explicit constructors and parameters.
- The `async` interleavings. `setLanguage` and its unawaited recursive call
  are atomic steps. So are a click during a fetch and every `await` in the
  speed test. The model cannot observe `isRunning` being true from outside
  `StartTest`, so the guard in `OnResultClick` is modelled but never blocks.
- `fetch` and `response.json()` are an oracle that returns a flat
  string-to-string map. A JSON file holding `null`, an array or non-string
  values is not modelled. Neither are keys such as `constructor`, which JS
  finds on the object prototype and treats as present.
- `console.error` logging.
- `toFixed(1)` and `Math.round`. A display holds the unrounded number.
- Timer durations. The `setTimeout` waits of the pings, the upload and
  `downloadFile`, and the 10 s download window, are not modelled. The
  sampler's ticks are an input sequence of elapsed seconds.
- The connections the download phase launches. Their byte counts are never
  read, so the model does not launch them. `Speed.DownloadFile` and
  `Speed.ConnectionCount` model what each would be. Their no-op `abort` is
  left out.
- `uploadSizes`, `uploadTestDuration` and `testServer` in the configuration,
  and the `startTime`/`totalBytesUploaded` locals of the upload phase. The
  source never reads them.
- The ghost `trace` and `fetchLog` fields are not part of the source. Each
  phase method appends its own step to `trace`, and each fetch appends its
  language to `fetchLog`, so the contracts can speak of order.
- An error path for the download and upload phases. As written neither can
  throw (see above).
