# ResumeHunt scan controller in Dafny

ResumeHunt is a browser extension. On a people-search results page its content script (`content.js`) visits the profile linked from each result card. It decides whether the profile offers a resume or CV document and marks the card with an icon. This project models the per-page bookkeeping of that script's controller, class `LinkedInResumeDetector`, and proves properties of the model:

- the set of checked profile ids, the verdict cache and the two counters;
- the re-entry guard and the batch loop of `processSearchResults`;
- the per-card step of `processProfileCard` and how it combines the two verdicts;
- `clearCache`, and the message cases that change state;
- the pure string helpers: `extractProfileId` and the two URL builders.

Modules, one per file:

- `Wrappers` (wrappers.dfy): `Option`.
- `ProfileUrls` (profile_urls.dfy): `extractProfileId`, written as an explicit leftmost-first scanner for the regex `/\/in\/([^\/\?]+)/`. Also the featured-section URL of the second-pass check, and the URL cleaning of `openProfileResume`.
- `Settings` (settings.dfy): the `settings` object. It is a map from key to a model of JavaScript values (`undefined`, `null`, booleans, integers, NaN, strings), with JavaScript truthiness. Also the stride that `maxConcurrentChecks` gives the batch loop.
- `Batching` (batching.dfy): the batches `slice(i, i + k)`, and the proof that they partition the card list.
- `Scan` (scan.dfy): the bookkeeping as a value (`ScanState`). It has the invariant `Inv`: cache keys ⊆ checked set, `profilesChecked` = cache size, `resumesFound` = number of true entries. It also has the effect of one card (`StepCard`), of a card sequence (`RunCards`) and of a batch sequence (`RunBatches`), with lemmas.
- `Detector` (detector.dfy): the class `LinkedInResumeDetector`, with the source's fields and methods that update them in place. Each method's postcondition ties the new fields to the `Scan` functions.

How inputs enter the model:

- A result card is reduced to the `href` of its profile link, or `None` when no link is found.
- During one scan the network is a function from URL to `Option<Html>`, where `None` stands for a non-ok status or a thrown error. Both `checkProfileForResume` and the featured-section check treat those two cases the same way.
- The two regular-expression batteries are the two fields of the `Heuristic` datatype, left uninterpreted.

Behaviour of the code that the model keeps:

- A profile seen before is not recognised through the cache. The first test is membership in `checkedProfiles` (content.js:250-253), and such a card is skipped with no indicator update. The cache-hit branch (content.js:258-262) follows the `add` of content.js:255. Under `Inv` that branch cannot be taken: `StepCard`'s postcondition shows that a new id always goes through the verdict path.
- With `batchSize = 0`, a negative number, `false` or `null`, the loop of content.js:223 never ends. A missing `maxConcurrentChecks` (read as `undefined`) or a NaN stored in the detector's settings makes it run once with an empty slice and stop; the model keeps that case as `NaNStride`. The popup, however, does not deliver NaN: `parseInt` of an empty field gives NaN (popup.js:33), but the value travels through `chrome.storage.sync.set` and `chrome.tabs.sendMessage` (popup.js:187-196, background.js:17-24), whose messages are JSON-serialised, so NaN arrives as `null`, which is `Unsupported`. By this reading of the source (nothing was run), an empty, 0 or negative "max checks" field makes the next scan loop forever. With 0, `false` or `null`, `i` never advances and every turn awaits `Promise.all` of an empty batch, which is already resolved, so the loop resumes in a microtask each time and the event loop never reaches another task: the message listener (content.js:54) never runs again, and later `refreshCheck`, `getStatus` and `ping` messages are never handled, so the tab's main thread hangs. With a negative `k`, the first turn's `slice(0, k)` processes all but the last |k| cards, then `i` goes negative, every later `slice(i, i + k)` is empty and the same hang follows. The model excludes the diverging values by a precondition (`ScanEnds`) rather than modelling the hang.
- In a sequential run `processSearchResults` leaves `isProcessing` as it found it. When the guard fails, nothing changes. When the scan starts, `isProcessing` is false on both exits, the no-cards exit and the end of the loop.
- The featured-section URL (content.js:279-281) is built from the full profile URL, query included. `openProfileResume` strips the query first. `FeaturedUrlVersusResumeUrl` shows that the two agree exactly on URLs without a `?`. With a query, the featured URL puts `details/featured/` after the query.

## Model

| member | source | states |
|---|---|---|
| ProfileUrls.MatchesAt | content.js:344 | the regex `\/in\/([^\/\?]+)` matches at a position: "/in/" there, followed by at least one character other than '/' and '?' |
| ProfileUrls.IsFirstMatch | content.js:344 | the position a leftmost-first regex search reports: a match with no match before it |
| ProfileUrls.IdRunLength | content.js:344 | the greedy `[^\/\?]+` run from a position: every character is neither '/' nor '?', and it stops at the end or at a '/' or '?' |
| ProfileUrls.FirstMatch | content.js:344 | the leftmost position at or after `from` where "/in/" is followed by an id character; no earlier position matches; `None` means no position matches |
| ProfileUrls.ExtractProfileId | content.js:343-346 | with no match the URL is returned unchanged; at the leftmost match the id is the whole non-empty run after "/in/", holds no '/' or '?', and is followed by the end, '/' or '?' |
| ProfileUrls.FirstMatchExists | content.js:344-345 | any match implies a leftmost one, so "no match" and "leftmost match" cover every URL |
| ProfileUrls.WithTrailingSlash | content.js:549-551 | the shortest extension of the URL that ends in '/', the URL itself when it already does |
| ProfileUrls.FeaturedUrl | content.js:279-281 | the profile URL with a slash forced, followed by "details/featured/"; the URL is a prefix and the result ends in "/details/featured/" |
| ProfileUrls.StripQuery | content.js:548 | `split('?')[0]`: a prefix of the URL without '?', which is the whole URL or stops right before its first '?' |
| ProfileUrls.StripQueryIdempotent | content.js:548 | stripping the query twice equals stripping it once |
| ProfileUrls.StripQueryNoQuery | content.js:548 | a URL without '?' is left unchanged |
| ProfileUrls.ResumeUrl | content.js:548-563 | the opened URL is the query-free URL with a trailing slash and "details/featured/", and contains no '?' |
| ProfileUrls.ResumeUrlIsFeaturedUrlOfCleanUrl | content.js:548-563 | the URL opened on click is the featured-section URL of the query-free profile URL |
| ProfileUrls.FeaturedUrlVersusResumeUrl | content.js:279-281 | the featured-section URL equals the opened URL exactly when the profile URL has no '?'; otherwise it keeps the query |
| Settings.Update | content.js:80 | `settings[key] = value` makes the key read `value` and leaves every other key as it was |
| Settings.Merge | content.js:46 | `{...settings, ...response}`: the response's keys win, all others keep their values |
| Settings.Truthy | content.js:81-92 | JavaScript truthiness: a value is falsy exactly when it is `undefined`, `null`, `false`, 0, NaN or "" |
| Settings.IsEnabled | content.js:155 | the test `this.settings.enabled`: a missing key or `false` disables, `true` enables |
| Settings.StrideOf | content.js:222-223 | the batch loop advances by exactly `n` cards for a number `n` ≥ 1 and by 1 for `true`, runs one empty batch for NaN and `undefined`, and is unsupported otherwise |
| Settings.BatchStride | content.js:222 | the stride is read from `maxConcurrentChecks`: a number `n` ≥ 1 gives batches of `n`, a missing key the NaN case, `null` an unsupported stride |
| Settings.DefaultSettingsScanOneAtATime | content.js:21-26 | the defaults are enabled, without auto-check, with a stride of one card |
| Batching.Batches | content.js:223-224 | the slices `slice(i, i + k)` for `i` = 0, k, 2k, … below the length; its properties are the lemmas that follow |
| Batching.BatchesSizes | content.js:223-224 | no batch is empty, each has at most `batchSize` cards and all but the last exactly `batchSize`; no cards gives no batch |
| Batching.BatchesFlatten | content.js:223-224 | the batches concatenated in order are exactly the card list, so each card is in one batch |
| Batching.BatchesCount | content.js:223 | the number of batches is the number of cards divided by `batchSize`, rounded up |
| Batching.BatchesFrom | content.js:224 | at index `i`, the next batch is `slice(i, i + k)` clamped to the end, followed by the batches of the rest |
| Batching.BatchesNext | content.js:223-224 | one turn of the loop extends the batches handed out so far by the slice at `i`, and the rest of the partition starts after it |
| Scan.Inv | content.js:250-327 | the bookkeeping invariant: cache keys ⊆ checked set, `profilesChecked` = cache size, `resumesFound` = number of true entries; the lemmas below show every operation keeps it |
| Scan.ClearedSatisfiesInv | content.js:614-618 | the cleared state satisfies the bookkeeping invariant |
| Scan.InvBounds | content.js:324-327 | under the invariant, 0 ≤ `resumesFound` ≤ `profilesChecked` |
| Scan.FinalVerdict | content.js:271-315 | the verdict is true iff the profile fetch succeeds and its page has first-pass evidence, and the featured fetch succeeds and its page passes the second battery; any failed fetch gives false |
| Scan.StepCard | content.js:232-341 | a card without a link or with an already checked id changes nothing; otherwise the id is marked checked; existing cache entries are never changed; under the invariant a new id gets its verdict cached and counted once |
| Scan.StepCardPreservesInv | content.js:250-327 | one card keeps cache keys ⊆ checked set, `profilesChecked` = cache size and `resumesFound` = number of true entries |
| Scan.LinkedIds | content.js:244-255 | the ids `extractProfileId` gives the cards' links: every card's id is in the set |
| Scan.LinkedIdsComeFromCards | content.js:244-255 | every id in the set comes from some card, so it is exactly the union of the cards' ids |
| Scan.RunCards | content.js:225 | after a sequence of cards the checked set is the old one plus every linked id, and no earlier cache entry changed |
| Scan.RunCardsPreservesInv | content.js:250-327 | any sequence of cards keeps the bookkeeping invariant |
| Scan.RunBatches | content.js:223-226 | the batches processed one after another, each card by card; related to a single card pass by the lemma that follows |
| Scan.RunBatchesIsRunCards | content.js:223-226 | processing batches one after another equals processing their concatenation card by card |
| Scan.BatchedScanIsSequential | content.js:222-226 | the batch loop with stride `k` has the effect of processing every card once, in page order |
| Scan.RescanChangesNothing | content.js:250-253 | a pass over cards whose ids are all checked changes nothing, whatever the network answers |
| Scan.RunCardsSettlesEveryCard | content.js:255-321 | when every checked id has a verdict, that still holds after a pass, and the cached ids are the old ones plus all linked ids |
| Scan.RefreshCounts | content.js:60-62 | after clearing and a pass, `profilesChecked` is the number of distinct linked profile ids and `resumesFound` is at most that |
| Scan.RunCardsVerdictOfFirstCard | content.js:250-321 | the cached verdict of a newly seen profile is the one computed from the first card that links to it |
| Scan.NoEvidenceNoResumes | content.js:324-327 | when the first battery never fires, a pass adds no resume |
| Scan.ThreeProfilesWithoutResume | content.js:60-62 | three cards for three different profiles without matching patterns give `profilesChecked` = 3 and `resumesFound` = 0 |
| Detector.Starts | content.js:155 | the guard: a running scan, a falsy `enabled` or a missing "enabled" key turns the scan away; with no scan running and `enabled` set to `true` it starts |
| Detector.SearchPass | content.js:155-230 | `processSearchResults` on the bookkeeping: nothing when guarded or with a NaN stride; with a whole-number stride every card in order (`RunCards`), so the checked set gains exactly the linked ids; it keeps the invariant |
| Detector.LinkedInResumeDetector.constructor | content.js:16-30 | empty set and cache, zero counters, not processing, the default settings; the invariant holds |
| Detector.LinkedInResumeDetector.LoadSettings | content.js:42-51 | a settings reply is merged over the settings; nothing else changes |
| Detector.LinkedInResumeDetector.ProcessProfileCard | content.js:232-341 | the fields become `StepCard` of the old fields; settings and `isProcessing` unchanged; the invariant is preserved |
| Detector.LinkedInResumeDetector.ProcessSearchResults | content.js:155-230 | guarded when processing or disabled; the batches handed to `Promise.all` are `Batches(cards, maxConcurrentChecks)`; the fields become `SearchPass`; `isProcessing` is false on both exits of a started scan |
| Detector.LinkedInResumeDetector.RunBatchLoop | content.js:222-226 | the loop processes exactly the partition batches, in order |
| Detector.LinkedInResumeDetector.ProcessBatch | content.js:224-225 | one batch has the effect of its cards processed in order |
| Detector.LinkedInResumeDetector.ClearCache | content.js:614-620 | empty set and cache, zero counters, settings and flag unchanged (so it is idempotent); the invariant holds |
| Detector.LinkedInResumeDetector.GetStatus | content.js:71-77 | the reply carries the counters and flag, with `resumesFound` ≤ `profilesChecked` = cache size under the invariant |
| Detector.LinkedInResumeDetector.RefreshCheck | content.js:60-64 | clear, then a scan; after a started scan with a whole-number stride `profilesChecked` is the number of distinct linked ids |
| Detector.LinkedInResumeDetector.SettingUpdated | content.js:79-89 | only the named key changes; a truthy "enabled" starts a scan; any other write leaves the bookkeeping alone |
| Detector.LinkedInResumeDetector.ToggleEnabled | content.js:91-99 | sets "enabled"; a truthy value starts a scan, a falsy one leaves the bookkeeping alone |
| Detector.LinkedInResumeDetector.OnMessage | content.js:54-101 | the reply for each action, and for every action the new bookkeeping and settings: unchanged for `ping`, `getStatus` and unknown actions, cleared for `clearCache`, and the `SearchPass` of `refreshCheck`, `settingUpdated` and `toggleEnabled` as above |

## Left out

- DOM work: finding the results container and the cards through selector chains, the loading indicator and verdict icons, click and hover handlers, notifications and the `MutationObserver` re-scan (content.js:104-153, 164-209, 441-612, 622-625). The card list is an input of the scan.
- Timers: the per-card `setTimeout(delay)` and the observer's 500 ms debounce. Time is not modelled.
- The regular-expression batteries of content.js:289-297 and 363-430 are uninterpreted predicates. Regex semantics over arbitrary HTML are not modelled.
- `Promise.all` concurrency inside a batch is modelled as sequential processing. This is exact for the checked-set guard, because the id is added before the first `await`. Interleavings with messages during a scan are not modelled. One example: after a `clearCache` during an in-flight fetch, the late `resumeCache.set` still lands, and cache keys ⊆ checked set then no longer holds.
- Messaging to the background worker (`updateBadge`, content.js:332-335 and 627-632) and the `ping` timestamp. Neither changes detector state.
- `processSearchResults` with a string `maxConcurrentChecks`: JavaScript turns `i += batchSize` into string concatenation, which the precondition `ScanEnds` excludes. Fractional numbers are not modelled either.
- `debugInfo` and the `ResumeHuntDebug` console helpers (content.js:634-773).
- The constructor's `this.init()` (content.js:31-40): `loadSettings()` and `waitForSearchResults()`, which may call `processSearchResults()` before `new` returns when the results container is already there (content.js:109-117). The model's constructor sets only the fields of content.js:18-30; `init()` is modelled as separate `LoadSettings` and `ProcessSearchResults` calls, and the message listener as `OnMessage`.
- popup.js and background.js are not part of this model: they are user-interface and extension-API wrappers.
