# ScoutResearchAI persistence layer and client-side logic, in Dafny

ScoutResearchAI is a single-page application for analysing research papers. This project
models the parts of it that hold decisions rather than layout:

- **Local store** (`local_storage_service.dfy`). The browser's `localStorage` is a class
  `LocalStorage`. Its JSON lists are parsed and kept in a map from key to list. The guest
  session entry is kept apart. A `full` flag says that `setItem` throws.
  - Every save prepends a record with a `<ms>_<n>` id.
  - Every read gives `[]` for a key that was never written.
- **Unified data store** (`data_store.dfy`). Each call first probes the remote identity.
  - With a non-empty id, the call goes to the remote backend. The model treats the backend
    as an oracle.
  - Otherwise the call goes to the local store, and local papers are reshaped into the
    remote row layout.
  - The guest identity is created once, persisted, and reused after that.
- **Remote service** (`supabase.dfy`). This covers:
  - the in-memory cache with its five-minute time-to-live;
  - the `getPapers_{"userId":…}` cache key and its injectivity;
  - the `withRetry` loop with its error classifier and exponential backoff;
  - the branches of `savePaper`, `saveSummary`, `getPapers` and `getSummary`.
- **LLM wrapper** (`gemini.dfy`). This covers:
  - the `callGeminiWithRetry` loop: a quota error fails fast, a rate limit backs off, any
    other error stops;
  - how each service truncates content, cuts the JSON span out of the reply, and re-words
    errors.
- **File validation** (`file_processor.dfy`). This covers `validateFile` and the placeholder
  text of the fallback extractor.
- **Search filters** (`search_filters.dfy`). This covers the toggle, set and clear handlers,
  and the active-filter count.
- **Comparison matrix** (`comparison_matrix.dfy`). This covers:
  - selecting at most five papers;
  - the methodology fallback;
  - the quality, citation and complexity scores;
  - the range computation;
  - the similarity, difference and feasibility heuristics.
- **Research discovery** (`research_discovery.dfy`). This covers:
  - the blank-query guard;
  - the case-insensitive title/content filter;
  - the filter-change handler.

Shared modules:

- `wrappers.dfy`: `Option` and `Result`.
- `text.dfy`: JavaScript string operations (`includes`, ASCII `toLowerCase`, `trim`, number
  printing).
- `values.dfy`: a `Json` value type, objects as maps, JavaScript truthiness, and object spread.

Clocks, random draws, the remote backend and the LLM are parameters of the operations. They
are never called.

The repository has no ranking component: `ResearchDiscovery.tsx` only keeps the papers whose title or content contains the query
(line 34 leaves the filters as a TODO), and sorts nothing. This model follows the code:
- there is no similarity score and no sort;
- the filters never change the results, which `ResearchDiscovery.FiltersDoNotAffectResults`
  proves.

## Model

| member | source | states |
|---|---|---|
| LocalStorageService.KeysDistinct | src/lib/localStorageService.ts:21-86 | The papers key, the `summaries_`, `code_` and `visualizations_` keys and the guest session key never collide, and each per-paper key determines its paper id. |
| LocalStorageService.LocalStorage.constructor | src/lib/localStorageService.ts:20 | A fresh storage holds no lists and no guest session. |
| LocalStorageService.Collection | src/lib/localStorageService.ts:22-23 | A key that was never written reads as `[]`; otherwise the stored list is returned. |
| LocalStorageService.SetItem | src/lib/localStorageService.ts:32 | Either the write throws, when the storage is full, and nothing changes; or exactly that key is replaced. |
| LocalStorageService.RandomSuffix | src/lib/localStorageService.ts:28 | `Math.floor(Math.random() * 10000)` lies in 0..9999. |
| LocalStorageService.ParseMakeId | src/lib/localStorageService.ts:28 | A generated id has the form digits, `_`, digits, and parses back to the clock value and the random suffix it was made from. |
| LocalStorageService.MakeId | src/lib/localStorageService.ts:28 | The `<ms>_<n>` id; `ParseMakeId` states it parses back. |
| LocalStorageService.NewPaper | src/lib/localStorageService.ts:30 | The new paper keeps the caller's fields, and its generated `id` and `uploadDate` override any the caller passed. |
| LocalStorageService.NewSummary | src/lib/localStorageService.ts:45 | The new summary holds the paper id, the target age and the content, plus a generated `id` and `createdAt`. |
| LocalStorageService.NewChildRecord | src/lib/localStorageService.ts:66 | A code or visualization record carries the generated `id`, the `paperId` and `createdAt`, and any of these the caller's record sets wins. |
| LocalStorageService.GetPapers | src/lib/localStorageService.ts:21-24 | The stored paper list, or `[]` when none was written. |
| LocalStorageService.GetSummaries | src/lib/localStorageService.ts:36-39 | The list under `summaries_<paperId>`, or `[]`. |
| LocalStorageService.GetCode | src/lib/localStorageService.ts:57-60 | The list under `code_<paperId>`, or `[]`. |
| LocalStorageService.GetVisualizations | src/lib/localStorageService.ts:73-76 | The list under `visualizations_<paperId>`, or `[]`. |
| LocalStorageService.GetPaperById | src/lib/localStorageService.ts:52-54 | The first stored paper with that id; `null` exactly when no stored paper has it. |
| LocalStorageService.SavePaper | src/lib/localStorageService.ts:26-34 | Prepends the new paper: it is first, the list grows by one, the old papers follow in order, and no other key changes. A full storage makes it fail with `QuotaExceededError` and changes nothing. |
| LocalStorageService.SaveSummary | src/lib/localStorageService.ts:41-49 | Prepends the new summary under its paper's key only, or fails with a quota error and changes nothing. |
| LocalStorageService.SaveCode | src/lib/localStorageService.ts:62-70 | Prepends the new record under `code_<paperId>` only, or fails with a quota error and changes nothing. |
| LocalStorageService.SaveVisualization | src/lib/localStorageService.ts:78-86 | Prepends the new record under `visualizations_<paperId>` only, or fails with a quota error and changes nothing. |
| LocalStorageService.SummaryWriteFrame | src/lib/localStorageService.ts:41-49 | A summary save for one paper leaves other papers' summaries, every code and visualization list, and the paper list unchanged. |
| LocalStorageService.CodeWriteFrame | src/lib/localStorageService.ts:62-70 | A code save for one paper leaves every other collection unchanged. |
| LocalStorageService.VisualizationWriteFrame | src/lib/localStorageService.ts:78-86 | A visualization save for one paper leaves every other collection unchanged. |
| LocalStorageService.PaperWriteFrame | src/lib/localStorageService.ts:26-34 | A paper save leaves every per-paper collection unchanged. |
| DataStore.ProbeDecidesMode | src/lib/dataStore.ts:22-29 | A probe that throws, a `null` id and an empty id select the local store. A non-empty id selects the remote one. |
| DataStore.IsSupabaseReady | src/lib/dataStore.ts:22-29 | The mode test; `ProbeDecidesMode` states its cases. |
| DataStore.StoredGuestId | src/lib/dataStore.ts:8-11 | A reused guest id is never empty. |
| DataStore.GetGuestUserId | src/lib/dataStore.ts:6-20 | Returns and persists what the guest step prescribes, changing only the session entry. |
| DataStore.GuestStep | src/lib/dataStore.ts:6-20 | The guest lookup's id and new session entry; `GuestIdReused`, `GuestIdCreated` and `GuestIdStable` state its cases. |
| DataStore.GuestIdReused | src/lib/dataStore.ts:9-11 | A stored id is returned unchanged and nothing is written. |
| DataStore.GuestIdCreated | src/lib/dataStore.ts:13-19 | Without a stored id, a `guest_<ms>_<n>` id is created and its session persisted, a later read finds it, and the id parses back to its clock and suffix. A malformed entry or a full storage gives the literal `guest` and writes nothing. |
| DataStore.GuestIdStable | src/lib/dataStore.ts:6-20 | A second lookup returns the first lookup's id and writes nothing, whatever the clock and random draw of either call. |
| DataStore.ToResearchPaper | src/lib/dataStore.ts:32-43 | The remote shape has exactly the eight fields, with `user_id` the guest id and `created_at` = `updated_at` = `uploadDate`. |
| DataStore.MapLocalPapers | src/lib/dataStore.ts:57-58 | One remote-shaped record per local paper, in the same order. |
| DataStore.UserIdOrGuest | src/lib/dataStore.ts:118 | `userId \|\| 'guest'`: a missing or empty id becomes `guest`, and any other id is kept. |
| DataStore.OwnerField | src/lib/dataStore.ts:66 | `userId \|\| undefined`: the `user_id` field is present exactly when the id is non-empty. |
| DataStore.RemotePaperRow | src/lib/dataStore.ts:65-72 | The inserted paper carries exactly the title, content, filename, analysis and file size fields the input has, plus `user_id` exactly when the id is non-empty. |
| DataStore.RemoteSummaryRow | src/lib/dataStore.ts:100-105 | The inserted summary carries the paper id, the target age and the content, and an owner only for a non-empty id. |
| DataStore.RemoteCodeRow | src/lib/dataStore.ts:116-122 | The inserted row names the paper and the owner (`guest` when the id is missing), and, besides those, carries exactly the language, framework and code fields that the payload has. |
| DataStore.RemoteVisualizationRow | src/lib/dataStore.ts:131-136 | The inserted row names the paper and the owner (`guest` when the id is missing), and, besides those, carries exactly the visualization type and config fields that the payload has. |
| DataStore.TruthyContent | src/lib/dataStore.ts:89 | `rec?.content \|\| null`: a missing record or falsy content reads as `null`. |
| DataStore.LocalSummary | src/lib/dataStore.ts:91-93 | The local summary lookup; `NoSummaryBeforeSave`, `LatestSummaryWins` and `OtherAgeUnaffected` state its behaviour. |
| DataStore.NoSummaryBeforeSave | src/lib/dataStore.ts:91-93 | With nothing stored for the paper, the local summary lookup gives `null`. |
| DataStore.LatestSummaryWins | src/lib/dataStore.ts:91-93 | After a local save, the lookup for that paper and age returns the content just saved, or `null` when that content is falsy. |
| DataStore.OtherAgeUnaffected | src/lib/dataStore.ts:91-93 | Saving a summary for one age of a paper does not change what the lookup gives for any other age of that paper. |
| DataStore.GetCurrentUserId | src/lib/dataStore.ts:46-50 | Remote mode returns the remote id and leaves the session alone; local mode returns the guest id and leaves the session as the guest step prescribes. |
| DataStore.GetPapers | src/lib/dataStore.ts:52-59 | Remote mode returns the remote list. Local mode maps every local paper, in order, with the one stable guest id, and touches the session only when there is at least one paper. |
| DataStore.SavePaper | src/lib/dataStore.ts:61-83 | Remote mode inserts the picked fields with the owner and changes no local state. Local mode with a full storage fails and changes nothing. Otherwise the paper is prepended and returned in remote shape under the guest id. |
| DataStore.GetSummary | src/lib/dataStore.ts:85-94 | Remote mode gives the truthy content of the remote record; local mode gives the first stored summary for that age. |
| DataStore.SaveSummary | src/lib/dataStore.ts:96-110 | Remote mode returns the saved row's content or the insert's error. Local mode returns the content, prepends the summary, and a following lookup finds the saved content when it is truthy. |
| DataStore.SaveCodeGeneration | src/lib/dataStore.ts:112-125 | Remote mode inserts the code row and leaves local lists alone. Local mode stores the record first under the paper's code key, or fails on a full storage with nothing changed. |
| DataStore.SaveVisualization | src/lib/dataStore.ts:127-139 | Remote mode inserts the visualization row and leaves local lists alone. Local mode stores the record first under the paper's visualization key, or fails on a full storage with nothing changed. |
| DataStore.GetVisualizations | src/lib/dataStore.ts:141-148 | Both modes return the local visualization list. |
| Supabase.Cache.constructor | src/lib/supabase.ts:22 | The cache starts empty. |
| Supabase.GetCachedData | src/lib/supabase.ts:29-39 | A miss gives `null`. An entry older than its time-to-live gives `null` and is deleted. A fresh entry gives its data and stays. |
| Supabase.SetCachedData | src/lib/supabase.ts:41-43 | Stores the data under the key, stamped with the write time and the time-to-live, and changes no other key. |
| Supabase.CacheMiss | src/lib/supabase.ts:30-31 | An absent key reads as `null` and leaves the cache unchanged. |
| Supabase.CacheFreshness | src/lib/supabase.ts:33-38 | An entry is returned exactly when no more than its time-to-live has passed since the write; otherwise it is removed. |
| Supabase.CacheWriteThenRead | src/lib/supabase.ts:29-43 | A read within the time-to-live after a write returns the written data. |
| Supabase.UnescapeEscape | src/lib/supabase.ts:26 | The `JSON.stringify` string escaping is undone by unescaping, so it loses nothing. |
| Supabase.QuoteInjective | src/lib/supabase.ts:26 | Distinct strings serialise differently. |
| Supabase.PapersCacheKeyInjective | src/lib/supabase.ts:226 | Distinct user ids, including `null`, give distinct `getPapers` cache keys. |
| Supabase.CacheKey | src/lib/supabase.ts:25-27 | `operation_params`, with the parameters serialised. |
| Supabase.PapersCacheKey | src/lib/supabase.ts:226 | The `getPapers` key for a user id; `PapersCacheKeyInjective` states it is injective. |
| Supabase.WithRetry | src/lib/supabase.ts:67-102 | The loop's result, number of calls and backoff waits are those of the recursive retry definition. |
| Supabase.RetryFrom | src/lib/supabase.ts:74-101 | The recursive definition of the retry loop from one attempt on, against which the loop is proved; the lemmas below state its behaviour. |
| Supabase.IsRetryable | src/lib/supabase.ts:80-85 | The classifier: `network`, `timeout`, `ECONNRESET` or `ENOTFOUND` in the message, as the code, or in the original error's message. |
| Supabase.NonRetryableFailsFast | src/lib/supabase.ts:80-94 | An error that the classifier does not call retryable ends the loop at once, with `Operation failed after <n> attempts: <message>`, the error kept as the cause, and the retryable flag false. |
| Supabase.AlwaysRetryableExhausts | src/lib/supabase.ts:74-94 | An operation that always fails retryably runs exactly `maxRetries` times, then throws marked retryable. |
| Supabase.SucceedsAfterRetries | src/lib/supabase.ts:74-76 | An operation that fails retryably k times and then succeeds, with k below the limit, returns that value after k + 1 calls. |
| Supabase.BackoffSchedule | src/lib/supabase.ts:96-101 | After call k the wait is `delayMs * 2^(k-1)`, so 1000 ms, then 2000 ms, and so on with the defaults. There is one wait fewer than calls, and never more than `maxRetries` calls. The bare last error escapes exactly when `maxRetries < 1`. |
| Supabase.SavePaper | src/lib/supabase.ts:199-218 | Throws the not-configured error without a backend; otherwise it is the retried insert into `research_papers`. |
| Supabase.SavePaperFailureNotRetryable | src/lib/supabase.ts:211-214 | The `Failed to save research paper` error is not retryable. |
| Supabase.SavePaperDbErrorFailsFast | src/lib/supabase.ts:204-217 | A database error on the first insert fails after one attempt, with the exact wrapped message and no wait. |
| Supabase.SaveSummary | src/lib/supabase.ts:248-267 | Throws the not-configured error without a backend; otherwise it is the retried insert into `summaries`. |
| Supabase.SaveSummaryFailureNotRetryable | src/lib/supabase.ts:260-263 | The `Failed to save summary` error is not retryable. |
| Supabase.GetPapers | src/lib/supabase.ts:220-246 | The result and the resulting cache are those of the `getPapers` specification. |
| Supabase.GetPapersSpec | src/lib/supabase.ts:220-246 | The `getPapers` branches: no backend, cache hit, query error, or fetch and cache for five minutes; the lemmas below state each. |
| Supabase.PapersNotConfigured | src/lib/supabase.ts:221-224 | Without a backend the list is empty and the cache is untouched. |
| Supabase.PapersErrorNotCached | src/lib/supabase.ts:238-241 | A query error on a miss gives `[]` and caches nothing. |
| Supabase.PapersServedFromCache | src/lib/supabase.ts:226-245 | A successful fetch is cached under the user's key. The same user within five minutes gets the same list whatever the backend says; another user does not see it. |
| Supabase.GetSummary | src/lib/supabase.ts:269-286 | `null` without a backend or on a query error; otherwise the queried row. |
| Gemini.CallGeminiWithRetry | src/lib/gemini.ts:83-118 | The loop's result, calls and waits are those of the recursive call definition. |
| Gemini.CallFrom | src/lib/gemini.ts:86-117 | The recursive definition of the loop from one attempt on, against which the loop is proved; `QuotaFailsFast`, `OtherErrorStops`, `RateLimitExhausts` and `CallBounds` state its behaviour. |
| Gemini.QuotaFailsFast | src/lib/gemini.ts:95-100 | A `429` or `quota` error stops at once with the fixed quota message. |
| Gemini.OtherErrorStops | src/lib/gemini.ts:112-117 | Any other error, or a rate limit on the last attempt, rethrows that error after that call. |
| Gemini.RateLimitExhausts | src/lib/gemini.ts:103-110 | Rate limits on every call give `maxRetries + 1` calls and waits of 1000, 2000, … ms. |
| Gemini.CallBounds | src/lib/gemini.ts:86 | At most `maxRetries + 1` calls are made, with one wait fewer than the calls. |
| Gemini.NoAttemptsFails | src/lib/gemini.ts:117 | With a negative retry count no call is made, and the fallback error is thrown. |
| Gemini.Truncate | src/lib/gemini.ts:206 | `substring(0, n)` is the first `min(n, length)` characters. |
| Gemini.CognitiveLevelBands | src/lib/gemini.ts:213 | Ages up to 13 are middle school, up to 16 high school, up to 20 college, and older graduate. The level rises with the age. |
| Gemini.CognitiveLevel | src/lib/gemini.ts:213 | The level named in the summary prompt; `CognitiveLevelBands` states its bands. |
| Gemini.JsonSpanBounds | src/lib/gemini.ts:184 | The greedy `{…}` match runs from the first `{` to the last `}` after it, or is absent. |
| Gemini.JsonSpan | src/lib/gemini.ts:184-189 | The span starts with `{`, ends with `}` and is a slice of the reply. |
| Gemini.JsonSpanOfWrapped | src/lib/gemini.ts:184 | A single JSON object surrounded by brace-free prose is cut out exactly. |
| Gemini.WrapError | src/lib/gemini.ts:190-202 | A message mentioning `quota` becomes the service's quota message; any other becomes `Failed to <task>: <message>`. |
| Gemini.Finish | src/lib/gemini.ts:300-301 | The similar-papers service returns `parsed.papers` when truthy, otherwise `[]`; the others return the parsed value. |
| Gemini.RunTask | src/lib/gemini.ts:180-202 | A task's result is the call, the JSON span, the parse and the error re-wording, combined. |
| Gemini.TruncationBound | src/lib/gemini.ts:123 | Two contents that agree on their first 2000 characters (analysis) or 1500 (the other tasks) give the same outcome: nothing after the limit reaches the model. |
| Gemini.QuotaSurfacesAsTaskMessage | src/lib/gemini.ts:194-199 | A quota error from the call loop reaches the caller as the task's own quota message. |
| Gemini.QuotaMessageReplaced | src/lib/gemini.ts:194-199 | Any message mentioning `quota` is replaced by the task's quota message. |
| Gemini.NoJsonFailure | src/lib/gemini.ts:185-187 | A reply without a `{…}` span fails with `Failed to <task>: No valid JSON found in response`. |
| Gemini.SpanReachesParser | src/lib/gemini.ts:184-189 | With a span present, the parser receives exactly that span. |
| FileProcessor.ValidateFile | src/lib/fileProcessor.ts:68-79 | Valid exactly when the type is `application/pdf` and the size is at most 10485760 bytes. The type is checked first, and each failure carries its message. |
| FileProcessor.FallbackText | src/lib/fileProcessor.ts:46-50 | The text is page 1's placeholder, then page 2's, and so on to the page count. |
| FileProcessor.PlaceholderInjective | src/lib/fileProcessor.ts:49 | Different pages have different placeholders. |
| FileProcessor.FallbackTextGrows | src/lib/fileProcessor.ts:48-50 | The text for fewer pages is a prefix of the text for more. |
| FileProcessor.FallbackTextStart | src/lib/fileProcessor.ts:46-50 | No pages give the empty string; otherwise the text starts with a newline and page 1. |
| SearchFilters.RemoveAll | src/components/SearchFilters.tsx:54 | `filter(c => c !== id)` keeps exactly the elements other than `id`: every copy of `id` goes, every other element keeps its number of copies, and the list shrinks by the number of copies of `id`. |
| SearchFilters.RemoveKeepsOrder | src/components/SearchFilters.tsx:54 | Removing from a concatenation is concatenating the parts with the id removed, so the order is kept. |
| SearchFilters.RemoveIsSubsequence | src/components/SearchFilters.tsx:54 | What is left is a subsequence of the list, in order. |
| SearchFilters.RemoveAbsent | src/components/SearchFilters.tsx:54 | Removing an absent element changes nothing. |
| SearchFilters.RemoveAppended | src/components/SearchFilters.tsx:53-55 | Removing an element just appended to a list without it gives the list back. |
| SearchFilters.ToggleEffect | src/components/SearchFilters.tsx:53-55 | An absent id is appended at the end. A present id is removed with all its copies, and the other entries keep their copies and their order. |
| SearchFilters.Toggle | src/components/SearchFilters.tsx:53-55 | The shared membership toggle of the complexity and domain handlers; `ToggleEffect` and `ToggleTwice` state what it does. |
| SearchFilters.ToggleTwice | src/components/SearchFilters.tsx:53-55 | Toggling an absent id twice restores the list. |
| SearchFilters.ToggleComplexity | src/components/SearchFilters.tsx:51-61 | Toggles only the complexity list, keeps the other fields, and notifies the listener with the new filters. |
| SearchFilters.ToggleDomain | src/components/SearchFilters.tsx:63-73 | Toggles only the domain list, keeps the other fields, and notifies the listener with the new filters. |
| SearchFilters.SetDateRange | src/components/SearchFilters.tsx:75-81 | Sets only the date range, and notifies the listener with the new filters. |
| SearchFilters.SetSortBy | src/components/SearchFilters.tsx:83-89 | Sets only the sort key, and notifies the listener with the new filters. |
| SearchFilters.ClearFilters | src/components/SearchFilters.tsx:91-100 | Resets to the starting filters and notifies the listener with them. |
| SearchFilters.ActiveFilterCountZero | src/components/SearchFilters.tsx:102-109 | The count is zero exactly when the filters are the starting ones. |
| SearchFilters.ActiveFilterCount | src/components/SearchFilters.tsx:102-109 | `getActiveFilterCount`: one for a non-default date range, one per complexity and domain entry, one for a non-default sort; `ActiveFilterCountZero` and `ToggleCount` state its behaviour. |
| SearchFilters.ToggleCount | src/components/SearchFilters.tsx:102-109 | Toggling a complexity or domain id on adds one to the count; toggling a present id removes as many as it had copies. |
| ComparisonMatrix.Deselect | src/components/ComparisonMatrix.tsx:108 | No paper left has the id; a paper is left exactly when it was selected and has another id; the list never grows. |
| ComparisonMatrix.DeselectCounts | src/components/ComparisonMatrix.tsx:108 | Every copy of a paper with the id goes, and every other paper is left exactly as many times as it was selected. |
| ComparisonMatrix.DeselectKeepsOrder | src/components/ComparisonMatrix.tsx:108 | Deselecting from a concatenation is concatenating the deselected parts, so the order is kept. |
| ComparisonMatrix.DeselectIsSubsequence | src/components/ComparisonMatrix.tsx:108 | The papers left are a subsequence of the previous selection, in order. |
| ComparisonMatrix.ToggleSelectionEffect | src/components/ComparisonMatrix.tsx:104-114 | A selected paper is deselected with every entry sharing its id, and every other entry stays, as often as before and in its order. An unselected paper is appended when fewer than five are selected. Otherwise the selection stays. |
| ComparisonMatrix.ToggleSelection | src/components/ComparisonMatrix.tsx:104-114 | `togglePaperSelection`: deselect by id, append below five, or keep; its effect is stated by `ToggleSelectionEffect` and `SelectionBound`. |
| ComparisonMatrix.SelectionBound | src/components/ComparisonMatrix.tsx:104-114 | Any sequence of toggles from an empty selection leaves at most five papers. |
| ComparisonMatrix.DisplayMethodology | src/components/ComparisonMatrix.tsx:37 | The stated methodology when truthy, else the first key methodology when truthy, else `Experimental`. The result is always truthy. |
| ComparisonMatrix.Prepare | src/components/ComparisonMatrix.tsx:31-40 | The paper keeps all fields, and its analysis gains the display methodology without losing any field. |
| ComparisonMatrix.PrepareIdempotent | src/components/ComparisonMatrix.tsx:31-40 | Preparing twice is preparing once. |
| ComparisonMatrix.PrepareKeepsInputs | src/components/ComparisonMatrix.tsx:31-75 | Preparation changes neither the complexity scores, nor the method sets, nor the citation counts. |
| ComparisonMatrix.PrepareKeepsDomains | src/components/ComparisonMatrix.tsx:31-40 | Preparation leaves the list of primary domains unchanged. |
| ComparisonMatrix.PrepareKeepsQuality | src/components/ComparisonMatrix.tsx:31-51 | Preparation changes no paper's quality score. |
| ComparisonMatrix.SimilarityRule | src/components/ComparisonMatrix.tsx:68-70 | `Common primary domain` names the first listed domain, and appears exactly when all papers share it. `Shared methodologies` appears exactly when the common set is non-empty, and it carries that set. |
| ComparisonMatrix.QualityScoreOrder | src/components/ComparisonMatrix.tsx:45-51 | `high` scores 90, else `medium` 75, else `low` 60, in that priority; otherwise the rounded confidence. |
| ComparisonMatrix.QualityIgnoresCase | src/components/ComparisonMatrix.tsx:45-51 | Two papers whose quality strings are equal up to letter case, and whose confidences agree, get the same quality score. |
| ComparisonMatrix.HighSpellings | src/components/ComparisonMatrix.tsx:46-47 | `HIGH` and `High` lower-case to `high` and score 90. |
| ComparisonMatrix.QualityText | src/components/ComparisonMatrix.tsx:46 | The lower-cased `research_quality` string, `''` when missing; `QualityIgnoresCase` states its effect. |
| ComparisonMatrix.QualityScore | src/components/ComparisonMatrix.tsx:45-51 | The score of a quality text; `QualityScoreOrder` states its priorities. |
| ComparisonMatrix.Quality | src/components/ComparisonMatrix.tsx:45-51 | A paper's score: by its quality text, else the rounded `analysis_confidence`. |
| ComparisonMatrix.Min | src/components/ComparisonMatrix.tsx:54 | `Math.min` of a non-empty list is an element of it and no other element is smaller. |
| ComparisonMatrix.Max | src/components/ComparisonMatrix.tsx:55 | `Math.max` of a non-empty list is an element of it and no other element is larger. |
| ComparisonMatrix.MinMax | src/components/ComparisonMatrix.tsx:53-56 | Both ends are present exactly for a non-empty list, and min ≤ max. |
| ComparisonMatrix.Domains | src/components/ComparisonMatrix.tsx:63 | Holds only truthy primary domains. |
| ComparisonMatrix.DomainsMembers | src/components/ComparisonMatrix.tsx:63 | A value is among the domains exactly when some prepared paper has it as a truthy primary domain. |
| ComparisonMatrix.SameDomainMeaning | src/components/ComparisonMatrix.tsx:63-64 | All papers share a domain exactly when at least one has a truthy domain and every truthy domain equals it. |
| ComparisonMatrix.IntersectMembers | src/components/ComparisonMatrix.tsx:66 | Folding by intersection keeps exactly the methods that are in every set. |
| ComparisonMatrix.CommonMethodsMeaning | src/components/ComparisonMatrix.tsx:65-66 | With at least one paper, a lower-cased method is common exactly when every paper lists it. No papers give no common set. |
| ComparisonMatrix.MethodSet | src/components/ComparisonMatrix.tsx:65 | The lower-cased key methodologies of a paper as a set; `CommonMethodsMeaning` and `FeasibilityRule` state how it is used. |
| ComparisonMatrix.GenerateComparison | src/components/ComparisonMatrix.tsx:27-98 | The prepared papers become the new selection. On them: feasible exactly when a domain is shared and some method is common to all; the research gap is listed exactly when not feasible; `Different primary domains` is listed exactly when no domain is shared. The similarities and differences are the heuristics' lists. The citation and quality ranges are the min and max of the selected papers' citations and quality scores, and absent only for an empty selection. |
| ComparisonMatrix.SelectionPrepared | src/components/ComparisonMatrix.tsx:31-41 | The new selection has the same papers with the same ids in the same order, each showing its display methodology. |
| ComparisonMatrix.CompareAgainSame | src/components/ComparisonMatrix.tsx:27-98 | Comparing the new selection again gives the same selection and the same comparison. |
| ComparisonMatrix.ComplexityNoteRule | src/components/ComparisonMatrix.tsx:75-77 | The complexity difference is reported exactly when the scores' spread is at least 2. |
| ComparisonMatrix.FeasibilityRule | src/components/ComparisonMatrix.tsx:79-86 | For any selection, meta-analysis is feasible exactly when all papers share a domain and some lower-cased method is listed by every selected paper. |
| ResearchDiscovery.FilterPapers | src/components/ResearchDiscovery.tsx:30-33 | Keeps exactly the papers whose title or content contains the query, ignoring case. |
| ResearchDiscovery.Matches | src/components/ResearchDiscovery.tsx:31-32 | The search test on the title and the content, ignoring case; `SearchIgnoresCase` and `FilterSameMatches` use it. |
| ResearchDiscovery.FilterKeepsOrder | src/components/ResearchDiscovery.tsx:30 | Filtering a concatenation is concatenating the filtered parts. |
| ResearchDiscovery.FilterIsSubsequence | src/components/ResearchDiscovery.tsx:30 | The results are a subsequence of the fetched papers, in order. |
| ResearchDiscovery.FilterIdempotent | src/components/ResearchDiscovery.tsx:30-33 | Filtering the results again changes nothing. |
| ResearchDiscovery.SearchIgnoresCase | src/components/ResearchDiscovery.tsx:31-32 | Queries equal up to letter case find the same papers. |
| ResearchDiscovery.FilterSameMatches | src/components/ResearchDiscovery.tsx:30-33 | Two queries matching the same papers give the same results. |
| ResearchDiscovery.PerformSearch | src/components/ResearchDiscovery.tsx:22-42 | A blank query changes nothing. Otherwise the error is cleared, and the results are the filtered fetch, or the fetch's error is shown and the old results stay. |
| ResearchDiscovery.BlankQueryNoSearch | src/components/ResearchDiscovery.tsx:23 | A query of white space alone leaves the state as it was. |
| ResearchDiscovery.HandleFilterChange | src/components/ResearchDiscovery.tsx:44-51 | Stores the new filters, and searches again only when there are results. |
| ResearchDiscovery.FiltersDoNotAffectResults | src/components/ResearchDiscovery.tsx:44-51 | Changing the filters never changes which results a search produces. |
| ResearchDiscovery.SearchFindsExactlyMatches | src/components/ResearchDiscovery.tsx:30-33 | A paper is in the results exactly when it was fetched and matches the query. |
| ResearchDiscovery.NoBackendNoResults | src/lib/supabase.ts:221-224 | Without a backend, a search shows no results and no error. |

## Left out

- I/O and time. The model does not perform remote I/O, SDK calls, prompt text, PDF parsing,
  timers or real sleeps.
  - Backoff waits are computed, not waited for.
  - `Date.now()`, `Math.random()` and `toISOString()` are parameters.
- Concurrency.
  - Asynchronous interleavings between calls are not modelled.
  - Each data-store call sees its remote answers as one fixed oracle value.
- JSON text.
  - `JSON.stringify` is modelled only for the string escaping in cache keys.
  - `JSON.parse` of stored lists and of LLM replies is not modelled. Stored lists are kept
    parsed, and the reply parser is a parameter.
  - A `getItem` that returns `""` counts as absent.
- Floating point.
  - Numbers are integers.
  - `Number(...)` of a non-number counts as 0.
  - The confidence-based quality fallback takes its rounding, a function of the
    `analysis_confidence` value, as a parameter.
  - The accuracy range string is left out.
- Text operations.
  - `toLowerCase` maps only ASCII letters.
  - Strings are sequences of Unicode scalar values, so `substring` counts those rather than
    UTF-16 code units.
- Errors are modelled by their message.
  - A thrown value that is not an object is not modelled; in the source it would put
    `undefined` in messages or throw in the classifier.
  - A missing `code` field is `null`.
- Supabase `getCurrentUserId` and the `isSupabaseConfigured` flag are inputs.
- Supabase saves other than `savePaper` and `saveSummary` are left out. The data store passes
  their results through unchanged.
- DataStore.SavePaper: on the remote path, the whole `SupabaseService` save, retries included, is one oracle answer. `Supabase.SavePaper` models those retries separately.
- FileProcessor.FallbackText: the pdfjs extraction path, the 60 s timeout and the reader
  errors are I/O and are not modelled. Only the placeholder loop is.
- ComparisonMatrix.GenerateComparison: the order of methods in `Shared methodologies` follows
  JavaScript `Set` insertion order. The model keeps the common methods as a set, so that order
  is not modelled.
- ComparisonMatrix.MinMax: `Math.min()` of an empty list is `Infinity` in JavaScript. The model
  has no value for either end of an empty list.
- ComparisonMatrix.MethodSet: a `key_methodologies` entry that is not a string would make `toLowerCase` throw, and a truthy value that is not an array would make `.map` throw. Either throw escapes `generateComparison`, which has no `catch`, so no comparison is set. The model skips such entries and gives an empty set for such a value.
- ComparisonMatrix.QualityText: a truthy `research_quality` that is not a string would make `toLowerCase` throw, and no comparison would be set. The model reads it as `''`.
- ComparisonMatrix.FirstMethod: a `key_methodologies` value that is a non-empty string would
  give its first character in JavaScript. The model gives no method for any value that is not
  an array.
- LocalStorageService.LocalStorage: whether `setItem` throws a quota error is a fixed flag of the storage object. It does not depend on the size of what is written or on how much is already stored.
- DataStore.StoredGuestId: a stored `userId` that is truthy but not a string (JavaScript would
  return it as it is) counts as missing, and a new id is made.
- DataStore.GetPapers: every per-paper guest lookup uses one clock and one random draw.
  `DataStore.GuestIdStable` shows that the later lookups' clocks cannot change the result.
- ResearchDiscovery.Matches: a truthy title or content that is not a string would throw in the
  source, and the source would then show that error. The model treats it as no match.
- The presentation code (rendering, styling, drag-and-drop, navigation) is not modelled, and
  neither are the non-core components and `auth.ts`.
