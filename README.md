# Zealous: verified model of the verse catalog, classifier, pager, daily-verse cache and forms

This project is a Dafny model of the logic in the Zealous devotional web app. The app matches a user's mood or free text to Bible verses, pages through the verses of one mood, caches an AI-chosen verse of the day, collects prayer requests, and has sign-in and admin screens. The model covers:

- **Catalog** (`catalog.dfy`): the 18 moods in three categories and the 34 tagged verses. It has the two lookups `getVersesForMood` and `getMoodsByCategory`, with the catalog's integrity facts.
- **FreeText** (`freetext.dfy`): the keyword classifier `findRelevantMoods`, a loop over a keyword table into an insertion-ordered set. It also has `getVersesForMoods` (filter, random reorder, first three) and the submit/timer flow of the free-text screen. The fallback reorders the shared `defaultVerses` array in place and keeps two of its entries.
- **Pager**, **VerseDisplay**, **IOSVerseDisplay** (`pager.dfy`, `verse_display.dfy`, `ios_verse_display.dfy`): the `currentIndex` state and `handleNext` that both verse screens share, and what each screen renders. The iOS screen adds dots and its own `cn` class-name joiner.
- **DailyVerseHook** (`daily_verse.dfy`): the `useDailyVerse` hook. localStorage is a `map<string, string>` field. The hook keeps a window of the last ten feelings and reuses a cached verse on the same date. Loading and refreshing are split at their `await`.
- **GetDailyVerse** (`get_daily_verse.dfy`): the `get-daily-verse` edge function. It answers the CORS preflight, builds the feelings context (last five feelings), strips code fences from the answer, and routes each outcome to a 429, a 402 or the Psalm 23 fallback.
- **Json**, **DailyVerseRecord** (`json.dfy`, `daily_verse_record.dfy`): the JSON form of string lists and of the verse record that the hook writes to localStorage. Round trips are proved.
- **Auth** (`auth.dfy`): mode-dependent `validateForm`, the submission and its toasts, the mode links, the mode texts and the redirect rule.
- **AdminDashboard** (`admin.dfy`): the admin check, the list, and the status, notes and delete writes with their `savingId`/`editingNotes` state.
- **PrayerFields**, **IOSPrayerForm**, **PrayerRequestForm** (`prayer_fields.dfy`, `ios_prayer_form.dfy`, `prayer_request_form.dfy`): the two prayer-request forms.
- **Seqs**, **Text**, **Wrappers** (`seqs.dfy`, `text.dfy`, `wrappers.dfy`): the JavaScript operations the app relies on (`filter`, `slice`, the comparator shuffle, `trim`, `toLowerCase`, `includes`, `join`), and `Option`.

External effects are inputs:
- Every Supabase call (auth, the `prayer_requests` table, `rpc('is_admin')`, `functions.invoke`) is a datatype of outcomes passed to the completion half of a handler.
- The AI gateway's reply is an `Upstream` value.
- `JSON.parse` of the model's answer, and of the verse cached in localStorage, are parameter functions.
- A `localStorage.setItem` that throws is an input: for `loadVerse` and `refreshVerse` the count of their two writes that completed, for `addFeeling` whether its one write completed.
- The browser's own check of a non-empty `type="email"` input (none of the three forms sets `noValidate`) is a boolean: a refused address stops the form before its submit handler runs.
- zod's e-mail check is a parameter predicate.
- The browser's `confirm()` is a boolean.
- The random choices of each `sort(() => Math.random() - 0.5)` are a sequence of picks. Any permutation can result.

Facts of the code the model keeps:
- The catalog has 34 verses.
- The no-match fallback always returns exactly two default verses, never one.
- The `send-prayer-request` function does no validation, rate limiting or escaping. It is not modelled.

## Model

| member | source | states |
|---|---|---|
| Catalog.GetVersesForMood | src/data/bibleVerses.ts:249-251 | every verse returned is a catalog verse tagged with the mood id |
| Catalog.VersesForMoodComplete | src/data/bibleVerses.ts:249-251 | no catalog verse tagged with the id is left out |
| Catalog.VersesForMoodInCatalogOrder | src/data/bibleVerses.ts:249-251 | the verses of a mood come as a subsequence of the catalog, with no duplicates |
| Catalog.UnusedMoodHasNoVerses | src/data/bibleVerses.ts:249-251 | an id no verse is tagged with gets the empty list |
| Catalog.UnknownMoodHasNoVerses | src/data/bibleVerses.ts:15-251 | an id that is not a catalog mood gets the empty list |
| Catalog.GetMoodsByCategory | src/data/bibleVerses.ts:253-255 | the result is exactly the catalog moods of that category |
| Catalog.CategoriesPartitionMoods | src/data/bibleVerses.ts:253-255 | each category lookup is exactly its block of the mood list, in catalog order |
| Catalog.CategorySizes | src/data/bibleVerses.ts:15-39 | the categories have 7, 5 and 6 moods and together, in order, are the mood list |
| Catalog.CatalogSizes | src/data/bibleVerses.ts:15-247 | the catalog has 18 moods and 34 verses |
| Catalog.MoodIdsDistinct | src/data/bibleVerses.ts:17-38 | mood ids are pairwise distinct |
| Catalog.VersesDistinct | src/data/bibleVerses.ts:41-247 | no verse is listed twice |
| Catalog.TagsNameMoods | src/data/bibleVerses.ts:41-247 | every tag of every verse is the id of a catalog mood |
| Catalog.EveryMoodHasVerses | src/data/bibleVerses.ts:15-247 | every catalog mood has at least one verse |
| Catalog.MoodHasVerses | src/data/bibleVerses.ts:15-251 | a catalog mood id gets a non-empty verse list |
| FreeText.FindRelevantMoods | src/components/FreeTextInput.tsx:31-44 | the result is the table-ordered list of moods matched in the lower-cased text |
| FreeText.ScanKeywords | src/components/FreeTextInput.tsx:32-43 | the nested keyword loop over a table with distinct ids computes exactly the matched moods |
| FreeText.MatchedMoodsIff | src/components/FreeTextInput.tsx:35-41 | a mood is matched iff one of its keywords is a substring of the text |
| FreeText.MatchedMoods | src/components/FreeTextInput.tsx:31-44 | the reference definition of the classifier over a keyword table; MatchedMoodsIff and MatchedMoodsNoDup state its meaning, ScanKeywords is proved equal to it |
| FreeText.MatchedMoodsNoDup | src/components/FreeTextInput.tsx:33-43 | with distinct table ids, no matched mood is listed twice |
| FreeText.SetAdd | src/components/FreeTextInput.tsx:38 | adding to the set keeps what was there, adds the mood, and never creates a duplicate |
| FreeText.KeywordTableFollowsCatalog | src/components/FreeTextInput.tsx:10-29 | the keyword table has one entry per catalog mood, in catalog order, so its ids are distinct |
| FreeText.FindRelevantMoodsSpec | src/components/FreeTextInput.tsx:31-44 | matched iff some keyword occurs in the lower-cased text; no duplicates; every result is a catalog mood |
| FreeText.MatchingIgnoresCase | src/components/FreeTextInput.tsx:32 | classifying the lower-cased text gives the same moods as the text |
| FreeText.HopelessMatchesTwoMoods | src/components/FreeTextInput.tsx:17-27 | any text that lower-cases to "hopeless" matches both hopeful and discouraged: matching is by substring, not by word |
| FreeText.DirectionMatchesTwoMoods | src/components/FreeTextInput.tsx:23-28 | any text that lower-cases to "direction" matches both confused and seeking-wisdom |
| FreeText.GetVersesForMoods | src/components/FreeTextInput.tsx:46-55 | returns min(3, k) distinct verses, each a catalog verse sharing a mood, where k is the number of such verses |
| FreeText.MatchingVerses | src/components/FreeTextInput.tsx:47-49 | the catalog verses sharing a mood with the list; GetVersesForMoods and CatalogMoodGetsVerses state what is drawn from it |
| FreeText.DrawFromCatalog | src/components/FreeTextInput.tsx:47-54 | a filter, a reorder and a slice of a duplicate-free list give at most n distinct elements that pass |
| FreeText.AnyOrderCanBeDrawn | src/components/FreeTextInput.tsx:52-54 | for any order of the matching verses some random choices return its first three |
| FreeText.CatalogMoodGetsVerses | src/components/FreeTextInput.tsx:90-91 | a mood list holding a catalog mood gets between one and three verses |
| FreeText.SortRandomly | src/components/FreeTextInput.tsx:93 | the in-place random sort leaves the array equal to a swap shuffle of its old contents |
| FreeText.FallbackDrawsDefaults | src/components/FreeTextInput.tsx:58-94 | after any reorder of the default verses, the fallback is two distinct default verses |
| FreeText.FreeTextInput.constructor | src/components/FreeTextInput.tsx:76-78 | the screen starts with empty text, not processing |
| FreeText.FreeTextInput.SetText | src/components/FreeTextInput.tsx:124 | typing replaces the text and nothing else |
| FreeText.FreeTextInput.HandleSubmit | src/components/FreeTextInput.tsx:80-83 | blank text changes nothing and arms no timer; otherwise processing starts and the timer gets the text |
| FreeText.FreeTextInput.TimerFires | src/components/FreeTextInput.tsx:86-98 | the verses passed on are the mood-based draw or the first two reordered defaults, and processing ends |
| FreeText.FreeTextInput.SelectVerses | src/components/FreeTextInput.tsx:87-94 | with matched moods, the draw for them and the defaults untouched; otherwise the first two defaults after reordering |
| FreeText.FreeTextInput.DrawDefaults | src/components/FreeTextInput.tsx:93 | the shared array stays a permutation of the defaults and its first two are returned |
| Seqs.ShuffleReachesEveryOrder | src/components/FreeTextInput.tsx:52-54 | every permutation of a list is the result of some random choices |
| Seqs.SwapShuffleMultiset | src/components/FreeTextInput.tsx:93 | the swap shuffle keeps the multiset and the length |
| Seqs.FilterIsSubsequence | src/data/bibleVerses.ts:250 | `filter` keeps the original order |
| Seqs.Filter | src/data/bibleVerses.ts:250 | `filter`: exactly the elements that pass, never longer; FilterIsSubsequence states that order is kept |
| Seqs.TakeLast | src/hooks/useDailyVerse.ts:44 | `slice(-n)`: the last min(n, length) elements |
| Seqs.Shuffle | src/components/FreeTextInput.tsx:52-54 | the comparator sort driven by random picks: a permutation of its input; ShuffleReachesEveryOrder states that every order is reachable |
| Text.Utf16Length | src/pages/Auth.tsx:9 | a string's `length` counts one unit per character, two outside the Basic Multilingual Plane, so it lies between the character count and twice it, and equals the count when every character is in the plane |
| Text.BlankIffAllWhitespace | src/components/FreeTextInput.tsx:81 | `!s.trim()` holds exactly when every character is whitespace |
| Text.Trim | src/components/FreeTextInput.tsx:81 | `trim()`; BlankIffAllWhitespace, TrimIdempotent and TrimmedUtf16Shorter state its properties |
| Text.TrimmedUtf16Shorter | src/components/IOSPrayerForm.tsx:29-31 | trimming never makes a string longer in UTF-16 code units |
| Text.Utf16LengthConcat | src/components/IOSPrayerForm.tsx:29-31 | the UTF-16 length of a concatenation is the sum of the lengths |
| Text.TrimIdempotent | src/components/IOSPrayerForm.tsx:29-31 | trimming a trimmed string changes nothing |
| Text.ToLowerIdempotent | src/components/FreeTextInput.tsx:32 | lower-casing twice is lower-casing once |
| Text.ToLower | src/components/FreeTextInput.tsx:32 | `toLowerCase()`: same length, each character lower-cased |
| Text.Contains | src/components/FreeTextInput.tsx:37 | `includes`: some index where the substring occurs; MatchedMoodsIff is stated with it |
| Text.JoinContainsParts | supabase/functions/get-daily-verse/index.ts:28 | every part occurs in the joined string |
| Text.Join | supabase/functions/get-daily-verse/index.ts:28 | `join(sep)`; JoinContainsParts states that every part occurs in the result |
| Pager.Next | src/components/VerseDisplay.tsx:22-24 | the next index is below n; it is i+1, or 0 after the last |
| Pager.StepsAdvance | src/components/VerseDisplay.tsx:22-24 | fewer than n presses advance the index by k, wrapping once past the end |
| Pager.ReturnsAfterN | src/components/VerseDisplay.tsx:22-24 | after n presses the index is back where it started |
| Pager.VisitsEveryIndex | src/components/IOSVerseDisplay.tsx:22-24 | every index is reached within fewer than n presses |
| Pager.NoRepeatWithinN | src/components/IOSVerseDisplay.tsx:22-24 | fewer than n presses never show an index twice |
| Pager.FindMood | src/components/VerseDisplay.tsx:12 | finds a catalog mood with that id, and none exactly when the id is not a catalog mood |
| Pager.MoodLabel | src/components/VerseDisplay.tsx:50 | the label is present iff the id is a catalog mood, and is that mood's label |
| Pager.Mount | src/components/VerseDisplay.tsx:11-13 | a screen starts on the mood's verses at index 0 |
| Pager.VersePager.constructor | src/components/VerseDisplay.tsx:13 | the index starts at 0 |
| Pager.VersePager.HandleNext | src/components/VerseDisplay.tsx:22-24 | the index becomes (i+1) mod n and stays in bounds |
| VerseDisplay.Render | src/components/VerseDisplay.tsx:26-79 | "No verses found" iff the list is empty; otherwise the verse at the index, and a button iff n > 1 with its counter in 1..n |
| VerseDisplay.View | src/components/VerseDisplay.tsx:26-40 | a pager in a valid state shows the message iff it has no verses |
| VerseDisplay.CatalogMoodShowsCard | src/components/VerseDisplay.tsx:11-61 | a catalog mood has verses and gets a card with a title, showing its first verse |
| VerseDisplay.UnknownMoodShowsMessage | src/components/VerseDisplay.tsx:26-38 | an id that is not a mood has no verses and gets the "No verses found" message |
| VerseDisplay.CounterFollowsNext | src/components/VerseDisplay.tsx:71-79 | after a press the counter names the next verse, and 1 after the last |
| IOSVerseDisplay.CnDropsFalsy | src/components/IOSVerseDisplay.tsx:108-110 | falsy arguments make no difference to `cn` |
| IOSVerseDisplay.Cn | src/components/IOSVerseDisplay.tsx:108-110 | `classes.filter(Boolean).join(' ')`; CnDropsFalsy, CnKeepsTruthy, CnOfFalsy and CnOfTwo state its properties |
| IOSVerseDisplay.CnKeepsTruthy | src/components/IOSVerseDisplay.tsx:108-110 | every truthy argument occurs in the result |
| IOSVerseDisplay.CnOfFalsy | src/components/IOSVerseDisplay.tsx:108-110 | only falsy arguments give the empty string |
| IOSVerseDisplay.CnOfTwo | src/components/IOSVerseDisplay.tsx:108-110 | two non-empty strings are joined in order with one space |
| IOSVerseDisplay.Dots | src/components/IOSVerseDisplay.tsx:72-80 | one dot per verse, each with the class for its index |
| IOSVerseDisplay.DotClass | src/components/IOSVerseDisplay.tsx:74-78 | the class of one dot; OneActiveDot states that only the current index gets the active colour |
| IOSVerseDisplay.OneActiveDot | src/components/IOSVerseDisplay.tsx:70-81 | exactly the dot at the current index is active; the others are inactive |
| IOSVerseDisplay.Render | src/components/IOSVerseDisplay.tsx:26-95 | "No verses found" iff the list is empty; dots and the next button iff n > 1; the counter lies in 1..n |
| IOSVerseDisplay.View | src/components/IOSVerseDisplay.tsx:26-40 | a pager in a valid state shows the message iff it has no verses |
| IOSVerseDisplay.ShownDotIsActive | src/components/IOSVerseDisplay.tsx:70-81 | on a rendered screen, the active dot is the verse on show |
| Json.QuoteRoundTrip | src/hooks/useDailyVerse.ts:33-45 | parsing a stringified string gives it back and leaves the rest |
| Json.ListRoundTrip | src/hooks/useDailyVerse.ts:33-45 | parsing a stringified string list gives it back |
| Json.EncodeList | src/hooks/useDailyVerse.ts:45 | `JSON.stringify` of a string list; ListRoundTrip states that DecodeList reads it back |
| Json.DecodeList | src/hooks/useDailyVerse.ts:33 | `JSON.parse` of a string list, None when it would throw; ListRoundTrip states the round trip |
| DailyVerseRecord.VerseRoundTrip | src/hooks/useDailyVerse.ts:84-100 | parsing a stringified verse record gives it back |
| DailyVerseRecord.EncodeVerse | src/hooks/useDailyVerse.ts:100 | `JSON.stringify` of a verse record, keys in source order; VerseRoundTrip states that DecodeVerse reads it back |
| DailyVerseRecord.DecodeVerse | src/hooks/useDailyVerse.ts:86 | `JSON.parse` of a verse record, None when it would throw; VerseRoundTrip states the round trip |
| DailyVerseHook.FeelingsReadBack | src/hooks/useDailyVerse.ts:30-45 | a feelings list written to storage is read back as itself |
| DailyVerseHook.StoredFeelings | src/hooks/useDailyVerse.ts:30-37 | `getStoredFeelings`: the parsed list, or [] for a missing, empty or unparsable value; FeelingsReadBack states that it reads back what the hook writes |
| DailyVerseHook.WithFeeling | src/hooks/useDailyVerse.ts:40-45 | the storage after a completed `addFeeling`; AddFeelingKeepsLastTen states its window and that other keys are untouched |
| DailyVerseHook.AddFeelingKeepsLastTen | src/hooks/useDailyVerse.ts:40-45 | the stored list is the last 10 of old plus f; it ends in f; it is old plus f when old has fewer than 10; other keys are unchanged |
| DailyVerseHook.AddFeelingsKeepLastTen | src/hooks/useDailyVerse.ts:40-45 | any non-empty run of addFeeling leaves the last 10 of the old list followed by the new feelings, however long the old list was |
| DailyVerseHook.AddFeelingKeepsCache | src/hooks/useDailyVerse.ts:40-45 | adding a feeling changes neither the cache hit nor the cached verse |
| DailyVerseHook.FetchedVerse | src/hooks/useDailyVerse.ts:52-73 | the returned data, or the fallback verse on a reported error or an exception |
| DailyVerseHook.FetchRequest | src/hooks/useDailyVerse.ts:53-61 | the request carries the stored feelings and today's date |
| DailyVerseHook.CachedVerse | src/hooks/useDailyVerse.ts:84-106 | a hit shows the parsed stored verse, or the fallback when parsing throws |
| DailyVerseHook.CachedVerseIsShown | src/hooks/useDailyVerse.ts:81-100 | after caching v for today, a load today is a hit that shows v, for any parse that reads back what was stringified, and the feelings are untouched |
| DailyVerseHook.DecodeVerseReadsBack | src/hooks/useDailyVerse.ts:86-100 | the model's verse parser reads back every stringified verse |
| DailyVerseHook.DateOnlyWriteKeepsOldVerse | src/hooks/useDailyVerse.ts:99-100 | when only the date is written, the next load that day is a hit showing the verse cached before |
| DailyVerseHook.OtherDayMisses | src/hooks/useDailyVerse.ts:84 | a verse cached on another day is not a hit |
| DailyVerseHook.CacheHit | src/hooks/useDailyVerse.ts:81-84 | `storedDate === today && storedVerse`; CachedVerseIsShown and OtherDayMisses state when it holds |
| DailyVerseHook.Cache | src/hooks/useDailyVerse.ts:99-100 | the storage after both cache writes; CachedVerseIsShown states that a same-day load reads the verse back |
| DailyVerseHook.DailyVerseHook.constructor | src/hooks/useDailyVerse.ts:21-22 | no verse, loading |
| DailyVerseHook.DailyVerseHook.AddFeeling | src/hooks/useDailyVerse.ts:40-49 | a completed write leaves the storage with the feeling added; a throwing `setItem`, swallowed by the catch, leaves storage as it was; the verse and loading are unchanged either way |
| DailyVerseHook.DailyVerseHook.LoadVerse | src/hooks/useDailyVerse.ts:76-96 | a hit shows the cached verse (or the fallback when parsing throws) and fetches nothing; a miss shows the fallback and sends the request; loading ends |
| DailyVerseHook.DailyVerseHook.ResumeLoad | src/hooks/useDailyVerse.ts:96-107 | both writes done: the fetched verse is cached under today's date and shown; a write throws: what was written stays, the fallback is shown and loading ends |
| DailyVerseHook.DailyVerseHook.BeginRefresh | src/hooks/useDailyVerse.ts:114-116 | loading starts and the request is sent, whatever the cached date |
| DailyVerseHook.DailyVerseHook.CompleteRefresh | src/hooks/useDailyVerse.ts:116-123 | both writes done: both cache keys hold today and the fetched verse, which is shown, and loading ends; a write throws: what was written stays, and the verse and loading are unchanged |
| DailyVerseHook.LoadTwiceSameDay | src/hooks/useDailyVerse.ts:76-111 | a miss and its fetch, then a second load the same day, gives a hit that sends nothing and shows the fetched verse |
| GetDailyVerse.ContextShowsLastFive | supabase/functions/get-daily-verse/index.ts:27-29 | the context is the new-user sentence iff there are no feelings; otherwise it holds each of the last five |
| GetDailyVerse.OlderFeelingsIgnored | supabase/functions/get-daily-verse/index.ts:27-28 | feelings older than the last five do not change the context |
| GetDailyVerse.PromptCarriesContext | supabase/functions/get-daily-verse/index.ts:31-42 | the system prompt contains the context |
| GetDailyVerse.FeelingsContext | supabase/functions/get-daily-verse/index.ts:26-28 | defines the feelings context: the history sentence with the last five feelings joined by "; ", or the new-user sentence; no contract of its own, ContextShowsLastFive and OlderFeelingsIgnored state what it promises |
| GetDailyVerse.SystemPrompt | supabase/functions/get-daily-verse/index.ts:30-42 | defines the system prompt around the context; PromptCarriesContext states that the context is in it |
| GetDailyVerse.UserMessage | supabase/functions/get-daily-verse/index.ts:57 | defines the user message; UserMessageNamesDate states that the date is in it |
| GetDailyVerse.UserMessageNamesDate | supabase/functions/get-daily-verse/index.ts:57 | the user message contains the date it was asked for |
| GetDailyVerse.StripFences | supabase/functions/get-daily-verse/index.ts:95 | the global replacement of the json code-fence markers by nothing, never longer than its input; StripLeavesPlainText and StripKeepsPlainPrefix state what it keeps |
| GetDailyVerse.Clean | supabase/functions/get-daily-verse/index.ts:95 | strip-then-trim of the answer; CleanUnwrapsFence states what reaches the parse |
| GetDailyVerse.StripLeavesPlainText | supabase/functions/get-daily-verse/index.ts:95 | fence stripping leaves text without backticks unchanged |
| GetDailyVerse.StripKeepsPlainPrefix | supabase/functions/get-daily-verse/index.ts:95 | backtick-free text is kept in front of what the rest strips to |
| GetDailyVerse.CleanUnwrapsFence | supabase/functions/get-daily-verse/index.ts:95 | cleanup returns an unpadded answer unchanged, bare or wrapped in a fenced json block |
| GetDailyVerse.Begin | supabase/functions/get-daily-verse/index.ts:14-57 | OPTIONS gets the preflight; an unreadable body or a missing key gets the fallback; otherwise the gateway is asked |
| GetDailyVerse.GatewaySeesFeelings | supabase/functions/get-daily-verse/index.ts:27-57 | the system prompt sent to the gateway contains each of the last five feelings |
| GetDailyVerse.Finish | supabase/functions/get-daily-verse/index.ts:62-124 | the response for the gateway's outcome; FinishOutcomes and FailuresFallBack state its cases |
| GetDailyVerse.FinishOutcomes | supabase/functions/get-daily-verse/index.ts:62-111 | 429 and 402 pass through iff upstream said so, with their messages; every other answer is status 200 with the parsed verse or the fallback |
| GetDailyVerse.FailuresFallBack | supabase/functions/get-daily-verse/index.ts:77-124 | a network error, another non-ok status, missing content or a failed parse gives the Psalm 23 fallback |
| GetDailyVerse.Handle | supabase/functions/get-daily-verse/index.ts:13-126 | OPTIONS gets the preflight; 429/402 only when the gateway returned it; every other response is status 200 |
| GetDailyVerse.CanonicalAnswerIsReturned | supabase/functions/get-daily-verse/index.ts:93-111 | a backtick-free canonical JSON answer, bare or fenced, reaches the client unchanged |
| GetDailyVerse.ClientOutcome | src/hooks/useDailyVerse.ts:59-68 | the client gets data iff the response is 2xx with a verse |
| GetDailyVerse.HookGetsModelVerseOrFallback | supabase/functions/get-daily-verse/index.ts:92-124 | whatever happens, the hook shows the fallback or a verse parsed from the gateway's answer |
| Auth.InitialMode | src/pages/Auth.tsx:14-17 | reset iff the URL has reset=true, otherwise signin |
| Auth.FormErrors | src/pages/Auth.tsx:41-75 | per mode: email checked except in reset, at least 6 UTF-16 code units except in forgot, confirmation only in signup and reset, with their messages |
| Auth.EmojiPasswordIsLongEnough | src/pages/Auth.tsx:9 | three emoji (six code units) pass the length rule, three letters do not |
| Auth.ErrorsOnlyOnShownFields | src/pages/Auth.tsx:41-75 | only fields the mode shows are flagged, and hidden fields do not affect validation |
| Auth.AcceptedForms | src/pages/Auth.tsx:41-75 | the form is valid iff the per-mode conditions hold, in both directions |
| Auth.CallFor | src/pages/Auth.tsx:85-114 | each mode makes its own auth call |
| Auth.SubmitToast | src/pages/Auth.tsx:84-130 | success toast iff the call succeeded; the special messages for a registered e-mail and bad credentials; the generic message for an exception |
| Auth.LinksBetweenModes | src/pages/Auth.tsx:280-365 | each link goes to another mode; every mode but signin links back; reset is reached only from the URL |
| Auth.Offered | src/pages/Auth.tsx:280-365 | which links each mode shows; LinksBetweenModes states that every mode but signin links back and none leads to reset |
| Auth.Target | src/pages/Auth.tsx:280-365 | the mode each link sets; LinksBetweenModes states that it differs from the mode the link is shown in |
| Auth.TextsIdentifyMode | src/pages/Auth.tsx:133-166 | title, subtitle and button text each tell the modes apart; the button differs while submitting |
| Auth.Title | src/pages/Auth.tsx:133-140 | the title of each mode; TextsIdentifyMode states that no two modes share one |
| Auth.Subtitle | src/pages/Auth.tsx:142-149 | the subtitle of each mode; TextsIdentifyMode states that no two modes share one |
| Auth.ButtonText | src/pages/Auth.tsx:151-166 | the button text of each mode, idle and submitting; TextsIdentifyMode states that it tells modes and submitting apart |
| Auth.RedirectUnlessResetLink | src/pages/Auth.tsx:35-39 | a loaded signed-in user is sent home unless the page is in reset mode |
| Auth.ShouldRedirect | src/pages/Auth.tsx:35-39 | the effect's condition `user && !isLoading && mode !== 'reset'`; RedirectUnlessResetLink states its consequences |
| Auth.AuthPage.constructor | src/pages/Auth.tsx:14-22 | initial mode from the URL, empty fields, no errors |
| Auth.AuthPage.UrlChanged | src/pages/Auth.tsx:28-32 | reset=true switches to reset mode; any other value changes nothing |
| Auth.AuthPage.SetEmail | src/pages/Auth.tsx:206-209 | typing sets the e-mail and clears only its error |
| Auth.AuthPage.SetPassword | src/pages/Auth.tsx:230-233 | typing sets the password and clears only its error |
| Auth.AuthPage.SetConfirmPassword | src/pages/Auth.tsx:254-257 | typing sets the confirmation and clears only its error |
| Auth.AuthPage.ValidateForm | src/pages/Auth.tsx:41-75 | records the mode's errors and returns true iff none was recorded |
| Auth.AuthPage.HandleSubmit | src/pages/Auth.tsx:77-82 | a shown, non-empty e-mail the browser refuses stops the form with no error recorded and no call; otherwise the mode's errors are recorded, no call when there are any, and a valid form starts submitting with the mode's call |
| Auth.AuthPage.CompleteSubmit | src/pages/Auth.tsx:84-130 | the toast; home on success except for forgot, which returns to signin; submitting ends |
| Auth.AuthPage.Follow | src/pages/Auth.tsx:280-365 | a shown link switches to its mode and clears every error |
| Auth.EmailInputPasses | src/pages/Auth.tsx:195-205 | the browser's check of the e-mail input: it applies only in the modes that show the input, and an empty value passes |
| AdminDashboard.StatusConfig | src/pages/AdminDashboard.tsx:242 | the option with that value, or the first option (pending) for an unknown status |
| AdminDashboard.FindStatus | src/pages/AdminDashboard.tsx:242 | `find` with a default: an option with the status when one exists, and the default exactly when none does |
| AdminDashboard.UnknownStatusShowsPending | src/pages/AdminDashboard.tsx:19-23 | any other status displays as Pending |
| AdminDashboard.WriteTouchesOnlyId | src/pages/AdminDashboard.tsx:112-140 | a status or notes write keeps length and order and changes only entries with its id |
| AdminDashboard.Applied | src/pages/AdminDashboard.tsx:113-168 | a write applied to a list is never longer than it; WriteTouchesOnlyId, DeleteIsFilter and DeleteRemovesExactly state what it changes |
| AdminDashboard.DeleteIsFilter | src/pages/AdminDashboard.tsx:168 | a delete is the filter on the other ids |
| AdminDashboard.DeleteRemovesExactly | src/pages/AdminDashboard.tsx:167-168 | a delete removes exactly the entries with the id and keeps the rest in order |
| AdminDashboard.DeletedStaysDeleted | src/pages/AdminDashboard.tsx:97-176 | no write brings back an id that is gone |
| AdminDashboard.WritesOnDifferentIdsCommute | src/pages/AdminDashboard.tsx:97-176 | writes on different requests give the same list in either order |
| AdminDashboard.CompleteAsWritten | src/pages/AdminDashboard.tsx:113-168 | as written, a completed write is computed from the list captured at click time |
| AdminDashboard.StaleListRestoresDeletedRow | src/pages/AdminDashboard.tsx:97-176 | as written, an in-flight status change restores a row deleted meanwhile |
| AdminDashboard.ScreenOf | src/pages/AdminDashboard.tsx:188-200 | access denied iff loaded and not an admin; the list screen shows the list |
| AdminDashboard.AfterAdminCheckAsWritten | src/pages/AdminDashboard.tsx:38-95 | as written, only an admin starts the fetch, and loading stays set |
| AdminDashboard.NonAdminKeepsSpinner | src/pages/AdminDashboard.tsx:66-95 | as written, a signed-in non-admin sees the spinner forever, never access denied |
| AdminDashboard.Dashboard.constructor | src/pages/AdminDashboard.tsx:30-35 | loading, not an admin, nothing edited or saving |
| AdminDashboard.Dashboard.View | src/pages/AdminDashboard.tsx:188-200 | access denied iff loaded and not an admin |
| AdminDashboard.Dashboard.AdminChecked | src/pages/AdminDashboard.tsx:38-95 | admin iff the check answered true; only an admin fetches; for anyone else loading ends |
| AdminDashboard.WriteToast | src/pages/AdminDashboard.tsx:107-172 | each write's success and failure toast; destructive iff it failed; never the load-failure toast |
| AdminDashboard.WriteToastsTellWritesApart | src/pages/AdminDashboard.tsx:107-172 | the toast tells which kind of write it was and whether it succeeded |
| AdminDashboard.Dashboard.PrayersFetched | src/pages/AdminDashboard.tsx:73-89 | rows replace the list on success with no toast; an error keeps it and gives the load-failure toast; loading ends |
| AdminDashboard.Dashboard.BeginStatusChange | src/pages/AdminDashboard.tsx:97-103 | only while that request is not saving (its select is disabled); savingId is the id, and the status write is issued |
| AdminDashboard.Dashboard.BeginSaveNotes | src/pages/AdminDashboard.tsx:123-129 | only while that request is not saving; savingId is the id, and the notes being edited are written |
| AdminDashboard.Dashboard.BeginDelete | src/pages/AdminDashboard.tsx:150-158 | only while that request is not saving; declining the confirmation changes nothing; confirming sets savingId and issues the delete |
| AdminDashboard.Dashboard.Complete | src/pages/AdminDashboard.tsx:105-175 | success applies the write to the list and a saved note closes the editor; failure keeps the list; savingId is null after every outcome; the write's toast is returned |
| AdminDashboard.Dashboard.StartEditing | src/pages/AdminDashboard.tsx:296-299 | the editor opens on that request with its notes or "" |
| AdminDashboard.Dashboard.SetNotesValue | src/pages/AdminDashboard.tsx:311 | typing sets only the notes text |
| AdminDashboard.Dashboard.CancelEditing | src/pages/AdminDashboard.tsx:326-327 | while the edited request is not saving, the editor closes and nothing else changes |
| AdminDashboard.NonAdminIsDenied | src/pages/AdminDashboard.tsx:196-200 | with the corrected check, a non-admin reaches the access-denied screen |
| PrayerFields.FilledMeansVisibleText | src/components/IOSPrayerForm.tsx:19 | a form passes iff both the name and the request have a non-whitespace character |
| PrayerFields.EmailPasses | src/components/PrayerRequestForm.tsx:78-80 | the browser's check of the optional e-mail input: an empty value always passes, a non-empty one when the browser accepts it |
| IOSPrayerForm.UserIdOf | src/components/IOSPrayerForm.tsx:32 | the user id when there is a non-empty one, otherwise null |
| IOSPrayerForm.PayloadFor | src/components/IOSPrayerForm.tsx:19-34 | nothing is sent iff the name or the request is blank; otherwise the trimmed fields and the user id |
| IOSPrayerForm.PayloadIsClean | src/components/IOSPrayerForm.tsx:27-34 | the fields sent are trimmed, not blank, and within the input limits |
| IOSPrayerForm.Form.constructor | src/components/IOSPrayerForm.tsx:9-14 | empty fields, not submitting, not submitted |
| IOSPrayerForm.Form.SetFields | src/components/IOSPrayerForm.tsx:95-133 | typing sets the fields within their maxLength, counted in UTF-16 code units |
| IOSPrayerForm.Form.HandleSubmit | src/components/IOSPrayerForm.tsx:16-34 | a non-empty e-mail the browser refuses stops the form with no toast and no invoke; otherwise a blank name or request gives the fill-in toast and no invoke; otherwise submitting starts with the payload |
| IOSPrayerForm.Form.CompleteSubmit | src/components/IOSPrayerForm.tsx:36-49 | only success sets isSubmitted; isSubmitting is false after every outcome |
| IOSPrayerForm.Form.SubmitAnother | src/components/IOSPrayerForm.tsx:70-75 | the fields are cleared and isSubmitted is false |
| IOSPrayerForm.Submit | src/components/IOSPrayerForm.tsx:16-49 | an unfilled form, or one whose non-empty e-mail the browser refuses, sends nothing; otherwise the payload is sent and the form ends submitted iff the call succeeded, never left submitting |
| PrayerRequestForm.Form.constructor | src/components/PrayerRequestForm.tsx:6-10 | empty fields, not submitting, not submitted |
| PrayerRequestForm.Form.SetFields | src/components/PrayerRequestForm.tsx:63-101 | typing sets the fields within their maxLength, counted in UTF-16 code units |
| PrayerRequestForm.Form.HandleSubmit | src/components/PrayerRequestForm.tsx:12-20 | a non-empty e-mail the browser refuses stops the form with no toast; otherwise a blank name or request gives the toast and no state change, and a filled form starts submitting; the handler never checks the e-mail |
| PrayerRequestForm.Form.TimerFires | src/components/PrayerRequestForm.tsx:24-28 | submitting ends and the form is submitted |
| PrayerRequestForm.Form.SubmitAnother | src/components/PrayerRequestForm.tsx:39-44 | the fields are cleared and isSubmitted is false |
| PrayerRequestForm.Submit | src/components/PrayerRequestForm.tsx:12-28 | once the browser lets the e-mail through (always when it is empty), the form ends submitted iff name and request are filled |

## Findings

| source | as written | input that shows it | evidently intended | confidence | as-written member | corrected member |
|---|---|---|---|---|---|---|
| src/pages/AdminDashboard.tsx:66-95 | `isLoading` is cleared only inside `fetchPrayers`, which runs only when `isAdmin` | a signed-in user for whom `is_admin` answers false or errors | the "Access Denied" screen (lines 196-200) once the check has answered | high (not executed) | AdminDashboard.NonAdminKeepsSpinner | AdminDashboard.Dashboard.AdminChecked |
| src/pages/AdminDashboard.tsx:113-168 | `setPrayers(prayers.map(…))` and `setPrayers(prayers.filter(…))` read `prayers` from the render the handler was made in | rows a and b; start a status change on a, delete b and let it finish, then let the status change finish: b is back on screen | each write applied to the current list (a functional state update), so writes on different ids commute | medium (not executed) | AdminDashboard.StaleListRestoresDeletedRow | AdminDashboard.Dashboard.Complete |

## Left out

- Every network call: Supabase auth, the `prayer_requests` table, `rpc('is_admin')` and `functions.invoke`. Each is replaced by an input outcome (success, reported error or exception). Row-level security happens in the store and is not visible in the code.
- supabase/functions/send-prayer-request/index.ts is not part of this model. It is e-mail I/O through an external API.
- The AI gateway request itself: the model name, headers and fetch body. Only the system prompt and user message are modelled.
- `JSON.parse` of the gateway's answer is the parameter `parse`. `req.json()` is an optional request body.
- The distribution of the `Math.random()` comparator sorts. Only "some permutation, then a prefix" is modelled.
- FreeText.SortRandomly: the in-place comparator sort is a swap shuffle driven by the random choices. It is proved to keep the multiset, but it is not proved to reach every order. That is proved only for the shuffle used by `getVersesForMoods`.
- What the browser takes for an e-mail address (the `type="email"` grammar) is the boolean input `emailAccepted` of the three submit handlers. Only its shape is modelled: an empty value passes, and the Auth page checks the input only in the modes that show it.
- zod's e-mail regex is the parameter `isEmail`. Only the six-code-unit password rule is concrete.
- Dates (`toISOString`, `toLocaleDateString`) are plain strings. `setTimeout` delays are a separate timer step. Animations, `console` logging, navigation and icons are left out. `confirm()` is a boolean input. Toasts are the values the handlers return.
- Text.ToLower: lower-cases only the Basic Latin letters A-Z. JavaScript's `toLowerCase` also folds other scripts. That only matters for non-ASCII input, since every keyword is ASCII.
- DailyVerseHook.StoredFeelings: `JSON.parse` is modelled for the array-of-strings form the hook itself writes, without whitespace. A stored value of another JSON form reads as the empty list here, while the source would return that value.
- DailyVerseHook.CachedVerse: the stored verse's `JSON.parse` is the parameter `parse`, which yields a verse or throws. A stored JSON value of another shape, which the source would put on screen as it is, is not modelled.
- DailyVerseHook.DailyVerseHook.LoadVerse: a `localStorage.getItem` that throws (storage disabled) is not modelled; the source's `catch` would show the fallback.
- Text.Utf16Length: Dafny characters are Unicode scalar values, so a string holding a lone surrogate is not modelled.
- DailyVerseHook.FetchedVerse: `data as DailyVerse` is taken to be a verse record. A malformed body from the function is not modelled.
- The Google sign-in button (src/pages/Auth.tsx:297-324) and the page's own loading spinner (src/pages/Auth.tsx:168-174) are not modelled.
- The list fetch's ordering by `created_at` happens in the store. The rows arrive as an input.
- Pure presentation with no logic beyond calling the catalog (Hero, Header, IOSTabBar, ScrollReveal, App routing, FreeTextResults, MoodSelector, IOSMoodSelector, Index, MyPrayers) is not modelled. MyPrayers' status lookup is the same as AdminDashboard.StatusConfig.
- The verse texts are looked up by reference (Catalog.TextOf) rather than stored in each verse. No property about the texts is proved.
