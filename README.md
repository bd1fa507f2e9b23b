# Flag trainer spaced-repetition engine in Dafny

This project models the client-side learning engine of the flag trainer and
proves properties of the model. The engine has these parts:

- **Scheduler:** a SuperMemo-2 variant that decides when a flag is reviewed
  again (`algorithm.ts`).
- **Progress store:** keeps per-flag progress in the browser's
  `localStorage` (`storage.ts`).
- **Sync queue:** holds progress changes until a remote endpoint accepts them
  (`sync.ts`).
- **Offline monitor:** tracks connectivity and an explicit, expiring
  "offline mode" (`offline.ts`).
- **Lifecycle coordinator:** wires the three stateful parts together
  (`initialize.ts`).
- **Helpers for the views:**
  - timeline aggregation (`timeline-utils.ts`);
  - flag image addresses (`utils.ts`);
  - the banner's country-code rows (`country-codes.ts`).

Modules, one per concern:

| module | file | form |
|---|---|---|
| `Common` | common.dfy | `Option`, `Result`, decoded storage slots, decimal rendering, JavaScript `slice` |
| `Scheduler` | scheduler.dfy | pure functions and lemmas |
| `Records` | records.dfy | progress records, the progress object as an ordered association list, queue items |
| `Environment` | environment.dfy | class `Host`: the storage keys, `navigator.onLine`, window and storage availability |
| `Sync` | sync.dfy | class `SyncEngine` (the module's mutable `syncState`) plus the pure functions that specify it |
| `Storage` | storage.dfy | methods over a `Host` and a `SyncEngine`, specified by pure functions |
| `Offline` | offline.dfy | class `OfflineMonitor` (options, listeners, timer) plus its pure status function |
| `Lifecycle` | lifecycle.dfy | class `SpacedRepetitionSystem` |
| `Timeline` | timeline.dfy | pure functions, and the aggregation loop as a method |
| `FlagUrls` | flag_urls.dfy | pure functions |
| `CountryCodes` | country_codes.dfy | pure functions |

Conventions:

- **Time** is integer milliseconds. The current time is a parameter `now`, so
  `Date.now()` is never read.
- **Ease factors** are exact reals.
- **Randomness** is a parameter: the device id's random part, the queue
  item's random part, the shuffled code list and the mocked reviews.
- **Remote delivery** is a function `deliver` fixed when the sync engine is
  built.
- **Storage access:** reading `localStorage` throws when there is no window;
  writing or removing throws when `isLocalStorageAvailable()` is false. A
  throw is modelled as the operation stopping with no further effect.
- **Persistence:** each persisted key is a field of the `Host` object.

## Model

| member | source | states |
|---|---|---|
| Scheduler.NextEaseFactor | src/lib/spaced-repetition/algorithm.ts:31-49 | the new ease is never below 1.3 |
| Scheduler.NextInterval | src/lib/spaced-repetition/algorithm.ts:52-69 | the new interval never exceeds 365 days |
| Scheduler.CalculateNextReview | src/lib/spaced-repetition/algorithm.ts:23-81 | ease at least 1.3, interval at most 365, next review exactly `interval` days after `now` |
| Scheduler.InitialParameters | src/lib/spaced-repetition/algorithm.ts:87-93 | a new flag starts at ease 2.5, interval 0, due immediately |
| Scheduler.GenericEaseRule | src/lib/spaced-repetition/algorithm.ts:38-49 | outside the two overrides, a correct answer keeps the ease and a wrong one lowers it by 0.54, floored at 1.3 |
| Scheduler.EaseOverrides | src/lib/spaced-repetition/algorithm.ts:43-47 | a correct answer after a 1-day interval sets 2.52; after an interval of 6 or more with ease at least 2.5, it sets 2.54 |
| Scheduler.CorrectAnswerCanLowerEase | src/lib/spaced-repetition/algorithm.ts:45-46 | the 2.54 override lowers an ease of 3.0 although the answer was correct |
| Scheduler.EaseStaysInBand | src/lib/spaced-repetition/algorithm.ts:38-49 | an ease in [1.3, 2.54] stays in that band after any answer |
| Scheduler.HalfFloor | src/lib/spaced-repetition/algorithm.ts:56 | `Math.floor(n * 0.5)` is integer halving rounded down |
| Scheduler.IncorrectResetsInterval | src/lib/spaced-repetition/algorithm.ts:54-56 | a wrong answer sets the interval to half the old one, clamped into 1..3 days |
| Scheduler.IncorrectShortensInterval | src/lib/spaced-repetition/algorithm.ts:54-56 | a wrong answer shortens every interval of 2 days or more |
| Scheduler.RoundedGrowth | src/lib/spaced-repetition/algorithm.ts:65 | rounding an interval of 2 or more times an ease of at least 1.3 gains at least one day |
| Scheduler.CorrectIntervalSteps | src/lib/spaced-repetition/algorithm.ts:57-69 | correct answers step 0 to 1 to 6, then strictly grow until the 365-day cap |
| Scheduler.IntervalInRange | src/lib/spaced-repetition/algorithm.ts:52-69 | for a non-negative stored interval, the new interval lies in 1..365 |
| Scheduler.SchedulerExamples | src/lib/spaced-repetition/algorithm.ts:23-81 | the worked sequences 0-1-6-15 days and eases 2.5-2.52-2.54; a wrong answer gives 1.96 and 3 days; the 1.3 floor; the 365 cap |
| Scheduler.DaysUntil | src/lib/spaced-repetition/algorithm.ts:102-104 | the day count is the ceiling: `(d-1)` whole days fall short of the target and `d` days reach it |
| Scheduler.FormatNextReviewTime | src/lib/spaced-repetition/algorithm.ts:100-113 | "today" exactly when the date is not in the future; "tomorrow" exactly within the next day; otherwise "in N days" with N the rounded-up day count |
| Scheduler.FormatExamples | src/lib/spaced-repetition/algorithm.ts:100-113 | now, one day ahead and five days ahead render as "today", "tomorrow" and "in 5 days" |
| Common.DecimalRoundTrip | src/lib/spaced-repetition/sync.ts:73 | `parseInt` of the decimal text written by `toString()` gives back the stored time |
| Common.DecimalInjective | src/lib/spaced-repetition/sync.ts:210-215 | distinct times are stored as distinct texts |
| Common.JsSlice | src/lib/spaced-repetition/storage.ts:191 | `slice` never grows a list and keeps only its elements |
| Common.SliceNonNegative | src/lib/spaced-repetition/storage.ts:191 | with non-negative bounds, `slice` is the clamped subsequence |
| Records.Lookup | src/lib/spaced-repetition/storage.ts:95 | a key reads as absent exactly when the object does not hold it, and otherwise as the entry stored under it |
| Records.Put | src/lib/spaced-repetition/storage.ts:160 | assigning an existing key keeps the size; a new key is appended at the end |
| Records.ReplaceThenLookup | src/lib/spaced-repetition/storage.ts:160 | overwriting a key changes only that key's value and keeps the key order |
| Records.PutThenLookup | src/lib/spaced-repetition/storage.ts:160 | after an assignment the key reads the new value, every other key reads as before, and keys stay distinct |
| Environment.Host.constructor | src/lib/utils.ts:12-32 | a fresh page has nothing stored; its window, navigator and storage availability are as given |
| Storage.GenerateDeviceId | src/lib/spaced-repetition/storage.ts:266-282 | a stored non-empty device id is reused; otherwise the id starts with "device_" |
| Storage.InitializeStorage | src/lib/spaced-repetition/storage.ts:42-69 | succeeds exactly when storage is available; it writes the progress and metadata keys only where nothing is stored |
| Storage.InitializationIsIdempotent | src/lib/spaced-repetition/storage.ts:50-62 | stored progress and metadata are never overwritten; new metadata has version "1.0" and a "device_" id; a second initialisation changes nothing |
| Storage.AllProgressData | src/lib/spaced-repetition/storage.ts:74-86 | the stored table when storage is available and the text decodes; the empty table otherwise |
| Storage.GetFlagProgress | src/lib/spaced-repetition/storage.ts:92-100 | null exactly when the code has no record; otherwise the record stored under the code |
| Storage.Reviewed | src/lib/spaced-repetition/storage.ts:118-157 | one more review, one more correct review on a correct answer, the scheduler's new parameters, and the creation date kept; a first review starts from the initial parameters |
| Storage.UpdateFlagProgress | src/lib/spaced-repetition/storage.ts:107-171 | without storage it throws and changes nothing; otherwise it stores the reviewed record under the code and queues one "update" change carrying it; with storage the stored queue holds the new queue, and the sync time is set exactly when the queued change starts a pass |
| Storage.RecordingTouchesOneFlag | src/lib/spaced-repetition/storage.ts:113-160 | recording changes only the answered flag's record and adds exactly one review to it |
| Storage.RecordingQueuesOneUpdate | src/lib/spaced-repetition/sync.ts:128-159 | offline, a recording appends exactly one fresh "update" item with the new record and keeps the rest of the queue |
| Storage.RecordingSequence | src/lib/spaced-repetition/storage.ts:107-171 | correct, correct, correct, wrong gives intervals 0, 1, 6, 3 with 4 reviews, 3 of them correct |
| Storage.AllDue | src/lib/spaced-repetition/storage.ts:183-188 | a code is listed exactly when its record's review date is not after now; never more codes than records |
| Storage.AllDueSingle | src/lib/spaced-repetition/storage.ts:183-188 | a one-record table lists its code exactly when that record is due |
| Storage.AllDueAppend | src/lib/spaced-repetition/storage.ts:183-188 | the due list of two tables joined is the first table's due list followed by the second's |
| Storage.DueFlags | src/lib/spaced-repetition/storage.ts:177-196 | an absent or zero limit keeps every due code; a positive limit keeps the first `limit`; a negative one drops that many from the end |
| Storage.GetDueFlags | src/lib/spaced-repetition/storage.ts:177-196 | returns the due list of the stored table, cut by the limit as `Storage.DueFlags` states; only due codes are returned |
| Storage.DueFlagsExample | src/lib/spaced-repetition/storage.ts:177-196 | of a record due yesterday and one due tomorrow, only the first is returned, with no limit or limit 0 |
| Storage.ComputeStats | src/lib/spaced-repetition/storage.ts:208-225 | the accumulation loop computes the sums and counts of the statistics specification |
| Storage.GetProgressStats | src/lib/spaced-repetition/storage.ts:201-246 | the statistics of the stored table |
| Storage.RecordingAddsOneReview | src/lib/spaced-repetition/storage.ts:130-160 | one recorded answer raises the review total by exactly one |
| Storage.DueCountIsDueLength | src/lib/spaced-repetition/storage.ts:213-225 | the due count equals the length of the unlimited due list |
| Storage.CorrectAtMostTotal | src/lib/spaced-repetition/storage.ts:214-215 | consistent records never sum to more correct reviews than reviews |
| Storage.StatsBounded | src/lib/spaced-repetition/storage.ts:227-234 | on consistent records, accuracy is within [0, 100], and the due and mastered counts are at most the flag count |
| Storage.MasteredAtMostCount | src/lib/spaced-repetition/storage.ts:222-224 | at most every flag is mastered |
| Storage.ReviewKeepsConsistent | src/lib/spaced-repetition/storage.ts:135-153 | a review never makes correct reviews exceed reviews |
| Storage.StatsExample | src/lib/spaced-repetition/storage.ts:201-246 | two due records with 4 of 5 and 8 of 10 correct, one of them mastered, give 2 flags, 15 reviews, 12 correct, accuracy 80, 2 due and 1 mastered |
| Storage.ClearAllProgress | src/lib/spaced-repetition/storage.ts:252-261 | succeeds exactly when storage is available, leaving an empty table |
| Sync.Ids | src/lib/spaced-repetition/sync.ts:205-207 | one id per item, in order |
| Sync.Attempted | src/lib/spaced-repetition/sync.ts:187-202 | trying every item keeps the queue's length and each position's id |
| Sync.SuccessfulIds | src/lib/spaced-repetition/sync.ts:187-202 | only ids of queued items are reported as delivered |
| Sync.WithoutIds | src/lib/spaced-repetition/sync.ts:205-207 | filtering never grows the queue |
| Sync.PassSnoc | src/lib/spaced-repetition/sync.ts:187-207 | one more item with a new id is removed by the pass if delivered and kept, retried, otherwise |
| Sync.AfterPassKeepsExactlyFailures | src/lib/spaced-repetition/sync.ts:185-207 | with distinct ids, a pass leaves exactly the failed items, in order, each with one more retry |
| Sync.FailedItemsAreNeverDropped | src/lib/spaced-repetition/sync.ts:191-207 | a failed item stays queued, whatever its retry count |
| Sync.AllDeliveredEmptiesQueue | src/lib/spaced-repetition/sync.ts:187-207 | when every delivery succeeds the pass empties the queue |
| Sync.AllFailedRetriesEveryItem | src/lib/spaced-repetition/sync.ts:187-207 | when every delivery fails the pass keeps every item, in place, with one more retry |
| Sync.FlushOutcome | src/lib/spaced-repetition/sync.ts:165-228 | a pass that clears the guard leaves the failed items, records now as the last sync time even if all failed, clears the error and the syncing flag |
| Sync.EnqueueWithoutFlush | src/lib/spaced-repetition/sync.ts:140-146 | offline or mid-flush, queueing only appends the item |
| Sync.EnqueueOnlineDelivers | src/lib/spaced-repetition/sync.ts:140-146 | online and idle with a remote that always accepts, queueing ends with an empty queue |
| Sync.FailingFlushStep | src/lib/spaced-repetition/sync.ts:165-228 | against a remote that always fails, one flush keeps every item with one more retry and leaves the guard open for the next |
| Sync.FailingItemsStayQueued | src/lib/spaced-repetition/sync.ts:187-207 | with a remote that always fails, k passes keep every item and raise each retry count by k |
| Sync.SyncEngine.constructor | src/lib/spaced-repetition/sync.ts:43-52 | the default state: online as the navigator says or true, idle, no sync time, empty queue, no error |
| Sync.SyncEngine.SaveQueueToStorage | src/lib/spaced-repetition/sync.ts:257-270 | the queue is stored when storage is available; otherwise nothing changes |
| Sync.SyncEngine.AttemptEach | src/lib/spaced-repetition/sync.ts:185-202 | the loop offers every item once, adds a retry to each failure in place, and collects the delivered ids |
| Sync.SyncEngine.RunPass | src/lib/spaced-repetition/sync.ts:185-207 | the queue after the loop and the filter is the pass's specification |
| Sync.SyncEngine.SynchronizeChanges | src/lib/spaced-repetition/sync.ts:165-228 | the new state is the flush specification, and the queue and sync time are stored when a pass runs |
| Sync.SyncEngine.ForceSynchronization | src/lib/spaced-repetition/sync.ts:284-286 | the same as one flush |
| Sync.SyncEngine.QueueChange | src/lib/spaced-repetition/sync.ts:128-147 | appends a fresh item, stores the queue, and flushes when online and idle; the sync time is stored exactly when the flush runs |
| Sync.SyncEngine.QueueProgressUpdate | src/lib/spaced-repetition/sync.ts:154-159 | queues an "update" carrying the flag code and its record |
| Sync.SyncEngine.InitializeSync | src/lib/spaced-repetition/sync.ts:58-92 | with navigator and storage, loads the stored queue and sync time, registers the handlers, takes the navigator's status and flushes; otherwise nothing changes; a pass that runs stores the new queue and its time, and a rejected request leaves both stored keys as they were |
| Sync.SyncEngine.CleanupSync | src/lib/spaced-repetition/sync.ts:98-105 | handlers are removed when there is a window |
| Sync.SyncEngine.MarkOnline | src/lib/spaced-repetition/sync.ts:112 | sync goes online and nothing else of its state changes |
| Sync.SyncEngine.HandleOnline | src/lib/spaced-repetition/sync.ts:111-114 | goes online, then flushes; a pass that runs stores the new queue and its time, and a rejected request leaves both stored keys as they were |
| Sync.SyncEngine.HandleOffline | src/lib/spaced-repetition/sync.ts:119-121 | goes offline and changes nothing else |
| Sync.SyncEngine.ClearSyncQueue | src/lib/spaced-repetition/sync.ts:292-295 | empties the queue, and stores the empty queue when storage is available |
| Offline.MergeOptions | src/lib/spaced-repetition/offline.ts:30-49 | every supplied option wins; every absent one takes its default |
| Offline.MergeDefaults | src/lib/spaced-repetition/offline.ts:30-49 | merging nothing gives the defaults, and merging twice changes nothing |
| Offline.StatusOf | src/lib/spaced-repetition/offline.ts:109-130 | offline mode is on exactly when "true" is stored; expired exactly when a non-zero expiry has passed; pending exactly when the queue is non-empty |
| Offline.EffectiveDuration | src/lib/spaced-repetition/offline.ts:137 | a truthy duration wins, then a truthy configured expiry, then 7 days; never 0 |
| Offline.OfflineModeWindow | src/lib/spaced-repetition/offline.ts:228-233 | while offline mode is on and its expiry has not passed, requests are skipped even when online |
| Offline.SkipWithoutMode | src/lib/spaced-repetition/offline.ts:228-233 | without offline mode, requests are skipped exactly when offline |
| Offline.ZeroExpiryNeverExpires | src/lib/spaced-repetition/offline.ts:116-118 | a stored expiry of 0 never expires, so requests stay skipped |
| Offline.NoticesFor | src/lib/spaced-repetition/offline.ts:213-222 | one notification calls every listener once, in order, with the same status |
| Offline.Without | src/lib/spaced-repetition/offline.ts:99-103 | unsubscribing removes every registration of the callback and keeps every other one |
| Offline.WithoutSingle | src/lib/spaced-repetition/offline.ts:99-103 | a single registration is dropped exactly when it is the callback |
| Offline.WithoutAppend | src/lib/spaced-repetition/offline.ts:99-103 | filtering two lists joined is filtering each and joining the results |
| Offline.UnsubscribedNeverNotified | src/lib/spaced-repetition/offline.ts:93-104 | after unsubscribing, a callback is never called again, and every other listener still is |
| Offline.OfflineMonitor.constructor | src/lib/spaced-repetition/offline.ts:37-39 | default options, no timer, no listeners |
| Offline.OfflineMonitor.Status | src/lib/spaced-repetition/offline.ts:109-130 | throws exactly when there is no window; otherwise the status of what is stored |
| Offline.OfflineMonitor.ShouldSkipNetworkRequests | src/lib/spaced-repetition/offline.ts:228-233 | throws exactly when there is no window; otherwise skip exactly when the status says so |
| Offline.OfflineMonitor.Subscribe | src/lib/spaced-repetition/offline.ts:93-96 | appends the callback |
| Offline.OfflineMonitor.Unsubscribe | src/lib/spaced-repetition/offline.ts:99-103 | removes every registration of the callback |
| Offline.OfflineMonitor.NotifyListeners | src/lib/spaced-repetition/offline.ts:213-222 | every listener receives the current status, in order |
| Offline.OfflineMonitor.EnableOfflineMode | src/lib/spaced-repetition/offline.ts:136-144 | stores "true" and an expiry of now plus the effective duration, then notifies; without storage it throws and changes nothing |
| Offline.OfflineMonitor.SwitchOff | src/lib/spaced-repetition/offline.ts:150-158 | without storage it throws and changes nothing; otherwise both keys are removed, and with a navigator every listener is notified |
| Offline.OfflineMonitor.DisableOfflineMode | src/lib/spaced-repetition/offline.ts:149-159 | removes both keys; flushes when the navigator is online; every listener is told offline mode is off, with the queue as it was before the flush; a pass that runs stores the new queue and its time, and a rejected request leaves both stored keys as they were |
| Offline.OfflineMonitor.AnnounceOnline | src/lib/spaced-repetition/offline.ts:164-173 | notifies every listener of the current status and asks for a flush exactly when offline mode is off or expired |
| Offline.OfflineMonitor.HandleOnlineStatus | src/lib/spaced-repetition/offline.ts:164-174 | flushes unless offline mode is on and unexpired; every listener is notified with the queue as it was before the flush; a pass that runs stores the new queue and its time, and a rejected request leaves both stored keys as they were |
| Offline.OfflineMonitor.HandleOfflineStatus | src/lib/spaced-repetition/offline.ts:179-181 | only notifies |
| Offline.OfflineMonitor.CheckConnectivity | src/lib/spaced-repetition/offline.ts:191-207 | switches off an expired offline mode when online and notifies; one flush runs when either the switch-off or automatic reconnection with changes pending asks for it, and none when the switch-off throws; a pass that runs stores the new queue and its time, and a rejected request leaves both stored keys as they were |
| Offline.OfflineMonitor.InitializeOfflineSupport | src/lib/spaced-repetition/offline.ts:45-64 | merges the options; with a window, registers the handlers and starts the timer; returns the current status |
| Offline.OfflineMonitor.CleanupOfflineSupport | src/lib/spaced-repetition/offline.ts:69-86 | with a window, removes the handlers, stops the timer and drops every listener |
| Lifecycle.MergeInitOptions | src/lib/spaced-repetition/initialize.ts:48-65 | supplied options win; automatic syncing defaults to on and debug mode to off |
| Lifecycle.MergeInitOptionsIdempotent | src/lib/spaced-repetition/initialize.ts:48-65 | merging twice changes nothing; merging nothing gives the defaults |
| Lifecycle.RecordedAddsReviews | src/lib/spaced-repetition/initialize.ts:187-196 | recording n mocked answers adds exactly n reviews and keeps keys distinct |
| Lifecycle.SpacedRepetitionSystem.constructor | src/lib/spaced-repetition/initialize.ts:47-52 | not initialised, default options |
| Lifecycle.SpacedRepetitionSystem.IsSystemInitialized | src/lib/spaced-repetition/initialize.ts:162-164 | reports the initialised flag |
| Lifecycle.SpacedRepetitionSystem.GetSystemStatus | src/lib/spaced-repetition/initialize.ts:111-132 | throws exactly when there is no window; otherwise it reports the sync state and the offline status |
| Lifecycle.SpacedRepetitionSystem.Initialize | src/lib/spaced-repetition/initialize.ts:61-84 | merges the options; initialises storage, sync and offline support as their own contracts say, each changing nothing when its guard fails; becomes initialised when there is a window; returns the system status; a start-up pass that runs stores the new queue and its time, and otherwise both stored sync keys are kept |
| Lifecycle.SpacedRepetitionSystem.Cleanup | src/lib/spaced-repetition/initialize.ts:91-106 | the flag is cleared; with the system initialised and a window, both modules stop listening, the timer stops and every listener is dropped; otherwise those stay as they were |
| Lifecycle.SpacedRepetitionSystem.Reset | src/lib/spaced-repetition/initialize.ts:141-157 | leaves an empty table and reinitialises with the kept or the default options; the sync queue survives and is reloaded; listeners are dropped only when cleanup ran; offline support gets the merged options and its listening and checking flags as initialisation sets them; sync listens exactly as cleanup and initialisation leave it; a reload pass that runs stores the new queue and its time, and otherwise both stored sync keys are kept |
| Lifecycle.SpacedRepetitionSystem.RecordReview | src/lib/spaced-repetition/initialize.ts:193-194 | one answer succeeds exactly when storage is available and then records it in the stored table; otherwise the table is untouched; on success one "update" change carrying the new record is queued and the queue stored, and otherwise sync and its stored keys are unchanged |
| Lifecycle.SpacedRepetitionSystem.CreateMockedData | src/lib/spaced-repetition/initialize.ts:172-201 | nothing unless initialised; otherwise the stored table is the given answers recorded in order |
| Lifecycle.SpacedRepetitionSystem.GoOnline | src/lib/spaced-repetition/sync.ts:80-114 | the navigator goes online; a registered sync handler marks sync online; registered offline support notifies every listener with the queue as it was; one flush runs when either handler asks for one, none when neither does; a pass that runs stores the new queue and its time, and a rejected request leaves both stored keys as they were |
| Lifecycle.SpacedRepetitionSystem.GoOffline | src/lib/spaced-repetition/sync.ts:80-121 | the navigator goes offline; a registered sync handler marks sync offline, and registered offline support notifies every listener; without registered offline support or a window, no listener is called |
| Lifecycle.SpacedRepetitionSystem.Tick | src/lib/spaced-repetition/offline.ts:186-207 | nothing happens while the check is not scheduled; a scheduled check switches off an expired offline mode when online |
| Timeline.CalculatePercentage | src/lib/spaced-repetition/timeline-utils.ts:130-133 | 0 for a zero total; otherwise the value as a share of the total times 100, within [0, 100] when the value is |
| Timeline.GetMetricData | src/lib/spaced-repetition/timeline-utils.ts:136-166 | one point per event with its date; accuracy is never normalised; learned and reviewed counts become their percentage of the flag total when normalising, and stay raw counts otherwise |
| Timeline.SumsOfConcat | src/lib/spaced-repetition/timeline-utils.ts:256-263 | the learned and reviewed sums add over concatenation |
| Timeline.CalculateAggregatedData | src/lib/spaced-repetition/timeline-utils.ts:243-281 | the summary is dated at the period start and carries the period's summed counts |
| Timeline.AggregatedAccuracyIsMean | src/lib/spaced-repetition/timeline-utils.ts:247-281 | the accuracy is the review-weighted mean, the plain mean when there are no reviews, and 0 for an empty period |
| Timeline.WeightedSumBounds | src/lib/spaced-repetition/timeline-utils.ts:265-268 | the weighted accuracy sum lies between the lowest and highest accuracy times the review count |
| Timeline.PlainSumBounds | src/lib/spaced-repetition/timeline-utils.ts:272 | the plain accuracy sum lies between the lowest and highest accuracy times the event count |
| Timeline.AggregatedAccuracyBounded | src/lib/spaced-repetition/timeline-utils.ts:265-273 | a period's accuracy lies within the range of its events' accuracies |
| Timeline.Groups | src/lib/spaced-repetition/timeline-utils.ts:177-210 | there are never more periods than events; a non-empty series has a period; no period is empty |
| Timeline.Summaries | src/lib/spaced-repetition/timeline-utils.ts:197-209 | one summary per period, dated at the period's first event |
| Timeline.AggregateDataByGranularity | src/lib/spaced-repetition/timeline-utils.ts:169-213 | daily or empty input is returned unchanged; otherwise the loop yields the summaries of the periods |
| Timeline.GroupsFlatten | src/lib/spaced-repetition/timeline-utils.ts:177-210 | the periods, read in order, are the input: no event is lost, repeated or moved |
| Timeline.GroupsArePeriods | src/lib/spaced-repetition/timeline-utils.ts:187-202 | each period holds only events in the period of its first event, and each period's first event falls outside the previous period |
| Timeline.SumsOfFlatten | src/lib/spaced-repetition/timeline-utils.ts:256-263 | the summaries' learned and reviewed sums equal those of the grouped events |
| Timeline.AggregationPreservesTotals | src/lib/spaced-repetition/timeline-utils.ts:169-213 | aggregation keeps the learned and reviewed totals and never lengthens the series; non-empty stays non-empty |
| FlagUrls.Lower | src/lib/utils.ts:48 | lower-casing keeps the length and maps each character |
| FlagUrls.LowerIdempotent | src/lib/utils.ts:48 | lower-casing twice is lower-casing once |
| FlagUrls.GetFlagImageUrl | src/lib/utils.ts:40-49 | the PNG placeholder for an empty code; otherwise an address on the flag CDN |
| FlagUrls.GetFlagSvgUrl | src/lib/utils.ts:56-62 | the SVG placeholder for an empty code; otherwise an address on the flag CDN |
| FlagUrls.GetFlagUrl | src/lib/utils.ts:70-90 | the SVG address for every size; the SVG placeholder for a missing or empty code |
| FlagUrls.CaseInsensitive | src/lib/utils.ts:40-90 | each builder gives the same address for a code and its lower-case form |
| FlagUrls.SvgUrlDeterminesCode | src/lib/utils.ts:56-62 | two codes share an SVG address exactly when they agree up to case |
| FlagUrls.ImageUrlDeterminesSizeAndCode | src/lib/utils.ts:40-49 | a PNG address for a non-negative size determines the size and the code up to case |
| FlagUrls.UrlExamples | src/lib/utils.ts:40-90 | "US" gives ".../us.svg" and ".../w320/us.png"; size 640 still gives the SVG; a missing code gives the SVG placeholder |
| CountryCodes.BannerListLength | src/lib/country-codes.ts:7-95 | the list holds 80 codes |
| CountryCodes.GetRandomCountryCodes | src/lib/country-codes.ts:102-105 | a prefix of the shuffled list, of length min(count, length), or with negative counts dropped from the end |
| CountryCodes.SelectionFromShuffle | src/lib/country-codes.ts:102-105 | a selection from a shuffle of a list holds min(count, length) of the list's entries |
| CountryCodes.RandomCodesAreBannerCodes | src/lib/country-codes.ts:7-105 | a selection holds min(count, 80) banner codes |
| CountryCodes.FlagsPerRow | src/lib/country-codes.ts:117 | the row size is the ceiling of a quarter of the list: four rows of it cover the list, with fewer than four slots to spare |
| CountryCodes.GetFlagRows | src/lib/country-codes.ts:111-126 | no row exceeds the per-row size |
| CountryCodes.RowsPartitionTheList | src/lib/country-codes.ts:111-126 | the four rows, read in order, are the shuffled list |
| CountryCodes.RowsOfEighty | src/lib/country-codes.ts:111-126 | a shuffle of 80 codes splits into four rows of 20 holding every code as often as the list |
| CountryCodes.BannerRowsHoldTwenty | src/lib/country-codes.ts:7-126 | with the banner list every row holds 20 codes, and together the rows hold each banner code once per occurrence |

## Left out

- **Not modelled:**
  - React components, pages, `hooks.ts` and the quiz session helpers.
  - The database layer, scripts, analytics and `cn`.
  - The mock timeline generator `generateMockTimelineData`.
  - `formatChartDate` and `formatPercentage`, which are display formatting through date-fns and `Math.round`.
- **Time and calendars:**
  - Calendar weeks and months are abstract key functions `weekOf` and `monthOf`. `isSameWeek`'s 7-day pre-check is therefore not modelled separately.
  - A review date is `now + interval` whole days. `setDate` across a daylight-saving change is not modelled.
- **Numbers:**
  - Floating point is replaced by exact reals. `Math.round` is floor(x + 0.5).
  - `Number`-to-string rendering of non-integral sizes is not modelled; sizes are integers.
  - A stored expiry text that does not parse (`NaN`) is not modelled; the expiry is a number or absent.
- **Storage encoding:**
  - `JSON.stringify`/`JSON.parse` are not modelled. A stored key is already decoded: missing, unreadable or holding a value.
  - Dates inside records are timestamps, not ISO strings.
- **Asynchrony and randomness:**
  - `synchronizeChanges` runs as one atomic pass. Where one synchronous run of handler code asks for a flush twice, the second request finds the first pass in progress and returns, so the model runs one pass, placed after that run's notifications; those notifications see the queue as it was before the pass.
  - Changes queued while a pass is suspended between items are not modelled.
  - `Lifecycle.SpacedRepetitionSystem.Initialize`: the returned status is read after the start-up flush completes. In the source that flush is still suspended at that point, so the status reports `syncIsSyncing` as true and the queue length before the flush.
  - `Lifecycle.SpacedRepetitionSystem.CreateMockedData`: the contract states the stored table, not the sync queue. In the source the first recording starts a flush and the later ones find it in progress, so only the items queued before it started are offered; the model runs a full pass on each recording.
  - `syncItem`'s timer and its random 10% failure are the `deliver` function. That function fixes each item's outcome, so the same item fails or succeeds the same way on every pass.
  - Timers (`setInterval`, `setTimeout`) are not modelled; the periodic check is the `Tick` event.
  - The shuffles are their results, given as parameters.
- **Lower-casing:**
  - `FlagUrls.Lower`: lower-cases ASCII letters only; `toLowerCase`'s other Unicode mappings are not modelled.
- **Partial contracts:**
  - `Lifecycle.SpacedRepetitionSystem.Tick`: states that nothing happens while the check is not scheduled, and the expiry switch-off of a scheduled check. The check's flush is stated only by `Offline.OfflineMonitor.CheckConnectivity`.
- **Unreachable code:**
  - The `catch` branches of `getProgressStats` and `getDueFlags` are not modelled, because `getAllProgressData` never throws.
  - The outer `catch` of `synchronizeChanges` (sync.ts:220-225) is not modelled: every call in its `try` block handles its own failures, and the storage writes are made only when storage is available.
- **Code and intended behaviour disagree; the model follows the code:**
  - A failed sync item is never removed. Its retry count grows on every failed pass, because the queue is filtered only by the delivered ids. The list of items kept for another retry is built but never used, and the "drop after 3 attempts" warning never takes effect.
  - A completed pass records the sync time even when every item failed.
  - An offline-mode expiry of 0 is falsy and never expires.
  - `getFlagUrl` always returns the SVG address, because its PNG switch is the constant `false`. The project's own expectations in `utils.test.ts` expect a PNG address and a PNG placeholder.
