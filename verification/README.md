# Verification of the seller app load tester

The load tester drives select, init and confirm requests against a seller and accounts for the asynchronous
callbacks. These Dafny modules model its concurrent, stateful and arithmetic parts and prove what they promise
over every input, every schedule or every run. `dafny verify dfyconfig.toml` checks all of them.

- `RateLimiter` and `Pacing`: the dual token bucket kept in Redis, the limiter that calls it, and the pacing
  throttle on top. Tokens are counted in thousandths, so the arithmetic is exact in integers; pacing is in
  nanoseconds. The clock, the answers of Redis and cancellations are inputs of each step.
- `Dispatcher`, `Notifier`, `AtomicMax`: the bounded dispatcher, the callback notifier and the lock-free maximum
  as interleaved steps, with inductive invariants over every schedule. The notifier's maps are also a class.
- `LatencyEvents`, `EventPipeline`, `Finalization`, `Percentiles`, `Journey`: the life of a latency event from the
  callback through the bounded queue into the first-write-wins store, the summary of a finished run, its
  percentiles, and the percentages a run reports.
- `AuthHeader`, `Base64`, `Decimal`: printing, splitting, parsing and verifying the authorization header. The
  header has the form of draft-cavage-http-signatures, sections 2.1 and 2.3; Base64 is section 4 of RFC 4648.
  Signature and hash are parameters; a signature is assumed to verify for the message and key it was made for,
  and, where a theorem needs it, for no others.
- `Json`, `Enrichment`, `EnrichmentLaws`, `EnrichmentValues`, `BatchBuild`: JSON as a recursive datatype, the
  enrichment of callbacks into the next requests with its laws and its values, the batches, and the causality and
  progress of a whole run.
- `SelectBatch`, `SelectPayloads`, `ErrorInjection`: select orders from a catalog, their normalization and
  distribution, and the corrupted share of payloads. Random draws are arbitrary inputs.
- `RunLog`, `SessionStore`, `Names`: the two run logs as refinements of one log, and the routes and metrics of
  the session store, over keys joined with colons.
- `Arith`, `Counting`, `Wrappers`: shared facts.

Code that changes state in place is a class or a method with loops, proved against a function of the old state;
the laws are lemmas about those functions. Interleaved code is a step function, and `After` runs a schedule.

Three findings about the code are part of the model, each with its exact condition:

- The two run logs agree exactly on slots that do not meet, and slots meet only under a pipeline named "ts" or
  "count" with a colon in the action (`RunLog.StoresAgreeExactly`, `RunLog.KeysMeetExactly`). Under every pipeline,
  Redis exports only actions without a colon, which the memory store exports too (`RunLog.ExportsAgreeExactly`).
  The program records only under "pipeline_b" and constant actions without a colon, so it never meets either.
- Select normalization means to refuse an order without gps or area code, but a missing value prints as a
  non-empty text and passes: each is refused exactly when it is the empty string
  (`SelectPayloads.PayloadRefusedExactly`).
- The items of a generated order can be at locations its provider does not list.
  `SelectBatch.CatalogLocationsExactly` says, from catalog and template alone, exactly when no draw can give one.

## Model

| member | source | states |
|---|---|---|
| `RateLimiter.SessionAdmission` | internal/domain/session/rate_limiter.go:14-55 | over every run with a nondecreasing clock, in any window one session is granted at most one full bucket plus the refill of the window, with keys expiring at any time allowed |
| `RateLimiter.GlobalAdmission` | internal/domain/session/rate_limiter.go:14-55 | over all sessions, grants plus session denials are exactly the global tokens taken, and together at most one global bucket plus its refill: a refused session token is not refunded |
| `RateLimiter.BucketsStaySound` | internal/domain/session/rate_limiter.go:14-38 | after every event each bucket holds between zero and its maximum and was last written no later than now |
| `RateLimiter.ExpiryInvisible` | internal/domain/session/rate_limiter.go:15-36 | keys that vanish at any moment from their 10 second expiry on change no decision of the whole call log |
| `RateLimiter.BucketWindow` | internal/domain/session/rate_limiter.go:14-38 | the tokens taken from a bucket in a window are paid for by its capacity and the refill of the elapsed part of the window |
| `RateLimiter.DeniedMeansSpent` | internal/domain/session/rate_limiter.go:14-55 | the converse over every run, with and without evictions: for each denial at a moment there is an earlier one since which the tokens taken from the denying bucket exceed all but one of its capacity plus the refill of the time between |
| `RateLimiter.FirstCallsGranted` | internal/domain/session/rate_limiter.go:14-55 | from an empty Redis the first min(global, session) calls of one session at one instant are all granted |
| `RateLimiter.AnswerMeaning` | internal/domain/session/rate_limiter.go:100-133 | a call over a failing link is denied with redis_error whether or not the script ran; otherwise the verdict of the script decides |
| `RateLimiter.GarbledMeaning` | internal/domain/session/rate_limiter.go:153-178 | a reply grants exactly when its first element is the integer one; fewer than two elements read as ok or unknown |
| `RateLimiter.VanishesWhenExpired` | internal/domain/session/rate_limiter.go:34-36 | a key vanishes ten seconds after its last write or later |
| `RateLimiter.Redis.AcquireBucket` | internal/domain/session/rate_limiter.go:14-38 | the script function in its branching form: refill, cap, refuse or take, write back, against the bucket specification |
| `RateLimiter.Redis.EvalDualBucket` | internal/domain/session/rate_limiter.go:40-55 | global bucket first, then the session bucket, with the reply of each outcome |
| `RateLimiter.RateLimiter.constructor` | internal/domain/session/rate_limiter.go:70-82 | non-positive limits become 2000 and 150, so both limits are positive |
| `RateLimiter.RateLimiter.Init` | internal/domain/session/rate_limiter.go:84-93 | the script counts as loaded exactly after a successful load |
| `RateLimiter.RateLimiter.AcquireWithReason` | internal/domain/session/rate_limiter.go:100-133 | a missing script grants, a failing call denies, and every call adds one to exactly one of the four outcome counters, and to the error counter exactly when the call failed |
| `RateLimiter.ReplyRoundTrip` | internal/domain/session/rate_limiter.go:153-178 | the three script replies are read back as the verdicts they encode |
| `Pacing.PacingThrottle.constructor` | internal/handlers/testing/routes.go:478-486 | the interval is one second over the rate, and none without a base limiter or a positive rate |
| `Pacing.PacingThrottle.Acquire` | internal/handlers/testing/routes.go:488-556 | the retry loop against the functional model: without base limiter or interval every call is granted uncounted |
| `Pacing.PacingThrottle.Once` | internal/handlers/testing/routes.go:498-554 | one pass of the loop: schedule, wait, ask, then advance the schedule or back off, with every counter |
| `Pacing.PacingLaw` | internal/handlers/testing/routes.go:488-556 | over any sequence of calls, denials, delays and cancellations, any k grants span at least k-1 intervals |
| `Pacing.CounterLaw` | internal/handlers/testing/routes.go:488-556 | calls are grants plus retries plus cancelled waits; retries are the sum of the three denial counters; the wait counters are the sum and the maximum of the waits |
| `Pacing.CounterMeaning` | internal/handlers/testing/routes.go:488-556 | each counter is the number of passes, grants or denials of its kind in the history |
| `Pacing.YesMeansGranted` | internal/handlers/testing/routes.go:488-556 | a call answers yes exactly when it recorded a grant, and records at most one |
| `Pacing.RetriesUntilAllowed` | internal/handlers/testing/routes.go:493-555 | over all attempt sequences from any state: when no attempt is cut the answer is never no, and it is yes if and only if some attempt allows |
| `Pacing.HowCallsEnd` | internal/handlers/testing/routes.go:493-555 | every attempt before the last one used was denied and its pause not cut; no means the last was cut while waiting or pausing, yes that it was allowed, no answer yet that all were denied |
| `Pacing.DeniedPass` | internal/handlers/testing/routes.go:539-554 | a denial is counted under its reason, leaves the schedule alone and, uncut, lets the next pass begin 10 ms plus the extra time later |
| `Pacing.AllowedPass` | internal/handlers/testing/routes.go:494-538 | a grant moves the schedule one interval past the moment of the answer |
| `Pacing.CutWaitPass` | internal/handlers/testing/routes.go:494-523 | a wait cut by the context answers no, leaves the schedule alone and asks nobody |
| `Dispatcher.Safety` | internal/domain/pipeline/dispatcher.go:27-85 | in every schedule: sends in flight never exceed the limit, no payload is sent twice, no slot is written twice by loop or workers |
| `Dispatcher.Completion` | internal/domain/pipeline/dispatcher.go:27-85 | on return each slot is written exactly once, an unsent slot holds the refusal that stopped it, a sent one its own send result, and the slots without error are as many as the sends that returned none |
| `Dispatcher.InFlightBound` | internal/domain/pipeline/dispatcher.go:35-39 | the limit on sends in flight in numbers: the one asked for, or 256 |
| `Dispatcher.ThrottleDecides` | internal/domain/pipeline/dispatcher.go:53-58 | behind a throttle a payload is sent only after a grant for it, and never after a refusal; on return an unsent slot holds DeadlineExceeded exactly when the throttle refused it, and else the error of the ended context |
| `Dispatcher.SentSlots` | internal/domain/pipeline/dispatcher.go:77-81 | on return the slot of each payload sent holds what its own send returned |
| `Dispatcher.CancelStops` | internal/domain/pipeline/dispatcher.go:46-75 | once the context has ended no payload is started and no further payload put to the throttle, whatever happens next |
| `Dispatcher.NoDeadlock` | internal/domain/pipeline/dispatcher.go:35-84 | until the dispatcher returns some step other than a cancellation is possible |
| `Dispatcher.Terminates` | internal/domain/pipeline/dispatcher.go:35-84 | every schedule has at most ten steps per payload and four more |
| `Dispatcher.Reachable` | internal/domain/pipeline/dispatcher.go:35-84 | the inductive invariant: semaphore and wait-group counts, slot ownership, and the semaphore token left behind on cancellation |
| `Dispatcher.CountSuccess` | internal/handlers/testing/routes.go:1410-1418 | the number of results without an error |
| `Notifier.NoLostWakeup` | internal/domain/pipeline/callback_notifier.go:43-69 | a blocked waiter whose target is reached has a token in its channel or a notifier between its increment and its send; a return before the deadline saw the target; no count exceeds the notifications made |
| `Notifier.QuietMeansDone` | internal/domain/pipeline/callback_notifier.go:43-69 | when only a deadline can still happen, each waiter has returned or its target was not reached |
| `Notifier.WaiterReturns` | internal/domain/pipeline/callback_notifier.go:52-69 | once notifiers are done, three steps of a blocked waiter return the final count |
| `Notifier.TimedOutExactly` | internal/domain/pipeline/callback_notifier.go:59-68 | in every schedule a wait ends as timed out if and only if its own deadline fired while it was blocked |
| `Notifier.CountIsCurrent` | internal/domain/pipeline/callback_notifier.go:52-69 | the count a wait returns is the number of callbacks counted for its key at the moment it returns |
| `Notifier.CheckedMeaning` | internal/domain/pipeline/callback_notifier.go:53-66 | at its first check and after each wakeup a waiter reports exactly when its target is reached, and else blocks |
| `Notifier.TokenMeaning` | internal/domain/pipeline/callback_notifier.go:43-50 | a token in a channel was put there by a notification of its key |
| `Notifier.Reachable` | internal/domain/pipeline/callback_notifier.go:26-69 | the inductive invariant of notifiers and waiters over every schedule |
| `Notifier.CallbackNotifier.GetOrCreate` | internal/domain/pipeline/callback_notifier.go:26-41 | missing entries are created, existing ones left alone |
| `Notifier.CallbackNotifier.Notify` | internal/domain/pipeline/callback_notifier.go:43-50 | one more callback counted, and a token in the channel whether or not one was there |
| `Notifier.CallbackNotifier.Reset` | internal/domain/pipeline/callback_notifier.go:71-82 | exactly the entries with the prefix of the run and a further part are removed |
| `Notifier.ResetIsExact` | internal/domain/pipeline/callback_notifier.go:22-24 | for colon-free run ids a reset removes the keys of its own run and of no other |
| `Notifier.KeyInjective` | internal/domain/pipeline/callback_notifier.go:22-24 | for colon-free run ids a key determines run and action |
| `LatencyEvents.ThresholdAgrees` | internal/handlers/callbacks/record.go:184-200 | truncated milliseconds reach 30000 exactly when the duration reaches 30 seconds, for every duration |
| `LatencyEvents.ClassifySound` | internal/handlers/callbacks/record.go:162-226 | a callback is a timeout exactly when its request is known and it took the timeout or longer; otherwise it keeps its outcome; a stored success stays below the threshold |
| `LatencyEvents.ClassifyRecords` | internal/handlers/callbacks/record.go:162-226 | the latency recorded is the elapsed time in whole milliseconds, cut toward zero; without a sent time there is none and the arrival stands as sent |
| `LatencyEvents.MongoStore.UpsertRunLatencyEvent` | internal/ports/session/mongo_store.go:200-229 | insert if absent, when the server applies the write |
| `LatencyEvents.MongoStore.UpsertRunLatencyEventsBulk` | internal/ports/session/mongo_store.go:231-273 | an unordered bulk write inserts, where nothing was, those events the server applies |
| `LatencyEvents.MongoStore.GetRunLatencyEventsForStage` | internal/ports/session/mongo_store.go:337-354 | the events of one run and stage by transaction |
| `EventPipeline.KeepsEverything` | internal/handlers/callbacks/routes.go:95-136 | over every interleaving of callbacks, workers, fallback and finalizer the queue stays within its capacity and the key of every event made is queued, in hand, stored, or in a refused write |
| `EventPipeline.CallbackMakesEvent` | internal/handlers/callbacks/record.go:162-226 | a callback on a routed transaction puts one event of its run under way, a timeout exactly when its request was stamped 30 seconds before or earlier |
| `EventPipeline.CallbackStaysLocated` | internal/handlers/callbacks/routes.go:95-136 | in every schedule after a callback its run has an event for its transaction stored, queued or in hand, unless the store refused a write under its key |
| `EventPipeline.SyncOnlyWhenFull` | internal/handlers/callbacks/routes.go:112-136 | an event is written synchronously only if the queue was full at some moment |
| `EventPipeline.InputMeaning` | internal/handlers/testing/routes.go:1168-1190 | the finalizer reads exactly the stamps and stored events of its run and stage |
| `EventPipeline.NeverRewrites` | internal/ports/session/mongo_store.go:200-229 | a stored event never changes again, whatever happens next |
| `EventPipeline.QuietStoreIsComplete` | internal/handlers/callbacks/routes.go:95-136 | once nothing is under way and no write was refused, the stored keys are exactly those of the events made, whatever the schedule |
| `EventPipeline.FinalizerInputSound` | internal/handlers/callbacks/record.go:162-226 | what the finalizer reads has no empty transaction and no success at or over the threshold |
| `EventPipeline.SummariesBelowThreshold` | internal/handlers/testing/routes.go:1160-1281 | at any moment of any schedule p90, p95, p99 and average of the summary stay below the timeout threshold |
| `EventPipeline.StoreDiffersExactly` | internal/handlers/testing/routes.go:1160-1281 | with callbacks in between: once all is quiet the store differs from the summarized events exactly on the transactions for which a callback write landed between the read of the finalizer and its own write |
| `EventPipeline.SelectPopulation` | internal/domain/pipeline/coordinator.go:211-227 | at any moment of any run the transactions of the on_select summary belong to the select batch of that run, and are no more than it |
| `EventPipeline.Reachable` | internal/handlers/callbacks/routes.go:95-136 | the inductive invariant of queue, hands, store, routes and stamps |
| `AtomicMax.HoldsMaximum` | internal/handlers/callbacks/routes.go:117-126 | in every schedule of the compare-and-swap loop the cell is the start or a queue depth seen, and no depth of a finished thread is larger; the same loop keeps the longest pacing wait |
| `Finalization.FinalizeRunLatencies` | internal/handlers/testing/routes.go:1136-1284 | the three stages in turn, a stage that cannot be read being skipped: each summary stored is that of its own stage as the store held it at the start, and others stay |
| `Finalization.StagesIndependent` | internal/handlers/testing/routes.go:1160-1281 | no stage sees what the finalizer wrote for an earlier one |
| `Finalization.StoreAfterStages` | internal/handlers/testing/routes.go:1160-1281 | after the three stages each holds what it held and, if its requests and events could be read, the event of each missing transaction some write reached, and nothing else |
| `Finalization.FinalizeStage` | internal/handlers/testing/routes.go:1168-1276 | one stage, for any visiting order and any outcome of the bulk write and the fallback: the summary of the completed events, and the store with the missing events that got through |
| `Finalization.CountOutcomes` | internal/handlers/testing/routes.go:1199-1244 | the loop that counts outcomes, collects latencies and makes the missing events |
| `Finalization.WriteMissing` | internal/handlers/testing/routes.go:1245-1257 | the bulk write, or after its failure the one-by-one fallback, inserts exactly the missing events some write reached |
| `Finalization.UpsertOneByOne` | internal/handlers/testing/routes.go:1249-1253 | the fallback loop |
| `Finalization.VisitedMeaning` | internal/handlers/testing/routes.go:1199-1244 | the accumulated figures are the counts over the completed events, their latencies, and the missing events |
| `Finalization.Conservation` | internal/handlers/testing/routes.go:1194-1276 | Total is the size of the population and equals success plus failure plus timeout |
| `Finalization.MissingDrawsTheSameLine` | internal/handlers/testing/routes.go:1215-1240 | a transaction nobody called back for becomes a timeout exactly when a callback at the cutoff would be classified as one, and a failure otherwise or without a sent time |
| `Finalization.CountsExactly` | internal/handlers/testing/routes.go:1199-1244 | success counts the stored successes; timeout the stored timeouts and the missing transactions sent at least 30 seconds before the cutoff; failure the stored failures and unknown outcomes and all other missing transactions |
| `Finalization.SampleExactly` | internal/handlers/testing/routes.go:1199-1276 | averages and percentiles are those of the latencies of the stored successes, each as often as they have it |
| `Finalization.OrderIrrelevant` | internal/handlers/testing/routes.go:1189-1276 | the map iteration order does not show in any figure |
| `Finalization.StoreAgrees` | internal/handlers/testing/routes.go:1245-1257 | the store agrees with the summary, in content and in number, if and only if every missing event was reached by the bulk write or the fallback |
| `Finalization.SecondFinalization` | internal/handlers/testing/routes.go:1160-1281 | a second finalization adds no event and changes no count, percentile or average |
| `Finalization.SummaryBelowThreshold` | internal/handlers/testing/routes.go:1199-1276 | p90, p95, p99 and average of a summary of sound events stay below the timeout threshold |
| `Percentiles.SortedCopy` | internal/domain/latency/percentiles.go:30-34 | a sorted copy; the sample is only read |
| `Percentiles.ComputeSummary` | internal/domain/latency/percentiles.go:40-60 | average and percentiles of any sample, with the loop that sums and the in-place sort |
| `Percentiles.ComputeP50P95Max` | internal/domain/latency/percentiles.go:30-38 | p50, p95 and the maximum; zeros for an empty sample |
| `Percentiles.PercentileRank` | internal/domain/latency/percentiles.go:9-27 | a percentile is a sample with at least floor(p(n-1))+1 values no larger and n-floor(p(n-1)) values no smaller |
| `Percentiles.PercentilesOrdered` | internal/domain/latency/percentiles.go:9-27 | min <= p50 <= p90 <= p95 <= p99 <= max |
| `Percentiles.AverageMeaning` | internal/domain/latency/percentiles.go:40-60 | the average lies within 0.005 of the mean and within the range of the sample |
| `Percentiles.SummaryMeaning` | internal/domain/latency/percentiles.go:40-60 | p90, p95 and p99 of any sample are values of it with the ranks of their own fractions, and the average is the mean rounded to a hundredth, halves up |
| `Percentiles.MedianMeaning` | internal/domain/latency/percentiles.go:9-27 | p50 is a value of the sample with at least floor((n-1)/2)+1 values no larger and n-floor((n-1)/2) no smaller |
| `Percentiles.SummaryIgnoresOrder` | internal/domain/latency/percentiles.go:30-60 | two samples with the same elements have the same sorted form and summary |
| `Journey.UpdateMetrics` | internal/handlers/testing/routes.go:1288-1301 | sent is success plus failure, and success the results without error |
| `Journey.MergedStep` | internal/domain/session/manager.go:202-298 | a finished run reports its summary in place of the live counters, and a summary within the requests sent never exceeds 100 percent |
| `Journey.StepMeaning` | internal/domain/session/manager.go:202-298 | a step shows the requests sent, each callback figure in its place and their sum as received; its percentage times the requests is a hundred times the successes, and zero without requests |
| `Journey.MergeMeaning` | internal/domain/session/manager.go:202-298 | summaries replace the callback figures of a finished run stage by stage and nothing else; an unfinished run keeps its live figures |
| `Journey.SelectSuccessAtMostAll` | internal/domain/session/manager.go:202-298 | for every interleaving before finalization: select successes <= Total <= select requests sent, so the select percentage stays within 0 and 100 |
| `AuthHeader.SplitHeaderParts` | internal/shared/ondcauth/ondcauth.go:175-195 | the quote-aware splitting loop against its recursive specification |
| `AuthHeader.ParseAuthHeader` | internal/shared/ondcauth/ondcauth.go:148-173 | prefix, split, first-equals cut, trimming and the missing-field error |
| `AuthHeader.JoinRestores` | internal/shared/ondcauth/ondcauth.go:175-195 | joining the parts with commas restores a header if and only if it does not end in a comma outside quotes |
| `AuthHeader.ParsePrinted` | internal/shared/ondcauth/ondcauth.go:24-64 | parsing a printed header returns its key id, created, expires and signature, or the missing-field error exactly when one of the last three is empty |
| `AuthHeader.CreatedHeaderParses` | internal/shared/ondcauth/ondcauth.go:24-64 | for ids without a quote every created header parses back to what was printed, the Base64 padding surviving the first-equals cut |
| `AuthHeader.ValidityWindow` | internal/shared/ondcauth/ondcauth.go:99-138 | verification of a created header over the same payload under its own key succeeds if and only if created <= now <= created + 3600 |
| `AuthHeader.VerdictOnCreated` | internal/shared/ondcauth/ondcauth.go:99-138 | the verdict on a created header over any payload, key and time: key length, not yet valid, expired, then valid if and only if the payload hashes agree and the key is the public key of the seed, and else a signature mismatch |
| `AuthHeader.TransplantRefused` | internal/shared/ondcauth/ondcauth.go:125-136 | a signature put into another header passes only with the times, payload hash and key it was made for |
| `AuthHeader.SigningStringInjective` | internal/shared/ondcauth/ondcauth.go:125-129 | times and hash can be read off the signing string: two are equal only for equal times and payload hashes |
| `AuthHeader.SeedMeaning` | internal/shared/ondcauth/ondcauth.go:24-64 | a private key of 32 or 64 bytes gives its first 32 as seed |
| `AuthHeader.PrintedFixedFields` | internal/shared/ondcauth/ondcauth.go:24-64 | a printed header names ed25519 and the signed headers in their order |
| `AuthHeader.PrintedText` | internal/shared/ondcauth/ondcauth.go:56-58 | the text of a printed header, part by part |
| `AuthHeader.SchemeOptional` | internal/shared/ondcauth/ondcauth.go:148-150 | a header reads the same with and without the name of its scheme |
| `AuthHeader.KeyIDMeaning` | internal/shared/ondcauth/ondcauth.go:140-146 | a text is read as a key id up to its second bar, and one without a bar is none |
| `AuthHeader.KeyIDRoundTrip` | internal/shared/ondcauth/ondcauth.go:140-146 | a key id comes apart into its subscriber and key ids if and only if neither holds a bar |
| `Base64.RoundTrip` | internal/shared/ondcauth/ondcauth.go:24-64 | decoding restores every encoded byte sequence (section 4 of RFC 4648) |
| `Base64.Vectors` | internal/shared/ondcauth/ondcauth.go:24-64 | the test vectors of section 10 of RFC 4648 |
| `Decimal.RoundTrip` | internal/shared/ondcauth/ondcauth.go:99-138 | a printed integer is parsed back if and only if it fits in 64 signed bits |
| `Decimal.Examples` | internal/shared/ondcauth/ondcauth.go:99-138 | ordinary decimal text: most significant digit first, a minus sign before negative numbers |
| `Enrichment.UpdateItems` | internal/domain/pipeline/init_confirm_from_callbacks.go:117-172 | the quote and item loops of the init enrichment |
| `Enrichment.CountsMeaning` | internal/domain/pipeline/init_confirm_from_callbacks.go:117-145 | exactly the items some quote line offers are counted, each with the last positive quantity |
| `Enrichment.UpdateFulfillment` | internal/domain/pipeline/init_confirm_from_callbacks.go:221-323 | one fulfillment of an init, edited step by step |
| `Enrichment.EnrichInitInPlace` | internal/domain/pipeline/init_confirm_from_callbacks.go:102-327 | the whole init enrichment against its specification, with the stored select request decoded into gps and area code |
| `Enrichment.EnrichConfirmInPlace` | internal/domain/pipeline/init_confirm_from_callbacks.go:329-453 | the whole confirm enrichment against its specification |
| `EnrichmentLaws.InitCompletes` | internal/domain/pipeline/init_confirm_from_callbacks.go:102-327 | for every JSON tree: items and fulfillments stay arrays of the same length and each element of the result completes the element of the callback at its place; nothing is missing; and enriching changes nothing if and only if nothing was missing |
| `EnrichmentLaws.InitIdempotent` | internal/domain/pipeline/init_confirm_from_callbacks.go:102-327 | enriching an init again, with any select data and clock, changes nothing |
| `EnrichmentLaws.InitKeeps` | internal/domain/pipeline/init_confirm_from_callbacks.go:102-327 | the result is the callback but for the listed edits: every other value, at every depth, is as it was; the category goes only from a fulfillment itself in domain RET13; items and fulfillments keep their lengths |
| `EnrichmentLaws.AddressValue` | internal/domain/pipeline/init_confirm_from_callbacks.go:252-303 | a missing address field is taken from the billing address, and from the defaults where that has none |
| `EnrichmentLaws.EndValues` | internal/domain/pipeline/init_confirm_from_callbacks.go:225-315 | missing gps and area code are taken from the select request or the defaults, a missing phone from the default; what was there stays |
| `EnrichmentLaws.ItemCompleted` | internal/domain/pipeline/init_confirm_from_callbacks.go:147-172 | an object item with an id gets a count, a defaulted one a whole number of at least one, and nothing else of it changes |
| `EnrichmentLaws.FulfillmentCompleted` | internal/domain/pipeline/init_confirm_from_callbacks.go:219-326 | an object fulfillment gets gps, area code, address fields and phone as strings, and nothing else of it changes |
| `EnrichmentLaws.ConfirmCompletes` | internal/domain/pipeline/init_confirm_from_callbacks.go:329-453 | for every JSON tree: fulfillments stay an array of the same length and each element of the result completes the element of the callback at its place; nothing is missing; and enriching changes nothing if and only if nothing was missing |
| `EnrichmentLaws.ConfirmIdempotent` | internal/domain/pipeline/init_confirm_from_callbacks.go:329-453 | enriching a confirm again, with any clock and ids, changes nothing |
| `EnrichmentLaws.ConfirmKeeps` | internal/domain/pipeline/init_confirm_from_callbacks.go:329-453 | the result is the callback but for the listed edits, at every depth; the id is kept when non-empty and else is the transaction id or a new one; the state is kept when allowed and else Created; items and fulfillments keep their lengths |
| `EnrichmentLaws.PersonCompleted` | internal/domain/pipeline/init_confirm_from_callbacks.go:369-397 | an object fulfillment gets a person name and a TAT, and nothing else of it changes |
| `EnrichmentLaws.PaymentCompleted` | internal/domain/pipeline/init_confirm_from_callbacks.go:399-452 | payment and params become complete, and nothing else of them changes |
| `EnrichmentLaws.ParamValues` | internal/domain/pipeline/init_confirm_from_callbacks.go:410-440 | missing params are taken from the price of the quote, and from the defaults where that has none |
| `EnrichmentValues.InitFulfillmentValues` | internal/domain/pipeline/init_confirm_from_callbacks.go:219-326 | each object fulfillment of a whole enriched init has the gps and area code it had, or those of the stored select request, or 12.9716,77.5946 and 560001; and the phone it had or 9999999999 |
| `EnrichmentValues.InitAddressValues` | internal/domain/pipeline/init_confirm_from_callbacks.go:252-303 | and its address fields are those it had, or those of the billing address of the enriched order, or the defaults |
| `EnrichmentValues.InitCategory` | internal/domain/pipeline/init_confirm_from_callbacks.go:317-321 | in domain ONDC:RET13 no object fulfillment has @ondc/org/category afterwards, elsewhere each has the one it had |
| `EnrichmentValues.InitBillingValue` | internal/domain/pipeline/init_confirm_from_callbacks.go:174-186 | an order without a billing object gets the test buyer, stamped with the time |
| `EnrichmentValues.InitItemCount` | internal/domain/pipeline/init_confirm_from_callbacks.go:117-172 | an item with an id and without a count gets the whole quantity of the last quote line that offers one, or one |
| `EnrichmentValues.SelectedExactly` | internal/domain/pipeline/init_confirm_from_callbacks.go:193-217 | for every JSON tree: a stored select request offers the gps and area code of the first fulfillment it lists exactly when all listed are well typed down to those fields, and nothing otherwise |
| `EnrichmentValues.ConfirmStateAndID` | internal/domain/pipeline/init_confirm_from_callbacks.go:345-354 | the state of a confirm stays when it is Created, Accepted or Cancelled and else becomes Created; its id is the one it had, or that of the transaction, or a new one |
| `EnrichmentValues.ConfirmFulfillmentValues` | internal/domain/pipeline/init_confirm_from_callbacks.go:369-397 | each object fulfillment of a whole enriched confirm has the person name it had, or that of the billing, or Test Buyer; and the TAT it had or P2D |
| `EnrichmentValues.ConfirmTimes` | internal/domain/pipeline/init_confirm_from_callbacks.go:355-367 | the times of a confirm are those it had, or the clock |
| `EnrichmentValues.ConfirmPaymentValues` | internal/domain/pipeline/init_confirm_from_callbacks.go:399-452 | the payment has what it had or the defaults; its params what they had, or what the price of the quote says, or the defaults |
| `Enrichment.AllSelectedMeaning` | internal/domain/pipeline/init_confirm_from_callbacks.go:193-217 | one mistyped fulfillment of the stored select request, anywhere in its list, spoils what it offers |
| `Json.FillMeaning` | internal/domain/pipeline/init_confirm_from_callbacks.go:233-313 | the string-or-default idiom: every named key is a string afterwards, strings that were there stay, other keys are untouched |
| `BatchBuild.ExtractTransactionIDs` | internal/domain/pipeline/select_batch.go:19-38 | the loop that extracts the ids of a batch |
| `BatchBuild.IdsMeaning` | internal/domain/pipeline/select_batch.go:19-38 | exactly the non-empty ids some payload carries, no more than payloads |
| `BatchBuild.BuildBatchFromCallbacks` | internal/domain/pipeline/init_confirm_from_callbacks.go:37-100 | the batch loop with all its reasons to skip an id, and the empty run id as an error |
| `BatchBuild.BatchIsFilter` | internal/domain/pipeline/init_confirm_from_callbacks.go:37-100 | when bodies are stored under their own ids, the ids of a batch are exactly the ids that advance, in order |
| `BatchBuild.AdvancingMeaning` | internal/domain/pipeline/init_confirm_from_callbacks.go:54-76 | an id advances exactly when listed, non-empty, stored, decodable, with a context and not refused |
| `BatchBuild.PayloadMeaning` | internal/domain/pipeline/init_confirm_from_callbacks.go:73-92 | the next request carries the id of its callback and the action of its stage, and lacks nothing |
| `BatchBuild.PayloadFollows` | internal/domain/pipeline/init_confirm_from_callbacks.go:73-100 | the next request is its callback: the context followed on with new action, message id, time and a missing time to live, the order changed by the edits of the stage alone, every other value as it was |
| `BatchBuild.InitPayloadValues` | internal/domain/pipeline/init_confirm_from_callbacks.go:188-250 | missing gps and area code of an init request come from the select request stored for its transaction |
| `BatchBuild.ConfirmPayloadValues` | internal/domain/pipeline/init_confirm_from_callbacks.go:329-367 | missing times, order id and payment transaction id of a confirm request come from its own supply |
| `BatchBuild.EligibleExactly` | internal/domain/pipeline/init_confirm_from_callbacks.go:59-76 | a body is eligible if and only if it decodes, has a context, and its acknowledgement says ACK or nothing |
| `BatchBuild.BatchOrigins` | internal/domain/pipeline/init_confirm_from_callbacks.go:52-97 | each payload is the one made for its id and position, and positions go up |
| `BatchBuild.PayloadForMeaning` | internal/domain/pipeline/init_confirm_from_callbacks.go:52-97 | the payload for an id is made of its own callback, its own select request and the supply of its position |
| `BatchBuild.MessageIDsDiffer` | internal/domain/pipeline/init_confirm_from_callbacks.go:78-80 | no two requests of a batch share a message id |
| `BatchBuild.BatchComplete` | internal/domain/pipeline/init_confirm_from_callbacks.go:85-96 | every payload of an init or confirm batch lacks nothing |
| `BatchBuild.PreparePayload` | internal/domain/pipeline/coordinator.go:85-118 | stamping and corruption of an outgoing payload, with its errors |
| `BatchBuild.PrepareKeepsID` | internal/domain/pipeline/coordinator.go:85-118 | the id reported at send time is the id the payload carries before and after, corrupted or not; it agrees with the id extracted from callbacks |
| `BatchBuild.CorruptionMeaning` | internal/domain/pipeline/coordinator.go:131-201 | a payload can be corrupted exactly when its order has what the stage damages, and then only that is wrong |
| `BatchBuild.PreparedMeaning` | internal/domain/pipeline/coordinator.go:85-118 | a payload is refused exactly when it should be corrupted and cannot be; otherwise its context is stamped, its order is damaged exactly when it should be, and all else stays |
| `BatchBuild.RunSound` | internal/handlers/callbacks/record.go:114-160 | over every run a body is stored under the id it carries, and a callback only in a run whose select stage sent its transaction, or in the pseudo-run of discoveries |
| `BatchBuild.Causality` | internal/handlers/testing/routes.go:1056-1134 | at any moment of any run (the pseudo-run of discoveries is none) each init or confirm payload carries an id of the select batch, sent by the select stage of that run, for which the run holds a callback of the preceding stage that reports no refusal, and sending it reports that id |
| `BatchBuild.NothingLeftBehind` | internal/handlers/testing/routes.go:1056-1134 | every listed transaction whose stored callback is eligible has its payload in the batch, in the order of the list |
| `BatchBuild.AnsweredGoesOn` | internal/handlers/testing/routes.go:1056-1134 | a transaction selected, answered and not refused gets its init request, whatever else happens, unless it is routed elsewhere before the callback or the callback is replaced or cleaned up after it |
| `BatchBuild.CallbackHeld` | internal/handlers/callbacks/record.go:114-137 | a recorded callback is held by the run its transaction is routed to, in place of any earlier one, and nothing else changes |
| `BatchBuild.NotHeld` | internal/handlers/callbacks/record.go:114-137 | a failed recording, a body without an id, an unrouted callback or anything of a nameless run leaves the log as it is |
| `BatchBuild.SelectRoutes` | internal/domain/pipeline/coordinator.go:203-229 | a select that could be prepared routes its transaction to its run, recorded or not, and is recorded as sent |
| `ErrorInjection.PrefixCount` | internal/domain/pipeline/coordinator.go:120-129 | any prefix of N holds (N/rps)*w + min(N mod rps, w) corrupted indices |
| `ErrorInjection.WindowCount` | internal/domain/pipeline/coordinator.go:120-129 | any rps consecutive indices, at any offset, hold exactly w |
| `ErrorInjection.HowManyWrong` | internal/domain/pipeline/coordinator.go:120-129 | any rps consecutive indices hold one corrupted index below a rate of ten, and rps/10 from ten on |
| `ErrorInjection.OffMeansNone` | internal/domain/pipeline/coordinator.go:120-129 | nothing is ever corrupted if and only if injection is off or the rate is at most one |
| `SelectBatch.BuildDistinctOrders` | internal/domain/pipeline/select_batch.go:372-573 | min(count, items) orders for the first provider, none for an unusable catalog, each built from its own draw |
| `SelectBatch.BuildOrder` | internal/domain/pipeline/select_batch.go:479-570 | one order: items, provider and fulfillments replaced, other keys of the template kept |
| `SelectBatch.ChooseItems` | internal/domain/pipeline/select_batch.go:491-534 | the item loop, with the fulfillment ids used and the chosen location |
| `SelectBatch.BuildFulfillments` | internal/domain/pipeline/select_batch.go:550-567 | one fulfillment per id used, in whatever order the set yields them |
| `SelectBatch.OrdersAreClosed` | internal/domain/pipeline/select_batch.go:478-573 | when any item names a fulfillment the fulfillment ids of the order are exactly those named, each once; one to min(5, items) items from distinct positions |
| `SelectBatch.OrderMeaning` | internal/domain/pipeline/select_batch.go:478-573 | the items are those of the first drawn positions, one more than drawn, each two of its kind, tagged, at the provider location or its own, by its own fulfillment or the first the provider has; the provider has the catalog id and the location of the first chosen item with one; other keys but the fulfillments are those of the template |
| `SelectBatch.RefsMissing` | internal/domain/pipeline/select_batch.go:408-418 | no item names a fulfillment if and only if no chosen item has one and the provider has none |
| `SelectBatch.FulfillmentsTyped` | internal/domain/pipeline/select_batch.go:550-567 | each fulfillment keeps the other template fields and has the type of the catalog, or Delivery |
| `SelectBatch.TypesMeaning` | internal/domain/pipeline/select_batch.go:405-418 | a type is known for exactly the ids of typed fulfillments, and is that of the last one |
| `SelectBatch.LocationsAgreeExactly` | internal/domain/pipeline/select_batch.go:494-548 | every item of an order is at a location its provider lists if and only if the template has a provider, the chosen items are at one location, and that is not empty or the template provider lists it |
| `SelectBatch.CatalogLocationsExactly` | internal/domain/pipeline/select_batch.go:372-573 | every order a catalog can give has agreeing locations if and only if the template has a provider, and the first provider location is set or all catalog items share a location that is not empty or that the template provider lists |
| `SelectBatch.TwoLocationsDisagree` | internal/domain/pipeline/select_batch.go:494-548 | a failing input: two items at two locations without a provider location |
| `SelectBatch.EmptyLocationDisagrees` | internal/domain/pipeline/select_batch.go:494-548 | another: an item without a location while the template provider lists one |
| `SelectPayloads.NormalizeSelectPayload` | internal/domain/pipeline/select_batch.go:120-226 | both normalization passes in place, with the errors in their order |
| `SelectPayloads.RefusedExactly` | internal/domain/pipeline/select_batch.go:180-224 | an order is refused if and only if some object fulfillment lacks something |
| `SelectPayloads.MissingGpsPasses` | internal/domain/pipeline/select_batch.go:211-214 | an order whose fulfillments lack gps, and are complete otherwise, is not refused |
| `SelectPayloads.MissingAreaCodePasses` | internal/domain/pipeline/select_batch.go:219-222 | nor is one whose fulfillments lack the area code |
| `SelectPayloads.AreaCodeNoticedExactly` | internal/domain/pipeline/select_batch.go:211-222 | a fulfillment is refused for its area code if and only if that is present as the empty string and gps is not |
| `SelectPayloads.PayloadRefusedExactly` | internal/domain/pipeline/select_batch.go:120-226 | a payload is refused if and only if an object fulfillment of its order lacks end, location or address, or holds an empty gps or area code |
| `SelectPayloads.GpsNoticedExactly` | internal/domain/pipeline/select_batch.go:211-214 | a fulfillment is refused for its gps if and only if that is present as the empty string |
| `SelectPayloads.NormalKeepsReferences` | internal/domain/pipeline/select_batch.go:138-179 | normalization leaves nothing dangling that did not dangle, and keeps orders closed under reference |
| `SelectPayloads.NormalFulfillmentMeaning` | internal/domain/pipeline/select_batch.go:141-205 | a normalized fulfillment has its own type and serviceability code where it has them, else Delivery and Serviceable; other keys stay |
| `SelectPayloads.NormalItemMeaning` | internal/domain/pipeline/select_batch.go:158-179 | a normalized item has the item tags, and the first fulfillment id where it had none; other keys stay |
| `SelectPayloads.NormalPayloadMeaning` | internal/domain/pipeline/select_batch.go:120-226 | a normalized payload: a context with a time to live, fulfillments and items normalized one by one in their places, an unassigned item taking the first fulfillment id, and every other value as it was |
| `SelectPayloads.BuildSelectPayloads` | internal/domain/pipeline/select_batch.go:277-314 | one request per position, the i-th carrying the normalized order i mod k, or the first refusal; orders whose normalized forms differ pairwise are carried floor(n/k) times each, and the first n mod k once more |
| `SelectPayloads.GenerateFromOnSearch` | internal/domain/pipeline/select_batch.go:236-275 | up to twelve distinct orders, or the template order alone, and the same distribution over the returned requests |
| `SelectPayloads.RequestsAreClosed` | internal/domain/pipeline/select_batch.go:277-314 | every request made from a generated order is closed under reference as it is sent |
| `SelectPayloads.ExtractedIDs` | internal/domain/pipeline/select_batch.go:19-38 | the ids extracted from a select batch are the ids it was given, one per request, in order |
| `SelectPayloads.RoundRobin` | internal/domain/pipeline/select_batch.go:294-297 | in any batch whose requests carry the normalized orders in turn, with forms that differ pairwise, order j is carried by n/k requests, plus one if j < n mod k |
| `SelectPayloads.RequestContext` | internal/domain/pipeline/select_batch.go:277-314 | the context of a request as sent: select, its transaction and message id, its time, a time to live of PT30S where the search gave none, other keys as in the search |
| `RunLog.StoresRefineOneLog` | internal/shared/runlog/memory_store.go:32-144 | after any sequence of operations on plain names both stores give equal Get, GetMulti, Count, ListTxnIDs and GetTimestamp answers; actions may hold colons unless the pipeline is ts or count |
| `RunLog.AnswersAreTheLog` | internal/shared/runlog/memory_store.go:32-144 | what both stores answer, over every run on slots that do not meet: the payload last recorded, the number of records and the instant last recorded, each since the last cleanup |
| `RunLog.StoresAgreeExactly` | internal/shared/runlog/redis_store.go:30-147 | over given slots the two stores agree on every run if and only if no two of the slots meet |
| `RunLog.KeysMeetExactly` | internal/shared/runlog/redis_store.go:30-40 | exactly when a payload key is the timestamp or counter key of another slot; other keys never meet, and each family determines its slot |
| `RunLog.PlainMeetsNothing` | internal/shared/runlog/redis_store.go:30-40 | a slot whose pipeline is neither ts nor count, or whose action has no colon, meets no slot |
| `RunLog.MeetingSplits` | internal/shared/runlog/redis_store.go:42-147 | on slots that meet one record is enough for the stores to answer differently |
| `RunLog.CleanupIsExact` | internal/shared/runlog/memory_store.go:189-208 | a cleanup empties every slot of its run and changes no answer about any other, in both stores |
| `RunLog.ExportsExactly` | internal/shared/runlog/redis_store.go:185-216 | over every run Redis exports exactly what the memory store exports under actions without a colon |
| `RunLog.ExportsAgreeExactly` | internal/shared/runlog/redis_store.go:185-216 | the exports of a run agree if and only if nothing was recorded for it since its last cleanup under an action with a colon |
| `RunLog.ColonActionSkipped` | internal/shared/runlog/redis_store.go:200-203 | a run on which they differ: one record under an action with a colon |
| `RunLog.ExportIsComplete` | internal/shared/runlog/memory_store.go:210-235 | an entry is exported if and only if Get answers it: the latest payload, never a timestamp or counter |
| `RunLog.MemoryStore.Record` | internal/shared/runlog/memory_store.go:32-55 | payload and counter updated together; incomplete coordinates are ignored |
| `RunLog.MemoryStore.RecordTimestamp` | internal/shared/runlog/memory_store.go:57-71 | the timestamp of a transaction replaced |
| `RunLog.MemoryStore.GetMulti` | internal/shared/runlog/memory_store.go:118-133 | the known ones of the ids asked for |
| `RunLog.MemoryStore.Cleanup` | internal/shared/runlog/memory_store.go:189-208 | all three maps lose the keys with the prefix of the run |
| `RunLog.MemoryStore.Export` | internal/shared/runlog/memory_store.go:210-235 | every entry of the run emitted once |
| `RunLog.RedisStore.Record` | internal/shared/runlog/redis_store.go:42-59 | hash and counter updated in the flat key space, for every failing driver call; an error leaves the counter alone when the payload could not be set |
| `RunLog.RedisStore.RecordTimestamp` | internal/shared/runlog/redis_store.go:61-72 | the printed instant stored in the timestamp hash, or an error when the call fails or the key is of another type |
| `RunLog.RedisStore.Cleanup` | internal/shared/runlog/redis_store.go:180-183 | the keys with the prefix of the run deleted |
| `RunLog.RedisStore.Export` | internal/shared/runlog/redis_store.go:185-216 | every payload entry of the run emitted once, no other key |
| `SessionStore.RoutesExact` | internal/ports/session/redis_store.go:213-240 | over every sequence of writes a transaction is routed as it was last linked, whatever else is stored |
| `SessionStore.RouteRoundTrip` | internal/ports/session/redis_store.go:213-240 | a stored route is read back if and only if run and session ids have no colon |
| `SessionStore.OlderRoute` | internal/ports/session/redis_store.go:222-240 | a route of the older two-part form reads as verified, a text without a colon is none |
| `SessionStore.IncrExactly` | internal/ports/session/redis_store.go:160-168 | an increment adds when the sum is a 64-bit number and is refused otherwise |
| `SessionStore.RunMetricsExact` | internal/ports/session/redis_store.go:160-211 | over every sequence of writes the metrics of a run are the sums of exactly its own increments, per action and field |
| `SessionStore.FamiliesApart` | internal/ports/session/redis_store.go:28-36 | routes, metrics and documents never share a key |
| `SessionStore.DocKeyInjective` | internal/ports/session/redis_store.go:28-36 | documents of colon-free ids each have a key of their own |
| `SessionStore.RedisStore.Link` | internal/ports/session/redis_store.go:213-220 | the route text stored under the key of the transaction |
| `SessionStore.RedisStore.GetTxnRoute` | internal/ports/session/redis_store.go:222-240 | the route read back, an older two-part route counting as verified, a one-part text as an error |
| `SessionStore.RedisStore.Incr` | internal/ports/session/redis_store.go:160-168 | the counter increased, or an error when it is no number or would leave 64 bits |
| `SessionStore.RedisStore.GetMetrics` | internal/ports/session/redis_store.go:170-211 | every action and field read into its own place |

## Left out

- HTTP handlers, request parsing, Swagger, configuration, logging, Excel export, flushing to the file system and saving the select pool: input and output.
- Drivers of Redis, MongoDB and HTTP: abstract maps, with a success or failure choice per call. Hash and signature functions are parameters.
- Floating point: percentile ranks use exact fractions and averages are exact; the rounding of p*(n-1) in float64 is not modelled, nor is how Lua and Redis print token numbers.
- Overflow of 64-bit sums of latencies, durations and counters outside the session store; the conversion of a quote quantity beyond the integer range.
- Expiry of session, route and run-log keys, except for the rate limiter's buckets and the routes of `EventPipeline` and `BatchBuild`.
- Key patterns: a run id with glob characters in the key scans of the Redis run log is read literally.
- Payloads as the Redis driver reports empty values, and errors returned by an export visitor: an export visits everything.
- Notify racing with Reset: Reset closes the channel a straddling Notify may send on; the model resets only when notifiers are quiet.
- The dispatcher's result slice, its semaphore and its wait group, and the notifier's channel, are values inside a state machine: sharing of memory is what the steps interleave, not aliased heap objects.
- Aliasing of JSON trees: maps and arrays are values that the methods reassign, so that a template shared between orders is never mutated by another order holds by construction.
- EnrichInitInPlace: keys of the stored select request that differ from the expected ones only in letter case are not matched, as the decoder would.
- BuildBatchFromCallbacks: decoding and encoding of JSON are taken as inverse on trees; numbers re-encoded through float64 are not modelled.
- StoresRefineOneLog: needs colon-free run and pipeline names and instants that fit in 64 bits of nanoseconds; for a pipeline named ts or count also colon-free actions, without which it is false (`RunLog.MeetingSplits`).
- RoutesExact: needs colon-free run and session ids; `SessionStore.RouteRoundTrip` shows that nothing less will do.
- RunMetricsExact: deletion and expiry of keys are not modelled, and an increment that would leave 64 bits is refused.
- SelectSuccessAtMostAll: stands for finished runs whose select metric counted one request per payload; live counters, and the init and confirm stages, may exceed 100 percent, because unsolicited and duplicate callbacks count.
- At most one run per session, at most one active session per seller, and stopping an unverified callback: the code does not keep these, and nothing here states them.
- Session and catalog storage, domain and version validation, search template patching, the registry key cache, and batches from example files: each is settled by reading a branch.
