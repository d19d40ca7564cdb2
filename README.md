# Expense tracker: a verified model of its core logic

This project models, in Dafny, the deterministic core of an expense-tracking
application. The application has a Python statement-extraction pipeline, a
Spring Boot backend, and React and React Native clients. The model covers
the following parts.

- **Statement extraction.** The extraction script's text chunking, header-row detection, reply cleaning, unwrapping and retry policy, and the post-processor that gives every record a signed amount (`Extraction`).
- **Splitter and extractor lambdas.** The splitter's page-range partition, chunk keys and work items (`Splitter`), and the extractor's per-chunk control flow (`Extractor`).
- **Job progress.** The backend's chunk-progress state machine for statement jobs (`JobProgress`).
- **Spending alerts.**
  - The four detectors: large transaction, frequency, category spike and new merchant (`Alerts`).
  - The alert service's severity, titles, signature dedup, retention during a recompute, acknowledge, dismiss and summary (`SpendingAlerts`).
- **Tax.** Tax-rule matching, classification and the approval life-cycle (`TaxRules`), and the per-category limit usage and insights (`Tax`).
- **Budgets and goals.** The budget summary, adherence and limit edits (`Budgets`), goal contributions and statistics (`Goals`), and the daily milestone and inactivity notifications (`GoalNotifications`).
- **Forecasts and trends.**
  - The net forecast and its TTL cache (`Forecasts`), and the cash-flow forecast (`CashFlow`).
  - The monthly net and spending series (`Trends`), and the month walk with a limit (`MonthlyTrends`).
- **Statement import.** Merchant-name normalisation (`Merchants`), the transaction parser with its lenient decimal reading, and the bank/category counting upsert (`Statements`, `Decimal`).
- **Plans and tiers.** Usage-policy selection, the plan-tier check before restricted endpoints, and the mobile `PlanGate`'s `meets` (`Plans`).
- **Subscriptions.** The nightly subscription expiry and the newsletter sign-ups (`Subscriptions`).
- **Request logging.** The logging aspect's masking, summaries and correlation id (`Logging`).
- **Client data structures.** The web client's persisted upload-job list (`UploadJobs`) and the mobile event bus (`EventBus`).

The model follows the shape of each source file:

- Pure code is functions.
- Loops are methods whose `ensures` ties the result to a specification function.
- Objects that are updated in place are classes whose methods say what they modify:
  - a statement job;
  - the alert, tax, budget and goal stores;
  - the forecast cache;
  - the subscription and newsletter stores;
  - the job store;
  - the event bus.
- Repositories, clocks, the language model, HTTP and other foreign calls are parameters.

Number representations:

- BigDecimal amounts are exact reals. `Decimal.Parse` reads text as `new BigDecimal(String)` does, and `Decimal.RoundHalfUp` writes out HALF_UP rounding to a scale; the lemmas about them are listed with the tax and budget rows.
- A `LocalDate` is its epoch day, a `YearMonth` a month index, and a `LocalDateTime` a day with a second of the day.
- HashMap iteration order is a parameter or the order of first appearance. Properties are stated so that they do not depend on it.

## Model

| member | source | states |
|---|---|---|
| Extraction.Chunks | extraction_lambda/extraction_lambda.py:28-29 | every piece is non-empty and at most `chunk_size` long |
| Extraction.ChunksConcat | extraction_lambda/extraction_lambda.py:28-29 | the pieces joined in order give back the text |
| Extraction.ChunksCount | extraction_lambda/extraction_lambda.py:28-29 | ceil(len(text)/size) pieces: they cover the text, one fewer would not, and only the empty text gives none |
| Extraction.ChunkAt | extraction_lambda/extraction_lambda.py:28-29 | piece k is exactly `text[k*size:(k+1)*size]` clipped to the text |
| Extraction.ChunkText | extraction_lambda/extraction_lambda.py:28-29 | a zero size raises, a negative size gives no pieces, a positive size gives pieces of at most that size that concatenate to the text |
| Extraction.KeywordLineNotBlank | extraction_lambda/extraction_lambda.py:179-186 | a line holding a header keyword is never blank |
| Extraction.FirstHeaderIndex | extraction_lambda/extraction_lambda.py:183-186 | the index of the first line holding a keyword (case-insensitively), no line before it holds one |
| Extraction.FirstHeaderRow | extraction_lambda/extraction_lambda.py:183-186 | empty exactly when no line holds a keyword; otherwise the first such line, stripped |
| Extraction.FirstBreak | extraction_lambda/extraction_lambda.py:182 | the position of the first line boundary, none before it |
| Extraction.SplitLines | extraction_lambda/extraction_lambda.py:182 | no line of `splitlines()` contains a line boundary |
| Extraction.DetectHeader | extraction_lambda/extraction_lambda.py:179-186 | no first page or a blank first page gives ""; a non-empty header is the stripped first keyword line of page 0 |
| Extraction.WordsSpec | extraction_lambda/extraction_lambda.py:217 | `split()` yields only non-empty words, none holding whitespace |
| Extraction.TitleFrom | extraction_lambda/extraction_lambda.py:217 | `str.title()` keeps the length |
| Extraction.Titles | extraction_lambda/extraction_lambda.py:217 | one title-cased column per word, in order |
| Extraction.TitleFromLetters | extraction_lambda/extraction_lambda.py:217 | after a letter, a run of letters is lower-cased |
| Extraction.LowerTitleFrom | extraction_lambda/extraction_lambda.py:217 | title-casing changes only letter case |
| Extraction.TitleMatches | extraction_lambda/extraction_lambda.py:217 | a word titles to "Debit" (any capitalised name) exactly when it equals it ignoring case |
| Extraction.HeaderHasColumn | extraction_lambda/extraction_lambda.py:216-217 | `'Debit' in header` holds exactly when some header word equals "Debit" ignoring case |
| Extraction.StripCharLeft | extraction_lambda/extraction_lambda.py:96 | the result is the suffix left after removing leading occurrences of the character only, and it does not start with one |
| Extraction.StripCharRight | extraction_lambda/extraction_lambda.py:96 | the result is the prefix left after removing trailing occurrences of the character only, and it does not end with one |
| Extraction.StripBackticks | extraction_lambda/extraction_lambda.py:96 | the result sits in the text with only backticks before and after it, and neither starts nor ends with a backtick |
| Extraction.StripBackticksUnique | extraction_lambda/extraction_lambda.py:96 | any text framed by backticks only and not starting or ending with one is exactly what strip("`") returns |
| Extraction.CleanFence | extraction_lambda/extraction_lambda.py:93-98 | an unfenced reply is only stripped; a fenced reply without a json tag is the reply stripped of backticks; with a json tag (any case) the result is the text after the tag with whitespace removed around it and none left at either end, which pins it to strip() |
| Text.StrippedUnique | extraction_lambda/extraction_lambda.py:98 | a text with only whitespace around it in the input and none at its own ends is exactly what strip() returns, so the json branch of CleanFence is pinned |
| Extraction.Unwrap | extraction_lambda/extraction_lambda.py:102-110 | a list is returned as is; a dict gives its "value" list, else its "data" list; anything else gives [] |
| Extraction.OccursIsContains | extraction_lambda/extraction_lambda.py:116 | the left-to-right scan finds a phrase exactly when it occurs at some position of the text |
| Extraction.RateLimitMeaning | extraction_lambda/extraction_lambda.py:115-116 | a failure is a rate limit exactly when "rate limit" or "rate_limit_exceeded" occurs in its lower-cased message |
| Extraction.RetryStep | extraction_lambda/extraction_lambda.py:114-120 | a rate-limited failure before the fifth attempt hands over to the next attempt |
| Extraction.RetryStops | extraction_lambda/extraction_lambda.py:106-124 | a reply, a failure that is not a rate limit, or a failure on the fifth attempt ends the loop: the parsed reply or [] |
| Extraction.RetryFrom | extraction_lambda/extraction_lambda.py:77-124 | the last attempt made is between the first and the fifth |
| Extraction.RetryCharacterised | extraction_lambda/extraction_lambda.py:99-124 | every attempt before the last was rate-limited; a reply ends with its parsed list, a failure ends with [] and is the fifth attempt or not a rate limit |
| Extraction.Backoff | extraction_lambda/extraction_lambda.py:117-120 | one wait before each retry, the i-th of 5*i seconds |
| Extraction.CallWithRetry | extraction_lambda/extraction_lambda.py:76-124 | the loop returns what the retry policy gives, after 1 to 5 attempts and the waits 5, 10, … |
| Extraction.Attempt | extraction_lambda/extraction_lambda.py:79-123 | a reply ends the retry policy with its parsed transactions at this attempt; a rate-limit failure before the fifth attempt leaves the outcome to the next attempt; any other failure ends it with none |
| Extraction.ResolveAmountSpec | extraction_lambda/extraction_lambda.py:131-150 | Debit column first (-abs), then Credit (+abs), then amount signed by a dr/debit or cr/credit type, else the amount as given; no usable column means no amount, a failed conversion is an error |
| Extraction.ProcessRecordSpec | extraction_lambda/extraction_lambda.py:129-159 | a kept record is a dict whose amount is the resolved one, whose balance is a number, carrying the bank name when given and every other field unchanged; a dict with a resolvable amount and convertible balance is kept |
| Extraction.PostprocessedAppend | extraction_lambda/extraction_lambda.py:129-160 | records are processed independently: a dropped record does not stop later ones |
| Extraction.PostprocessedShape | extraction_lambda/extraction_lambda.py:127-160 | no more records out than in; each has a numeric amount and the bank name when one is given |
| Extraction.Postprocess | extraction_lambda/extraction_lambda.py:127-160 | the loop returns exactly the cleaned records in input order |
| Extractor.PageText | infrastructure/terraform/lambdas/extractor/handler.py:49-54 | a page's native text unless blank, else its OCR text |
| Extractor.JoinPages | infrastructure/terraform/lambdas/extractor/handler.py:45-55 | every page adds a newline, so the text is at least one character per page |
| Extractor.JoinPagesBlank | infrastructure/terraform/lambdas/extractor/handler.py:48-58 | the joined text is blank exactly when every page's text is blank |
| Extractor.Prompt | infrastructure/terraform/lambdas/extractor/handler.py:68 | the prompt is the fixed instruction followed by the first min(4000, len) characters of the text |
| Extractor.CleanReply | infrastructure/terraform/lambdas/extractor/handler.py:71-77 | no longer than the reply; an unfenced reply is only stripped; a fenced one loses its backticks and a json tag; when a trailing ``` remains it is cut and the rest is stripped of whitespace at both ends and nothing else |
| Extractor.StripBackticksShorter | infrastructure/terraform/lambdas/extractor/handler.py:73 | stripping backticks never lengthens the text |
| Extractor.RecordStep | infrastructure/terraform/lambdas/extractor/handler.py:39-86 | a body without jobId or chunkKey raises; blank text sends one fail notice ("empty chunk") and nothing else; text sends one chunk-complete with pages 1 and the message's total, and one prompt; an unavailable client raises |
| Extractor.RunCounts | infrastructure/terraform/lambdas/extractor/handler.py:38-87 | a run that ends normally sends one notice per record when configured (chunk-complete per record with text, fail per blank one) and makes one prompt per record with text |
| Extractor.RunCompletesOnePage | infrastructure/terraform/lambdas/extractor/handler.py:82-84 | every chunk-complete reports one page; an unconfigured backend is never called |
| Extractor.RunFrom | infrastructure/terraform/lambdas/extractor/handler.py:38-86 | the run handles one record and then the rest |
| Extractor.AfterThen | infrastructure/terraform/lambdas/extractor/handler.py:38-86 | effects of a handled record come before the effects of the records after it |
| Extractor.Advance | infrastructure/terraform/lambdas/extractor/handler.py:38-86 | a record that raises ends the run with its error and no further effects; otherwise its effects come before those of the rest |
| Extractor.Extract | infrastructure/terraform/lambdas/extractor/handler.py:36-87 | the loop returns "OK" exactly when no record raised, with exactly the notices and prompts of the record-by-record run |
| Splitter.ChunksPartitionPages | infrastructure/terraform/lambdas/splitter/handler.py:25-29 | the ranges are non-empty, adjacent, start at 0, end at N, and page p lies in range p/K and in no other |
| Splitter.ChunkCount | infrastructure/terraform/lambdas/splitter/handler.py:25 | there are ceil(N/K) ranges |
| Splitter.DivWithin | infrastructure/terraform/lambdas/splitter/handler.py:25-26 | page p lies in [q*K, q*K+K) exactly when q = p/K |
| Splitter.DigitsPrefixUnique | infrastructure/terraform/lambdas/splitter/handler.py:30-31 | two keys that agree have the same start page |
| Splitter.ChunkKeysDistinct | infrastructure/terraform/lambdas/splitter/handler.py:30-31 | different chunks of one job get different object keys |
| Splitter.PlanChunks | infrastructure/terraform/lambdas/splitter/handler.py:24-36 | the loop produces a chunking of the N pages and the key `chunks/{job}/chunk_{start}_{end-1}.pdf` of each range, in order |
| Splitter.SpansChunking | infrastructure/terraform/lambdas/splitter/handler.py:24-29 | consecutive ranges of the chunk size, the last cut at N, cover pages 0..N-1 without gap or overlap |
| Splitter.Split | infrastructure/terraform/lambdas/splitter/handler.py:13-47 | missing job id, bucket or key fails with no chunks, messages or seed; a zero chunk size raises; exactly when the parameters are given and the chunk size is non-zero the split is done, and then message i carries key i, chunkIndex i and the chunk count, the result reports the chunk count and N, and the seed call sends pages 0 with the chunk count when the backend is configured |
| Splitter.Enqueue | infrastructure/terraform/lambdas/splitter/handler.py:38-40 | one queue message per chunk key, message i carrying key i, chunk index i and the number of chunks |
| JobProgress.ChunkCompleteStep | backend/src/main/java/com/expensetracker/controller/InternalJobController.java:26-46 | the stored total wins over the request's and a missing one raises; processed chunks +1 and pages + pages (null 0); reaching a positive total completes at 100 with a finish time, otherwise progress is min(99, floor(100*processed/total)) and PENDING becomes RUNNING with a start time; a non-positive total with no progress yet fails the response map |
| JobProgress.MarkFailedStep | backend/src/main/java/com/expensetracker/controller/InternalJobController.java:55-57 | FAILED with a finish time and the body's error, "unknown" when absent; the counters are untouched |
| JobProgress.Reports | backend/src/main/java/com/expensetracker/controller/InternalJobController.java:62-65 | k chunk reports of one page each carrying the total |
| JobProgress.ReportsAdvance | backend/src/main/java/com/expensetracker/controller/InternalJobController.java:30-46 | k more reports count k more chunks, and the job is COMPLETED exactly when done + k reaches the total |
| JobProgress.FreshJobCompletesOnLastChunk | backend/src/main/java/com/expensetracker/controller/InternalJobController.java:39-42 | a new job completes on its n-th chunk report and not before |
| JobProgress.SeedCountsAsChunk | infrastructure/terraform/lambdas/splitter/handler.py:42-44 | with the splitter's seed call counted as a chunk, the job completes after n-1 real chunk reports |
| JobProgress.SeedTotal | backend/src/main/java/com/expensetracker/controller/InternalJobController.java:26-29 | seeding only records the total when none is stored, and counts nothing |
| JobProgress.SeededJobCompletesOnLastChunk | backend/src/main/java/com/expensetracker/controller/InternalJobController.java:39-42 | with the intended seeding, a job completes on its n-th real chunk report |
| JobProgress.StatementJob.constructor | backend/src/main/java/com/expensetracker/controller/InternalJobController.java:24 | a new job has no total, no counters and PENDING status |
| JobProgress.StatementJob.Assign | backend/src/main/java/com/expensetracker/controller/InternalJobController.java:28-45 | the setters leave the job in exactly the given state |
| JobProgress.InternalJobController.constructor | backend/src/main/java/com/expensetracker/controller/InternalJobController.java:17-19 | the controller works over the given repository |
| JobProgress.InternalJobController.ChunkComplete | backend/src/main/java/com/expensetracker/controller/InternalJobController.java:23-49 | unknown id is not-found; a failing step leaves the job unchanged; otherwise the job takes the step's state and the response carries its status and progress |
| JobProgress.InternalJobController.MarkFailed | backend/src/main/java/com/expensetracker/controller/InternalJobController.java:52-60 | unknown id is not-found; otherwise the job takes the failed state and the call succeeds |
| Alerts.DetectLarge | backend/src/main/java/com/expensetracker/service/alerts/LargeTransactionRule.java:14-41 | the loop returns exactly the large-transaction alerts of the specification, in transaction order |
| Alerts.CheckLarge | backend/src/main/java/com/expensetracker/service/alerts/LargeTransactionRule.java:16-26 | the loop body alerts exactly on a spend whose category is not muted, whose merchant is not whitelisted, and whose magnitude exceeds the larger of baseline times multiplier and the minimum |
| Alerts.LargeAlertsSpec | backend/src/main/java/com/expensetracker/service/alerts/LargeTransactionRule.java:16-37 | one alert per transaction at most; an alert exists exactly for each negative, non-muted, non-whitelisted transaction whose absolute amount strictly exceeds max(baseline*multiplier, minimum), and carries that absolute amount |
| Alerts.KeysOfSpec | backend/src/main/java/com/expensetracker/service/alerts/FrequencyRule.java:12-18 | the merchant keys are exactly the lower-cased merchants present, each once |
| Alerts.FreqKeysIndex | backend/src/main/java/com/expensetracker/service/alerts/FrequencyRule.java:14-17 | a transaction has a key exactly when it has an amount and a non-blank merchant |
| Alerts.Candidates | backend/src/main/java/com/expensetracker/service/alerts/FrequencyRule.java:22-23 | the candidates are group members with an amount of at least freqMinAmount in absolute value |
| Alerts.Run | backend/src/main/java/com/expensetracker/service/alerts/FrequencyRule.java:27-31 | the run of later transactions counted from a base stays within the list |
| Alerts.RunMeaning | backend/src/main/java/com/expensetracker/service/alerts/FrequencyRule.java:27-31 | every counted transaction is within the window of the base, and the first one after the run is not |
| Alerts.FirstBurst | backend/src/main/java/com/expensetracker/service/alerts/FrequencyRule.java:24-37 | the first base whose window count exceeds freqMaxTxn, and no earlier base does; none when no base does |
| Alerts.BurstHasAmount | backend/src/main/java/com/expensetracker/service/alerts/FrequencyRule.java:22 | a burst's base has an amount of at least freqMinAmount |
| Alerts.GroupMapSpec | backend/src/main/java/com/expensetracker/service/alerts/FrequencyRule.java:12-18 | the group map holds exactly the present keys, each with its transactions in list order |
| Alerts.GroupByMerchant | backend/src/main/java/com/expensetracker/service/alerts/FrequencyRule.java:12-18 | the loop builds that group map and the order keys first appear in |
| Alerts.DetectFrequency | backend/src/main/java/com/expensetracker/service/alerts/FrequencyRule.java:11-41 | the loops return exactly the frequency alerts of the specification |
| Alerts.DetectForMerchant | backend/src/main/java/com/expensetracker/service/alerts/FrequencyRule.java:20-38 | for one merchant key: nothing when whitelisted, else the single alert at the first burst of its date-sorted group, if any |
| Alerts.MerchantAlertSpec | backend/src/main/java/com/expensetracker/service/alerts/FrequencyRule.java:20-38 | one merchant yields at most one alert: a frequency alert naming that merchant, not whitelisted, with amount at least freqMinAmount and a count above freqMaxTxn; it yields one exactly when the merchant is not whitelisted and some window of its candidates holds more than freqMaxTxn, and then the alert carries the first such window's date, transaction id and count |
| Alerts.ScanBursts | backend/src/main/java/com/expensetracker/service/alerts/FrequencyRule.java:24-38 | the scan stops at the first burst |
| Alerts.ForKeysSpec | backend/src/main/java/com/expensetracker/service/alerts/FrequencyRule.java:20-39 | over distinct keys, at most one alert per key, none for a whitelisted key, each with a count above freqMaxTxn; every non-whitelisted key whose candidates burst gets an alert |
| Alerts.ForKeysComplete | backend/src/main/java/com/expensetracker/service/alerts/FrequencyRule.java:20-39 | every listed non-whitelisted key with a window of more than freqMaxTxn candidates has an alert naming it |
| Alerts.GroupKey | backend/src/main/java/com/expensetracker/service/alerts/FrequencyRule.java:17 | a grouped transaction's merchant lower-cases to the group key |
| Alerts.FrequencyAlertsSpec | backend/src/main/java/com/expensetracker/service/alerts/FrequencyRule.java:11-41 | every alert is for a present, non-whitelisted merchant, with an amount of at least freqMinAmount and a count above freqMaxTxn; no two alerts share a merchant ignoring case; every present, non-whitelisted merchant with a window of more than freqMaxTxn candidates gets an alert |
| Alerts.SpikeKeysIndex | backend/src/main/java/com/expensetracker/service/alerts/CategorySpikeRule.java:13-18 | a transaction counts toward a category exactly when it is negative and its category is not muted |
| Alerts.CategoryTotal | backend/src/main/java/com/expensetracker/service/alerts/CategorySpikeRule.java:13-18 | a category's total is non-negative |
| Alerts.TotalZero | backend/src/main/java/com/expensetracker/service/alerts/CategorySpikeRule.java:13-18 | a category with no counted transaction totals zero |
| Alerts.TotalsMapSpec | backend/src/main/java/com/expensetracker/service/alerts/CategorySpikeRule.java:12-18 | the totals map holds exactly the counted categories, each with the sum of absolute amounts |
| Alerts.TotalsByCategory | backend/src/main/java/com/expensetracker/service/alerts/CategorySpikeRule.java:12-18 | the loop builds that totals map and the order categories first appear in |
| Alerts.DetectSpike | backend/src/main/java/com/expensetracker/service/alerts/CategorySpikeRule.java:11-34 | the loops return exactly the category-spike alerts of the specification |
| Alerts.SpikeForSpec | backend/src/main/java/com/expensetracker/service/alerts/CategorySpikeRule.java:20-32 | over distinct categories, an alert exists exactly for each spiking category, once |
| Alerts.SpikeAlertsSpec | backend/src/main/java/com/expensetracker/service/alerts/CategorySpikeRule.java:11-34 | an alert exists exactly for each counted category with a positive baseline whose total strictly exceeds max(baseline*multiplier, minimum); it carries the total and the end date; one per category |
| Alerts.DetectNewMerchant | backend/src/main/java/com/expensetracker/service/alerts/NewMerchantRule.java:11-29 | the loop returns exactly the new-merchant alerts of the specification |
| Alerts.SeenMeaning | backend/src/main/java/com/expensetracker/service/alerts/NewMerchantRule.java:12-20 | a merchant is seen exactly when some earlier transaction qualified for it |
| Alerts.NewMerchantAlertsSpec | backend/src/main/java/com/expensetracker/service/alerts/NewMerchantRule.java:14-27 | the alerts are exactly those for the first qualifying transaction of each lower-cased merchant (negative, non-blank, non-whitelisted, at least the minimum) |
| Alerts.NewMerchantOnePerMerchant | backend/src/main/java/com/expensetracker/service/alerts/NewMerchantRule.java:19-20 | no two alerts share a merchant ignoring case |
| SpendingAlerts.TitleFor | backend/src/main/java/com/expensetracker/service/SpendingAlertService.java:408-416 | the fallback title "Spending Alert" is given exactly to unknown kinds; a title is never empty |
| SpendingAlerts.DescriptionFor | backend/src/main/java/com/expensetracker/service/SpendingAlertService.java:417-425 | the fallback description is given exactly to unknown kinds |
| SpendingAlerts.Normalize | backend/src/main/java/com/expensetracker/service/SpendingAlertService.java:427 | null, blank and "all" become null; any other value is kept unchanged |
| SpendingAlerts.NormalizeIdempotent | backend/src/main/java/com/expensetracker/service/SpendingAlertService.java:427 | normalising twice is normalising once |
| SpendingAlerts.IntValue | backend/src/main/java/com/expensetracker/service/SpendingAlertService.java:398 | `intValue()` truncates toward zero |
| SpendingAlerts.Reread | backend/src/main/java/com/expensetracker/service/SpendingAlertService.java:334 | a metadata number read back by Jackson is a Double of the same value, never a BigDecimal |
| SpendingAlerts.RoundTrip | backend/src/main/java/com/expensetracker/service/SpendingAlertService.java:334 | the metadata read back has the same keys, each value re-read |
| SpendingAlerts.SuggestSeverityAsWritten | backend/src/main/java/com/expensetracker/service/SpendingAlertService.java:376-407 | the severity as written is always critical or moderate |
| SpendingAlerts.SuggestSeverity | backend/src/main/java/com/expensetracker/service/SpendingAlertService.java:376-407 | critical or moderate; unknown kinds are moderate; the large-transaction threshold*1.25 escalation applies whatever the number's representation |
| SpendingAlerts.SeverityMonotoneInAmount | backend/src/main/java/com/expensetracker/service/SpendingAlertService.java:378-405 | a larger amount of the same kind and metadata is never less severe |
| SpendingAlerts.ThresholdEscalationDead | backend/src/main/java/com/expensetracker/service/SpendingAlertService.java:380-384 | as written, after the metadata round trip a large transaction is critical exactly when the absolute critical setting says so: the 1.25 rule never fires |
| SpendingAlerts.SeveritiesAgreeElsewhere | backend/src/main/java/com/expensetracker/service/SpendingAlertService.java:388-406 | for every kind but large_transaction the corrected and as-written severities agree |
| SpendingAlerts.ThresholdEscalationExample | backend/src/main/java/com/expensetracker/service/SpendingAlertService.java:380-384 | a 200 spend against a baseline of 100 with default settings is large; as written it is moderate, as intended critical |
| SpendingAlerts.Finish | backend/src/main/java/com/expensetracker/service/SpendingAlertService.java:330-341 | unset severity, title, description and reason are filled (severity from the re-read metadata, reason "Rule: key"); set ones and every other field are kept; the severity is the corrected one (see Findings) |
| SpendingAlerts.FinishAll | backend/src/main/java/com/expensetracker/service/SpendingAlertService.java:329-341 | every produced alert is finished, in order |
| SpendingAlerts.SigFields | backend/src/main/java/com/expensetracker/service/SpendingAlertService.java:352-352 | the signature, type, merchant, category and reference joined by vertical bars, determines the type, merchant, category and reference whenever none of the first three contains the separator |
| SpendingAlerts.SigCollision | backend/src/main/java/com/expensetracker/service/SpendingAlertService.java:352-352 | a separator inside a merchant name makes two different alerts share a signature, so the dedup drops one of them |
| SpendingAlerts.DedupBySignature | backend/src/main/java/com/expensetracker/service/SpendingAlertService.java:349-354 | the loop returns the first alert of each signature, in order |
| SpendingAlerts.DedupSpec | backend/src/main/java/com/expensetracker/service/SpendingAlertService.java:349-354 | dedup is no longer than its input, keeps the same signatures, has distinct signatures and keeps the first alert of each |
| SpendingAlerts.DedupIdempotent | backend/src/main/java/com/expensetracker/service/SpendingAlertService.java:349-354 | deduplicating twice is deduplicating once |
| SpendingAlerts.DedupDistinct | backend/src/main/java/com/expensetracker/service/SpendingAlertService.java:349-354 | alerts with distinct signatures pass unchanged |
| SpendingAlerts.NotRetained | backend/src/main/java/com/expensetracker/service/SpendingAlertService.java:359-360 | exactly the alerts whose signature no retained alert has |
| SpendingAlerts.NotRetainedDistinct | backend/src/main/java/com/expensetracker/service/SpendingAlertService.java:360 | filtering keeps distinct signatures distinct |
| SpendingAlerts.Search | backend/src/main/java/com/expensetracker/repository/SpendingAlertRepository.java:14 | the repository search returns exactly the user's alerts dated in the month that are not dismissed |
| SpendingAlerts.SearchAll | backend/src/main/java/com/expensetracker/repository/SpendingAlertRepository.java:14 | the search the recompute needs: the user's alerts in the month, dismissed ones included |
| SpendingAlerts.Newest | backend/src/main/java/com/expensetracker/service/SpendingAlertService.java:308 | the first page holds at most 2000 alerts, all from the search, and all of them when there are no more |
| SpendingAlerts.Replaceable | backend/src/main/java/com/expensetracker/service/SpendingAlertService.java:310 | exactly the existing alerts neither acknowledged nor dismissed |
| SpendingAlerts.Without | backend/src/main/java/com/expensetracker/service/SpendingAlertService.java:312 | deleting keeps exactly the rows whose id was not deleted |
| SpendingAlerts.WithoutUnique | backend/src/main/java/com/expensetracker/service/SpendingAlertService.java:312 | deleting keeps ids unique |
| SpendingAlerts.Saved | backend/src/main/java/com/expensetracker/service/SpendingAlertService.java:361 | saved alerts get consecutive new ids and the user, in order |
| SpendingAlerts.DismissedAlertComesBack | backend/src/main/java/com/expensetracker/service/SpendingAlertService.java:308-360 | as written, a dismissed alert is invisible to the search, so recomputing re-creates an alert with its signature |
| SpendingAlerts.ToSaveSpec | backend/src/main/java/com/expensetracker/service/SpendingAlertService.java:349-361 | the alerts saved are produced ones with distinct signatures, none sharing a signature with a retained (acknowledged or dismissed) alert, and every other produced signature is saved |
| SpendingAlerts.DismissedStaysDismissed | backend/src/main/java/com/expensetracker/service/SpendingAlertService.java:359-360 | with the search that includes dismissed alerts, nothing saved shares a signature with a dismissed alert |
| SpendingAlerts.CountOpen | backend/src/main/java/com/expensetracker/service/SpendingAlertService.java:125-126 | counts at most all rows |
| SpendingAlerts.CountAcknowledged | backend/src/main/java/com/expensetracker/service/SpendingAlertService.java:127 | counts at most all rows |
| SpendingAlerts.SummaryTotal | backend/src/main/java/com/expensetracker/service/SpendingAlertService.java:125-128 | total = critical + moderate + acknowledged is at most the visible alerts, and equals them when every open alert is critical or moderate |
| SpendingAlerts.Acknowledged | backend/src/main/java/com/expensetracker/service/SpendingAlertService.java:136 | acknowledged, with the first acknowledgement time kept; nothing else changes |
| SpendingAlerts.AcknowledgeIdempotent | backend/src/main/java/com/expensetracker/service/SpendingAlertService.java:136 | acknowledging twice keeps the first time |
| SpendingAlerts.Dismissed | backend/src/main/java/com/expensetracker/service/SpendingAlertService.java:148 | dismissed at now; nothing else changes |
| SpendingAlerts.FindRow | backend/src/main/java/com/expensetracker/service/SpendingAlertService.java:134 | a found row has the id; none means no row has it |
| SpendingAlerts.Named | backend/src/main/java/com/expensetracker/service/SpendingAlertService.java:164 | exactly the rows whose id was asked for |
| SpendingAlerts.AlertsOf | backend/src/main/java/com/expensetracker/service/SpendingAlertService.java:169 | one alert per row, in order |
| SpendingAlerts.RecomputeKeeps | backend/src/main/java/com/expensetracker/service/SpendingAlertService.java:308-312 | recompute deletes exactly the open alerts found in the month; other users' and acted-on alerts stay |
| SpendingAlerts.AlertStore.constructor | backend/src/main/java/com/expensetracker/service/SpendingAlertService.java:291-374 | an empty alert store with no generation stats |
| SpendingAlerts.AlertStore.Recompute | backend/src/main/java/com/expensetracker/service/SpendingAlertService.java:296-374 | replaced counts the open alerts found, which are deleted; the deduplicated, not-retained produced alerts are saved with new ids; generated counts them and is recorded with the time; the month's alerts are read with dismissed ones included and severities are the corrected ones (see Findings) |
| SpendingAlerts.Generate | backend/src/main/java/com/expensetracker/service/SpendingAlertService.java:322-360 | the four rules' finished alerts, deduplicated by signature and without the signatures of acted-on alerts, are exactly what recompute saves; acted-on alerts include dismissed ones and severities are the corrected ones (see Findings) |
| SpendingAlerts.AlertStore.Acknowledge | backend/src/main/java/com/expensetracker/service/SpendingAlertService.java:132-142 | a missing id fails, another user's alert is FORBIDDEN, otherwise the row is acknowledged and nothing else changes |
| SpendingAlerts.AlertStore.Dismiss | backend/src/main/java/com/expensetracker/service/SpendingAlertService.java:144-153 | a missing id fails, another user's alert is FORBIDDEN, otherwise the row is dismissed and nothing else changes |
| SpendingAlerts.AlertStore.BulkAcknowledge | backend/src/main/java/com/expensetracker/service/SpendingAlertService.java:162-170 | the user's named, unacknowledged rows are acknowledged at one time; the named rows are returned |
| SpendingAlerts.AlertStore.BulkDismiss | backend/src/main/java/com/expensetracker/service/SpendingAlertService.java:172-179 | the user's named, undismissed rows are dismissed at one time |
| Tax.MapUsage | backend/src/main/java/com/expensetracker/service/TaxService.java:195-202 | code, description, limit and used are passed through; no limit leaves 0 remaining, otherwise remaining = limit - max(used, 0); percent is 0 without a non-zero limit and otherwise used*100/limit rounded HALF_UP at the scale of used; over exactly when used > limit; near only when not over, with a limit and percent >= 80; never both |
| Tax.PercentUsedClose | backend/src/main/java/com/expensetracker/service/TaxService.java:198 | with a non-zero limit the percentage is within half a last-place unit of used*100/limit |
| Tax.NearLimitMeaning | backend/src/main/java/com/expensetracker/service/TaxService.java:198-200 | within the limit, an exact ratio of at least 80% is near; near means the HALF_UP-rounded percentage reached 80 |
| Tax.NearIsRounded | backend/src/main/java/com/expensetracker/service/TaxService.java:198-200 | within a positive limit the near flag is set exactly when the HALF_UP-rounded percentage is at least 80 |
| Tax.CategoryUsage | backend/src/main/java/com/expensetracker/service/TaxService.java:188-193 | one usage per category in order, with the category's total or 0 when it has none |
| Tax.Summarize | backend/src/main/java/com/expensetracker/service/TaxService.java:159-167 | estimated savings are 30% of the total; the categories carry their usage |
| Tax.CategoryInsightsSpec | backend/src/main/java/com/expensetracker/service/TaxService.java:172-181 | one insight per category that is over, near or has a limit, each derived from such a category and naming it |
| Tax.MissingReceiptsLast | backend/src/main/java/com/expensetracker/service/TaxService.java:182-184 | the insights end with MISSING-RECEIPTS exactly when receipts are missing |
| Tax.CategoryIdsNotMissing | backend/src/main/java/com/expensetracker/service/TaxService.java:172-181 | no category insight is the missing-receipts one |
| Tax.BuildInsights | backend/src/main/java/com/expensetracker/service/TaxService.java:169-186 | the loop returns exactly the insights of the summary, in category order |
| Tax.ToggleTwice | backend/src/main/java/com/expensetracker/service/TaxService.java:86 | a toggle always changes the effective flag (null counts as false); toggling twice restores it |
| Tax.TaxEntry.constructor | backend/src/main/java/com/expensetracker/service/TaxService.java:36-48 | the entry takes the DTO's fields, deductible defaulting to TRUE and hasReceipt to FALSE |
| Tax.TaxEntry.Update | backend/src/main/java/com/expensetracker/service/TaxService.java:50-61 | another user's entry is not found and unchanged; otherwise the fields are overwritten and deductible/hasReceipt kept when the DTO gives null |
| Tax.TaxEntry.ToggleDeductible | backend/src/main/java/com/expensetracker/service/TaxService.java:83-88 | the owner's entry gets the toggled flag and nothing else changes; another user's entry is unchanged |
| TaxRules.MatchTypeNames | backend/src/main/java/com/expensetracker/service/TaxRuleService.java:92 | `valueOf` accepts exactly the four enum names |
| TaxRules.Pieces | backend/src/main/java/com/expensetracker/service/TaxRuleService.java:106 | `split` gives at least one piece, and one exactly when the separator is absent; the pieces joined with the separator give the text back and none contains the separator |
| TaxRules.DropTrailingEmpty | backend/src/main/java/com/expensetracker/service/TaxRuleService.java:106 | Java's split drops trailing empty pieces and nothing else: the result is a prefix, every dropped piece is empty and the last kept piece is not |
| TaxRules.SplitTwo | backend/src/main/java/com/expensetracker/service/TaxRuleService.java:106 | "a:b" splits into its two bounds |
| TaxRules.SplitOne | backend/src/main/java/com/expensetracker/service/TaxRuleService.java:106 | "a" and "a:" split into the one bound |
| TaxRules.AmountRangeClosed | backend/src/main/java/com/expensetracker/service/TaxRuleService.java:105-111 | "lo:hi" matches exactly the amounts whose absolute value is within [lo, hi], both ends inclusive |
| TaxRules.EvaluateRange | backend/src/main/java/com/expensetracker/service/TaxRuleService.java:105-110 | a range whose two bounds parse matches exactly the amounts whose magnitude lies within both bounds |
| TaxRules.AmountRangeUpperOnly | backend/src/main/java/com/expensetracker/service/TaxRuleService.java:107-110 | a blank lower bound is unbounded |
| TaxRules.AmountRangeLowerOnly | backend/src/main/java/com/expensetracker/service/TaxRuleService.java:107-110 | a missing or blank upper bound is unbounded |
| TaxRules.AmountRangeNeedsAmount | backend/src/main/java/com/expensetracker/service/TaxRuleService.java:106 | a null amount never matches a range |
| TaxRules.FirstMatch | backend/src/main/java/com/expensetracker/service/TaxRuleService.java:127-129 | the index of the matching rule is in range |
| TaxRules.FirstMatchSpec | backend/src/main/java/com/expensetracker/service/TaxRuleService.java:127-129 | the first rule in list order that matches wins, no earlier rule matches; an evaluation error comes from the first rule that raises |
| TaxRules.FindRule | backend/src/main/java/com/expensetracker/service/TaxRuleService.java:126-129 | the loop finds that first matching rule |
| TaxRules.ClassifiedSpec | backend/src/main/java/com/expensetracker/service/TaxRuleService.java:121-147 | every created item is the record TaxRuleService builds from a negative, not-yet-taxed, not-ignored transaction and its first matching rule: absolute amount, the rule's category code, deductible exactly when the rule auto-marks and CONFIRMED exactly then; no source is classified twice or again; when no rule evaluation fails, every negative, untaxed, non-ignored transaction of the range with a matching rule has its item |
| TaxRules.ClassifiedComplete | backend/src/main/java/com/expensetracker/service/TaxRuleService.java:121-147 | when no rule evaluation fails, every negative, untaxed, non-ignored transaction with a first matching rule has an item with its id |
| TaxRules.ClassifyAgainCreatesNothing | backend/src/main/java/com/expensetracker/service/TaxRuleService.java:123-124 | classifying the same range again creates nothing |
| TaxRules.ErrPersists | backend/src/main/java/com/expensetracker/service/TaxRuleService.java:121-147 | an exception in the loop ends the whole call |
| TaxRules.Reviewed | backend/src/main/java/com/expensetracker/service/TaxRuleService.java:155-166 | one row per row, each reviewed by the approve/reject rule |
| TaxRules.CountReviewable | backend/src/main/java/com/expensetracker/service/TaxRuleService.java:158-164 | the count is at most the rows |
| TaxRules.ReviewedSpec | backend/src/main/java/com/expensetracker/service/TaxRuleService.java:155-166 | the user's named SUGGESTED items take the new status, all others are unchanged, only the status changes, and none remain reviewable |
| TaxRules.ReviewedLeavesNone | backend/src/main/java/com/expensetracker/service/TaxRuleService.java:155-166 | a second approve or reject of the same ids changes nothing |
| TaxRules.TaxLedger.constructor | backend/src/main/java/com/expensetracker/service/TaxRuleService.java:116-148 | an empty ledger |
| TaxRules.TaxLedger.ClassifyRange | backend/src/main/java/com/expensetracker/service/TaxRuleService.java:116-148 | the created items are appended with new ids and counted; an evaluation error changes nothing |
| TaxRules.TaxLedger.Review | backend/src/main/java/com/expensetracker/service/TaxRuleService.java:155-166 | the rows become the reviewed rows and the count is the number of reviewable items |
| TaxRules.Rows | backend/src/main/java/com/expensetracker/service/TaxRuleService.java:131-143 | saved items get consecutive ids and the user, in order |
| TaxRules.Test | backend/src/main/java/com/expensetracker/service/TaxRuleService.java:83-98 | the result echoes the category code and autoMark (default TRUE); an unknown match type or malformed range gives no match and the error text |
| TaxRules.TestPredictsMatch | backend/src/main/java/com/expensetracker/service/TaxRuleService.java:91-129 | testing a rule on a transaction's fields matches exactly when classification would match it |
| Decimal.ParsedChars | backend/src/main/java/com/expensetracker/service/TaxRuleService.java:107-108 | `new BigDecimal(text)` accepts only digits, signs, a point and an exponent marker |
| Decimal.ParseIntText | backend/src/main/java/com/expensetracker/service/TaxRuleService.java:107-108 | the decimal text of an integer parses back to that integer |
| Decimal.RoundWithinHalfUnit | backend/src/main/java/com/expensetracker/service/TaxService.java:198-198 | HALF_UP rounding to a scale moves a value by at most half a unit in the last place, in either direction |
| Decimal.RoundKeepsWholeBound | backend/src/main/java/com/expensetracker/service/TaxService.java:198 | HALF_UP rounding never takes a value below a whole bound it reached |
| Decimal.RoundReachesWholeBound | backend/src/main/java/com/expensetracker/service/TaxService.java:198 | a rounded value reaches a whole bound only when the exact value is within half a unit of it |
| Decimal.RoundKeepsWholeUpper | backend/src/main/java/com/expensetracker/service/TaxService.java:198 | HALF_UP rounding keeps a value within [0, k] there |
| Budgets.LineOf | backend/src/main/java/com/expensetracker/service/BudgetService.java:88-104 | the line carries the budget (null as 0) and the breakdown's spent (0 when absent); progress is at most 100, remaining is never negative, never both over and near |
| Budgets.LineMeaning | backend/src/main/java/com/expensetracker/service/BudgetService.java:93-103 | with a positive budget: over exactly when spent > budget, near exactly when spent is within [80%, 100%] of it, remaining = max(budget - spent, 0), progress = min(100*spent/budget, 100) |
| Budgets.Lines | backend/src/main/java/com/expensetracker/service/BudgetService.java:87-105 | one line per budget, in order |
| Budgets.OverCount | backend/src/main/java/com/expensetracker/service/BudgetService.java:96 | the over count is at most the number of budgets |
| Budgets.OverCountIsOverLines | backend/src/main/java/com/expensetracker/service/BudgetService.java:94-96 | overBudgetCount equals the number of budget lines flagged over, counted in order |
| Budgets.TallyOfSpec | backend/src/main/java/com/expensetracker/service/BudgetService.java:84-105 | the loop's accumulation gives the lines, the total budget, the total spent and the over count |
| Budgets.UserBudgets | backend/src/main/java/com/expensetracker/service/BudgetService.java:77 | only the user's budgets, from the repository |
| Budgets.UserBudgetsComplete | backend/src/main/java/com/expensetracker/service/BudgetService.java:77 | every budget the user owns in the repository is selected |
| Budgets.UserBudgetsAppend | backend/src/main/java/com/expensetracker/service/BudgetService.java:77 | the selection keeps repository order: over two runs of rows it is the first run's selection followed by the second's |
| Budgets.NumerWithinDenom | backend/src/main/java/com/expensetracker/service/BudgetService.java:129-136 | the sum of min(spent, budget) lies within [0, sum of budgets] over positive budgets |
| Budgets.AdherenceBounds | backend/src/main/java/com/expensetracker/service/BudgetService.java:121-139 | adherence lies in [0, 100] |
| Budgets.AdherenceFull | backend/src/main/java/com/expensetracker/service/BudgetService.java:129-138 | when every positive budget is fully spent, adherence is 100 |
| Budgets.AdherenceSumBounds | backend/src/main/java/com/expensetracker/service/BudgetService.java:143-148 | the sum over n months lies in [0, 100n] |
| Budgets.AverageAdherenceBounds | backend/src/main/java/com/expensetracker/service/BudgetService.java:141-150 | the average adherence lies in [0, 100], 0 for months <= 0 |
| Budgets.AdherenceForMonth | backend/src/main/java/com/expensetracker/service/BudgetService.java:121-139 | the loop computes the adherence: 0 without budgets or a positive denominator, else 100*numer/denom |
| Budgets.AverageOverMonths | backend/src/main/java/com/expensetracker/service/BudgetService.java:141-150 | the loop computes the mean of the monthly adherences of the last `months` months |
| Budgets.WithSpent | backend/src/main/java/com/expensetracker/service/BudgetService.java:88-90 | each of the user's budgets caches its month's spent; other rows are untouched |
| Budgets.FindBudget | backend/src/main/java/com/expensetracker/service/BudgetService.java:64 | a found budget has the id and the user; none means no such budget |
| Budgets.BudgetBook.constructor | backend/src/main/java/com/expensetracker/service/BudgetService.java:26 | an empty budget repository |
| Budgets.BudgetBook.Summarize | backend/src/main/java/com/expensetracker/service/BudgetService.java:70-119 | the summary of the user's budgets for the month, with each of them caching its spent |
| Budgets.BudgetBook.CacheSpent | backend/src/main/java/com/expensetracker/service/BudgetService.java:87-105 | the user's budgets and their tally, with spent cached |
| Budgets.BudgetBook.UpdateLimit | backend/src/main/java/com/expensetracker/service/BudgetService.java:62-67 | an unknown id or another user's budget fails with nothing changed; otherwise only monthlyBudget changes |
| Budgets.NumerEqualsDenom | backend/src/main/java/com/expensetracker/service/BudgetService.java:121-139 | when every counted category spends at least its budget, the capped spending equals the total budget |
| Goals.UpdateEntity | backend/src/main/java/com/expensetracker/service/GoalService.java:26-28 | editing a goal never changes its id, owner or timestamps |
| Goals.EditThenView | backend/src/main/java/com/expensetracker/service/GoalService.java:22-28 | viewing an edited goal shows the DTO, with the old current amount when the DTO gives none |
| Goals.EditIdempotent | backend/src/main/java/com/expensetracker/service/GoalService.java:26-28 | applying the same edit twice is applying it once |
| Goals.Capped | backend/src/main/java/com/expensetracker/service/GoalService.java:43-47 | the new amount never exceeds a set target; below it, or with no target, it is the plain sum |
| Goals.ContributionCompletes | backend/src/main/java/com/expensetracker/service/GoalService.java:42-48 | a contribution that reaches the target leaves the goal completed, exactly at its target |
| Goals.ContributionBelowTarget | backend/src/main/java/com/expensetracker/service/GoalService.java:42-48 | a contribution below the target adds the amount, and the goal stays active |
| Goals.ContributionAtTargetStays | backend/src/main/java/com/expensetracker/service/GoalService.java:42-50 | contributing to a goal already at its target changes nothing |
| Goals.CompletedCount | backend/src/main/java/com/expensetracker/service/GoalService.java:57 | at most one completed goal per goal |
| Goals.StatsOf | backend/src/main/java/com/expensetracker/service/GoalService.java:55-71 | total is the number of goals and active + completed = total |
| Goals.CompletedCountSpec | backend/src/main/java/com/expensetracker/service/GoalService.java:57 | completed counts exactly the goals with current >= target |
| Goals.ProgressSumBounds | backend/src/main/java/com/expensetracker/service/GoalService.java:63-66 | the summed percentages of goals within their target lie in [0, 100 per goal] |
| Goals.AverageProgressBounds | backend/src/main/java/com/expensetracker/service/GoalService.java:61-68 | with every goal within its target, the average progress lies in [0, 100] |
| Goals.ProgressSumFull | backend/src/main/java/com/expensetracker/service/GoalService.java:63-66 | goals all at their target sum to 100 per goal |
| Goals.AverageProgressFull | backend/src/main/java/com/expensetracker/service/GoalService.java:55-71 | goals all at their target average 100% and are all completed |
| Goals.CompletedAll | backend/src/main/java/com/expensetracker/service/GoalService.java:57 | when every goal is completed, completed is the total |
| Goals.FindGoal | backend/src/main/java/com/expensetracker/service/GoalService.java:36 | a found goal has the id and the user; none means there is no such goal |
| Goals.UserGoals | backend/src/main/java/com/expensetracker/service/GoalService.java:34-56 | exactly the user's goals |
| Goals.GoalBook.constructor | backend/src/main/java/com/expensetracker/service/GoalService.java:20 | an empty goal repository |
| Goals.GoalBook.Create | backend/src/main/java/com/expensetracker/service/GoalService.java:35 | a new goal with a fresh id, the user, the DTO's fields and current 0 when absent is appended and returned |
| Goals.GoalBook.Update | backend/src/main/java/com/expensetracker/service/GoalService.java:36 | an unknown goal fails with nothing changed; otherwise only that goal is edited |
| Goals.GoalBook.Delete | backend/src/main/java/com/expensetracker/service/GoalService.java:37 | an unknown goal fails with nothing changed; otherwise exactly that goal is removed |
| Goals.GoalBook.Contribute | backend/src/main/java/com/expensetracker/service/GoalService.java:40-53 | an unknown goal fails with nothing changed; otherwise only that goal takes the capped contribution and the new monthly amount when given |
| Goals.GoalBook.StatsFor | backend/src/main/java/com/expensetracker/service/GoalService.java:55-71 | the statistics of the user's goals |
| GoalNotifications.Bucket | backend/src/main/java/com/expensetracker/service/GoalNotificationService.java:51-57 | percentages 25-29, 50-54 and 75-79 fall in buckets 25, 50 and 75, exactly 100 in 100, and nothing else in any bucket |
| GoalNotifications.Milestone | backend/src/main/java/com/expensetracker/service/GoalNotificationService.java:46-67 | a milestone mail needs a positive target and a bucket, names the goal and the bucket, and is sent exactly when fewer than the daily limit went out in the last 24 hours and none about this title in 30 days |
| GoalNotifications.Nudge | backend/src/main/java/com/expensetracker/service/GoalNotificationService.java:69-79 | a nudge is sent exactly when the last activity (updatedAt, else createdAt) is at least inactivityDays old and no nudge about this title went out in that window |
| GoalNotifications.AuditsOf | backend/src/main/java/com/expensetracker/service/GoalNotificationService.java:66-78 | one audit entry per mail sent |
| GoalNotifications.NoTargetNoMilestone | backend/src/main/java/com/expensetracker/service/GoalNotificationService.java:48 | a goal without a positive target gets no milestone mail |
| GoalNotifications.AtTargetIsHundred | backend/src/main/java/com/expensetracker/service/GoalNotificationService.java:50-55 | a goal exactly at its target is in bucket 100 |
| GoalNotifications.SubjectNamesTitle | backend/src/main/java/com/expensetracker/service/GoalNotificationService.java:63-66 | the milestone subject contains the goal's title |
| GoalNotifications.RunRespectsDailyLimit | backend/src/main/java/com/expensetracker/service/GoalNotificationService.java:59-61 | one run sends no more milestone mails than the day's remaining allowance |
| GoalNotifications.SentSuppresses | backend/src/main/java/com/expensetracker/service/GoalNotificationService.java:62-64 | once a milestone mail went out, no milestone mail about that title is sent for 30 days |
| GoalNotifications.NoTitleTwiceInRun | backend/src/main/java/com/expensetracker/service/GoalNotificationService.java:42-63 | two goals with one title never both get a milestone mail in a run |
| GoalNotifications.RunAtMostGoals | backend/src/main/java/com/expensetracker/service/GoalNotificationService.java:42 | at most one milestone mail per goal |
| GoalNotifications.SkipsGoal | backend/src/main/java/com/expensetracker/service/GoalNotificationService.java:63-64 | a goal whose title was mailed in the last 30 days is skipped |
| GoalNotifications.BothDisabledSendsNothing | backend/src/main/java/com/expensetracker/service/GoalNotificationService.java:40 | a user who disabled both kinds gets nothing |
| GoalNotifications.RecentGoalNotNudged | backend/src/main/java/com/expensetracker/service/GoalNotificationService.java:74 | a goal active within inactivityDays is not nudged |
| GoalNotifications.ProcessUser | backend/src/main/java/com/expensetracker/service/GoalNotificationService.java:39-44 | the loops send exactly the milestone mails and then the nudges, logging each |
| GoalNotifications.MilestonePass | backend/src/main/java/com/expensetracker/service/GoalNotificationService.java:42 | the milestone loop sends what the run gives, each send visible to the next goal |
| GoalNotifications.NudgePass | backend/src/main/java/com/expensetracker/service/GoalNotificationService.java:43 | the nudge loop sends what the run gives, each send visible to the next goal |
| GoalNotifications.RunSkipsSecond | backend/src/main/java/com/expensetracker/service/GoalNotificationService.java:62-64 | two goals with the same title never both get a milestone in one run |
| GoalNotifications.FirstRepeated | backend/src/main/java/com/expensetracker/service/GoalNotificationService.java:62-66 | a later goal with the first goal's title gets no milestone mail in the same run |
| Forecasts.FutureMonths | backend/src/main/java/com/expensetracker/service/ForecastService.java:30 | a non-positive horizon becomes 3; a positive one is kept |
| Forecasts.HistoryMonths | backend/src/main/java/com/expensetracker/service/ForecastService.java:31 | the history is max(2*future, 6) months |
| Forecasts.Nets | backend/src/main/java/com/expensetracker/service/ForecastService.java:44-48 | one net per row, null as 0 |
| Forecasts.Actuals | backend/src/main/java/com/expensetracker/service/ForecastService.java:44-48 | one actual per row with its month and net |
| Forecasts.SumConstant | backend/src/main/java/com/expensetracker/service/ForecastService.java:49 | n equal nets sum to n times the net |
| Forecasts.AverageOfConstant | backend/src/main/java/com/expensetracker/service/ForecastService.java:49-50 | the average of equal nets is that net, rounded |
| Forecasts.Merge | backend/src/main/java/com/expensetracker/service/ForecastService.java:65-69 | merging adds the amount to its month only |
| Forecasts.OneOffOnlyOwnMonth | backend/src/main/java/com/expensetracker/service/ForecastService.java:68-70 | a non-recurring item adds its amount (null as 0) to its due month only |
| Forecasts.RecurringEveryMonth | backend/src/main/java/com/expensetracker/service/ForecastService.java:60-67 | a recurring item adds its amount to every month from its due month to the end of the window |
| Forecasts.Projections | backend/src/main/java/com/expensetracker/service/ForecastService.java:72-77 | exactly `future` projections |
| Forecasts.NetTotalFlat | backend/src/main/java/com/expensetracker/service/ForecastService.java:79 | equal projections total n times the value |
| Forecasts.NoUpcomingIsFlat | backend/src/main/java/com/expensetracker/service/ForecastService.java:49-81 | with no upcoming items every projection, month now+i+1, is the average; the period total is future times it and the next month is the average |
| Forecasts.FlatProjections | backend/src/main/java/com/expensetracker/service/ForecastService.java:73-81 | without upcoming items each of the f projections is the average and they total f times it |
| Forecasts.ProjectionMonths | backend/src/main/java/com/expensetracker/service/ForecastService.java:72-77 | projection i is for month now+i+1 and exceeds the average by exactly that month's upcoming total |
| Forecasts.ActualsInOrder | backend/src/main/java/com/expensetracker/service/ForecastService.java:41-48 | the actuals are the history rows sorted by month, and historyMonths counts them |
| Forecasts.FromSorted | backend/src/main/java/com/expensetracker/service/ForecastService.java:41 | already sorted history is used as given |
| Forecasts.SimpleAverageExample | backend/src/test/java/com/expensetracker/service/ForecastServiceTest.java:41-59 | nets 10..60 give 6 actuals, average 35 and three projections of 35 |
| Forecasts.SixMonthsAverage | backend/src/test/java/com/expensetracker/service/ForecastServiceTest.java:43 | the average of 10, 20, …, 60 is 35 |
| Forecasts.OneOffNextMonth | backend/src/test/java/com/expensetracker/service/ForecastServiceTest.java:61-76 | a one-off +50 next month on a flat 100 history gives 150 then 100 |
| Forecasts.OneOffOnAverage | backend/src/main/java/com/expensetracker/service/ForecastService.java:56-81 | any month-ordered history averaging 100 with a one-off +50 due next month projects 150 then 100 |
| Forecasts.OneOffAdjustments | backend/src/test/java/com/expensetracker/service/ForecastServiceTest.java:69-75 | that item adjusts next month by 50 and the month after by nothing |
| Forecasts.WithoutUser | backend/src/main/java/com/expensetracker/service/ForecastCache.java:25 | exactly the keys not prefixed "userId:" remain, with their entries |
| Forecasts.KeyPrefix | backend/src/main/java/com/expensetracker/service/ForecastCache.java:16-25 | a key "other:months" starts with "user:" exactly when other = user |
| Forecasts.KeysDistinct | backend/src/main/java/com/expensetracker/service/ForecastCache.java:16 | different horizons of one user get different keys |
| Forecasts.GetAfterPut | backend/src/main/java/com/expensetracker/service/ForecastCache.java:18-24 | a get right after a put of the same user and horizon returns that forecast |
| Forecasts.PutOtherHorizon | backend/src/main/java/com/expensetracker/service/ForecastCache.java:16-24 | a put for one horizon does not affect another |
| Forecasts.StaleMisses | backend/src/main/java/com/expensetracker/service/ForecastCache.java:21 | an entry older than the TTL is a miss |
| Forecasts.InvalidateUserSpec | backend/src/main/java/com/expensetracker/service/ForecastCache.java:25 | after invalidating a user, each of their horizons misses and other users' entries are unaffected |
| Forecasts.ForecastCache.constructor | backend/src/main/java/com/expensetracker/service/ForecastCache.java:13 | an empty cache |
| Forecasts.ForecastCache.Get | backend/src/main/java/com/expensetracker/service/ForecastCache.java:18-23 | returns the fresh entry or nothing; a stale entry is removed, nothing else changes |
| Forecasts.ForecastCache.Put | backend/src/main/java/com/expensetracker/service/ForecastCache.java:24 | stores the forecast stamped now under the user's key |
| Forecasts.ForecastCache.InvalidateUser | backend/src/main/java/com/expensetracker/service/ForecastCache.java:25 | removes exactly the user's keys |
| Forecasts.CollectActuals | backend/src/main/java/com/expensetracker/service/ForecastService.java:42-48 | the loop collects the actuals and the nets |
| Forecasts.UpcomingTotals | backend/src/main/java/com/expensetracker/service/ForecastService.java:56-71 | the loop's map gives every month the upcoming adjustment |
| Forecasts.AdjustmentStep | backend/src/main/java/com/expensetracker/service/ForecastService.java:56-71 | handling one more upcoming item adds exactly its contribution to every month |
| Forecasts.Project | backend/src/main/java/com/expensetracker/service/ForecastService.java:72-77 | the loop builds the projections |
| Forecasts.Total | backend/src/main/java/com/expensetracker/service/ForecastService.java:79 | the loop sums the projected nets |
| Forecasts.Compute | backend/src/main/java/com/expensetracker/service/ForecastService.java:35-81 | the computation gives the forecast of the history and upcoming items |
| Forecasts.Forecast | backend/src/main/java/com/expensetracker/service/ForecastService.java:29-91 | a cache hit is returned unchanged; a miss computes the forecast over max(2f, 6) months of history and the upcoming items to now+f, and caches it |
| CashFlow.Inflows | backend/src/main/java/com/expensetracker/service/CashFlowForecastService.java:32 | the inflow column |
| CashFlow.Outflows | backend/src/main/java/com/expensetracker/service/CashFlowForecastService.java:32 | the outflow column |
| CashFlow.MonthsAreAverages | backend/src/main/java/com/expensetracker/service/CashFlowForecastService.java:31-38 | exactly `future` months, month i being now+i+1, each with the average inflow and outflow, net = inflow - outflow |
| CashFlow.NoHistoryIsZero | backend/src/main/java/com/expensetracker/service/CashFlowForecastService.java:31-33 | with no flows every month is zero |
| CashFlow.SteadyHistory | backend/src/main/java/com/expensetracker/service/CashFlowForecastService.java:31-33 | constant flows forecast those constants (rounded) |
| CashFlow.AssumptionNamesCount | backend/src/main/java/com/expensetracker/service/CashFlowForecastService.java:39 | the assumption text determines the month count |
| CashFlow.SumColumn | backend/src/main/java/com/expensetracker/service/CashFlowForecastService.java:32 | the loop sums a column |
| CashFlow.Forecast | backend/src/main/java/com/expensetracker/service/CashFlowForecastService.java:22-40 | the forecast of the flows over max(2f, 6) months of history, with f defaulting to 3 |
| Trends.MonthsOrDefault | backend/src/main/java/com/expensetracker/service/TrendService.java:26 | a non-positive count of months becomes six; a positive one is kept |
| Trends.NetIndexSpec | backend/src/main/java/com/expensetracker/service/TrendService.java:33 | the month-to-net map exists exactly when no net is null and no month repeats, and then maps every row's month to its net and holds no other month |
| Trends.MonthlyNetShape | backend/src/main/java/com/expensetracker/service/TrendService.java:25-41 | one point per month in order, the last being the current month; a month with a row carries its net, any other month zero |
| Trends.MonthlyNetThrows | backend/src/main/java/com/expensetracker/service/TrendService.java:33 | a null net or a repeated month makes monthlyNet throw |
| Trends.MonthlyNet | backend/src/main/java/com/expensetracker/service/TrendService.java:25-41 | monthlyNet queries exactly the window from the first day of the earliest month to the last day of the current month and returns the series for its rows |
| Trends.NormalizeFilter | backend/src/main/java/com/expensetracker/service/TrendService.java:50 | an empty bank filter becomes no filter; a non-empty one is kept |
| Trends.FlowIndexSpec | backend/src/main/java/com/expensetracker/service/TrendService.java:56 | the flow index exists exactly when no month repeats, and then holds every row under its month |
| Trends.FlowIndexMonths | backend/src/main/java/com/expensetracker/service/TrendService.java:56 | every month in the flow index comes from some row |
| Trends.CatsFor | backend/src/main/java/com/expensetracker/service/TrendService.java:57 | a month's category rows all belong to that month and come from the query |
| Trends.BanksFor | backend/src/main/java/com/expensetracker/service/TrendService.java:60-62 | a month's bank rows all belong to that month and come from the query |
| Trends.BankIndexSpec | backend/src/main/java/com/expensetracker/service/TrendService.java:58-63 | grouping the bank rows one at a time gives, for every month, exactly that month's rows in query order |
| Trends.GroupBanks | backend/src/main/java/com/expensetracker/service/TrendService.java:58-63 | the grouping loop builds exactly the grouped index |
| Trends.PrevIndex | backend/src/main/java/com/expensetracker/service/TrendService.java:66-71 | every previous-year row's month is in the baseline map |
| Trends.PrevIndexLast | backend/src/main/java/com/expensetracker/service/TrendService.java:70 | when several rows share a month the last one's outflow wins |
| Trends.InsertDescPerm | backend/src/main/java/com/expensetracker/service/TrendService.java:85 | inserting a row adds exactly that row, in front of the old first row or behind it |
| Trends.InsertDescSorted | backend/src/main/java/com/expensetracker/service/TrendService.java:85 | inserting a row into a list descending by outflow keeps it descending |
| Trends.ConsDescending | backend/src/main/java/com/expensetracker/service/TrendService.java:85 | a row no smaller than the head of a descending list may go in front of it |
| Trends.SortDescPerm | backend/src/main/java/com/expensetracker/service/TrendService.java:85 | the category sort is a permutation of the month's rows |
| Trends.SortDescSorted | backend/src/main/java/com/expensetracker/service/TrendService.java:85 | the category sort is descending by outflow |
| Trends.CategoryLimit | backend/src/main/java/com/expensetracker/service/TrendService.java:86 | a positive topCategories is the limit, otherwise five |
| Trends.TopCategoriesAreLargest | backend/src/main/java/com/expensetracker/service/TrendService.java:84-88 | exactly min(limit, rows) categories are kept, in descending order, each spending at least as much as every dropped one |
| Trends.ChangePct | backend/src/main/java/com/expensetracker/service/TrendService.java:95-96 | a percentage change exists exactly when the base is present and non-zero |
| Trends.PointShape | backend/src/main/java/com/expensetracker/service/TrendService.java:78-98 | a month's point has net = inflow - outflow, the month's flows or zeros, at most the category limit, the month's banks only when asked, and a year-over-year change exactly when the baseline is non-zero |
| Trends.FirstMax | backend/src/main/java/com/expensetracker/service/TrendService.java:100 | the highest month is an index of the series |
| Trends.FirstMin | backend/src/main/java/com/expensetracker/service/TrendService.java:101 | the lowest month is an index of the series |
| Trends.HighestIsFirstMax | backend/src/main/java/com/expensetracker/service/TrendService.java:100 | the highest is absent only without months; otherwise it is the first month whose outflow is the maximum |
| Trends.LowestIsFirstMin | backend/src/main/java/com/expensetracker/service/TrendService.java:101 | the lowest is absent only without months; otherwise it is the first month whose outflow is the minimum |
| Trends.SummaryStep | backend/src/main/java/com/expensetracker/service/TrendService.java:100-102 | appending a month updates the highest, the lowest and the sum by that month alone |
| Trends.Points | backend/src/main/java/com/expensetracker/service/TrendService.java:77-104 | one point per month of the window |
| Trends.PointsIndex | backend/src/main/java/com/expensetracker/service/TrendService.java:77-104 | the i-th point is that of the month i months after the start |
| Trends.Walk | backend/src/main/java/com/expensetracker/service/TrendService.java:73-104 | the cursor loop yields one point per month from..to and the highest, lowest and sum of those points |
| Trends.MomDefined | backend/src/main/java/com/expensetracker/service/TrendService.java:106-114 | the month-over-month change exists exactly with two or more months and a non-zero second-to-last outflow, and is then the rounded percentage change |
| Trends.HighestAtLeastLowest | backend/src/main/java/com/expensetracker/service/TrendService.java:115-118 | with at least one month the summary has a highest and a lowest, the highest no smaller |
| Trends.Summarize | backend/src/main/java/com/expensetracker/service/TrendService.java:105-118 | the summary built after the loop is the average, extremes and change of the series |
| Trends.SeriesShape | backend/src/main/java/com/expensetracker/service/TrendService.java:45-120 | from after to throws; otherwise the series fails exactly on a repeated month in the flows and holds one point per month in order |
| Trends.MonthlySpendingSeries | backend/src/main/java/com/expensetracker/service/TrendService.java:45-120 | the method queries the window with the normalized filter, the banks only when asked and the year-earlier window only when asked, and returns the series for those rows |
| MonthlyTrends.Values | backend/src/main/java/com/expensetracker/service/MonthlyTrendService.java:35-44 | one value per emitted month |
| MonthlyTrends.ValuesIndex | backend/src/main/java/com/expensetracker/service/MonthlyTrendService.java:36-41 | the i-th value is for the month i after the start, net = inflow - outflow, with the month's flows or zeros |
| MonthlyTrends.LimitBounds | backend/src/main/java/com/expensetracker/service/MonthlyTrendService.java:27-43 | without a limit one value per month from start to end; a positive limit caps the count and is reached when there are enough months; a limit below one still yields one month |
| MonthlyTrends.TrendThrows | backend/src/main/java/com/expensetracker/service/MonthlyTrendService.java:30 | compute fails exactly when a month repeats in the flows |
| MonthlyTrends.Walk | backend/src/main/java/com/expensetracker/service/MonthlyTrendService.java:35-44 | the month loop yields the values of as many months as the end and the limit allow |
| MonthlyTrends.Compute | backend/src/main/java/com/expensetracker/service/MonthlyTrendService.java:25-46 | compute queries the requested window, defaulting to the last six months, and returns its values |
| Merchants.SkipSpaces | backend/src/main/java/com/expensetracker/util/MerchantNormalizer.java:6-17 | skipping a whitespace run leaves a suffix that does not start with whitespace |
| Merchants.Collapse | backend/src/main/java/com/expensetracker/util/MerchantNormalizer.java:6-17 | collapsing whitespace empties only the empty string, starts with a space exactly when the input starts with whitespace, leaves no whitespace but single spaces and no two spaces together |
| Merchants.TrailingDigits | backend/src/main/java/com/expensetracker/util/MerchantNormalizer.java:7 | the trailing digit run is maximal and all digits |
| Merchants.TrailingSeparators | backend/src/main/java/com/expensetracker/util/MerchantNormalizer.java:7 | the trailing separator run is maximal and all separators |
| Merchants.NumberPrefix | backend/src/main/java/com/expensetracker/util/MerchantNormalizer.java:7-20 | when the trailing-number pattern matches, the captured group is a proper prefix followed by at least two characters, all separators or digits |
| Merchants.FirstWord | backend/src/main/java/com/expensetracker/util/MerchantNormalizer.java:25 | a found marker word starts the text ignoring case; none found means no marker starts it |
| Merchants.MarkerSeparators | backend/src/main/java/com/expensetracker/util/MerchantNormalizer.java:25 | the separator run after a marker is maximal and all of ':', ' ' or '-' |
| Merchants.FirstMarker | backend/src/main/java/com/expensetracker/util/MerchantNormalizer.java:25 | a marker only counts when at least one separator follows it |
| Merchants.DropMarker | backend/src/main/java/com/expensetracker/util/MerchantNormalizer.java:25 | without a leading marker the text is unchanged; with one, the marker and its separators become one leading space and the rest is kept |
| Merchants.DropCardWords | backend/src/main/java/com/expensetracker/util/MerchantNormalizer.java:9-27 | removing card words never lengthens the text |
| Merchants.KeepAllowed | backend/src/main/java/com/expensetracker/util/MerchantNormalizer.java:10-29 | every character outside letters, digits, '&', quote, '+' and space becomes a space and the rest is kept in place |
| Merchants.FirstSuffixWord | backend/src/main/java/com/expensetracker/util/MerchantNormalizer.java:8-32 | a corporate word found at the start is non-empty and fits the text |
| Merchants.DropSuffixWords | backend/src/main/java/com/expensetracker/util/MerchantNormalizer.java:8-32 | removing corporate words never lengthens the text nor brings back a disallowed character |
| Merchants.TitleCaseOf | backend/src/main/java/com/expensetracker/util/MerchantNormalizer.java:42-49 | title-casing keeps the length |
| Merchants.TitleCaseShape | backend/src/main/java/com/expensetracker/util/MerchantNormalizer.java:42-49 | whitespace stays where it was, the first non-blank character of every word is upper-cased and every other one lower-cased |
| Merchants.TitleCase | backend/src/main/java/com/expensetracker/util/MerchantNormalizer.java:42-49 | the character loop with its capitalise flag gives the title-cased text |
| Merchants.Normalize | backend/src/main/java/com/expensetracker/util/MerchantNormalizer.java:12-40 | the chain of replacements gives the normalised name |
| Merchants.SkipSpacesAllowed | backend/src/main/java/com/expensetracker/util/MerchantNormalizer.java:17-30 | dropping spaces keeps a clean text clean |
| Merchants.CollapseAllowed | backend/src/main/java/com/expensetracker/util/MerchantNormalizer.java:30 | collapsing spaces keeps allowed characters only |
| Merchants.SliceClean | backend/src/main/java/com/expensetracker/util/MerchantNormalizer.java:35 | any slice of a clean, single-spaced text is clean and single-spaced |
| Merchants.TrimClean | backend/src/main/java/com/expensetracker/util/MerchantNormalizer.java:34 | trimming a clean, single-spaced text leaves no space at either end |
| Merchants.CleanedIsClean | backend/src/main/java/com/expensetracker/util/MerchantNormalizer.java:29-34 | after the replacements the name holds only allowed characters, single spaces and no space at either end |
| Merchants.CappedIsClean | backend/src/main/java/com/expensetracker/util/MerchantNormalizer.java:35 | cutting at 64 characters and trimming again keeps the name clean and at most 64 long |
| Merchants.TrimStartBlank | backend/src/main/java/com/expensetracker/util/MerchantNormalizer.java:14-36 | a blank text trims to nothing |
| Merchants.TitleCharClean | backend/src/main/java/com/expensetracker/util/MerchantNormalizer.java:45-46 | a title-cased character of a clean name is still allowed, spaces stay spaces, a word start is not lower case and the rest is not upper case |
| Merchants.TitleCaseClean | backend/src/main/java/com/expensetracker/util/MerchantNormalizer.java:38-49 | title-casing a clean non-blank name keeps it clean and non-blank, each word starting upper case and continuing lower case |
| Merchants.NormalizedShape | backend/src/main/java/com/expensetracker/util/MerchantNormalizer.java:12-40 | a normalised name is 1 to 64 characters of letters, digits, '&', quote, '+' and single inner spaces, each word title-cased |
| Merchants.BlankIsNone | backend/src/main/java/com/expensetracker/util/MerchantNormalizer.java:13-15 | a missing or blank description has no merchant name |
| Statements.WithoutCommas | backend/src/main/java/com/expensetracker/service/statement/TransactionParser.java:44 | the comma-stripped text has no comma, is no longer and holds only characters of the input |
| Statements.WithoutCommasAppend | backend/src/main/java/com/expensetracker/service/statement/TransactionParser.java:44 | stripping commas distributes over concatenation |
| Statements.WithoutCommasBlank | backend/src/main/java/com/expensetracker/service/statement/TransactionParser.java:43-44 | stripping commas keeps a blank text blank |
| Statements.BlankUnparsable | backend/src/main/java/com/expensetracker/service/statement/TransactionParser.java:43-44 | the decimal parser rejects every blank text |
| Statements.DropComma | backend/src/main/java/com/expensetracker/service/statement/TransactionParser.java:44 | a comma anywhere is removed |
| Statements.CommasIgnored | backend/src/main/java/com/expensetracker/service/statement/TransactionParser.java:43-44 | a grouping comma never changes the amount read from a string |
| Statements.UnparsableIsZero | backend/src/main/java/com/expensetracker/service/statement/TransactionParser.java:43-46 | text the decimal parser rejects is read as 0 |
| Statements.IntegerTextRead | backend/src/main/java/com/expensetracker/service/statement/TransactionParser.java:37-45 | an integer given as a number or as its decimal text is read as that integer |
| Statements.WithoutCommasPlain | backend/src/main/java/com/expensetracker/service/statement/TransactionParser.java:44 | a text without commas is unchanged |
| Statements.ParseAllShape | backend/src/main/java/com/expensetracker/service/statement/TransactionParser.java:18-35 | parsing succeeds exactly when every element parses, giving one transaction per element in order; otherwise it fails as the first failing element does |
| Statements.ParseAllParsed | backend/src/main/java/com/expensetracker/service/statement/TransactionParser.java:18-35 | a successful parse has one transaction per element, each the one that element parses to, in order |
| Statements.ParseAllFirstErr | backend/src/main/java/com/expensetracker/service/statement/TransactionParser.java:18-35 | a failed parse carries the error of an element all of whose predecessors parse |
| Statements.ItemDefaults | backend/src/main/java/com/expensetracker/service/statement/TransactionParser.java:24-30 | a missing or null category is "Unknown", a missing or null bank name the fallback (else "Unknown"), a missing amount or balance 0, and date and description are the element's |
| Statements.Parse | backend/src/main/java/com/expensetracker/service/statement/TransactionParser.java:18-35 | the loop gives the parse of the whole array |
| Statements.ParseAllErr | backend/src/main/java/com/expensetracker/service/statement/TransactionParser.java:21-22 | a failure in a prefix is the failure of the whole array |
| Statements.KeyOf | backend/src/main/java/com/expensetracker/service/statement/BankCategoryUpserter.java:30-33 | the counting key is never empty |
| Statements.BankKeys | backend/src/main/java/com/expensetracker/service/statement/BankCategoryUpserter.java:30-32 | one bank key per transaction |
| Statements.CategoryKeys | backend/src/main/java/com/expensetracker/service/statement/BankCategoryUpserter.java:31-33 | one category key per transaction |
| Statements.TallySpec | backend/src/main/java/com/expensetracker/service/statement/BankCategoryUpserter.java:34-35 | the counts map holds exactly the keys that occur, each with its number of occurrences |
| Statements.TallySnoc | backend/src/main/java/com/expensetracker/service/statement/BankCategoryUpserter.java:34 | counting one more key adds one to that key only |
| Statements.CountStep | backend/src/main/java/com/expensetracker/service/statement/BankCategoryUpserter.java:29-35 | one loop step adds one to the current transaction's key |
| Statements.CountBoth | backend/src/main/java/com/expensetracker/service/statement/BankCategoryUpserter.java:29-35 | one loop step updates both the bank and the category counts |
| Statements.SumOverUpdate | backend/src/main/java/com/expensetracker/service/statement/BankCategoryUpserter.java:37-60 | changing one listed key's count changes the sum by the difference |
| Statements.SumOverOther | backend/src/main/java/com/expensetracker/service/statement/BankCategoryUpserter.java:37-60 | changing an unlisted key leaves the sum alone |
| Statements.SumOverEmpty | backend/src/main/java/com/expensetracker/service/statement/BankCategoryUpserter.java:37-60 | an empty counts map sums to 0 |
| Statements.SumOverTally | backend/src/main/java/com/expensetracker/service/statement/BankCategoryUpserter.java:27-36 | over an enumeration of the keys the counts add up to the number of transactions |
| Statements.SumOverAppend | backend/src/main/java/com/expensetracker/service/statement/BankCategoryUpserter.java:37-60 | one more key adds its count |
| Statements.FindIgnoreCase | backend/src/main/java/com/expensetracker/service/statement/BankCategoryUpserter.java:38-50 | the lookup finds the first record whose name equals ignoring case, or reports that none does |
| Statements.TotalUpdate | backend/src/main/java/com/expensetracker/service/statement/BankCategoryUpserter.java:45-57 | replacing one record changes the total by the count difference |
| Statements.UpsertedSpec | backend/src/main/java/com/expensetracker/service/statement/BankCategoryUpserter.java:38-47 | an existing record matched ignoring case grows by the count and keeps its name; otherwise a new record with the name and count is appended; the total grows by the count |
| Statements.TotalUpsertedAll | backend/src/main/java/com/expensetracker/service/statement/BankCategoryUpserter.java:37-60 | saving every counted name adds the sum of the counts to the total |
| Statements.UpsertAddsTransactions | backend/src/main/java/com/expensetracker/service/statement/BankCategoryUpserter.java:26-61 | after an import the bank records together count exactly the imported transactions more, and so do the category records |
| Statements.NameStore.Save | backend/src/main/java/com/expensetracker/service/statement/BankCategoryUpserter.java:38-47 | saving a name upserts it into the records |
| Statements.NameKey | backend/src/main/java/com/expensetracker/service/statement/BankCategoryUpserter.java:30-33 | the key is the trimmed name, or "Unknown" for a null or empty one |
| Statements.Count | backend/src/main/java/com/expensetracker/service/statement/BankCategoryUpserter.java:27-36 | the loop builds exactly the bank and category tallies |
| Statements.SaveAll | backend/src/main/java/com/expensetracker/service/statement/BankCategoryUpserter.java:37-48 | the forEach upserts every name in turn with its count |
| Statements.Upsert | backend/src/main/java/com/expensetracker/service/statement/BankCategoryUpserter.java:26-61 | upsert leaves each store as the upsert of its tally in map order |
| Statements.NameStore.constructor | backend/src/main/java/com/expensetracker/service/statement/BankCategoryUpserter.java:21-24 | the store holds the given records |
| Plans.DefaultFor | backend/src/main/java/com/expensetracker/service/usage/DefaultPolicies.java:10-30 | the default policy is that of the plan key, FREE for any other key; it always has a bank limit and no dates, and only PREMIUM is unlimited |
| Plans.DefaultsGrow | backend/src/main/java/com/expensetracker/service/usage/DefaultPolicies.java:10-12 | a higher plan's defaults allow no fewer pages or banks, and a larger statement quota unless unlimited |
| Plans.PlanKeyRule | backend/src/main/java/com/expensetracker/service/usage/UsagePolicyFactory.java:24-26 | the plan key is FREE, PRO or PREMIUM, and a paid key only for an active subscription with a paid plan type |
| Plans.ForUserLookups | backend/src/main/java/com/expensetracker/service/usage/UsagePolicyFactory.java:22-38 | the policy comes from the plan row for key, currency and period; a yearly period without a row falls back to the monthly row; with no row it is the defaults of the key |
| Plans.FreeUserFallsBack | backend/src/test/java/com/expensetracker/service/usage/UsagePolicyFactoryTest.java:16-25 | a user without an active subscription and without plan rows gets FREE with 3 statements and no dates |
| Plans.ActiveProUsesPlanRow | backend/src/test/java/com/expensetracker/service/usage/UsagePolicyFactoryTest.java:27-54 | an active PRO subscriber in USD without dates gets the monthly PRO row's limits |
| Plans.CombinedBankFallback | backend/src/main/java/com/expensetracker/service/usage/UsagePolicyFactory.java:50 | a plan row without a bank limit takes its plan type's default: 2, 3 or 5; an unknown plan type has none (the call throws) |
| Plans.LockedIff | backend/src/main/java/com/expensetracker/security/PlanAccessAspect.java:36-51 | access is refused exactly when a tier is required and the user's tier is below it, with that tier's message; a refused tier is never FREE |
| Plans.InactiveIsFree | backend/src/main/java/com/expensetracker/security/PlanAccessAspect.java:29-33 | without an active subscription the user is FREE and gets in only where nothing or FREE is required |
| Plans.TierMatchesPlanKey | backend/src/main/java/com/expensetracker/security/PlanAccessAspect.java:29-33 | the tier the aspect computes is the tier of the plan key the usage policy uses |
| Plans.RequiredPrecedence | backend/src/main/java/com/expensetracker/security/PlanAccessAspect.java:36-44 | the method's required plan wins over the class's, which wins over the legacy paid-plan annotation meaning PRO |
| Plans.OrderIndex | mobile/src/components/PlanGate.tsx:8-11 | the position of a plan in FREE, PRO, PREMIUM, -1 exactly for a string outside the list |
| Plans.PlanGate | mobile/src/components/PlanGate.tsx:21-24 | the gate shows its children exactly when the current plan meets the minimum |
| Plans.MeetsIsOrder | mobile/src/components/PlanGate.tsx:9-12 | among the three tiers meets is the order FREE < PRO < PREMIUM |
| Plans.MeetsExtremes | mobile/src/components/PlanGate.tsx:9-12 | every tier meets FREE, PREMIUM meets every tier, and an undefined plan meets nothing |
| Plans.MeetsUnknown | mobile/src/components/PlanGate.tsx:9-12 | an unknown minimum is met by every tier and an unknown current plan meets no tier |
| Plans.GateAgreesWithServer | mobile/src/components/PlanGate.tsx:9-12 | the mobile gate shows the content exactly when the server's plan check lets the user in |
| Subscriptions.ExpireAll | backend/src/main/java/com/expensetracker/services/SubscriptionExpiryJobService.java:23-36 | the job keeps one entry per subscription |
| Subscriptions.SubscriptionStore.constructor | backend/src/main/java/com/expensetracker/services/SubscriptionExpiryJobService.java:23 | the store holds the given subscriptions |
| Subscriptions.SubscriptionStore.ExpireSubscriptions | backend/src/main/java/com/expensetracker/services/SubscriptionExpiryJobService.java:21-37 | the loop leaves every subscription as the job's rule makes it |
| Subscriptions.ExpireAllSpec | backend/src/main/java/com/expensetracker/services/SubscriptionExpiryJobService.java:25-34 | after the job no subscription is due; each due one is FREE, EXPIRED and without dates or payment references; the others are unchanged |
| Subscriptions.ExpireIdempotent | backend/src/main/java/com/expensetracker/services/SubscriptionExpiryJobService.java:21-37 | running the job twice at the same moment is running it once |
| Subscriptions.ExpiredIsFree | backend/src/main/java/com/expensetracker/services/SubscriptionExpiryJobService.java:29-30 | an expired subscription leaves its owner on the FREE plan key and FREE tier |
| Subscriptions.LowerCaseActiveSurvives | backend/src/main/java/com/expensetracker/services/SubscriptionExpiryJobService.java:25 | a lower-case "active" PREMIUM subscription past its end is not expired yet still gives the PREMIUM tier |
| Subscriptions.FindEmail | backend/src/main/java/com/expensetracker/service/NewsletterSubscriptionService.java:18 | the lookup finds the first row whose email matches ignoring case, or reports that none matches |
| Subscriptions.NewsletterStore.constructor | backend/src/main/java/com/expensetracker/service/NewsletterSubscriptionService.java:12-14 | a new store has no rows |
| Subscriptions.NewsletterStore.Subscribe | backend/src/main/java/com/expensetracker/service/NewsletterSubscriptionService.java:17-25 | subscribe updates the rows as the rule says and returns the row now found for the email |
| Subscriptions.NewsletterStore.Unsubscribe | backend/src/main/java/com/expensetracker/service/NewsletterSubscriptionService.java:28-30 | unsubscribe updates the rows as the rule says |
| Subscriptions.ResubscribedSpec | backend/src/main/java/com/expensetracker/service/NewsletterSubscriptionService.java:20-21 | a re-subscribed row is active, keeps its email, and takes a given source or keeps its own |
| Subscriptions.SubscribeFinds | backend/src/main/java/com/expensetracker/service/NewsletterSubscriptionService.java:17-25 | after subscribing the email finds an active row with the right source; a known email adds no row and changes no other, an unknown one appends exactly one new active row |
| Subscriptions.FindEmailPrefix | backend/src/main/java/com/expensetracker/service/NewsletterSubscriptionService.java:18 | the lookup stops at the first matching row |
| Subscriptions.SubscribeIdempotent | backend/src/main/java/com/expensetracker/service/NewsletterSubscriptionService.java:17-25 | subscribing twice with the same email and source is subscribing once |
| Subscriptions.SubscribeKeepsUnique | backend/src/main/java/com/expensetracker/service/NewsletterSubscriptionService.java:18-24 | subscribing never creates a second row for an email differing only in case |
| Subscriptions.UnsubscribeSpec | backend/src/main/java/com/expensetracker/service/NewsletterSubscriptionService.java:28-30 | unsubscribing deactivates only the first matching row; an unknown email changes nothing |
| Subscriptions.ResubscribeReuses | backend/src/main/java/com/expensetracker/service/NewsletterSubscriptionService.java:20-29 | unsubscribing then subscribing again reactivates the same row instead of adding one |
| Logging.AnyMatchSpec | backend/src/main/java/com/expensetracker/config/RequestResponseLoggingAspect.java:244-245 | a key matches the list exactly when it equals one of its keys ignoring case |
| Logging.SensitiveIff | backend/src/main/java/com/expensetracker/config/RequestResponseLoggingAspect.java:242-246 | a key is sensitive exactly when it equals one of the twelve listed keys ignoring case; a null key never is |
| Logging.MaskKeeps | backend/src/main/java/com/expensetracker/config/RequestResponseLoggingAspect.java:248-259 | an email keeps at most its first two characters and the part from the '@'; any other value keeps its first and last two characters, or nothing when four characters or fewer |
| Logging.IndexOfAt | backend/src/main/java/com/expensetracker/config/RequestResponseLoggingAspect.java:251 | the first occurrence is found |
| Logging.EmailMaskStable | backend/src/main/java/com/expensetracker/config/RequestResponseLoggingAspect.java:252-253 | a masked email with a long local part still has its '@' at position 5 and the same ends |
| Logging.MaskIdempotent | backend/src/main/java/com/expensetracker/config/RequestResponseLoggingAspect.java:248-259 | masking a masked value again changes nothing, except an email whose '@' is within the first three characters |
| Logging.EmailMaskGrows | backend/src/main/java/com/expensetracker/config/RequestResponseLoggingAspect.java:255 | masking an email with a short local part again adds stars each time |
| Logging.EmailMaskParts | backend/src/main/java/com/expensetracker/config/RequestResponseLoggingAspect.java:250-255 | an email made of a local part without '@' and a rest starting at '@' keeps the first two characters of the local part and the rest when the local part is longer than two, and only the rest otherwise |
| Logging.MaskJsonKeepsPlain | backend/src/main/java/com/expensetracker/config/RequestResponseLoggingAspect.java:225-240 | a JSON text without a sensitive pair is left as it was |
| Logging.Truncate | backend/src/main/java/com/expensetracker/config/RequestResponseLoggingAspect.java:186-189 | a summary of at most 1000 characters is kept; a longer one becomes its first 1000 characters and "..." |
| Logging.SummarizeKinds | backend/src/main/java/com/expensetracker/config/RequestResponseLoggingAspect.java:143-190 | null stays null, a byte array is summarised by its length, a servlet object by its class name, a collection or array as a capped list, a plain value as its masked JSON of at most 1003 characters |
| Logging.Put | backend/src/main/java/com/expensetracker/config/RequestResponseLoggingAspect.java:167-170 | putting into an insertion-ordered map adds at most one entry |
| Logging.PutKeys | backend/src/main/java/com/expensetracker/config/RequestResponseLoggingAspect.java:169-170 | after a put the key maps to the new value, other keys keep their entries, and a new key is appended at the end |
| Logging.CappedListShape | backend/src/main/java/com/expensetracker/config/RequestResponseLoggingAspect.java:159-180 | a collection's summary holds its first ten elements' summaries in order, and a "...N more" marker exactly when there are more than ten |
| Logging.MoreInjective | backend/src/main/java/com/expensetracker/config/RequestResponseLoggingAspect.java:163 | different remainders give different markers |
| Logging.PutAllLength | backend/src/main/java/com/expensetracker/config/RequestResponseLoggingAspect.java:167-169 | putting n entries gives at most n entries |
| Logging.CappedEntriesLength | backend/src/main/java/com/expensetracker/config/RequestResponseLoggingAspect.java:166-172 | a map's summary has at most eleven entries, and no more than the map when it has at most ten |
| Logging.SummarizeCollection | backend/src/main/java/com/expensetracker/config/RequestResponseLoggingAspect.java:159-165 | the capped loop over a collection gives its capped list |
| Logging.SummarizeMap | backend/src/main/java/com/expensetracker/config/RequestResponseLoggingAspect.java:166-172 | the capped loop over a map gives its capped entries |
| Logging.NamedArgsSpec | backend/src/main/java/com/expensetracker/config/RequestResponseLoggingAspect.java:133-141 | every parameter name is a key; with distinct names each maps to its own argument's summary, null past the end of the arguments |
| Logging.CorrelationId | backend/src/main/java/com/expensetracker/config/RequestResponseLoggingAspect.java:127-131 | the correlation id is the header's value or the generated one |
| Logging.CorrelationReuse | backend/src/main/java/com/expensetracker/config/RequestResponseLoggingAspect.java:127-131 | a present, non-blank header is reused; otherwise a generated id is used |
| EventBus.Without | mobile/src/utils/eventBus.ts:14 | deleting a handler from a set keeps exactly the other handlers |
| EventBus.CallsOf | mobile/src/utils/eventBus.ts:22-24 | one call per handler of the snapshot |
| EventBus.DirectsMembers | mobile/src/utils/eventBus.ts:28 | the handlers left after every once-wrapper removed itself are exactly the plain ones |
| EventBus.WithoutNoDup | mobile/src/utils/eventBus.ts:14 | deleting from a set keeps it a set |
| EventBus.WithoutOnce | mobile/src/utils/eventBus.ts:14 | deleting a handler that occurs once removes exactly that occurrence and keeps the order |
| EventBus.WithoutAbsent | mobile/src/utils/eventBus.ts:14 | deleting an absent handler changes nothing |
| EventBus.Bus.constructor | mobile/src/utils/eventBus.ts:6 | a new bus has no listeners |
| EventBus.Bus.On | mobile/src/utils/eventBus.ts:8-11 | on adds the handler to the event's set, creating it when missing, and touches no other event |
| EventBus.Bus.Off | mobile/src/utils/eventBus.ts:13-16 | off removes the handler from the event's set and drops the event when its set is empty |
| EventBus.Bus.Once | mobile/src/utils/eventBus.ts:27-30 | once appends one fresh wrapper to the event's handlers |
| EventBus.Bus.Emit | mobile/src/utils/eventBus.ts:18-25 | emit calls every handler of the snapshot in order, whether or not earlier ones throw, and afterwards only the once-wrappers are gone |
| EventBus.Bus.Invoke | mobile/src/utils/eventBus.ts:23-28 | calling one handler: a once-wrapper unregisters itself before its target runs, a plain handler stays registered; no other handler or event changes |
| EventBus.EmitStep | mobile/src/utils/eventBus.ts:22-28 | calling one handler removes it only when it is a once-wrapper and leaves the other handlers and events alone |
| EventBus.SnapshotAt | mobile/src/utils/eventBus.ts:22 | walking the snapshot visits each handler once |
| EventBus.CallsPrefix | mobile/src/utils/eventBus.ts:22-24 | the calls so far extend by the current handler's call |
| EventBus.EmitDone | mobile/src/utils/eventBus.ts:18-25 | the listeners at the end of the walk are those emit promises |
| EventBus.OnThenEmitCalls | mobile/src/utils/eventBus.ts:8-25 | a handler registered with on is called, still registered, by the next emit |
| EventBus.OffSpec | mobile/src/utils/eventBus.ts:13-16 | after off the handler is gone and every other handler of the event stays; the event stays only while it has handlers; other events are untouched |
| EventBus.EmitUnheard | mobile/src/utils/eventBus.ts:19-20 | emitting an event nobody listens to calls nothing and changes nothing |
| EventBus.OnceAtMostOnce | mobile/src/utils/eventBus.ts:27-30 | a once-handler is unregistered when called, and after an emit the event holds no once-handler, so a second emit calls only plain ones |
| EventBus.ThrowsDoNotStopOthers | mobile/src/utils/eventBus.ts:23 | whichever handlers throw, every handler is called, in the same order |
| UploadJobs.Filter | frontend/src/utils/jobJobStore.ts:25-39 | filtering never lengthens the list |
| UploadJobs.FilterMembers | frontend/src/utils/jobJobStore.ts:25-39 | the filtered list holds exactly the elements passing the test |
| UploadJobs.StampAll | frontend/src/utils/jobJobStore.ts:26 | stamping keeps one job per job |
| UploadJobs.FindJob | frontend/src/utils/jobJobStore.ts:48 | the lookup finds the first job with the id, or reports that none has it |
| UploadJobs.JobStore.constructor | frontend/src/utils/jobJobStore.ts:13 | the store holds the given slot |
| UploadJobs.JobStore.SaveJobs | frontend/src/utils/jobJobStore.ts:35-44 | the slot holds the jobs that survive pruning |
| UploadJobs.JobStore.UpsertJob | frontend/src/utils/jobJobStore.ts:46-52 | the slot holds the loaded jobs with the job upserted, then pruned |
| UploadJobs.JobStore.RemoveJob | frontend/src/utils/jobJobStore.ts:54-57 | the slot holds the loaded jobs without the id, then pruned |
| UploadJobs.JobStore.ClearCompletedOlderThan | frontend/src/utils/jobJobStore.ts:59-63 | the slot holds the loaded jobs processing or updated since the cutoff, then pruned |
| UploadJobs.JobStore.ClearCompletedJobs | frontend/src/utils/jobJobStore.ts:66-69 | the slot holds the loaded processing jobs, then pruned |
| UploadJobs.PruneSpec | frontend/src/utils/jobJobStore.ts:14-39 | a processing job is never pruned; another survives exactly while updated within the last hour |
| UploadJobs.IdJobsMembers | frontend/src/utils/jobJobStore.ts:25 | the kept entries are exactly the non-null jobs with a job id |
| UploadJobs.LoadMembers | frontend/src/utils/jobJobStore.ts:16-33 | a load gives, for stored entries, exactly the stamped jobs with an id that survive pruning, and nothing for an empty, unparsable or non-array slot; every job loaded has an id and a timestamp |
| UploadJobs.SavedMembers | frontend/src/utils/jobJobStore.ts:35-44 | the saved entries are exactly the jobs that survive pruning |
| UploadJobs.LoadAfterSave | frontend/src/utils/jobJobStore.ts:16-44 | every job loaded after a save was saved, had an id and survived pruning |
| UploadJobs.UpsertSpec | frontend/src/utils/jobJobStore.ts:46-52 | an existing job is replaced in place with the new timestamp and nothing else changes; a new one is put first |
| UploadJobs.UpsertKeepsUnique | frontend/src/utils/jobJobStore.ts:46-52 | upserting keeps job ids unique |
| UploadJobs.UpsertThenLoad | frontend/src/utils/jobJobStore.ts:46-52 | after an upsert a load at the same moment finds the job with that moment's timestamp |
| UploadJobs.RemoveThenLoad | frontend/src/utils/jobJobStore.ts:54-57 | after removing an id no job with it is loaded |
| UploadJobs.RemoveKeepsOthers | frontend/src/utils/jobJobStore.ts:54-57 | removing keeps every other loaded job |
| UploadJobs.ClearOlderThenLoad | frontend/src/utils/jobJobStore.ts:59-63 | after clearing, every job loaded is processing or was updated at or after the cutoff |
| UploadJobs.ClearOlderKeepsProcessing | frontend/src/utils/jobJobStore.ts:59-63 | clearing old jobs keeps every processing job |
| UploadJobs.ClearThenLoad | frontend/src/utils/jobJobStore.ts:66-69 | after clearing completed jobs only processing jobs are loaded |

## Left out

- I/O is not modelled: e-mail sending, server-sent events, S3, SQS, HTTP requests, the log output itself, browser storage errors and `window` checks. Each appears as an input or output value.
- `extract_transactions_from_pdf` is modelled only through the pieces listed above (chunking, header detection, post-processing). Its orchestration is not modelled: opening the PDF, the password error, OCR and choosing the bank name from the first result.
- Language-model calls, OCR and PDF text extraction are inputs. The retry loop takes the sequence of replies as a parameter.
- `logAround` is not modelled: building the request/response metadata, MDC and the response header are logging I/O. `correlationId`, `argsMap` and `summarize` are modelled.
- `entitySummary` uses reflection over entity fields. Its result is an input.
- Jackson serialisation is not modelled. A plain value arrives already cut by the masking pattern into gaps and `"key":"value"` pairs.
- The regular expressions for tax rules (`DESCRIPTION_REGEX`) are a predicate parameter. The merchant normaliser's patterns are written out by hand for ASCII text.
- Case folding and whitespace tests are ASCII only. Java and Python agree on ASCII; Unicode case mapping is not modelled.
- BigDecimal divisions at DECIMAL64 precision and `double` results (budget adherence, goal progress, tax percentages) are exact reals. Rounding that the source performs at a fixed scale is modelled; binary floating-point error is not.
- Integer widths: Java `int` and `long` counters (processed chunks, transaction counts, alert counts) are unbounded. None of them can realistically overflow.
- `intValue()` narrowing in the alert service is modelled only for values that fit.
- Ids assigned by the database are a counter (`nextId`) in the alert store and the goal book. JPA timestamps set by entity hooks are not modelled outside goals; GoalBook.Create, Update and Contribute set `createdAt` and `updatedAt` from their `now` parameter.
- GoalService's invalidation of the forecast cache after a change is not modelled. The cache is modelled on its own.
- `Bank.increment` with a null delta is not modelled, because the upsert only ever passes a count from its map.
- NewsletterSubscription's `subscribedAt` timestamp is not modelled.
- The event bus models no work done by the handlers themselves, beyond whether they throw. In particular, a handler that calls `on` or `off` on the same bus during `emit` is not modelled.
- `monthBreakdown` in TrendService is not modelled. It is a single repository read mapped into a DTO.
- Trends.MonthlyNet and MonthlyTrends.Compute take the current month as a parameter instead of reading the clock.
- The spring `@Cacheable` on `findCached` is not modelled: the cache returns what the query returns.
- A zero-page statement: the splitter returns OK with no chunks and no work items. This model follows the code.
- MonthlyTrends: a limit of zero or below still yields one month, because the counter is checked only after the first month. This model follows the code.
- The StatementJob entity in this copy of the sources has no chunk counters, yet the controller reads and writes them. The model gives the job the counters the controller uses.
- Finish (SpendingAlerts): fills an unset severity with the corrected SuggestSeverity, where a threshold read back from JSON escalates at 1.25 x. The code as written is SuggestSeverityAsWritten; see Findings.
- Generate (SpendingAlerts): finishes alerts with the corrected severity and filters against the retained alerts found by SearchAll, which includes dismissed alerts. The code as written uses Search, which excludes them; see Findings.
- Recompute (SpendingAlerts.AlertStore): reads the month's alerts with SearchAll and generates with the corrected severity, as Generate does. The as-written Search and SuggestSeverityAsWritten are modelled beside it; see Findings.
- GoalNotifications: the run assumes that the audit rows it writes are returned to later goals of the same run by `EmailAuditService.recent(u, ...)`. EmailAuditService is not part of this model. A scheduled run has no authenticated user, so its audit rows carry no user (EmailServiceImpl.java:136-150, SecurityAuthenticationFacade.java:20-27), and whether `recent` sees them is not known from the code. The members that depend on this assumption are listed below.
- RunRespectsDailyLimit (GoalNotifications): counts the run's own milestones against the daily limit, which holds only under the audit-visibility assumption above.
- SentSuppresses (GoalNotifications): the later goal reads a log that holds the earlier audit. Within one run that holds only under the audit-visibility assumption above.
- NoTitleTwiceInRun (GoalNotifications): no title is mailed twice in a run only under the audit-visibility assumption above.
- SkipsGoal (GoalNotifications): keeps a title suppressed by the e-mails sent earlier in the same run, only under the audit-visibility assumption above.
- ProcessUser (GoalNotifications): appends the run's audits to the log the later goals read, under the audit-visibility assumption above.
- MilestonePass (GoalNotifications): appends each milestone audit to the log the later goals read, under the audit-visibility assumption above.
- NudgePass (GoalNotifications): appends each nudge audit to the log the later goals read, under the audit-visibility assumption above.
- RunSkipsSecond (GoalNotifications): the second goal with a title is skipped only under the audit-visibility assumption above.
- FirstRepeated (GoalNotifications): the first repeated title is found only under the audit-visibility assumption above.
- JobStore (UploadJobs): each operation reads one clock value `now` per call. The source calls `Date.now()` separately when reading back and when stamping (jobJobStore.ts lines 23, 38 and 49), so within one call the stamps can differ by a few milliseconds.
- ClearCompletedOlderThan (UploadJobs.JobStore): the default argument of 24 hours is not modelled; the method always takes `hours`.
- MonthlySpendingSeries (Trends): the user's currency, which the response carries, is not modelled.

## Findings

| source | as written | input that shows it | evidently intended | confidence | as-written member | corrected member |
|---|---|---|---|---|---|---|
| infrastructure/terraform/lambdas/splitter/handler.py:42-44 | the splitter seeds the chunk total through the chunk-complete endpoint, which counts the call as a processed chunk (backend/src/main/java/com/expensetracker/controller/InternalJobController.java:30-33) | a statement of 2 chunks: after the seed and the first extractor report, processedChunks = 2 >= totalChunks = 2, so the job is COMPLETED while one chunk is still being extracted | seeding sets the total without counting a chunk, so the job completes on its last chunk | not executed | JobProgress.SeedCountsAsChunk | JobProgress.SeededJobCompletesOnLastChunk |
| backend/src/main/java/com/expensetracker/service/SpendingAlertService.java:380-384 | the 1.25 x threshold escalation only fires when the meta threshold is a BigDecimal, but the meta map is read back from JSON (line 334), where a decimal becomes a Double | a 200.00 spend in a category with baseline 100.00 under the default settings: the threshold is 150.00 and 200.00 > 187.50, yet the severity is moderate | a transaction above 1.25 x its threshold is critical | not executed | SpendingAlerts.ThresholdEscalationExample | SpendingAlerts.SuggestSeverity |
| backend/src/main/java/com/expensetracker/repository/SpendingAlertRepository.java:14 | the search that recompute uses to find retained alerts (SpendingAlertService.java:308-309) excludes dismissed alerts, so a dismissed alert's signature is not retained | dismiss an alert, then recompute the same month: the detector produces the same signature, nothing blocks it, and the alert comes back undismissed | dismissed alerts are retained like acknowledged ones and are not re-created | not executed | SpendingAlerts.DismissedAlertComesBack | SpendingAlerts.DismissedStaysDismissed |
