# FinDocAssistant core, modelled in Dafny

FinDocAssistant reads a photographed financial document (invoice, receipt, bill,
statement, order confirmation) and turns it into form data. A browser-side
orchestrator drives a pipeline of four stages:

1. an **extraction agent** reads the image into named fields;
2. a **validation engine** checks every field;
3. a **scoring agent** gives each field a confidence, with a fallback derived
   from validation when scoring fails;
4. a **formatter** maps six fields onto form fields, lists the fields that need
   review, and decides whether the form is ready to fill.

Around the pipeline sit:
- a logger with a capped in-memory buffer, a persisted error list and a
  classifier that turns raw errors into user-facing messages;
- a document store (history of processed documents, payment status, overdue
  marking, statistics, trimming);
- a serverless scoring endpoint guarded by a daily spending budget;
- three small presentation rules: the progress-step row, the confidence badge and
  the per-field review card.

This project models that core:

| file | module | models |
|---|---|---|
| values.dfy | `Values` | JavaScript values and truthiness, the string primitives (`includes`, `trim`, `replace`) the core relies on, validation and score records |
| orchestrator.js → orchestrator.dfy | `Orchestrator` | `processDocument` as a class over the pipeline state, proved equal to a pure trace function `Run`; field aliasing, fallback scores, the pipeline summary |
| formatService.js → format_service.dfy | `FormatService` | the field map, `formatValue`, `formatForForm` (a loop proved equal to `Format`), `getFormSummary` |
| logger.js → logger.dfy | `Logging` | the `Logger` class (100-entry buffer, 50-entry persisted error list, level filter, clear) and `getUserFriendlyError` |
| storageService.js → storage_service.dfy | `StorageService` | the document store as a class over a sequence of records, with its queries as functions |
| claude-score.js → claude_score.dfy | `ClaudeScore` | the shared daily cost tracker and the request handler, proved equal to a pure `Handle` |
| claudeService.js → claude_service.dfy | `ClaudeService` | cost records, the `{…}` span taken from a reply, the agents' result shapes, score aliasing |
| ProcessingSteps.jsx → processing_steps.dfy | `ProcessingSteps` | default steps, `getStepStatus`, the connector rule |
| ConfidenceBadge.jsx → confidence_badge.dfy | `ConfidenceBadge` | colour and label bands |
| FieldReviewCard.jsx → field_review_card.dfy | `FieldReviewCard` | review/error flags, panel visibility, the edit state machine |

Things outside the core are parameters:
- the two model calls (their reply text and usage, or the error they throw);
- `JSON.parse`;
- the validation engine;
- `parseFloat` and number-to-text conversion;
- date parsing;
- the clock: "now" and the storage service's "today" are whole numbers, and the scoring endpoint's "today" is the UTC date string its tracker stores (`YYYY-MM-DD`);
- the id generator.

Costs and confidences are Dafny `real`s. The core adds them, scales them by
constants, compares them, and divides the stored total cost by the number of
records for the average in the storage statistics, so exact arithmetic matches
its intent.

Behaviour worth noting, as the code has it:
- Only `reference_number` has its white-space runs collapsed. Vendor and customer names are only trimmed (src/services/formatService.js:82-89).
- A fallback score for a field that is valid with a warning has the reasoning "Passed validation with warning: " followed by the warning. It does not equal the warning text; it contains it (src/services/orchestrator.js:174).
- A completed run reports nine progress events, counting the four announcements and the final 'complete' (src/services/orchestrator.js:41-137).
- The table of user-facing errors has thirteen entries, but the classifier can only return eleven of them (`Logging.ClassifierRange`).

## Model

| member | source | states |
|---|---|---|
| Values.Trim | src/services/formatService.js:85 | the result of `trim` is a contiguous slice of the text; only white space lies before and after it, and it neither starts nor ends with white space, so inner white space is kept |
| Values.TrimVisible | src/services/formatService.js:85 | trimming removes only white space: the non-space characters are kept, in order |
| Values.CollapseShape | src/services/formatService.js:89 | after `replace(/\s+/g, ' ')` every white-space character is a blank and no two are adjacent |
| Values.CollapseVisible | src/services/formatService.js:89 | collapsing white space keeps every non-space character, in order |
| Values.CollapseJoinsWords | src/services/formatService.js:89 | on a text with no white space at either end, `replace(/\s+/g, ' ')` gives its words (maximal runs without white space) joined by single blanks |
| Values.WordsOfTrim | src/services/formatService.js:89 | trimming does not change the words of a text |
| Values.CollapseTrimmed | src/services/formatService.js:89 | `trim().replace(/\s+/g, ' ')` equals the words of the text joined by single blanks: each inner white-space run becomes exactly one blank and nothing else changes |
| Values.StripAmountText | src/services/formatService.js:75 | stripping an amount leaves no ',', '$' or white space |
| Values.StripAmountPerCharacter | src/services/formatService.js:75 | `replace(/[,$\s]/g, '')` works character by character: it distributes over concatenation, drops each ',', '$' and white-space character and keeps every other one |
| Orchestrator.MappedFieldsAgree | src/services/orchestrator.js:12-26 | each of the four aliases and its canonical field both hold the canonical value; every other key is kept unchanged; no other key is added |
| Orchestrator.GenerateFallbackScores | src/services/orchestrator.js:167-181 | the loop builds exactly the fallback score map of the validation results |
| Orchestrator.FallbackScoreBands | src/services/orchestrator.js:167-181 | one score per validated field, in [0, 1]: 0.80 when valid with no warning; 0.65 with the warning in the reasoning when valid with a warning; 0.00 with the error in the reasoning when invalid |
| Orchestrator.ProgressSink.constructor | src/services/orchestrator.js:161-165 | a progress callback that has seen no event yet |
| Orchestrator.ProgressSink.Receive | src/services/orchestrator.js:163 | the callback records exactly the event passed, after the earlier ones |
| Orchestrator.ReportProgress | src/services/orchestrator.js:161-165 | with a callback, exactly one `{step, message, state}` event is delivered; without one, nothing happens |
| Orchestrator.PipelineState.constructor | src/services/orchestrator.js:29-38 | the fresh state is processing, with no step, nothing extracted, validated, scored or formatted, no errors and zero cost |
| Orchestrator.PipelineState.PushIssue | src/services/orchestrator.js:104 | appends one error or warning entry and changes nothing else |
| Orchestrator.PipelineState.AddStepCost | src/services/orchestrator.js:72-73 | records a step's cost in the breakdown and adds its total to the running total |
| Orchestrator.PipelineState.FailWith | src/services/orchestrator.js:52-64 | appends the failure entry and marks the state failed |
| Orchestrator.PipelineState.ApplyExtraction | src/services/orchestrator.js:70-73 | stores the mapped fields and charges the extraction cost |
| Orchestrator.PipelineState.ApplyQuality | src/services/orchestrator.js:91-95 | a low extraction quality appends the low-quality warning; otherwise nothing changes |
| Orchestrator.PipelineState.ApplyValidation | src/services/orchestrator.js:100-105 | stores the validation results and appends a warning with the error count when not all fields are valid |
| Orchestrator.PipelineState.ApplyScoring | src/services/orchestrator.js:110-119 | a successful score stores the scores and charges their cost; a failure stores the fallback scores and appends the scoring warning |
| Orchestrator.PipelineState.ApplyFormatting | src/services/orchestrator.js:124-131 | stores the form data and appends a review warning with the count when any field needs review |
| Orchestrator.PipelineState.MarkComplete | src/services/orchestrator.js:135-136 | sets status and current step to complete |
| Orchestrator.RunLaterStages | src/services/orchestrator.js:99-137 | the validate/score/format/complete stages leave the state and deliver the events that the trace function gives |
| Orchestrator.ContinueAfterExtraction | src/services/orchestrator.js:99-158 | from validation on, including a throwing validation engine caught as an 'orchestrator' failure, the state and events match the trace function |
| Orchestrator.ContinuePastGate | src/services/orchestrator.js:91-158 | past the type gate, the low-quality check, the 'extracted' and 'validating' reports and the rest of the run leave the state and deliver the events that the trace function gives |
| Orchestrator.ValidateAndScore | src/services/orchestrator.js:100-121 | records the validation verdict and its summary warning, runs the scoring stage, and reports 'validated', 'scoring' and 'scored' with the snapshots of those two stages |
| Orchestrator.FormatAndComplete | src/services/orchestrator.js:123-137 | formats the recorded data with the recorded scores, marks the run complete, and reports 'formatting', 'formatted' and 'complete' with the matching snapshots |
| Orchestrator.FailGate | src/services/orchestrator.js:77-88 | a rejected document type appends one 'extract' failure naming the detected type, with the classifier's message and title, and reports 'failed' with the failed state |
| Orchestrator.FailExtraction | src/services/orchestrator.js:46-67 | a failed extraction leaves the state and delivers the events that the trace function gives after the opening announcement |
| Orchestrator.ContinueAfterAgent | src/services/orchestrator.js:46-137 | after the extraction agent answers, the failure branch, the type gate and the later stages match the trace function |
| Orchestrator.ProcessDocument | src/services/orchestrator.js:28-159 | a fresh state object whose final record, and the events the sink receives, are exactly those of `Run` |
| Orchestrator.AfterAgentStartsWithExtracting | src/services/orchestrator.js:41-67 | every run that gets past the extraction agent announces 'extracting' first, and a successful extraction leads into exactly that run |
| Orchestrator.RunOpensWithExtracting | src/services/orchestrator.js:41 | every run, failed or not, delivers at least one event and the first is the 'extracting' announcement |
| Orchestrator.PassedRun | src/services/orchestrator.js:70-97 | a document that passes the type gate runs as 'extracting' followed by the rest of the run from the stored mapped fields and the charged extraction cost |
| Orchestrator.ValidatedPastGate | src/services/orchestrator.js:97-107 | when the validation engine returns, the run past the gate reports 'extracted' with the post-quality snapshot, then 'validating', then the later stages |
| Orchestrator.LaterRecord | src/services/orchestrator.js:100-136 | the four later stages leave a complete record with the same extracted data, the given validation, some scores, the given form data, and earlier entries kept with warnings only added |
| Orchestrator.LaterStagesOrder | src/services/orchestrator.js:107-137 | the later stages report 'validated', 'scoring', 'scored', 'formatting', 'formatted', 'complete' in that order; exactly the two announcements carry no state; the last event carries the final record |
| Orchestrator.LaterStagesOutcome | src/services/orchestrator.js:99-137 | once extraction has passed the gate, the run completes: the validation is stored, scores exist, the form data is the formatter's output, and earlier entries are kept with warnings only added |
| Orchestrator.AddWarningExtends | src/services/orchestrator.js:104 | appending a non-empty warning keeps every earlier entry |
| Orchestrator.ExtendsTrans | src/services/orchestrator.js:91-131 | warning-only growth of the error list composes across stages |
| Orchestrator.OnlyWarningsExtend | src/services/orchestrator.js:91-131 | a record holding only warnings, grown by warnings only, still holds only warnings |
| Orchestrator.ExtractFailureIsFatal | src/services/orchestrator.js:46-67 | a failed extraction ends as failed with exactly one 'extract' entry holding the raw error and the classifier's message and title; nothing is extracted, validated, scored or formatted; the cost stays zero; the events are 'extracting' then 'failed' |
| Orchestrator.TypeGateFails | src/services/orchestrator.js:75-89 | a type outside the five accepted ones fails with one 'extract' entry naming the detected type; a truthy type reads as 'not an invoice' and a missing one as an unknown error; the mapped data is already stored |
| Orchestrator.GateVerdict | src/services/orchestrator.js:78 | the classifier's verdict for a rejected document type, with no error, is the gate error; it is 'not an invoice' exactly when the detected type is truthy |
| Orchestrator.PassedGateCompletes | src/services/orchestrator.js:91-139 | a document past the gate whose validation does not throw ends complete with current step 'complete', only warnings in its error list, and the formatter's output for its data |
| Orchestrator.SuccessEventOrder | src/services/orchestrator.js:41-137 | a completed run reports exactly the nine steps in order; the four announcements carry no state, every other event a snapshot, and the last one the final record |
| Orchestrator.ValidateThrows | src/services/orchestrator.js:141-158 | a throwing validation engine is caught: the run ends as failed with a final 'orchestrator' entry after warnings only; nothing is validated, scored or formatted; the events end with 'failed' |
| Orchestrator.ScoringFallback | src/services/orchestrator.js:112-114 | when scoring fails, the scores are the fallback scores of the validation, the scoring warning is recorded and no scoring cost is added |
| Orchestrator.ScoreStageCosts | src/services/orchestrator.js:112-119 | the scoring stage keeps the breakdown summing to the total and never lowers the total |
| Orchestrator.LaterStagesCosts | src/services/orchestrator.js:99-137 | every snapshot of the later stages accounts its costs, with totals never decreasing |
| Orchestrator.SnapshotsAccounted | src/services/orchestrator.js:107-137 | the four later snapshots account their costs in non-decreasing order |
| Orchestrator.AfterExtractionCosts | src/services/orchestrator.js:99-158 | after extraction, every snapshot accounts its costs and none shows less than the starting total |
| Orchestrator.AfterAgentCosts | src/services/orchestrator.js:70-158 | from a well-formed extraction cost on, every snapshot and the final record account their costs, in non-decreasing order |
| Orchestrator.FailAccounted | src/services/orchestrator.js:52-65 | failing a run whose snapshots account their costs keeps them accounted, since a failure charges nothing |
| Orchestrator.PrependAccounted | src/services/orchestrator.js:97-99 | the 'extracted' snapshot keeps the cost accounting of the rest of the run |
| Orchestrator.CostsConsistent | src/services/orchestrator.js:72-119 | in every run, the total equals the sum of the breakdown in every snapshot and in the final state, and never decreases from one snapshot to the next |
| Orchestrator.FailEnds | src/services/orchestrator.js:64-65 | appending a failure and reporting 'failed' ends a run properly |
| Orchestrator.AfterExtractionEnds | src/services/orchestrator.js:99-158 | the run from validation on ends properly whichever branch it takes |
| Orchestrator.PrefixEnded | src/services/orchestrator.js:41 | earlier events do not change how a run ends |
| Orchestrator.AfterAgentEnds | src/services/orchestrator.js:46-158 | every branch after the extraction agent ends properly |
| Orchestrator.PastGateEnds | src/services/orchestrator.js:91-158 | every run past the type gate ends properly, whatever the quality check added |
| Orchestrator.QualityStageWarns | src/services/orchestrator.js:91-95 | on a fresh processing record the quality check keeps it processing and adds at most the low-quality warning, which has a text, and never a failure |
| Orchestrator.RunEnds | src/services/orchestrator.js:28-159 | every run finishes: it is never left processing; it is failed exactly when its errors hold a failure entry; a complete run has form data; every warning is non-empty; the last event reports the final state |
| Orchestrator.LowQualityVerdict | src/services/orchestrator.js:92-93 | a low extraction quality is classified as a low-quality image, whose message is non-empty |
| Orchestrator.WarningCount | src/services/orchestrator.js:200 | counts at most all entries; all of them when every entry is a non-empty warning; none when every entry is a failure |
| Orchestrator.FinishedSummary | src/services/orchestrator.js:183-202 | a finished state has a summary whose cost and errors are the state's, whose valid count never exceeds the validated fields, and which, for a complete run, counts every entry as a warning and reports the formatter's review count and readiness |
| Orchestrator.RunSummary | src/services/orchestrator.js:183-186 | every run has a summary, since none stays processing |
| Orchestrator.ExtractFailureSummary | src/services/orchestrator.js:183-202 | after a failed extraction the summary reports zero fields, zero valid, zero to review, no warnings, not ready and zero cost |
| FormatService.FormatForForm | src/services/formatService.js:22-60 | the loop over the field map produces exactly the formatter's output |
| FormatService.NameRule | src/services/formatService.js:85 | a trimmed name is a contiguous slice of the name with only white space cut from its two ends; it has no white space at either end and keeps every visible character in order |
| FormatService.ReferenceRule | src/services/formatService.js:89 | a cleaned reference number is its words joined by single blanks; so it is trimmed, holds blanks as its only white space, has no two adjacent, and keeps every visible character in order |
| FormatService.FormatValueRules | src/services/formatService.js:65-94 | the amount becomes a number: itself if numeric, else the validator's truthy numeric value, else the parsed stripped text; dates pass through as text; names are cut to the slice between their leading and trailing white space; a reference number becomes its words joined by single blanks; other fields pass through |
| FormatService.FormFieldSource | src/services/formatService.js:28-41 | every form field comes from a field-map entry whose data is included |
| FormatService.FormFieldAt | src/services/formatService.js:28-41 | a field-map entry has a form field iff its data is included, and then it holds the formatted value |
| FormatService.FormFieldsCount | src/services/formatService.js:28-51 | form fields plus warnings are as many as the map entries, and reviews are no more than form fields |
| FormatService.WarningSource | src/services/formatService.js:34-35 | every warning names a field-map entry whose data is missing or invalid |
| FormatService.WarningAt | src/services/formatService.js:34-35 | every missing or invalid entry has its warning |
| FormatService.ReviewSource | src/services/formatService.js:43-51 | every review item comes from an included entry scored below 0.7 |
| FormatService.ReviewAt | src/services/formatService.js:43-51 | every included entry scored below 0.7 has its review item |
| FormatService.ReviewOrder | src/services/formatService.js:28-51 | review items appear in field-map order |
| FormatService.WarningTextInjective | src/services/formatService.js:35 | different form fields give different warnings |
| FormatService.FieldMapDistinct | src/services/formatService.js:10-17 | the six form-field names are distinct |
| FormatService.FormPartition | src/services/formatService.js:28-41 | each of the six fields is either a form field, iff its value is truthy and valid, holding the formatted value, or exactly one warning; so form fields plus warnings are six |
| FormatService.ReviewEntries | src/services/formatService.js:43-51 | every review item is an included field scored below 0.7 and carries that field's form value, confidence and reasoning |
| FormatService.ReviewCompleteAndOrdered | src/services/formatService.js:43-51 | every included field scored below 0.7 is listed for review, in field-map order |
| FormatService.ReadyToFill | src/services/formatService.js:58 | ready to fill iff every field is included and none needs review |
| FormatService.InvalidNeverReviewed | src/services/formatService.js:34-44 | an invalid field is never listed for review and always has its warning |
| FormatService.FormSummaryCounts | src/services/formatService.js:159-166 | the summary's fields and warnings add up to six; reviews never exceed fields; ready iff no reviews and no warnings |
| Logging.AtLevel | src/services/logger.js:99 | filtering never lengthens the buffer |
| Logging.AppendCappedShape | src/services/logger.js:37-40 | push-then-shift keeps at most the cap, puts the new entry last, and drops exactly the oldest entry when full |
| Logging.AtLevelMembers | src/services/logger.js:99 | the filter keeps exactly the entries at that level |
| Logging.AtLevelAppend | src/services/logger.js:99 | the filter keeps buffer order: it distributes over concatenation |
| Logging.Logger.constructor | src/services/logger.js:16-19 | an empty buffer; the persisted error list survives from earlier sessions |
| Logging.Logger.CreateLogEntry | src/services/logger.js:24-52 | the entry is appended to the buffer capped at 100; only error entries are also appended to the persisted list capped at 50 |
| Logging.Logger.SendToBackend | src/services/logger.js:121-139 | appends to the persisted error list, keeping at most 50 and dropping the oldest; the buffer is untouched |
| Logging.Logger.GetLogs | src/services/logger.js:97-102 | with a level, exactly the buffered entries at that level; without one, the whole buffer |
| Logging.Logger.Clear | src/services/logger.js:144-147 | empties the buffer and the persisted error list |
| Logging.MessageChecksInOrder | src/services/logger.js:234-262 | each message check decides the answer iff it fires and no earlier check does: authentication, missing key, rate limit, credit, network, timeout |
| Logging.ContextRulesInOrder | src/services/logger.js:264-279 | with no message match: file too large, then invalid file type, then a truthy non-invoice document type, then low quality |
| Logging.ClassifierRange | src/services/logger.js:154-283 | 'File Read Error' and 'Extraction Failed' are never chosen; no error and an empty context give the generic entry |
| StorageService.ApplyEffects | src/services/storageService.js:97-101 | an empty update only stamps the update date; marking as paid changes exactly status, paid date and update date |
| StorageService.OverdueNeedsDueDate | src/services/storageService.js:169-179 | overdue iff there is a truthy due date that parses to a day before today; no due date means never overdue |
| StorageService.FirstIndex | src/services/storageService.js:91 | the first position holding the id, or none when no record has it |
| StorageService.FindByIdFinds | src/services/storageService.js:33-36 | a lookup finds a record iff one has the id, and then the earliest such |
| StorageService.Filter | src/services/storageService.js:133 | a filter keeps exactly the records that match, never more than it was given |
| StorageService.FilterAppend | src/services/storageService.js:133 | filtering keeps the original order: it distributes over concatenation |
| StorageService.ByStatusMembers | src/services/storageService.js:148-161 | 'all' gives everything; 'overdue' exactly the unpaid records past their due date; any other status its exact matches |
| StorageService.MarkOverdue | src/services/storageService.js:188-193 | marking keeps the number of records |
| StorageService.MarkOverdueEffect | src/services/storageService.js:188-193 | each record changes only if unpaid and overdue, and then only its status, to 'overdue'; nothing due means nothing changes; marking twice is marking once |
| StorageService.BucketsPartition | src/services/storageService.js:217-221 | every record falls in exactly one bucket: paid, overdue, unpaid or none |
| StorageService.StatsBounds | src/services/storageService.js:205-228 | paid + overdue + unpaid never exceeds the total; the average is the total cost over the count, and zero for an empty store |
| StorageService.Insert | src/services/storageService.js:250 | inserting into a newest-first list keeps it newest-first and adds exactly one record |
| StorageService.InsertAfterHead | src/services/storageService.js:250 | a record older than the head of a newest-first list, inserted further down, leaves the head in front of a newest-first result |
| StorageService.InsertOrder | src/services/storageService.js:250 | a record no older than every record in a newest-first list can go in front of it |
| StorageService.NewestFirst | src/services/storageService.js:250 | the sort is newest-first and a permutation of the store |
| StorageService.InsertStable | src/services/storageService.js:250 | inserting places the new record ahead of every record with the same upload date and keeps their order |
| StorageService.NewestFirstStable | src/services/storageService.js:250 | the sort is stable: records with the same upload date keep their order in the store |
| StorageService.KeepsNewest | src/services/storageService.js:249-257 | the kept records are the requested number, none older than any removed record, and kept plus removed are the whole store |
| StorageService.DocumentStore.constructor | src/services/storageService.js:17-26 | the store holds the records it was loaded with |
| StorageService.DocumentStore.SaveDocument | src/services/storageService.js:44-80 | appends exactly one new record, unpaid, with no paid date and no user edits, after the unchanged earlier records |
| StorageService.DocumentStore.UpdateDocument | src/services/storageService.js:88-109 | an unknown id is 'Document not found' with the store unchanged; otherwise only the first record with the id is replaced by the updated, date-stamped record |
| StorageService.DocumentStore.MarkDocumentAsPaid | src/services/storageService.js:117-122 | the same as an update that sets status 'paid' and the paid date, and nothing else |
| StorageService.DocumentStore.DeleteDocument | src/services/storageService.js:130-140 | removes every record with the id and keeps the rest in order |
| StorageService.DocumentStore.UpdateInvoiceStatuses | src/services/storageService.js:184-200 | reports a change iff some unpaid record is overdue, and leaves the store marked |
| StorageService.DocumentStore.GetStorageStats | src/services/storageService.js:205-228 | the loop computes exactly the statistics of the store |
| StorageService.DocumentStore.ClearOldDocuments | src/services/storageService.js:241-262 | a store within the count is untouched and nothing is reported; otherwise the newest records are kept and the number removed is reported |
| ClaudeScore.Reset | netlify/functions/claude-score.js:13-21 | after the check the tracker is on today's date |
| ClaudeScore.RemainingBudget | netlify/functions/claude-score.js:128 | never negative: the limit minus the total while under the limit, zero beyond it |
| ClaudeScore.ResetRule | netlify/functions/claude-score.js:13-21 | a new day restarts from zero, under the limit; the same day is unchanged; resetting twice is resetting once |
| ClaudeScore.CostBounds | netlify/functions/claude-score.js:23-34 | a call costs 0.80 per million input tokens plus 4.00 per million output tokens: never negative, and more tokens never cost less |
| ClaudeScore.NonPostRejected | netlify/functions/claude-score.js:37-42 | anything but POST gets 405 with the tracker untouched |
| ClaudeScore.BudgetGate | netlify/functions/claude-score.js:44-56 | at or over the limit every POST gets 429 with the day's usage, no call is made and nothing is charged |
| ClaudeScore.ChargeRule | netlify/functions/claude-score.js:109-116 | a POST leaves the tracker on today's date, never lowers its total, and adds exactly the call's cost when the model answered, even if the reply then fails to parse |
| ClaudeScore.MissingDataRejected | netlify/functions/claude-score.js:61-66 | a body without truthy extracted data gets 400 and costs nothing |
| ClaudeScore.UpstreamErrors | netlify/functions/claude-score.js:134-163 | 401 becomes a 500 authentication error, 429 a 429 rate-limit error, anything else a 500 server error with the message or a generic text |
| ClaudeScore.ResponseShape | netlify/functions/claude-score.js:118-132 | every status is 200, 400, 405, 429 or 500; a success reports its own cost, the new daily total and a non-negative remaining budget |
| ClaudeScore.CostTracker.constructor | netlify/functions/claude-score.js:8-11 | today's date and a zero total |
| ClaudeScore.CostTracker.CheckAndResetDailyLimit | netlify/functions/claude-score.js:13-21 | the tracker becomes the reset of its old contents |
| ClaudeScore.CostTracker.Charge | netlify/functions/claude-score.js:113 | the total grows by exactly the cost and the date is kept |
| ClaudeScore.Handler | netlify/functions/claude-score.js:36-165 | the response and the tracker left behind are exactly those of `Handle` on the tracker found |
| ClaudeService.CostRecordShape | src/services/claudeService.js:289-314 | the token counts are copied; input and output parts are the counts per thousand times the tier's rates; they are non-negative and add up to the total |
| ClaudeService.SonnetCostsTenTimesHaiku | src/services/claudeService.js:290-299 | for the same usage the extraction tier costs ten times the scoring tier |
| ClaudeService.CostMonotone | src/services/claudeService.js:302-308 | more tokens never cost less |
| ClaudeService.FirstIndexOf | src/services/claudeService.js:144 | the first position of the character, or none when it does not occur |
| ClaudeService.LastIndexOf | src/services/claudeService.js:144 | the last position of the character, or none when it does not occur |
| ClaudeService.JsonSpan | src/services/claudeService.js:144-151 | a span exists iff some '{' comes before some '}', and it runs from the first '{' through the last '}' |
| ClaudeService.ExtractionOutcome | src/services/claudeService.js:144-186 | extraction succeeds iff the reply has a span that parses, with the parsed data and the extraction tier's cost; a failure carries a non-empty message and error type |
| ClaudeService.AliasScoreEffect | src/services/claudeService.js:262-268 | an alias takes the canonical score if there is one and keeps its own otherwise; every other key is unchanged |
| ClaudeService.ScoreAliasesAgree | src/services/claudeService.js:262-268 | all four aliases follow their canonical scores; every other key is unchanged |
| ClaudeService.ScoringOutcome | src/services/claudeService.js:253-283 | scoring succeeds iff the reply has a span that parses, with the aliased scores and the scoring tier's cost; a failure reports no cost |
| ProcessingSteps.FindIndex | src/components/ProcessingSteps.jsx:12-13 | the first position holding the id, or -1 iff no step has it |
| ProcessingSteps.UnknownCurrentStepAllPending | src/components/ProcessingSteps.jsx:15 | a current step that names no step leaves every step pending |
| ProcessingSteps.StageEndEventsShowAllPending | src/components/ProcessingSteps.jsx:15 | while a stage-end event ('extracted' … 'complete', 'failed') is current, the default row shows all four steps pending |
| ProcessingSteps.StatusByPosition | src/components/ProcessingSteps.jsx:11-19 | with unique ids: complete before the current step, active at it, pending after it |
| ProcessingSteps.ExactlyOneActive | src/components/ProcessingSteps.jsx:11-19 | with unique ids and a current step in the row, exactly one step is active |
| ProcessingSteps.ConnectorGreenWhenPassed | src/components/ProcessingSteps.jsx:66-73 | with unique ids, the connector after a step is green iff the current step lies beyond it |
| ConfidenceBadge.LabelBands | src/components/ConfidenceBadge.jsx:8-12 | High iff the score is at least 0.8, Medium iff it is in [0.6, 0.8), Low iff it is below 0.6 |
| ConfidenceBadge.ColorMatchesLabel | src/components/ConfidenceBadge.jsx:2-12 | green with High, amber with Medium, red with Low |
| ConfidenceBadge.LabelMonotone | src/components/ConfidenceBadge.jsx:2-12 | raising the confidence never lowers the label |
| FieldReviewCard.NeedsReviewBand | src/components/FieldReviewCard.jsx:25 | flagged iff the confidence is present, non-zero and below 0.7; absent or zero is never flagged |
| FieldReviewCard.ReviewStyleTakesPrecedence | src/components/FieldReviewCard.jsx:31-35 | review styling whenever flagged; error styling iff not flagged and in error; plain otherwise |
| FieldReviewCard.PanelsHiddenWhileEditingOrInError | src/components/FieldReviewCard.jsx:112-121 | while editing or in error, neither the reasoning nor the review badge is shown |
| FieldReviewCard.ZeroAmountEditsAsEmpty | src/components/FieldReviewCard.jsx:13 | `value \|\| ''` opens the edit box empty on a zero or NaN amount and on the number itself otherwise |
| FieldReviewCard.FieldCard.constructor | src/components/FieldReviewCard.jsx:12-13 | not editing, with the edit value `value \|\| ''`: the value itself when truthy, a number included, and the empty text otherwise |
| FieldReviewCard.FieldCard.Rerender | src/components/FieldReviewCard.jsx:4-13 | a new value prop leaves both state hooks as they were |
| FieldReviewCard.FieldCard.Toggle | src/components/FieldReviewCard.jsx:51 | flips editing and leaves the edit text alone |
| FieldReviewCard.FieldCard.Type | src/components/FieldReviewCard.jsx:73 | the edit value becomes the text that was typed |
| FieldReviewCard.FieldCard.Save | src/components/FieldReviewCard.jsx:15-18 | hands the current edit value, which may still be the untouched number, to `onSave` and leaves edit mode |
| FieldReviewCard.FieldCard.Cancel | src/components/FieldReviewCard.jsx:20-23 | restores the edit value from the current value prop (the empty text when it is falsy) and leaves edit mode |

## Left out

- The model calls themselves (SDK client, prompts, request options) are outside the model. Their outcome, a reply text with token usage or a thrown error, is a parameter.
- `message.content[0]` is assumed to exist.
- `JSON.parse` is a parameter that either gives a value or fails with a message.
- validationService.js (`validateDocumentData`, `getValidationSummary`) is not part of this model. It is a parameter that returns a per-field map or throws, plus a summary function.
- `localStorage`, `sessionStorage` and JSON serialisation are outside the model:
  - the store and the persisted error list are fields of their classes;
  - `getAllDocuments`, and the try/catch blocks that guard a failing storage (`saveDocument`, `updateDocument`, `deleteDocument`, `clearOldDocuments`, `sendToBackend`), are outside the model.
- `generateUUID` (`Math.random`) and `new Date()` / `toISOString` are outside the model:
  - fresh ids and "now" / "today" are parameters, and dates are whole numbers;
  - `isOverdue`'s local-midnight comparison is a date-parsing parameter against "today".
- StorageService.DocumentStore.MarkDocumentAsPaid: uses one "now" for both the paid date and the update date, where the source reads the clock twice.
- Browser globals in log entries (`navigator.userAgent`, `window.location.href`) are outside the model. So are console output, the `error`/`warn`/`info`/`debug` wrappers and `downloadLogs`.
- The logger calls made inside `processDocument` are outside the model. They change only the log buffer.
- Exceptions thrown by the progress callback or by the logger are outside the model. Only a throwing validation engine is modelled as reaching the orchestrator's catch block.
- Orchestrator.ReportProgress: the callback receives a snapshot of the state. In the source it receives a reference to the one state object, and a callback that keeps it would see later changes.
- `async`/`await`, and concurrent invocations sharing the scoring endpoint's tracker, are outside the model. Everything runs in sequence.
- IEEE floating point is not modelled: costs and confidences are exact reals.
- `Math.round` in the badge and number-to-text conversion (a parameter) are outside the model.
- `parseFloat` is a parameter.
- StorageService.DocumentStore.ClearOldDocuments: a negative `keepCount` is not modelled (the count is a natural number).
- StorageService.DocumentStore.UpdateDocument: an update can only set the thirteen modelled record fields; extra keys a caller adds are not modelled.
- A key holding `undefined` is treated as absent, except where `Object.keys` counts it (the alias view keeps all eight alias and canonical keys).
- `generateBookmarklet` is outside the model, since it emits script text for a web page.
- The `clearAllInvoices` / `clearAllDocuments` wrappers and the backward-compatibility aliases are outside the model.
- Page and layout components (ReviewPage, ProcessingPage, HistoryPage, Layout, Button, App, ErrorBanner, CostTracker, BookmarkletButton) are outside the model. They are presentation.
- The markup of the three modelled components is outside the model. Only their decision rules and state are modelled.
