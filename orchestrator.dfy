/**
 * The document pipeline: one state record, created per document and
 * updated stage by stage (extract, document-type gate, quality warning,
 * validate, score with fallback, format, complete), with a progress event
 * reported at each stage boundary.  Extraction failures and documents of an
 * unknown type end the run as failed; every later problem only adds a
 * warning; an exception ends the run as failed with an 'orchestrator' entry.
 *
 * The two agent calls, the JSON parser and the validation engine are
 * collaborators passed in as values; `Run` is the specification of one run
 * and `ProcessDocument` the step-by-step procedure proved equal to it.
 */
module Orchestrator {
  import opened Values
  import opened ClaudeService
  import opened Logging
  import opened FormatService

  datatype Status = Processing | Complete | Failed

  /** An entry of `state.errors`: a failure with its user-facing text, or a warning. */
  datatype StepIssue =
    | Failure(step: string, error: string, userMessage: string, title: string)
    | Warning(step: string, warning: string)

  datatype Costs = Costs(total: real, breakdown: map<string, CostRecord>)

  /** The pipeline state record, as the progress sink and the caller see it. */
  datatype PipelineRecord = PipelineRecord(
    status: Status,
    currentStep: Option<string>,
    extracted: Option<Fields>,
    validated: Option<ValidationMap>,
    scored: Option<ScoreMap>,
    formatted: Option<FormattedOutput>,
    errors: seq<StepIssue>,
    costs: Costs)

  const InitialRecord := PipelineRecord(Processing, None, None, None, None, None, [], Costs(0.0, map[]))

  /**
   * One progress callback: the step, its message, and the state record as
   * it stands when the callback runs (absent for the four '-ing' events).
   */
  datatype ProgressEvent = ProgressEvent(step: string, message: string, state: Option<PipelineRecord>)

  /** What the validation engine's summary reports. */
  datatype ValidationSummary = ValidationSummary(allValid: bool, errors: nat)

  /**
   * Everything a run depends on besides its own logic: the extraction
   * agent's reply, the JSON parsers, the validation engine (an `Err` is the
   * exception it throws), the scoring agent's reply for given data, and the
   * number primitives.
   */
  datatype Collaborators = Collaborators(
    extractReply: ModelReply,
    parseFields: string -> Result<Fields, string>,
    validate: Fields -> Result<ValidationMap, string>,
    summarize: ValidationMap -> ValidationSummary,
    scoreReply: (Fields, ValidationMap) -> ModelReply,
    parseScores: string -> Result<ScoreMap, string>,
    prims: Primitives)

  // ---------------------------------------------------------------------
  // Field aliases

  /** The alias names the UI reads, each paired with the extraction agent's name. */
  const FieldAliases: seq<(string, string)> := [
    ("reference_number", "invoice_number"),
    ("transaction_date", "invoice_date"),
    ("total_amount", "amount_due"),
    ("payment_due_date", "due_date")
  ]

  predicate IsAliasedKey(key: string)
  {
    key in {"invoice_number", "invoice_date", "amount_due", "due_date",
            "reference_number", "transaction_date", "total_amount", "payment_due_date"}
  }

  /** The extracted fields with the UI aliases added; the eight keys are always present. */
  function MapExtractedFields(data: Fields): Fields
  {
    data[
      "invoice_number" := Get(data, "reference_number")][
      "invoice_date" := Get(data, "transaction_date")][
      "amount_due" := Get(data, "total_amount")][
      "due_date" := Get(data, "payment_due_date")][
      "reference_number" := Get(data, "reference_number")][
      "transaction_date" := Get(data, "transaction_date")][
      "total_amount" := Get(data, "total_amount")][
      "payment_due_date" := Get(data, "payment_due_date")]
  }

  /**
   * Each alias and its canonical field are both present and equal to the
   * canonical input value (`undefined` when it was missing); every other
   * input key is kept unchanged and no other key is added.
   */
  lemma MappedFieldsAgree(data: Fields)
    ensures var m := MapExtractedFields(data);
      && (forall p :: p in FieldAliases ==> p.0 in m && p.1 in m && m[p.1] == m[p.0] == Get(data, p.0))
      && (forall k :: !IsAliasedKey(k) ==> (k in m <==> k in data) && (k in data ==> m[k] == data[k]))
      && (forall k :: k in m ==> k in data || IsAliasedKey(k))
  {
    var m := MapExtractedFields(data);
    AliasLookups(data);
    forall p | p in FieldAliases
      ensures p.0 in m && p.1 in m && m[p.1] == m[p.0] == Get(data, p.0)
    {
      assert p == FieldAliases[0] || p == FieldAliases[1] || p == FieldAliases[2] || p == FieldAliases[3];
    }
    OtherKeysKept(data);
  }

  lemma AliasLookups(data: Fields)
    ensures var m := MapExtractedFields(data);
      && m["reference_number"] == m["invoice_number"] == Get(data, "reference_number")
      && m["transaction_date"] == m["invoice_date"] == Get(data, "transaction_date")
      && m["total_amount"] == m["amount_due"] == Get(data, "total_amount")
      && m["payment_due_date"] == m["due_date"] == Get(data, "payment_due_date")
  {
  }

  lemma OtherKeysKept(data: Fields)
    ensures var m := MapExtractedFields(data);
      && (forall k :: !IsAliasedKey(k) ==> (k in m <==> k in data) && (k in data ==> m[k] == data[k]))
      && (forall k :: k in m ==> k in data || IsAliasedKey(k))
  {
  }

  // ---------------------------------------------------------------------
  // Fallback scores

  /** The score the fallback scorer gives one validation verdict. */
  function FallbackScore(result: ValidationResult): Score
  {
    if result.valid && !TruthyText(result.warning) then
      Score(0.80, "Passed validation (fallback score)")
    else if result.valid then
      Score(0.65, "Passed validation with warning: " + result.warning.value)
    else
      Score(0.00, "Validation failed: " + ShowText(result.error))
  }

  function FallbackScores(validation: ValidationMap): ScoreMap
  {
    map field | field in validation :: FallbackScore(validation[field])
  }

  /** Fills the score map one validation entry at a time. */
  method GenerateFallbackScores(validation: ValidationMap) returns (scores: ScoreMap)
    ensures scores == FallbackScores(validation)
  {
    scores := map[];
    var pending := validation.Keys;
    while pending != {}
      invariant pending <= validation.Keys
      invariant scores == map field | field in validation.Keys - pending :: FallbackScore(validation[field])
      decreases pending
    {
      var field :| field in pending;
      scores := scores[field := FallbackScore(validation[field])];
      pending := pending - {field};
    }
  }

  /**
   * One score per validated field: 0.80 for a clean pass, 0.65 for a pass
   * with a warning, whose reasoning quotes the warning, and 0.00 for a
   * failure, whose reasoning quotes the error; every confidence lies in [0, 1].
   */
  lemma FallbackScoreBands(validation: ValidationMap)
    ensures FallbackScores(validation).Keys == validation.Keys
    ensures forall field :: field in validation ==>
      var r := validation[field];
      var s := FallbackScores(validation)[field];
      && 0.0 <= s.confidence <= 1.0
      && (r.valid && !TruthyText(r.warning) ==> s.confidence == 0.80)
      && (r.valid && TruthyText(r.warning) ==> s.confidence == 0.65 && Contains(s.reasoning, r.warning.value))
      && (!r.valid ==> s.confidence == 0.00 && Contains(s.reasoning, ShowText(r.error)))
  {
    forall field | field in validation
      ensures var r := validation[field];
        var s := FallbackScores(validation)[field];
        && (r.valid && TruthyText(r.warning) ==> Contains(s.reasoning, r.warning.value))
        && (!r.valid ==> Contains(s.reasoning, ShowText(r.error)))
    {
      var r := validation[field];
      if r.valid && TruthyText(r.warning) {
        ContainsSuffix("Passed validation with warning: ", r.warning.value);
      } else if !r.valid {
        ContainsSuffix("Validation failed: ", ShowText(r.error));
      }
    }
  }

  // ---------------------------------------------------------------------
  // One run, as a specification

  datatype Trace = Trace(record: PipelineRecord, events: seq<ProgressEvent>)

  const AcceptedTypes: set<string> := {"invoice", "receipt", "bill", "statement", "order_confirmation"}

  /** `document_type` is one of the accepted financial document types. */
  predicate AcceptedType(documentType: Value)
  {
    documentType.Str? && documentType.s in AcceptedTypes
  }

  function AddCost(costs: Costs, key: string, cost: CostRecord): Costs
  {
    Costs(costs.total + cost.totalCost, costs.breakdown[key := cost])
  }

  function TypeGateText(documentType: Value, prims: Primitives): string
  {
    "Unable to identify document type (detected: " + JsString(documentType, prims.numberToString) + ")"
  }

  /** The classifier's verdict on a thrown error, seen through its message. */
  function Classify(message: string): FriendlyError
  {
    GetUserFriendlyError(Some(ErrorInfo(Some(message), None)), EmptyContext)
  }

  /** The record after a fatal problem: status 'failed' and one more entry. */
  function FailStage(r: PipelineRecord, issue: StepIssue): PipelineRecord
  {
    r.(status := Failed, errors := r.errors + [issue])
  }

  /** Ends a run as failed with `issue`, reporting the user-facing message. */
  function Fail(t: Trace, issue: StepIssue, message: string): Trace
  {
    var r := FailStage(t.record, issue);
    Trace(r, t.events + [ProgressEvent("failed", message, Some(r))])
  }

  function AddIssue(r: PipelineRecord, issue: StepIssue): PipelineRecord
  {
    r.(errors := r.errors + [issue])
  }

  const ScoringFailedWarning := "Confidence scoring failed, using validation results as proxy"

  function ValidationWarning(errors: nat): string
  {
    NatToString(errors) + " validation error(s) found"
  }

  function ReviewWarning(count: nat): string
  {
    NatToString(count) + " field(s) require review (confidence < 0.7)"
  }

  /**
   * The user-facing message for a low-quality extraction, as the classifier
   * gives it for the context `{extractionQuality: 'low'}` (`LowQualityVerdict`).
   */
  const LowQualityMessage := LowQualityImage.Message()

  /**
   * The classifier's entry for a rejected document type, seen through the
   * context `{documentType}` with no error (`GateVerdict`).
   */
  function GateError(documentType: Value): FriendlyError
  {
    if Truthy(documentType) then NotAnInvoice else UnknownError
  }

  /** The extraction stage: the aliased fields and the extraction cost. */
  function ExtractStage(r: PipelineRecord, mapped: Fields, cost: CostRecord): PipelineRecord
  {
    r.(extracted := Some(mapped), costs := AddCost(r.costs, "extract", cost))
  }

  /** A warning when the agent rated its own extraction as low quality. */
  function QualityStage(r: PipelineRecord, mapped: Fields): PipelineRecord
  {
    if Get(mapped, "extraction_quality") == Str("low") then AddIssue(r, Warning("extract", LowQualityMessage)) else r
  }

  /** The validation stage, with a warning when some field failed. */
  function ValidateStage(r: PipelineRecord, validation: ValidationMap, summary: ValidationSummary): PipelineRecord
  {
    var r' := r.(validated := Some(validation));
    if !summary.allValid then AddIssue(r', Warning("validate", ValidationWarning(summary.errors))) else r'
  }

  /** The scoring stage: the agent's scores and cost, or the fallback scores and a warning. */
  function ScoreStage(r: PipelineRecord, result: ScoreResult, validation: ValidationMap): PipelineRecord
  {
    match result
    case ScoreFailed(_) =>
      AddIssue(r, Warning("score", ScoringFailedWarning)).(scored := Some(FallbackScores(validation)))
    case Scored(scores, cost) =>
      r.(scored := Some(scores), costs := AddCost(r.costs, "score", cost))
  }

  /** The formatting stage, with a warning when fields need review. */
  function FormatStage(r: PipelineRecord, formatted: FormattedOutput): PipelineRecord
  {
    var r' := r.(formatted := Some(formatted));
    if |formatted.reviewRequired| > 0 then AddIssue(r', Warning("format", ReviewWarning(|formatted.reviewRequired|))) else r'
  }

  function CompleteStage(r: PipelineRecord): PipelineRecord
  {
    r.(status := Complete, currentStep := Some("complete"))
  }

  /** The events reported from 'validated' to 'complete', given the record after each stage. */
  function LaterEvents(r3: PipelineRecord, r4: PipelineRecord, r5: PipelineRecord, r6: PipelineRecord): seq<ProgressEvent>
  {
    [ProgressEvent("validated", "Validation complete", Some(r3)),
     ProgressEvent("scoring", "Calculating confidence scores...", None),
     ProgressEvent("scored", "Scoring complete", Some(r4)),
     ProgressEvent("formatting", "Preparing form data...", None),
     ProgressEvent("formatted", "Format complete", Some(r5)),
     ProgressEvent("complete", "Processing complete", Some(r6))]
  }

  /** Scoring, formatting and completion, once validation returned `validation`. */
  function LaterStages(c: Collaborators, mapped: Fields, validation: ValidationMap, r: PipelineRecord): Trace
  {
    var r3 := ValidateStage(r, validation, c.summarize(validation));
    var r4 := ScoreStage(r3, ScoreExtractedData(c.scoreReply(mapped, validation), c.parseScores), validation);
    var r5 := FormatStage(r4, Format(FormInput(mapped, validation, r4.scored, c.prims)));
    var r6 := CompleteStage(r5);
    Trace(r6, LaterEvents(r3, r4, r5, r6))
  }

  /**
   * The stages after a document passed the type gate, from the record `r`
   * they start with: the final record and the events from 'validated' on.
   */
  function AfterExtraction(c: Collaborators, mapped: Fields, r: PipelineRecord): Trace
  {
    match c.validate(mapped)
    case Err(message) =>
      var fe := Classify(message);
      Fail(Trace(r, []), Failure("orchestrator", message, fe.Message(), fe.Title()), fe.Message())
    case Ok(validation) =>
      LaterStages(c, mapped, validation, r)
  }

  const Extracting := ProgressEvent("extracting", "Extracting document data...", None)
  const Validating := ProgressEvent("validating", "Validating data...", None)

  /**
   * A run from the record `r1` of a document that passed the type gate: the
   * quality check, then the events from 'extracted' on.
   */
  function PastGate(c: Collaborators, mapped: Fields, r1: PipelineRecord): Trace
  {
    var r2 := QualityStage(r1, mapped);
    var t := AfterExtraction(c, mapped, r2);
    Trace(t.record, [ProgressEvent("extracted", "Extraction complete", Some(r2)), Validating] + t.events)
  }

  /** A run from a successful extraction on: the type gate, then the later stages. */
  function AfterAgent(c: Collaborators, data: Fields, cost: CostRecord): Trace
  {
    var mapped := MapExtractedFields(data);
    var r1 := ExtractStage(InitialRecord, mapped, cost);
    var documentType := Get(mapped, "document_type");
    if !AcceptedType(documentType) then
      var fe := GateError(documentType);
      Fail(Trace(r1, [Extracting]), Failure("extract", TypeGateText(documentType, c.prims), fe.Message(), fe.Title()), fe.Message())
    else
      var t := PastGate(c, mapped, r1);
      Trace(t.record, [Extracting] + t.events)
  }

  /** What one call of `processDocument` leaves in its state record and reports to its sink. */
  function Run(c: Collaborators): Trace
  {
    match ExtractDocumentData(c.extractReply, c.parseFields)
    case ExtractFailed(error, _) =>
      var fe := Classify(error);
      Fail(Trace(InitialRecord, [Extracting]), Failure("extract", error, fe.Message(), fe.Title()), fe.Message())
    case Extracted(data, cost) =>
      AfterAgent(c, data, cost)
  }

  // ---------------------------------------------------------------------
  // The procedure

  /** The listener passed as `onProgress`; it records every event it receives. */
  class ProgressSink {
    var events: seq<ProgressEvent>

    constructor ()
      ensures events == []
    {
      events := [];
    }

    method Receive(e: ProgressEvent)
      modifies this
      ensures events == old(events) + [e]
    {
      events := events + [e];
    }
  }

  /** `if (callback) callback({step, message, state})`: an absent listener hears nothing. */
  method ReportProgress(sink: ProgressSink?, step: string, message: string, state: Option<PipelineRecord>)
    modifies sink
    ensures sink != null ==> sink.events == old(sink.events) + [ProgressEvent(step, message, state)]
  {
    if sink != null {
      sink.Receive(ProgressEvent(step, message, state));
    }
  }

  /** The mutable state record of one run. */
  class PipelineState {
    var status: Status
    var currentStep: Option<string>
    var extracted: Option<Fields>
    var validated: Option<ValidationMap>
    var scored: Option<ScoreMap>
    var formatted: Option<FormattedOutput>
    var errors: seq<StepIssue>
    var total: real
    var breakdown: map<string, CostRecord>

    function Record(): PipelineRecord
      reads this
    {
      PipelineRecord(status, currentStep, extracted, validated, scored, formatted, errors, Costs(total, breakdown))
    }

    constructor ()
      ensures Record() == InitialRecord
    {
      status := Processing;
      currentStep := None;
      extracted := None;
      validated := None;
      scored := None;
      formatted := None;
      errors := [];
      total := 0.0;
      breakdown := map[];
    }

    method PushIssue(issue: StepIssue)
      modifies this
      ensures Record() == AddIssue(old(Record()), issue)
    {
      errors := errors + [issue];
    }

    method AddStepCost(key: string, cost: CostRecord)
      modifies this
      ensures Record() == old(Record()).(costs := AddCost(old(Record()).costs, key, cost))
    {
      breakdown := breakdown[key := cost];
      total := total + cost.totalCost;
    }

    method FailWith(issue: StepIssue)
      modifies this
      ensures Record() == FailStage(old(Record()), issue)
    {
      PushIssue(issue);
      status := Failed;
    }

    method ApplyExtraction(mapped: Fields, cost: CostRecord)
      modifies this
      ensures Record() == ExtractStage(old(Record()), mapped, cost)
    {
      extracted := Some(mapped);
      AddStepCost("extract", cost);
    }

    method ApplyQuality(mapped: Fields)
      modifies this
      ensures Record() == QualityStage(old(Record()), mapped)
    {
      if Get(mapped, "extraction_quality") == Str("low") {
        var fe := GetUserFriendlyError(None, ErrorContext(Undefined, Undefined, Str("low")));
        LowQualityVerdict();
        PushIssue(Warning("extract", fe.Message()));
      }
    }

    method ApplyValidation(validation: ValidationMap, summary: ValidationSummary)
      modifies this
      ensures Record() == ValidateStage(old(Record()), validation, summary)
    {
      validated := Some(validation);
      if !summary.allValid {
        PushIssue(Warning("validate", ValidationWarning(summary.errors)));
      }
    }

    method ApplyScoring(result: ScoreResult, validation: ValidationMap)
      modifies this
      ensures Record() == ScoreStage(old(Record()), result, validation)
    {
      if result.ScoreFailed? {
        PushIssue(Warning("score", ScoringFailedWarning));
        var fallback := GenerateFallbackScores(validation);
        scored := Some(fallback);
      } else {
        scored := Some(result.scores);
        AddStepCost("score", result.cost);
      }
    }

    method ApplyFormatting(formatted: FormattedOutput)
      modifies this
      ensures Record() == FormatStage(old(Record()), formatted)
    {
      this.formatted := Some(formatted);
      if |formatted.reviewRequired| > 0 {
        PushIssue(Warning("format", ReviewWarning(|formatted.reviewRequired|)));
      }
    }

    method MarkComplete()
      modifies this
      ensures Record() == CompleteStage(old(Record()))
    {
      status := Complete;
      currentStep := Some("complete");
    }
  }

  /** Records the validation result and runs the scoring stage, reporting both. */
  method ValidateAndScore(c: Collaborators, mapped: Fields, validation: ValidationMap, state: PipelineState, sink: ProgressSink?)
    returns (r3: PipelineRecord)
    modifies state, sink
    ensures r3 == ValidateStage(old(state.Record()), validation, c.summarize(validation))
    ensures state.Record() == ScoreStage(r3, ScoreExtractedData(c.scoreReply(mapped, validation), c.parseScores), validation)
    ensures sink != null ==> sink.events == old(sink.events) + [ProgressEvent("validated", "Validation complete", Some(r3)),
      ProgressEvent("scoring", "Calculating confidence scores...", None), ProgressEvent("scored", "Scoring complete", Some(state.Record()))]
  {
    state.ApplyValidation(validation, c.summarize(validation));
    r3 := state.Record();
    ReportProgress(sink, "validated", "Validation complete", Some(r3));
    ReportProgress(sink, "scoring", "Calculating confidence scores...", None);
    var scoreResult := ScoreExtractedData(c.scoreReply(mapped, validation), c.parseScores);
    state.ApplyScoring(scoreResult, validation);
    ReportProgress(sink, "scored", "Scoring complete", Some(state.Record()));
  }

  /** Runs the formatting stage on the recorded scores and completes the run, reporting both. */
  method FormatAndComplete(c: Collaborators, mapped: Fields, validation: ValidationMap, state: PipelineState, sink: ProgressSink?)
    returns (r5: PipelineRecord)
    modifies state, sink
    ensures r5 == FormatStage(old(state.Record()), Format(FormInput(mapped, validation, old(state.Record()).scored, c.prims)))
    ensures state.Record() == CompleteStage(r5)
    ensures sink != null ==> sink.events == old(sink.events) + [ProgressEvent("formatting", "Preparing form data...", None),
      ProgressEvent("formatted", "Format complete", Some(r5)), ProgressEvent("complete", "Processing complete", Some(state.Record()))]
  {
    ReportProgress(sink, "formatting", "Preparing form data...", None);
    var formatted := FormatForForm(FormInput(mapped, validation, state.scored, c.prims));
    state.ApplyFormatting(formatted);
    r5 := state.Record();
    ReportProgress(sink, "formatted", "Format complete", Some(r5));
    state.MarkComplete();
    ReportProgress(sink, "complete", "Processing complete", Some(state.Record()));
  }

  /** Runs validation's aftermath, scoring, formatting and completion against `state`. */
  method RunLaterStages(c: Collaborators, mapped: Fields, validation: ValidationMap, state: PipelineState, sink: ProgressSink?)
    modifies state, sink
    ensures state.Record() == LaterStages(c, mapped, validation, old(state.Record())).record
    ensures sink != null ==> sink.events == old(sink.events) + LaterStages(c, mapped, validation, old(state.Record())).events
  {
    ghost var heard := if sink != null then sink.events else [];
    ghost var r := state.Record();
    var r3 := ValidateAndScore(c, mapped, validation, state, sink);
    ghost var r4 := state.Record();
    var r5 := FormatAndComplete(c, mapped, validation, state, sink);
    ghost var r6 := state.Record();
    LaterStagesSteps(c, mapped, validation, r, r3, r4, r5, r6);
    LaterEventsInTwo(heard, r3, r4, r5, r6);
  }

  /** The six later events, heard three by three. */
  lemma LaterEventsInTwo(heard: seq<ProgressEvent>, r3: PipelineRecord, r4: PipelineRecord, r5: PipelineRecord, r6: PipelineRecord)
    ensures heard + [ProgressEvent("validated", "Validation complete", Some(r3)),
                     ProgressEvent("scoring", "Calculating confidence scores...", None),
                     ProgressEvent("scored", "Scoring complete", Some(r4))]
                  + [ProgressEvent("formatting", "Preparing form data...", None),
                     ProgressEvent("formatted", "Format complete", Some(r5)),
                     ProgressEvent("complete", "Processing complete", Some(r6))]
            == heard + LaterEvents(r3, r4, r5, r6)
  {
  }

  /** The later stages, stage by stage: the record after each stage and the events they report. */
  lemma LaterStagesSteps(c: Collaborators, mapped: Fields, validation: ValidationMap,
                         r: PipelineRecord, r3: PipelineRecord, r4: PipelineRecord, r5: PipelineRecord, r6: PipelineRecord)
    requires r3 == ValidateStage(r, validation, c.summarize(validation))
    requires r4 == ScoreStage(r3, ScoreExtractedData(c.scoreReply(mapped, validation), c.parseScores), validation)
    requires r5 == FormatStage(r4, Format(FormInput(mapped, validation, r4.scored, c.prims)))
    requires r6 == CompleteStage(r5)
    ensures LaterStages(c, mapped, validation, r) == Trace(r6, LaterEvents(r3, r4, r5, r6))
  {
  }

  /** Runs the stages after the type gate against `state`; a throwing validation engine fails the run. */
  method ContinueAfterExtraction(c: Collaborators, mapped: Fields, state: PipelineState, sink: ProgressSink?)
    modifies state, sink
    ensures state.Record() == AfterExtraction(c, mapped, old(state.Record())).record
    ensures sink != null ==> sink.events == old(sink.events) + AfterExtraction(c, mapped, old(state.Record())).events
  {
    var validation := c.validate(mapped);
    if validation.Err? {
      var fe := Classify(validation.error);
      state.FailWith(Failure("orchestrator", validation.error, fe.Message(), fe.Title()));
      ReportProgress(sink, "failed", fe.Message(), Some(state.Record()));
      return;
    }
    RunLaterStages(c, mapped, validation.value, state, sink);
  }

  /** The quality check and the later stages, for a document that passed the type gate. */
  method ContinuePastGate(c: Collaborators, mapped: Fields, state: PipelineState, sink: ProgressSink?)
    modifies state, sink
    ensures state.Record() == PastGate(c, mapped, old(state.Record())).record
    ensures sink != null ==> sink.events == old(sink.events) + PastGate(c, mapped, old(state.Record())).events
  {
    ghost var heard := if sink != null then sink.events else [];
    ghost var r1 := state.Record();
    state.ApplyQuality(mapped);
    var r2 := state.Record();
    ReportProgress(sink, "extracted", "Extraction complete", Some(r2));
    ReportProgress(sink, "validating", "Validating data...", None);
    ContinueAfterExtraction(c, mapped, state, sink);
    ghost var t := AfterExtraction(c, mapped, r2);
    PastGateSteps(c, mapped, r1, r2);
    TwoThenRest(heard, ProgressEvent("extracted", "Extraction complete", Some(r2)), Validating, t.events);
  }

  /** Hearing two events one by one and then the rest is hearing them all. */
  lemma TwoThenRest(heard: seq<ProgressEvent>, first: ProgressEvent, second: ProgressEvent, rest: seq<ProgressEvent>)
    ensures heard + [first] + [second] + rest == heard + ([first, second] + rest)
  {
    assert heard + [first] + [second] == heard + [first, second];
  }

  /** Past the type gate: the quality check, then the announcements and the stages after it. */
  lemma PastGateSteps(c: Collaborators, mapped: Fields, r1: PipelineRecord, r2: PipelineRecord)
    requires r2 == QualityStage(r1, mapped)
    ensures var t := AfterExtraction(c, mapped, r2);
      PastGate(c, mapped, r1) == Trace(t.record, [ProgressEvent("extracted", "Extraction complete", Some(r2)), Validating] + t.events)
  {
  }

  /** The type gate turned the document away: the run fails with an 'extract' entry. */
  method FailGate(c: Collaborators, documentType: Value, state: PipelineState, sink: ProgressSink?)
    requires !AcceptedType(documentType)
    modifies state, sink
    ensures var fe := GateError(documentType);
      state.Record() == FailStage(old(state.Record()), Failure("extract", TypeGateText(documentType, c.prims), fe.Message(), fe.Title()))
    ensures sink != null ==> sink.events == old(sink.events) + [ProgressEvent("failed", GateError(documentType).Message(), Some(state.Record()))]
  {
    var fe := GetUserFriendlyError(None, ErrorContext(Undefined, documentType, Undefined));
    GateVerdict(documentType);
    state.FailWith(Failure("extract", TypeGateText(documentType, c.prims), fe.Message(), fe.Title()));
    ReportProgress(sink, "failed", fe.Message(), Some(state.Record()));
  }

  /** The stages from a successful extraction on, against a state still in its initial form. */
  method ContinueAfterAgent(c: Collaborators, data: Fields, cost: CostRecord, state: PipelineState, sink: ProgressSink?)
    requires state.Record() == InitialRecord
    modifies state, sink
    ensures state.Record() == AfterAgent(c, data, cost).record
    ensures sink != null ==> sink.events == old(sink.events) + AfterAgent(c, data, cost).events[1..]
  {
    var mapped := MapExtractedFields(data);
    state.ApplyExtraction(mapped, cost);
    var documentType := Get(mapped, "document_type");
    if !AcceptedType(documentType) {
      FailGate(c, documentType, state, sink);
    } else {
      ghost var t := PastGate(c, mapped, state.Record());
      assert ([Extracting] + t.events)[1..] == t.events;
      ContinuePastGate(c, mapped, state, sink);
    }
  }

  /**
   * `processDocument`: creates a fresh state record, runs the stages and
   * returns the record; the run and the events the sink hears are exactly
   * those of `Run`.
   */
  method ProcessDocument(c: Collaborators, sink: ProgressSink?) returns (state: PipelineState)
    modifies sink
    ensures fresh(state)
    ensures state.Record() == Run(c).record
    ensures sink != null ==> sink.events == old(sink.events) + Run(c).events
  {
    ghost var before := if sink != null then sink.events else [];
    state := new PipelineState();
    ReportProgress(sink, "extracting", "Extracting document data...", None);
    var extractResult := ExtractDocumentData(c.extractReply, c.parseFields);
    if extractResult.ExtractFailed? {
      FailExtraction(c, extractResult.error, state, sink);
    } else {
      AfterAgentStartsWithExtracting(c, extractResult.data, extractResult.cost);
      ContinueAfterAgent(c, extractResult.data, extractResult.cost, state, sink);
    }
    RunOpensWithExtracting(c);
    OpeningAppend(before, Run(c).events);
  }

  /** Hearing 'extracting' and then the rest of a run is hearing the run. */
  lemma OpeningAppend(before: seq<ProgressEvent>, events: seq<ProgressEvent>)
    requires |events| >= 1 && events[0] == Extracting
    ensures before + [Extracting] + events[1..] == before + events
  {
    assert events == [Extracting] + events[1..];
  }

  /** The extraction agent failed: the run ends as failed with one 'extract' entry. */
  method FailExtraction(c: Collaborators, error: string, state: PipelineState, sink: ProgressSink?)
    requires ExtractDocumentData(c.extractReply, c.parseFields).ExtractFailed?
    requires error == ExtractDocumentData(c.extractReply, c.parseFields).error
    requires state.Record() == InitialRecord
    modifies state, sink
    ensures state.Record() == Run(c).record
    ensures sink != null ==> sink.events == old(sink.events) + Run(c).events[1..]
  {
    var fe := Classify(error);
    state.FailWith(Failure("extract", error, fe.Message(), fe.Title()));
    ReportProgress(sink, "failed", fe.Message(), Some(state.Record()));
  }

  /** Every run opens with the 'extracting' announcement. */
  lemma RunOpensWithExtracting(c: Collaborators)
    ensures |Run(c).events| >= 1 && Run(c).events[0] == Extracting
  {
    var e := ExtractDocumentData(c.extractReply, c.parseFields);
    if e.Extracted? {
      AfterAgentStartsWithExtracting(c, e.data, e.cost);
    }
  }

  /** A run past the extraction agent opens with the 'extracting' event and is the whole run. */
  lemma AfterAgentStartsWithExtracting(c: Collaborators, data: Fields, cost: CostRecord)
    ensures |AfterAgent(c, data, cost).events| >= 1 && AfterAgent(c, data, cost).events[0] == Extracting
    ensures ExtractDocumentData(c.extractReply, c.parseFields) == Extracted(data, cost) ==> Run(c) == AfterAgent(c, data, cost)
  {
  }

  /** A run whose document passed the type gate is the 'extracting' event followed by `PastGate`. */
  lemma PassedRun(c: Collaborators)
    requires PassesGate(c)
    ensures var e := ExtractDocumentData(c.extractReply, c.parseFields);
      var mapped := MapExtractedFields(e.data);
      var t := PastGate(c, mapped, ExtractStage(InitialRecord, mapped, e.cost));
      Run(c) == Trace(t.record, [Extracting] + t.events)
  {
    var e := ExtractDocumentData(c.extractReply, c.parseFields);
    assert Run(c) == AfterAgent(c, e.data, e.cost);
  }

  /** Past the type gate, a validation engine that returns leads into the later stages. */
  lemma ValidatedPastGate(c: Collaborators, mapped: Fields, r1: PipelineRecord)
    requires c.validate(mapped).Ok?
    ensures var r2 := QualityStage(r1, mapped);
      var t := LaterStages(c, mapped, c.validate(mapped).value, r2);
      PastGate(c, mapped, r1) == Trace(t.record, [ProgressEvent("extracted", "Extraction complete", Some(r2)), Validating] + t.events)
  {
  }

  // ---------------------------------------------------------------------
  // Properties of a run

  /** The extraction agent succeeded and the document has an accepted type. */
  predicate PassesGate(c: Collaborators)
  {
    var e := ExtractDocumentData(c.extractReply, c.parseFields);
    e.Extracted? && AcceptedType(Get(MapExtractedFields(e.data), "document_type"))
  }

  /** `after` is `before` with only warnings appended. */
  predicate AppendsWarnings(before: seq<StepIssue>, after: seq<StepIssue>)
  {
    |before| <= |after| && after[..|before|] == before
    && forall i :: |before| <= i < |after| ==> after[i].Warning?
  }

  /** Every warning entry carries a non-empty text, so `e.warning` is truthy for it. */
  predicate WarningsSayWhy(errors: seq<StepIssue>)
  {
    forall i :: 0 <= i < |errors| && errors[i].Warning? ==> errors[i].warning != ""
  }

  predicate HasFailure(errors: seq<StepIssue>)
  {
    exists i :: 0 <= i < |errors| && errors[i].Failure?
  }

  /** The total cost of one breakdown entry, zero when it is absent. */
  function Part(costs: Costs, key: string): real
  {
    if key in costs.breakdown then costs.breakdown[key].totalCost else 0.0
  }

  /**
   * The breakdown holds at most the extraction and scoring costs, each well
   * formed, and the total is their sum.
   */
  predicate CostsAddUp(costs: Costs)
  {
    && costs.breakdown.Keys <= {"extract", "score"}
    && (forall k :: k in costs.breakdown ==> WellFormedCost(costs.breakdown[k]))
    && costs.total == Part(costs, "extract") + Part(costs, "score")
  }

  function Steps(events: seq<ProgressEvent>): (steps: seq<string>)
    ensures |steps| == |events| && forall i :: 0 <= i < |events| ==> steps[i] == events[i].step
  {
    seq(|events|, i requires 0 <= i < |events| => events[i].step)
  }

  /** The four announcements made before a stage starts; they carry no state. */
  predicate Announcement(step: string)
  {
    step in {"extracting", "validating", "scoring", "formatting"}
  }

  /**
   * The later stages append only warnings, set the validation, score and
   * format results, keep the extracted data and leave the run complete.
   */
  lemma LaterStagesOutcome(c: Collaborators, mapped: Fields, validation: ValidationMap, r: PipelineRecord)
    ensures var t := LaterStages(c, mapped, validation, r);
      && t.record.status == Complete && t.record.currentStep == Some("complete")
      && t.record.extracted == r.extracted
      && t.record.validated == Some(validation)
      && t.record.scored.Some?
      && t.record.formatted == Some(Format(FormInput(mapped, validation, t.record.scored, c.prims)))
      && Extends(r, t.record)
  {
    var r3 := ValidateStage(r, validation, c.summarize(validation));
    var r4 := ScoreStage(r3, ScoreExtractedData(c.scoreReply(mapped, validation), c.parseScores), validation);
    var r5 := FormatStage(r4, Format(FormInput(mapped, validation, r4.scored, c.prims)));
    var r6 := CompleteStage(r5);
    LaterStagesSteps(c, mapped, validation, r, r3, r4, r5, r6);
    LaterRecord(r, r3, r4, r5, r6, validation, c.summarize(validation),
                ScoreExtractedData(c.scoreReply(mapped, validation), c.parseScores),
                Format(FormInput(mapped, validation, r4.scored, c.prims)));
  }

  /** What the four later stages do to a record, whatever the collaborators answered. */
  lemma LaterRecord(r: PipelineRecord, r3: PipelineRecord, r4: PipelineRecord, r5: PipelineRecord, r6: PipelineRecord,
                    validation: ValidationMap, summary: ValidationSummary, result: ScoreResult, formatted: FormattedOutput)
    requires r3 == ValidateStage(r, validation, summary)
    requires r4 == ScoreStage(r3, result, validation)
    requires r5 == FormatStage(r4, formatted)
    requires r6 == CompleteStage(r5)
    ensures r6.status == Complete && r6.currentStep == Some("complete")
    ensures r6.extracted == r.extracted && r6.validated == Some(validation)
    ensures r6.scored == r4.scored && r4.scored.Some? && r6.formatted == Some(formatted)
    ensures Extends(r, r6)
  {
    ValidateStageExtends(r, validation, summary);
    ScoreStageExtends(r3, result, validation);
    FormatStageExtends(r4, formatted);
    ExtendsTrans(r, r3, r4);
    ExtendsTrans(r, r4, r5);
  }

  lemma ValidateStageExtends(r: PipelineRecord, validation: ValidationMap, summary: ValidationSummary)
    ensures Extends(r, ValidateStage(r, validation, summary))
  {
    if !summary.allValid {
      AddWarningExtends(r.(validated := Some(validation)), "validate", ValidationWarning(summary.errors));
    } else {
      assert r.errors[..|r.errors|] == r.errors;
    }
  }

  lemma ScoreStageExtends(r: PipelineRecord, result: ScoreResult, validation: ValidationMap)
    ensures Extends(r, ScoreStage(r, result, validation))
  {
    if result.ScoreFailed? {
      AddWarningExtends(r, "score", ScoringFailedWarning);
    } else {
      assert r.errors[..|r.errors|] == r.errors;
    }
  }

  lemma FormatStageExtends(r: PipelineRecord, formatted: FormattedOutput)
    ensures Extends(r, FormatStage(r, formatted))
  {
    if |formatted.reviewRequired| > 0 {
      AddWarningExtends(r.(formatted := Some(formatted)), "format", ReviewWarning(|formatted.reviewRequired|));
    } else {
      assert r.errors[..|r.errors|] == r.errors;
    }
  }

  /** `b` is `a` with only warnings, each with a text if all of `a`'s have one, appended. */
  predicate Extends(a: PipelineRecord, b: PipelineRecord)
  {
    AppendsWarnings(a.errors, b.errors) && (WarningsSayWhy(a.errors) ==> WarningsSayWhy(b.errors))
  }

  lemma AddWarningExtends(r: PipelineRecord, step: string, text: string)
    requires text != ""
    ensures Extends(r, AddIssue(r, Warning(step, text)))
  {
    var e := AddIssue(r, Warning(step, text)).errors;
    assert e[..|r.errors|] == r.errors;
  }

  lemma ExtendsTrans(a: PipelineRecord, b: PipelineRecord, c: PipelineRecord)
    requires Extends(a, b) && Extends(b, c)
    ensures Extends(a, c)
  {
    assert c.errors[..|a.errors|] == b.errors[..|a.errors|];
  }

  /**
   * A failed extraction ends the run at once: one 'extract' failure carrying
   * the agent's error and the classifier's text, nothing extracted, no cost,
   * and only the 'extracting' and 'failed' events.
   */
  lemma ExtractFailureIsFatal(c: Collaborators)
    requires ExtractDocumentData(c.extractReply, c.parseFields).ExtractFailed?
    ensures var error := ExtractDocumentData(c.extractReply, c.parseFields).error;
      var fe := Classify(error);
      var r := Run(c).record;
      && r.status == Failed
      && r.errors == [Failure("extract", error, fe.Message(), fe.Title())]
      && r.extracted == None && r.validated == None && r.scored == None && r.formatted == None
      && r.costs == Costs(0.0, map[])
      && Run(c).events == [Extracting, ProgressEvent("failed", fe.Message(), Some(r))]
  {
    var error := ExtractDocumentData(c.extractReply, c.parseFields).error;
    var fe := Classify(error);
    var issue := Failure("extract", error, fe.Message(), fe.Title());
    assert Run(c) == Fail(Trace(InitialRecord, [Extracting]), issue, fe.Message());
    FailAfterOpening(InitialRecord, issue, fe.Message());
  }

  /** Failing right after the 'extracting' announcement: two events, the second with the failed record. */
  lemma FailAfterOpening(r: PipelineRecord, issue: StepIssue, message: string)
    ensures Fail(Trace(r, [Extracting]), issue, message)
      == Trace(FailStage(r, issue), [Extracting, ProgressEvent("failed", message, Some(FailStage(r, issue)))])
  {
  }

  /**
   * A document whose type is not accepted fails with one 'extract' failure;
   * the mapped data and the extraction cost are already recorded, nothing
   * later is.  An absent or falsy type reads as an unknown error, any other
   * as 'not an invoice'.
   */
  lemma TypeGateFails(c: Collaborators)
    requires ExtractDocumentData(c.extractReply, c.parseFields).Extracted?
    requires !PassesGate(c)
    ensures var e := ExtractDocumentData(c.extractReply, c.parseFields);
      var mapped := MapExtractedFields(e.data);
      var documentType := Get(mapped, "document_type");
      var r := Run(c).record;
      && r.status == Failed
      && |r.errors| == 1 && r.errors[0].Failure? && r.errors[0].step == "extract"
      && r.errors[0].error == TypeGateText(documentType, c.prims)
      && (Truthy(documentType) ==> r.errors[0].title == NotAnInvoice.Title())
      && (!Truthy(documentType) ==> r.errors[0].title == UnknownError.Title())
      && r.extracted == Some(mapped)
      && r.costs == Costs(e.cost.totalCost, map["extract" := e.cost])
      && r.validated == None && r.scored == None && r.formatted == None
      && Steps(Run(c).events) == ["extracting", "failed"]
  {
    var e := ExtractDocumentData(c.extractReply, c.parseFields);
    var documentType := Get(MapExtractedFields(e.data), "document_type");
    assert Run(c) == AfterAgent(c, e.data, e.cost);
  }

  /**
   * The classifier's verdict on a rejected document type, with no error:
   * 'not an invoice' unless the type is falsy, then the generic entry.
   */
  lemma GateVerdict(documentType: Value)
    requires !AcceptedType(documentType)
    ensures GetUserFriendlyError(None, ErrorContext(Undefined, documentType, Undefined)) == GateError(documentType)
    ensures Truthy(documentType) <==> GateError(documentType) == NotAnInvoice
  {
  }

  /**
   * Once past the type gate, a run whose validation engine returns only ever
   * adds warnings and ends complete, with every stage's result recorded.
   */
  lemma PassedGateCompletes(c: Collaborators)
    requires PassesGate(c)
    requires c.validate(MapExtractedFields(ExtractDocumentData(c.extractReply, c.parseFields).data)).Ok?
    ensures var mapped := MapExtractedFields(ExtractDocumentData(c.extractReply, c.parseFields).data);
      var validation := c.validate(mapped).value;
      var r := Run(c).record;
      && r.status == Complete && r.currentStep == Some("complete")
      && (forall i :: 0 <= i < |r.errors| ==> r.errors[i].Warning?)
      && r.extracted == Some(mapped)
      && r.validated == Some(validation)
      && r.scored.Some?
      && r.formatted == Some(Format(FormInput(mapped, validation, r.scored, c.prims)))
  {
    var e := ExtractDocumentData(c.extractReply, c.parseFields);
    var mapped := MapExtractedFields(e.data);
    var r1 := ExtractStage(InitialRecord, mapped, e.cost);
    var r2 := QualityStage(r1, mapped);
    PassedRun(c);
    ValidatedPastGate(c, mapped, r1);
    LaterStagesOutcome(c, mapped, c.validate(mapped).value, r2);
    OnlyWarningsExtend(r2, LaterStages(c, mapped, c.validate(mapped).value, r2).record);
  }

  /** Appending warnings to a record with only warnings leaves only warnings. */
  lemma OnlyWarningsExtend(a: PipelineRecord, b: PipelineRecord)
    requires Extends(a, b)
    requires forall i :: 0 <= i < |a.errors| ==> a.errors[i].Warning?
    ensures forall i :: 0 <= i < |b.errors| ==> b.errors[i].Warning?
  {
    forall i | 0 <= i < |b.errors|
      ensures b.errors[i].Warning?
    {
      if i < |a.errors| {
        assert b.errors[i] == b.errors[..|a.errors|][i];
      }
    }
  }

  /**
   * A run that completes reports the nine steps in order; the four
   * announcements carry no state, every other event a snapshot, and the last
   * one the final record.
   */
  lemma SuccessEventOrder(c: Collaborators)
    requires PassesGate(c)
    requires c.validate(MapExtractedFields(ExtractDocumentData(c.extractReply, c.parseFields).data)).Ok?
    ensures var events := Run(c).events;
      && Steps(events) == ["extracting", "extracted", "validating", "validated", "scoring",
                           "scored", "formatting", "formatted", "complete"]
      && (forall i :: 0 <= i < |events| ==> (events[i].state.None? <==> Announcement(events[i].step)))
      && events[|events| - 1].state == Some(Run(c).record)
  {
    var e := ExtractDocumentData(c.extractReply, c.parseFields);
    var mapped := MapExtractedFields(e.data);
    var r1 := ExtractStage(InitialRecord, mapped, e.cost);
    var r2 := QualityStage(r1, mapped);
    PassedRun(c);
    ValidatedPastGate(c, mapped, r1);
    var t := LaterStages(c, mapped, c.validate(mapped).value, r2);
    LaterStagesOrder(c, mapped, c.validate(mapped).value, r2);
    OpeningOrder(r2, t);
  }

  /** The later stages report six steps, the two '-ing' ones without state, and end on the final record. */
  lemma LaterStagesOrder(c: Collaborators, mapped: Fields, validation: ValidationMap, r: PipelineRecord)
    ensures var t := LaterStages(c, mapped, validation, r);
      && Steps(t.events) == ["validated", "scoring", "scored", "formatting", "formatted", "complete"]
      && (forall i :: 0 <= i < |t.events| ==> (t.events[i].state.None? <==> Announcement(t.events[i].step)))
      && t.events[|t.events| - 1].state == Some(t.record)
  {
    var r3 := ValidateStage(r, validation, c.summarize(validation));
    var r4 := ScoreStage(r3, ScoreExtractedData(c.scoreReply(mapped, validation), c.parseScores), validation);
    var r5 := FormatStage(r4, Format(FormInput(mapped, validation, r4.scored, c.prims)));
    var r6 := CompleteStage(r5);
    assert LaterStages(c, mapped, validation, r) == Trace(r6, LaterEvents(r3, r4, r5, r6));
  }

  /** The three opening events put in front of the later stages' six. */
  lemma OpeningOrder(r2: PipelineRecord, t: Trace)
    requires Steps(t.events) == ["validated", "scoring", "scored", "formatting", "formatted", "complete"]
    requires forall i :: 0 <= i < |t.events| ==> (t.events[i].state.None? <==> Announcement(t.events[i].step))
    requires t.events[|t.events| - 1].state == Some(t.record)
    ensures var events := [Extracting] + ([ProgressEvent("extracted", "Extraction complete", Some(r2)), Validating] + t.events);
      && Steps(events) == ["extracting", "extracted", "validating", "validated", "scoring",
                           "scored", "formatting", "formatted", "complete"]
      && (forall i :: 0 <= i < |events| ==> (events[i].state.None? <==> Announcement(events[i].step)))
      && events[|events| - 1].state == Some(t.record)
  {
    var events := [Extracting] + ([ProgressEvent("extracted", "Extraction complete", Some(r2)), Validating] + t.events);
    forall i | 3 <= i < |events|
      ensures events[i] == t.events[i - 3]
    {
    }
  }

  /**
   * A validation engine that throws ends the run as failed with an
   * 'orchestrator' entry after whatever warnings came before; the run returns
   * its state rather than throwing, with no validation, scores or form data.
   */
  lemma ValidateThrows(c: Collaborators)
    requires PassesGate(c)
    requires c.validate(MapExtractedFields(ExtractDocumentData(c.extractReply, c.parseFields).data)).Err?
    ensures var mapped := MapExtractedFields(ExtractDocumentData(c.extractReply, c.parseFields).data);
      var message := c.validate(mapped).error;
      var r := Run(c).record;
      && r.status == Failed
      && |r.errors| >= 1
      && r.errors[|r.errors| - 1] == Failure("orchestrator", message, Classify(message).Message(), Classify(message).Title())
      && (forall i :: 0 <= i < |r.errors| - 1 ==> r.errors[i].Warning?)
      && r.extracted == Some(mapped)
      && r.validated == None && r.scored == None && r.formatted == None
      && Steps(Run(c).events) == ["extracting", "extracted", "validating", "failed"]
  {
    PassedRun(c);
  }

  /**
   * When the scoring agent fails, the scores are the fallback scores of the
   * validation, a scoring warning is recorded and no scoring cost is added.
   */
  lemma ScoringFallback(c: Collaborators)
    requires PassesGate(c)
    requires c.validate(MapExtractedFields(ExtractDocumentData(c.extractReply, c.parseFields).data)).Ok?
    requires var mapped := MapExtractedFields(ExtractDocumentData(c.extractReply, c.parseFields).data);
      ScoreExtractedData(c.scoreReply(mapped, c.validate(mapped).value), c.parseScores).ScoreFailed?
    ensures var mapped := MapExtractedFields(ExtractDocumentData(c.extractReply, c.parseFields).data);
      var r := Run(c).record;
      && r.scored == Some(FallbackScores(c.validate(mapped).value))
      && "score" !in r.costs.breakdown
      && Warning("score", ScoringFailedWarning) in r.errors
  {
    var e := ExtractDocumentData(c.extractReply, c.parseFields);
    var mapped := MapExtractedFields(e.data);
    var r1 := ExtractStage(InitialRecord, mapped, e.cost);
    PassedRun(c);
    ValidatedPastGate(c, mapped, r1);
  }

  /**
   * Every snapshot the sink sees, and the final record, account their costs;
   * no later snapshot shows a smaller total than an earlier one.
   */
  predicate CostsAccounted(events: seq<ProgressEvent>, final: PipelineRecord)
  {
    && CostsAddUp(final.costs)
    && (forall i :: 0 <= i < |events| && events[i].state.Some? ==>
          CostsAddUp(events[i].state.value.costs) && events[i].state.value.costs.total <= final.costs.total)
    && (forall i, j :: 0 <= i < j < |events| && events[i].state.Some? && events[j].state.Some? ==>
          events[i].state.value.costs.total <= events[j].state.value.costs.total)
  }

  /** The scoring stage adds the scoring cost, and only that, to costs that had none. */
  lemma ScoreStageCosts(r: PipelineRecord, result: ScoreResult, validation: ValidationMap)
    requires CostsAddUp(r.costs) && "score" !in r.costs.breakdown
    requires result.Scored? ==> WellFormedCost(result.cost)
    ensures var r' := ScoreStage(r, result, validation);
      && CostsAddUp(r'.costs)
      && r.costs.total <= r'.costs.total
      && ("score" in r'.costs.breakdown <==> result.Scored?)
  {
  }

  lemma LaterStagesCosts(c: Collaborators, mapped: Fields, validation: ValidationMap, r: PipelineRecord)
    requires CostsAddUp(r.costs) && "score" !in r.costs.breakdown
    ensures var t := LaterStages(c, mapped, validation, r);
      && CostsAccounted(t.events, t.record)
      && StartsFrom(r, t)
  {
    var result := ScoreExtractedData(c.scoreReply(mapped, validation), c.parseScores);
    ScoringOutcome(c.scoreReply(mapped, validation), c.parseScores);
    var r3 := ValidateStage(r, validation, c.summarize(validation));
    ScoreStageCosts(r3, result, validation);
    var r4 := ScoreStage(r3, result, validation);
    var r5 := FormatStage(r4, Format(FormInput(mapped, validation, r4.scored, c.prims)));
    var r6 := CompleteStage(r5);
    assert r3.costs == r.costs && r5.costs == r4.costs && r6.costs == r4.costs;
    LaterStagesSteps(c, mapped, validation, r, r3, r4, r5, r6);
    SnapshotsAccounted(r, r3, r4, r5, r6);
  }

  lemma SnapshotsAccounted(r: PipelineRecord, r3: PipelineRecord, r4: PipelineRecord, r5: PipelineRecord, r6: PipelineRecord)
    requires CostsAddUp(r3.costs) && CostsAddUp(r4.costs)
    requires r.costs.total <= r3.costs.total <= r4.costs.total && r5.costs == r4.costs && r6.costs == r4.costs
    ensures CostsAccounted(LaterEvents(r3, r4, r5, r6), r6)
    ensures StartsFrom(r, Trace(r6, LaterEvents(r3, r4, r5, r6)))
  {
    var es := LaterEvents(r3, r4, r5, r6);
    forall i | 0 <= i < |es| && es[i].state.Some?
      ensures CostsAddUp(es[i].state.value.costs) && r.costs.total <= es[i].state.value.costs.total <= r6.costs.total
    {
      assert es[i].state == Some(r3) || es[i].state.value.costs == r4.costs;
    }
    forall i, j | 0 <= i < j < |es| && es[i].state.Some? && es[j].state.Some?
      ensures es[i].state.value.costs.total <= es[j].state.value.costs.total
    {
      assert es[i].state == Some(r3) || es[i].state.value.costs == r4.costs;
      assert es[j].state.value.costs == r4.costs;
    }
  }

  /** No snapshot of `t`, and not its final record, shows a smaller total than `r`. */
  predicate StartsFrom(r: PipelineRecord, t: Trace)
  {
    && r.costs.total <= t.record.costs.total
    && forall i :: 0 <= i < |t.events| && t.events[i].state.Some? ==> r.costs.total <= t.events[i].state.value.costs.total
  }

  lemma AfterExtractionCosts(c: Collaborators, mapped: Fields, r: PipelineRecord)
    requires CostsAddUp(r.costs) && "score" !in r.costs.breakdown
    ensures CostsAccounted(AfterExtraction(c, mapped, r).events, AfterExtraction(c, mapped, r).record)
    ensures StartsFrom(r, AfterExtraction(c, mapped, r))
  {
    if c.validate(mapped).Ok? {
      LaterStagesCosts(c, mapped, c.validate(mapped).value, r);
    }
  }

  lemma PrependAccounted(r2: PipelineRecord, t: Trace)
    requires CostsAccounted(t.events, t.record) && CostsAddUp(r2.costs) && StartsFrom(r2, t)
    ensures CostsAccounted([Extracting] + ([ProgressEvent("extracted", "Extraction complete", Some(r2)), Validating] + t.events), t.record)
  {
    var es := [Extracting] + ([ProgressEvent("extracted", "Extraction complete", Some(r2)), Validating] + t.events);
    forall i | 0 <= i < |es| && es[i].state.Some?
      ensures CostsAddUp(es[i].state.value.costs) && es[i].state.value.costs.total <= t.record.costs.total
    {
      if i >= 3 {
        assert es[i] == t.events[i - 3];
      }
    }
    forall i, j | 0 <= i < j < |es| && es[i].state.Some? && es[j].state.Some?
      ensures es[i].state.value.costs.total <= es[j].state.value.costs.total
    {
      if i >= 3 {
        assert es[i] == t.events[i - 3] && es[j] == t.events[j - 3];
      } else {
        assert es[i].state == Some(r2);
        assert es[j] == t.events[j - 3];
      }
    }
  }

  /**
   * `costs.total` is always the sum of the extraction and scoring costs in
   * the breakdown, and it never decreases from one snapshot to the next.
   */
  lemma CostsConsistent(c: Collaborators)
    ensures CostsAccounted(Run(c).events, Run(c).record)
  {
    var e := ExtractDocumentData(c.extractReply, c.parseFields);
    ExtractionOutcome(c.extractReply, c.parseFields);
    if e.ExtractFailed? {
      var fe := Classify(e.error);
      FailAccounted(Trace(InitialRecord, [Extracting]), Failure("extract", e.error, fe.Message(), fe.Title()), fe.Message());
    } else {
      AfterAgentStartsWithExtracting(c, e.data, e.cost);
      AfterAgentCosts(c, e.data, e.cost);
    }
  }

  /** From a well-formed extraction cost on, every snapshot accounts its costs. */
  lemma AfterAgentCosts(c: Collaborators, data: Fields, cost: CostRecord)
    requires WellFormedCost(cost)
    ensures CostsAccounted(AfterAgent(c, data, cost).events, AfterAgent(c, data, cost).record)
  {
    var mapped := MapExtractedFields(data);
    var r1 := ExtractStage(InitialRecord, mapped, cost);
    assert r1.costs == Costs(cost.totalCost, map["extract" := cost]);
    var documentType := Get(mapped, "document_type");
    if !AcceptedType(documentType) {
      var fe := GateError(documentType);
      FailAccounted(Trace(r1, [Extracting]), Failure("extract", TypeGateText(documentType, c.prims), fe.Message(), fe.Title()), fe.Message());
    } else {
      var r2 := QualityStage(r1, mapped);
      AfterExtractionCosts(c, mapped, r2);
      PrependAccounted(r2, AfterExtraction(c, mapped, r2));
    }
  }

  /** Failing a run adds a snapshot with the costs already accounted. */
  lemma FailAccounted(t: Trace, issue: StepIssue, message: string)
    requires CostsAccounted(t.events, t.record)
    ensures CostsAccounted(Fail(t, issue, message).events, Fail(t, issue, message).record)
  {
    var es := Fail(t, issue, message).events;
    forall i | 0 <= i < |es| && es[i].state.Some?
      ensures CostsAddUp(es[i].state.value.costs) && es[i].state.value.costs.total <= t.record.costs.total
    {
      if i < |t.events| {
        assert es[i] == t.events[i];
      }
    }
    forall i, j | 0 <= i < j < |es| && es[i].state.Some? && es[j].state.Some?
      ensures es[i].state.value.costs.total <= es[j].state.value.costs.total
    {
      assert es[i] == t.events[i];
      if j < |t.events| {
        assert es[j] == t.events[j];
      }
    }
  }

  /**
   * A record of a finished run: failed or complete, failed exactly when a
   * failure entry was recorded, with form data when complete, and every
   * warning with a text.
   */
  predicate Finished(r: PipelineRecord)
  {
    && r.status != Processing
    && (r.status == Failed <==> HasFailure(r.errors))
    && (r.status == Complete ==> r.formatted.Some?)
    && WarningsSayWhy(r.errors)
  }

  /** A run that has ended: its record is finished and its last event reports the outcome with it. */
  predicate Ended(t: Trace)
  {
    && Finished(t.record)
    && |t.events| >= 1
    && t.events[|t.events| - 1].step == (if t.record.status == Failed then "failed" else "complete")
    && t.events[|t.events| - 1].state == Some(t.record)
  }

  /** Failing a run that had only warnings ends it. */
  lemma FailEnds(t: Trace, issue: StepIssue, message: string)
    requires issue.Failure? && WarningsSayWhy(t.record.errors)
    ensures Ended(Fail(t, issue, message))
  {
    var r := Fail(t, issue, message).record;
    assert r.errors[|r.errors| - 1].Failure?;
  }

  lemma AfterExtractionEnds(c: Collaborators, mapped: Fields, r: PipelineRecord)
    requires r.status == Processing && !HasFailure(r.errors) && WarningsSayWhy(r.errors)
    ensures Ended(AfterExtraction(c, mapped, r))
  {
    match c.validate(mapped)
    case Err(message) =>
      var fe := Classify(message);
      FailEnds(Trace(r, []), Failure("orchestrator", message, fe.Message(), fe.Title()), fe.Message());
    case Ok(validation) =>
      LaterStagesOutcome(c, mapped, validation, r);
      var t := LaterStages(c, mapped, validation, r);
      forall i | 0 <= i < |t.record.errors|
        ensures t.record.errors[i].Warning?
      {
        if i < |r.errors| {
          assert t.record.errors[i] == r.errors[i];
        }
      }
  }

  /** Announcing the first three events before a trace that ended keeps it ended. */
  lemma PrefixEnded(prefix: seq<ProgressEvent>, t: Trace)
    requires Ended(t)
    ensures Ended(Trace(t.record, prefix + t.events))
  {
    assert (prefix + t.events)[|prefix + t.events| - 1] == t.events[|t.events| - 1];
  }

  lemma AfterAgentEnds(c: Collaborators, data: Fields, cost: CostRecord)
    ensures Ended(AfterAgent(c, data, cost))
  {
    var mapped := MapExtractedFields(data);
    var r1 := ExtractStage(InitialRecord, mapped, cost);
    var documentType := Get(mapped, "document_type");
    if !AcceptedType(documentType) {
      var fe := GateError(documentType);
      FailEnds(Trace(r1, [Extracting]), Failure("extract", TypeGateText(documentType, c.prims), fe.Message(), fe.Title()), fe.Message());
    } else {
      PastGateEnds(c, mapped, r1);
      PrefixEnded([Extracting], PastGate(c, mapped, r1));
    }
  }

  lemma PastGateEnds(c: Collaborators, mapped: Fields, r1: PipelineRecord)
    requires r1.status == Processing && r1.errors == []
    ensures Ended(PastGate(c, mapped, r1))
  {
    var r2 := QualityStage(r1, mapped);
    QualityStageWarns(r1, mapped);
    AfterExtractionEnds(c, mapped, r2);
    PrefixEnded([ProgressEvent("extracted", "Extraction complete", Some(r2)), Validating], AfterExtraction(c, mapped, r2));
  }

  /**
   * Every run ends, failed or complete, and it failed exactly when a failure
   * entry was recorded; its last event reports that outcome with the final
   * record, and every warning recorded on the way carries a text.
   */
  lemma RunEnds(c: Collaborators)
    ensures Ended(Run(c))
  {
    var e := ExtractDocumentData(c.extractReply, c.parseFields);
    if e.ExtractFailed? {
      var fe := Classify(e.error);
      FailEnds(Trace(InitialRecord, [Extracting]), Failure("extract", e.error, fe.Message(), fe.Title()), fe.Message());
    } else {
      AfterAgentEnds(c, e.data, e.cost);
    }
  }

  /** The quality warning's text: the classifier reads a low-quality context as 'poor image quality'. */
  lemma LowQualityVerdict()
    ensures GetUserFriendlyError(None, ErrorContext(Undefined, Undefined, Str("low"))) == LowQualityImage
    ensures GetUserFriendlyError(None, ErrorContext(Undefined, Undefined, Str("low"))).Message() == LowQualityMessage
    ensures LowQualityMessage != ""
  {
    ContextRulesInOrder(None, ErrorContext(Undefined, Undefined, Str("low")));
    LowQualityMessageNonEmpty();
  }

  lemma LowQualityMessageNonEmpty()
    ensures LowQualityMessage != ""
  {
  }

  /** The quality check on a fresh record adds at most one warning, with a text, and no failure. */
  lemma QualityStageWarns(r1: PipelineRecord, mapped: Fields)
    requires r1.status == Processing && r1.errors == []
    ensures var r2 := QualityStage(r1, mapped);
      && r2.status == Processing
      && (forall i :: 0 <= i < |r2.errors| ==> r2.errors[i] == Warning("extract", LowQualityMessage))
      && WarningsSayWhy(r2.errors) && !HasFailure(r2.errors)
  {
    LowQualityMessageNonEmpty();
    var r2 := QualityStage(r1, mapped);
    assert r2.errors == [] || r2.errors == [Warning("extract", LowQualityMessage)];
  }

  // ---------------------------------------------------------------------
  // Pipeline summary

  datatype PipelineSummary = PipelineSummary(
    fieldsExtracted: nat,
    fieldsValid: nat,
    fieldsRequiringReview: nat,
    readyToFill: bool,
    totalCost: real,
    errors: seq<StepIssue>,
    warnings: nat)

  /** `errors.filter(e => e.warning).length`: the entries with a truthy warning text. */
  function WarningCount(errors: seq<StepIssue>): (n: nat)
    ensures n <= |errors|
    ensures WarningsSayWhy(errors) && (forall i :: 0 <= i < |errors| ==> errors[i].Warning?) ==> n == |errors|
    ensures (forall i :: 0 <= i < |errors| ==> errors[i].Failure?) ==> n == 0
  {
    if errors == [] then 0
    else
      var last := errors[|errors| - 1];
      WarningCount(errors[..|errors| - 1]) + (if last.Warning? && last.warning != "" then 1 else 0)
  }

  /** The validated fields whose verdict is valid. */
  function ValidFields(validation: ValidationMap): (fields: set<string>)
    ensures fields <= validation.Keys
    ensures forall f :: f in validation ==> (f in fields <==> validation[f].valid)
  {
    set f | f in validation && validation[f].valid
  }

  /** `getPipelineSummary`: nothing for a missing or still-running state. */
  function GetPipelineSummary(state: Option<PipelineRecord>): Option<PipelineSummary>
  {
    if state.None? || state.value.status == Processing then None
    else
      var r := state.value;
      Some(PipelineSummary(
        if r.extracted.Some? then |r.extracted.value.Keys| else 0,
        if r.validated.Some? then |ValidFields(r.validated.value)| else 0,
        if r.formatted.Some? then |r.formatted.value.reviewRequired| else 0,
        r.formatted.Some? && r.formatted.value.readyToFill,
        r.costs.total,
        r.errors,
        WarningCount(r.errors)))
  }

  /**
   * A finished record always has a summary.  It never counts more warnings
   * than error entries or more valid fields than validated ones; for a
   * completed run every entry counts as a warning, and the summary reports
   * the form's readiness and review count.
   */
  lemma FinishedSummary(r: PipelineRecord)
    requires Finished(r)
    ensures GetPipelineSummary(Some(r)).Some?
    ensures var summary := GetPipelineSummary(Some(r)).value;
      && summary.totalCost == r.costs.total
      && summary.errors == r.errors
      && summary.warnings <= |r.errors|
      && (r.validated.Some? ==> summary.fieldsValid <= |r.validated.value.Keys|)
      && (r.status == Complete ==>
            && summary.warnings == |r.errors|
            && summary.readyToFill == r.formatted.value.readyToFill
            && summary.fieldsRequiringReview == |r.formatted.value.reviewRequired|)
  {
    if r.validated.Some? {
      CardinalityOfSubset(ValidFields(r.validated.value), r.validated.value.Keys);
    }
    if r.status == Complete {
      assert forall i :: 0 <= i < |r.errors| ==> r.errors[i].Warning?;
    }
  }

  /** Every run has a summary, since every run finishes. */
  lemma RunSummary(c: Collaborators)
    ensures GetPipelineSummary(Some(Run(c).record)).Some?
  {
    RunEnds(c);
    FinishedSummary(Run(c).record);
  }

  /** A run that failed at extraction reports nothing extracted, nothing valid and no warnings. */
  lemma ExtractFailureSummary(c: Collaborators)
    requires ExtractDocumentData(c.extractReply, c.parseFields).ExtractFailed?
    ensures var summary := GetPipelineSummary(Some(Run(c).record));
      && summary.Some?
      && summary.value.fieldsExtracted == 0 && summary.value.fieldsValid == 0
      && summary.value.fieldsRequiringReview == 0
      && summary.value.warnings == 0 && !summary.value.readyToFill
      && summary.value.totalCost == 0.0
  {
    ExtractFailureIsFatal(c);
    var r := Run(c).record;
    assert forall i :: 0 <= i < |r.errors| ==> r.errors[i].Failure?;
  }

  lemma {:induction false} CardinalityOfSubset(a: set<string>, b: set<string>)
    requires a <= b
    ensures |a| <= |b|
  {
    if a != {} {
      var x :| x in a;
      CardinalityOfSubset(a - {x}, b - {x});
    }
  }
}
