/**
 * The two model agents as the pipeline sees them: the SDK call itself is an
 * abstract reply (text and token usage, or a thrown error); what is modelled
 * is the cost arithmetic, the cut of the `{...}` span out of the reply text,
 * the parse (an abstract partial function), the score aliases and the
 * success and failure result shapes.
 */
module ClaudeService {
  import opened Values

  datatype ModelTier = Sonnet | Haiku

  datatype Usage = Usage(inputTokens: nat, outputTokens: nat)

  /** What one agent call cost: token counts, total, and its input/output breakdown. */
  datatype CostRecord = CostRecord(
    inputTokens: nat,
    outputTokens: nat,
    totalCost: real,
    inputCost: real,
    outputCost: real)

  /** Dollars per thousand input tokens. */
  function InputRate(tier: ModelTier): real
  {
    match tier
    case Sonnet => 0.003
    case Haiku => 0.0003
  }

  /** Dollars per thousand output tokens. */
  function OutputRate(tier: ModelTier): real
  {
    match tier
    case Sonnet => 0.015
    case Haiku => 0.0015
  }

  function CalculateCost(tier: ModelTier, usage: Usage): CostRecord
  {
    var inputCost := (usage.inputTokens as real / 1000.0) * InputRate(tier);
    var outputCost := (usage.outputTokens as real / 1000.0) * OutputRate(tier);
    CostRecord(usage.inputTokens, usage.outputTokens, inputCost + outputCost, inputCost, outputCost)
  }

  /** A cost record as `CalculateCost` makes them: non-negative parts that add up to the total. */
  predicate WellFormedCost(c: CostRecord)
  {
    c.inputCost >= 0.0 && c.outputCost >= 0.0 && c.totalCost == c.inputCost + c.outputCost
  }

  /**
   * The record copies the token counts, prices each side at the tier's rate
   * per thousand tokens, and its total is the sum of the two sides.
   */
  lemma CostRecordShape(tier: ModelTier, usage: Usage)
    ensures var c := CalculateCost(tier, usage);
      && c.inputTokens == usage.inputTokens && c.outputTokens == usage.outputTokens
      && c.inputCost == usage.inputTokens as real * InputRate(tier) / 1000.0
      && c.outputCost == usage.outputTokens as real * OutputRate(tier) / 1000.0
      && WellFormedCost(c)
  {
  }

  /** For the same usage, the extraction tier costs exactly ten times the scoring tier. */
  lemma SonnetCostsTenTimesHaiku(usage: Usage)
    ensures CalculateCost(Sonnet, usage).totalCost == 10.0 * CalculateCost(Haiku, usage).totalCost
  {
  }

  /** More tokens never cost less. */
  lemma CostMonotone(tier: ModelTier, a: Usage, b: Usage)
    requires a.inputTokens <= b.inputTokens && a.outputTokens <= b.outputTokens
    ensures CalculateCost(tier, a).totalCost <= CalculateCost(tier, b).totalCost
  {
  }

  // ---------------------------------------------------------------------
  // The `{...}` span of a reply

  /** The first position of `c` in `s`. */
  function FirstIndexOf(s: string, c: char): (r: Option<nat>)
    ensures r.Some? ==> r.value < |s| && s[r.value] == c && forall k :: 0 <= k < r.value ==> s[k] != c
    ensures r.None? ==> forall k :: 0 <= k < |s| ==> s[k] != c
  {
    if s == [] then None
    else if s[0] == c then Some(0)
    else
      var rest := FirstIndexOf(s[1..], c);
      assert forall k :: 1 <= k < |s| ==> s[k] == s[1..][k - 1];
      if rest.None? then None else Some(rest.value + 1)
  }

  /** The last position of `c` in `s`. */
  function LastIndexOf(s: string, c: char): (r: Option<nat>)
    ensures r.Some? ==> r.value < |s| && s[r.value] == c && forall k :: r.value < k < |s| ==> s[k] != c
    ensures r.None? ==> forall k :: 0 <= k < |s| ==> s[k] != c
  {
    if s == [] then None
    else if s[|s| - 1] == c then Some(|s| - 1)
    else LastIndexOf(s[..|s| - 1], c)
  }

  /**
   * `text.match(/\{[\s\S]*\}/)`: the greedy match runs from the first '{'
   * to the last '}', and there is a match exactly when some '}' follows some '{'.
   */
  function JsonSpan(text: string): (r: Option<string>)
    ensures r.Some? <==> exists i, j :: 0 <= i < j < |text| && text[i] == '{' && text[j] == '}'
    ensures r.Some? ==> exists i, j ::
      && 0 <= i < j < |text|
      && r.value == text[i..j + 1]
      && text[i] == '{' && text[j] == '}'
      && (forall k :: 0 <= k < i ==> text[k] != '{')
      && (forall k :: j < k < |text| ==> text[k] != '}')
  {
    var open := FirstIndexOf(text, '{');
    var close := LastIndexOf(text, '}');
    if open.Some? && close.Some? && open.value < close.value then
      Some(text[open.value..close.value + 1])
    else
      None
  }

  // ---------------------------------------------------------------------
  // The agents

  /** What the SDK call gives back: the reply text and its usage, or a thrown error. */
  datatype ModelReply =
    | Replied(text: string, usage: Usage)
    | Threw(message: Option<string>, errorType: Option<string>)

  datatype ExtractResult =
    | Extracted(data: Fields, cost: CostRecord)
    | ExtractFailed(error: string, errorType: string)

  datatype ScoreResult =
    | Scored(scores: ScoreMap, cost: CostRecord)
    | ScoreFailed(error: Option<string>)

  const NoJsonMessage := "Failed to extract JSON from response"
  const DefaultExtractMessage := "Failed to extract document data"

  /** The extraction agent; `parse` stands for `JSON.parse`, failing with its error message. */
  function ExtractDocumentData(reply: ModelReply, parse: string -> Result<Fields, string>): ExtractResult
  {
    match reply
    case Threw(message, errorType) =>
      ExtractFailed(if TruthyText(message) then message.value else DefaultExtractMessage,
                    if TruthyText(errorType) then errorType.value else "extraction_error")
    case Replied(text, usage) =>
      match JsonSpan(text)
      case None => ExtractFailed(NoJsonMessage, "extraction_error")
      case Some(span) =>
        match parse(span)
        case Err(message) =>
          ExtractFailed(if message != "" then message else DefaultExtractMessage, "extraction_error")
        case Ok(data) => Extracted(data, CalculateCost(Sonnet, usage))
  }

  /**
   * Extraction succeeds exactly when the reply holds a span that parses; its
   * cost is priced at the extraction tier's rates; a failure always carries a
   * non-empty message and error type.
   */
  lemma ExtractionOutcome(reply: ModelReply, parse: string -> Result<Fields, string>)
    ensures var r := ExtractDocumentData(reply, parse);
      && (r.Extracted? <==> reply.Replied? && JsonSpan(reply.text).Some? && parse(JsonSpan(reply.text).value).Ok?)
      && (r.Extracted? ==> r.data == parse(JsonSpan(reply.text).value).value
                           && r.cost == CalculateCost(Sonnet, reply.usage) && WellFormedCost(r.cost))
      && (r.ExtractFailed? ==> r.error != "" && r.errorType != "")
      && (reply.Replied? && JsonSpan(reply.text).None? ==> r == ExtractFailed(NoJsonMessage, "extraction_error"))
  {
  }

  /** `{...scores, invoice_number: scores.reference_number || scores.invoice_number, ...}` */
  function AliasScore(scores: ScoreMap, canonical: string, alias: string): ScoreMap
  {
    if canonical in scores then scores[alias := scores[canonical]]
    else if alias in scores then scores
    else scores - {alias}
  }

  /** The alias names the UI reads, each paired with the name the agents use. */
  const ScoreAliases: seq<(string, string)> := [
    ("reference_number", "invoice_number"),
    ("transaction_date", "invoice_date"),
    ("total_amount", "amount_due"),
    ("payment_due_date", "due_date")
  ]

  function MapScoreAliases(scores: ScoreMap): ScoreMap
  {
    var s1 := AliasScore(scores, "reference_number", "invoice_number");
    var s2 := AliasScore(s1, "transaction_date", "invoice_date");
    var s3 := AliasScore(s2, "total_amount", "amount_due");
    AliasScore(s3, "payment_due_date", "due_date")
  }

  predicate IsScoreAlias(key: string)
  {
    key in {"invoice_number", "invoice_date", "amount_due", "due_date"}
  }

  /** The alias takes the canonical score when there is one, and keeps its own otherwise. */
  predicate AliasAgrees(scores: ScoreMap, m: ScoreMap, canonical: string, alias: string)
  {
    && (canonical in scores ==> alias in m && m[alias] == scores[canonical])
    && (canonical !in scores ==> (alias in m <==> alias in scores) && (alias in scores ==> m[alias] == scores[alias]))
  }

  /** `m` agrees with `scores` on `key`. */
  predicate SameAt(scores: ScoreMap, m: ScoreMap, key: string)
  {
    (key in m <==> key in scores) && (key in scores ==> m[key] == scores[key])
  }

  lemma AliasScoreEffect(scores: ScoreMap, canonical: string, alias: string)
    requires canonical != alias
    ensures AliasAgrees(scores, AliasScore(scores, canonical, alias), canonical, alias)
    ensures forall k :: k != alias ==> SameAt(scores, AliasScore(scores, canonical, alias), k)
  {
  }

  /**
   * Each alias takes the canonical field's score when there is one and keeps
   * its own otherwise; every other key, canonical ones included, is kept.
   */
  lemma ScoreAliasesAgree(scores: ScoreMap)
    ensures forall p :: p in ScoreAliases ==> AliasAgrees(scores, MapScoreAliases(scores), p.0, p.1)
    ensures forall k :: !IsScoreAlias(k) ==> SameAt(scores, MapScoreAliases(scores), k)
  {
    var s1 := AliasScore(scores, "reference_number", "invoice_number");
    var s2 := AliasScore(s1, "transaction_date", "invoice_date");
    var s3 := AliasScore(s2, "total_amount", "amount_due");
    var m := AliasScore(s3, "payment_due_date", "due_date");
    AliasScoreEffect(scores, "reference_number", "invoice_number");
    AliasScoreEffect(s1, "transaction_date", "invoice_date");
    AliasScoreEffect(s2, "total_amount", "amount_due");
    AliasScoreEffect(s3, "payment_due_date", "due_date");
    assert AliasAgrees(scores, m, "reference_number", "invoice_number");
    assert AliasAgrees(scores, m, "transaction_date", "invoice_date");
    assert AliasAgrees(scores, m, "total_amount", "amount_due");
    assert AliasAgrees(scores, m, "payment_due_date", "due_date");
    forall p | p in ScoreAliases
      ensures AliasAgrees(scores, m, p.0, p.1)
    {
      assert p == ScoreAliases[0] || p == ScoreAliases[1] || p == ScoreAliases[2] || p == ScoreAliases[3];
    }
    forall k | !IsScoreAlias(k)
      ensures SameAt(scores, m, k)
    {
      assert SameAt(scores, s1, k) && SameAt(s1, s2, k) && SameAt(s2, s3, k) && SameAt(s3, m, k);
    }
  }

  /** The scoring agent; its cost is priced at the scoring tier's rates. */
  function ScoreExtractedData(reply: ModelReply, parse: string -> Result<ScoreMap, string>): ScoreResult
  {
    match reply
    case Threw(message, _) => ScoreFailed(message)
    case Replied(text, usage) =>
      match JsonSpan(text)
      case None => ScoreFailed(Some("Failed to extract JSON from scoring response"))
      case Some(span) =>
        match parse(span)
        case Err(message) => ScoreFailed(Some(message))
        case Ok(scores) => Scored(MapScoreAliases(scores), CalculateCost(Haiku, usage))
  }

  /** Scoring succeeds exactly when the reply holds a span that parses, and only then reports a cost. */
  lemma ScoringOutcome(reply: ModelReply, parse: string -> Result<ScoreMap, string>)
    ensures var r := ScoreExtractedData(reply, parse);
      && (r.Scored? <==> reply.Replied? && JsonSpan(reply.text).Some? && parse(JsonSpan(reply.text).value).Ok?)
      && (r.Scored? ==> r.scores == MapScoreAliases(parse(JsonSpan(reply.text).value).value)
                        && r.cost == CalculateCost(Haiku, reply.usage) && WellFormedCost(r.cost))
  {
  }
}
