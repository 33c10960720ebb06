/**
 * The serverless scoring endpoint: a daily spending budget kept in a
 * tracker shared by every invocation, a request gate in front of the model
 * call, the charge for each call, and the mapping of failures to HTTP
 * responses.  The request body, the model call and `JSON.parse` are
 * parameters; "today" is the UTC calendar date as the tracker stores it.
 */
module ClaudeScore {
  import opened Values
  import opened Logging

  /** Dollars the endpoint may spend per day. */
  const DailyCostLimit: real := 1.0

  /** The tracker's contents: the day it counts for and what that day has cost so far. */
  datatype TrackerState = TrackerState(date: string, totalCost: real)

  /** `checkAndResetDailyLimit`: a new day starts from zero; the same day is kept. */
  function Reset(s: TrackerState, today: string): (r: TrackerState)
    ensures r.date == today
  {
    if s.date != today then TrackerState(today, 0.0) else s
  }

  /** Dollars for a call: $0.80 per million input tokens and $4.00 per million output tokens. */
  function CalculateCost(inputTokens: nat, outputTokens: nat): real
  {
    (inputTokens as real / 1000000.0) * 0.80 + (outputTokens as real / 1000000.0) * 4.00
  }

  /** `Math.max(0, DAILY_COST_LIMIT - total)` */
  function RemainingBudget(total: real): (r: real)
    ensures r >= 0.0
    ensures r == if total <= DailyCostLimit then DailyCostLimit - total else 0.0
  {
    if DailyCostLimit - total > 0.0 then DailyCostLimit - total else 0.0
  }

  /** The part of the request body the endpoint reads. */
  datatype RequestBody = RequestBody(extractedData: Value, validationResults: Value)

  /** The HTTP method and the body; an `Err` body is the error `request.json()` throws. */
  datatype Request = Request(verb: string, body: Result<RequestBody, ErrorInfo>)

  /** What the model call gives back: the reply text and token counts, or the error it throws. */
  datatype ScoreReply =
    | Answered(text: string, inputTokens: nat, outputTokens: nat)
    | Rejected(error: ErrorInfo)

  /** The responses the endpoint sends. */
  datatype Response =
    | ErrorResponse(status: int, error: string, errorType: Option<string>)
    | LimitReached(currentUsage: real)
    | Success(data: Value, inputTokens: nat, outputTokens: nat, cost: real, dailyTotal: real, remainingBudget: real)

  function StatusOf(r: Response): int
  {
    match r
    case ErrorResponse(status, _, _) => status
    case LimitReached(_) => 429
    case Success(_, _, _, _, _, _) => 200
  }

  const MethodNotAllowed := ErrorResponse(405, "Method not allowed", None)
  const MissingData := ErrorResponse(400, "Missing extractedData in request body", None)

  /** The catch block: authentication and rate-limit errors by status, anything else a server error. */
  function Caught(e: ErrorInfo): Response
  {
    if e.status == Some(401) then ErrorResponse(500, "API authentication failed", Some("authentication_error"))
    else if e.status == Some(429) then ErrorResponse(429, "API rate limit exceeded", Some("rate_limit_error"))
    else ErrorResponse(500, if TruthyText(e.message) then e.message.value else "Internal server error", Some("server_error"))
  }

  datatype Outcome = Outcome(response: Response, tracker: TrackerState)

  /**
   * One invocation, from the tracker it finds: the response it sends and
   * the tracker it leaves.  `call` is the model call for the body's data and
   * `parse` stands for `JSON.parse`, failing with its message.
   */
  function Handle(s: TrackerState, today: string, request: Request,
                  call: (Value, Value) -> ScoreReply, parse: string -> Result<Value, string>): Outcome
  {
    if request.verb != "POST" then Outcome(MethodNotAllowed, s)
    else
      var s1 := Reset(s, today);
      if s1.totalCost >= DailyCostLimit then Outcome(LimitReached(s1.totalCost), s1)
      else
        match request.body
        case Err(e) => Outcome(Caught(e), s1)
        case Ok(body) =>
          if !Truthy(body.extractedData) then Outcome(MissingData, s1)
          else
            match call(body.extractedData, body.validationResults)
            case Rejected(e) => Outcome(Caught(e), s1)
            case Answered(text, inputTokens, outputTokens) =>
              var cost := CalculateCost(inputTokens, outputTokens);
              var s2 := s1.(totalCost := s1.totalCost + cost);
              match parse(text)
              case Err(message) => Outcome(Caught(ErrorInfo(Some(message), None)), s2)
              case Ok(data) =>
                Outcome(Success(data, inputTokens, outputTokens, cost, s2.totalCost, RemainingBudget(s2.totalCost)), s2)
  }

  // ---------------------------------------------------------------------
  // Properties

  /** On a new day the tracker restarts from zero, under the limit; on the same day it is unchanged. */
  lemma ResetRule(s: TrackerState, today: string)
    ensures s.date != today ==> Reset(s, today) == TrackerState(today, 0.0)
    ensures s.date == today ==> Reset(s, today) == s
    ensures Reset(Reset(s, today), today) == Reset(s, today)
    ensures s.date != today ==> Reset(s, today).totalCost < DailyCostLimit
  {
  }

  /** A call never costs less than nothing, and more tokens never cost less. */
  lemma CostBounds(i1: nat, o1: nat, i2: nat, o2: nat)
    ensures CalculateCost(i1, o1) >= 0.0
    ensures i1 <= i2 && o1 <= o2 ==> CalculateCost(i1, o1) <= CalculateCost(i2, o2)
    ensures CalculateCost(i1, o1) * 1000000.0 == 0.80 * i1 as real + 4.00 * o1 as real
  {
  }

  /** Anything but POST gets 405 before the tracker is even looked at. */
  lemma NonPostRejected(s: TrackerState, today: string, request: Request,
                        call: (Value, Value) -> ScoreReply, parse: string -> Result<Value, string>)
    requires request.verb != "POST"
    ensures Handle(s, today, request, call, parse) == Outcome(ErrorResponse(405, "Method not allowed", None), s)
  {
  }

  /**
   * Once the day's spending has reached the limit, every POST gets 429 with
   * a rate-limit error type, no model call is made and nothing is charged.
   */
  lemma BudgetGate(s: TrackerState, today: string, request: Request,
                   call: (Value, Value) -> ScoreReply, parse: string -> Result<Value, string>)
    requires request.verb == "POST" && Reset(s, today).totalCost >= DailyCostLimit
    ensures var out := Handle(s, today, request, call, parse);
      && out.response == LimitReached(Reset(s, today).totalCost)
      && StatusOf(out.response) == 429
      && out.tracker == Reset(s, today)
  {
  }

  /**
   * A POST leaves the tracker on today's date; its total grows by exactly
   * the call's cost when the model answered, whether or not the reply then
   * parses, and stays as it was otherwise.
   */
  lemma ChargeRule(s: TrackerState, today: string, request: Request,
                   call: (Value, Value) -> ScoreReply, parse: string -> Result<Value, string>)
    requires request.verb == "POST"
    ensures var out := Handle(s, today, request, call, parse);
      var s1 := Reset(s, today);
      && out.tracker.date == today
      && out.tracker.totalCost >= s1.totalCost
      && (if s1.totalCost < DailyCostLimit && request.body.Ok? && Truthy(request.body.value.extractedData)
             && call(request.body.value.extractedData, request.body.value.validationResults).Answered?
          then
            var reply := call(request.body.value.extractedData, request.body.value.validationResults);
            out.tracker.totalCost == s1.totalCost + CalculateCost(reply.inputTokens, reply.outputTokens)
          else out.tracker == s1)
  {
    var s1 := Reset(s, today);
    if s1.totalCost < DailyCostLimit && request.body.Ok? && Truthy(request.body.value.extractedData) {
      var reply := call(request.body.value.extractedData, request.body.value.validationResults);
      if reply.Answered? {
        CostBounds(reply.inputTokens, reply.outputTokens, reply.inputTokens, reply.outputTokens);
      }
    }
  }

  /** A body without truthy `extractedData` gets 400 and costs nothing. */
  lemma MissingDataRejected(s: TrackerState, today: string, request: Request,
                            call: (Value, Value) -> ScoreReply, parse: string -> Result<Value, string>)
    requires request.verb == "POST" && Reset(s, today).totalCost < DailyCostLimit
    requires request.body.Ok? && !Truthy(request.body.value.extractedData)
    ensures Handle(s, today, request, call, parse) == Outcome(MissingData, Reset(s, today))
    ensures StatusOf(MissingData) == 400
  {
  }

  /**
   * Upstream errors: 401 becomes a 500 authentication error, 429 stays a
   * 429 rate-limit error, anything else is a 500 server error carrying the
   * message, or a generic one when there is none.
   */
  lemma UpstreamErrors(e: ErrorInfo)
    ensures e.status == Some(401) ==> Caught(e) == ErrorResponse(500, "API authentication failed", Some("authentication_error"))
    ensures e.status == Some(429) ==> Caught(e) == ErrorResponse(429, "API rate limit exceeded", Some("rate_limit_error"))
    ensures e.status != Some(401) && e.status != Some(429) ==>
      && StatusOf(Caught(e)) == 500 && Caught(e).errorType == Some("server_error")
      && (TruthyText(e.message) ==> Caught(e).error == e.message.value)
      && (!TruthyText(e.message) ==> Caught(e).error == "Internal server error")
  {
  }

  /**
   * Every response has one of five statuses; a success reports the day's
   * new total, which includes its own cost, and a remaining budget that is
   * never negative and is what the limit leaves of that total.
   */
  lemma ResponseShape(s: TrackerState, today: string, request: Request,
                      call: (Value, Value) -> ScoreReply, parse: string -> Result<Value, string>)
    ensures var out := Handle(s, today, request, call, parse);
      && StatusOf(out.response) in {200, 400, 405, 429, 500}
      && (out.response.Success? ==>
            && out.response.dailyTotal == out.tracker.totalCost
            && out.response.cost == CalculateCost(out.response.inputTokens, out.response.outputTokens)
            && out.response.remainingBudget >= 0.0
            && out.response.remainingBudget + out.tracker.totalCost >= DailyCostLimit)
  {
  }

  // ---------------------------------------------------------------------
  // The procedure

  /** The module-level `dailyCostTracker`, shared by every invocation of the function instance. */
  class CostTracker {
    var date: string
    var totalCost: real

    function State(): TrackerState
      reads this
    {
      TrackerState(date, totalCost)
    }

    constructor (today: string)
      ensures State() == TrackerState(today, 0.0)
    {
      date := today;
      totalCost := 0.0;
    }

    method CheckAndResetDailyLimit(today: string)
      modifies this
      ensures State() == Reset(old(State()), today)
    {
      if date != today {
        date := today;
        totalCost := 0.0;
      }
    }

    method Charge(cost: real)
      modifies this
      ensures State() == old(State()).(totalCost := old(totalCost) + cost)
    {
      totalCost := totalCost + cost;
    }
  }

  /** `handler`, step by step against the shared tracker. */
  method Handler(tracker: CostTracker, today: string, request: Request,
                 call: (Value, Value) -> ScoreReply, parse: string -> Result<Value, string>)
    returns (response: Response)
    modifies tracker
    ensures Outcome(response, tracker.State()) == Handle(old(tracker.State()), today, request, call, parse)
  {
    if request.verb != "POST" {
      return MethodNotAllowed;
    }
    tracker.CheckAndResetDailyLimit(today);
    if tracker.totalCost >= DailyCostLimit {
      return LimitReached(tracker.totalCost);
    }
    if request.body.Err? {
      return Caught(request.body.error);
    }
    var body := request.body.value;
    if !Truthy(body.extractedData) {
      return MissingData;
    }
    var reply := call(body.extractedData, body.validationResults);
    if reply.Rejected? {
      return Caught(reply.error);
    }
    var cost := CalculateCost(reply.inputTokens, reply.outputTokens);
    tracker.Charge(cost);
    var parsed := parse(reply.text);
    if parsed.Err? {
      return Caught(ErrorInfo(Some(parsed.error), None));
    }
    response := Success(parsed.value, reply.inputTokens, reply.outputTokens, cost,
                        tracker.totalCost, RemainingBudget(tracker.totalCost));
  }
}
