/**
 * The logging service: an in-memory log buffer capped at the newest 100
 * entries, a persisted list of error entries capped at the newest 50, and
 * the table that turns a raw error into a title and message fit for users.
 */
module Logging {
  import opened Values

  datatype Level = Error | Warn | Info | Debug

  /** One structured log entry; its timestamp is supplied by the caller's clock. */
  datatype LogEntry = LogEntry(timestamp: string, level: Level, message: string, context: Fields)

  /** Entries kept in memory. */
  const MaxLogs: nat := 100

  /** Error entries kept in persistent storage. */
  const MaxErrorLogs: nat := 50

  /** `list.push(entry); if (list.length > cap) list.shift();` */
  function AppendCapped(list: seq<LogEntry>, entry: LogEntry, cap: nat): seq<LogEntry>
  {
    var grown := list + [entry];
    if |grown| > cap then grown[1..] else grown
  }

  /** The entries of `logs` at `level`, in order. */
  function AtLevel(logs: seq<LogEntry>, level: Level): (r: seq<LogEntry>)
    ensures |r| <= |logs|
  {
    if logs == [] then []
    else (if logs[0].level == level then [logs[0]] else []) + AtLevel(logs[1..], level)
  }

  /**
   * Appending to a full buffer drops exactly the oldest entry; appending to
   * a buffer with room keeps everything.  Either way the new entry is last and
   * the buffer stays within its cap.
   */
  lemma AppendCappedShape(list: seq<LogEntry>, entry: LogEntry, cap: nat)
    requires 0 < cap && |list| <= cap
    ensures var r := AppendCapped(list, entry, cap);
      && |r| <= cap
      && r[|r| - 1] == entry
      && (|list| < cap ==> r == list + [entry])
      && (|list| == cap ==> r == list[1..] + [entry])
  {
  }

  /** Filtering by level keeps exactly the entries at that level. */
  lemma {:induction false} AtLevelMembers(logs: seq<LogEntry>, level: Level)
    ensures forall e :: e in AtLevel(logs, level) <==> e in logs && e.level == level
  {
    if logs != [] {
      AtLevelMembers(logs[1..], level);
      assert logs == [logs[0]] + logs[1..];
    }
  }

  /** Filtering by level keeps the buffer's order: it distributes over concatenation. */
  lemma {:induction false} AtLevelAppend(a: seq<LogEntry>, b: seq<LogEntry>, level: Level)
    ensures AtLevel(a + b, level) == AtLevel(a, level) + AtLevel(b, level)
  {
    if a == [] {
      assert a + b == b;
    } else {
      var head := if a[0].level == level then [a[0]] else [];
      assert (a + b)[0] == a[0];
      assert (a + b)[1..] == a[1..] + b;
      assert AtLevel(a + b, level) == head + AtLevel(a[1..] + b, level);
      AtLevelAppend(a[1..], b, level);
      assert AtLevel(a, level) == head + AtLevel(a[1..], level);
      assert head + (AtLevel(a[1..], level) + AtLevel(b, level)) == head + AtLevel(a[1..], level) + AtLevel(b, level);
    }
  }

  class Logger {
    /** The in-memory buffer, oldest first. */
    var logs: seq<LogEntry>
    /** The persisted list of error entries, oldest first. */
    var errorLogs: seq<LogEntry>

    ghost predicate Valid()
      reads this
    {
      |logs| <= MaxLogs
    }

    /** A fresh logger starts with an empty buffer; the persisted error list survives from earlier sessions. */
    constructor (persistedErrors: seq<LogEntry>)
      ensures Valid()
      ensures logs == [] && errorLogs == persistedErrors
    {
      logs := [];
      errorLogs := persistedErrors;
    }

    /** Records an entry; only error entries are also sent on to persistent storage. */
    method CreateLogEntry(level: Level, message: string, context: Fields, timestamp: string) returns (entry: LogEntry)
      requires Valid()
      modifies this
      ensures Valid()
      ensures entry == LogEntry(timestamp, level, message, context)
      ensures logs == AppendCapped(old(logs), entry, MaxLogs)
      ensures errorLogs == if level == Error then AppendCapped(old(errorLogs), entry, MaxErrorLogs) else old(errorLogs)
    {
      entry := LogEntry(timestamp, level, message, context);
      logs := logs + [entry];
      if |logs| > MaxLogs {
        logs := logs[1..];
      }
      if level == Error {
        SendToBackend(entry);
      }
    }

    /** Appends to the persisted error list, keeping the newest 50. */
    method SendToBackend(entry: LogEntry)
      modifies this
      ensures logs == old(logs)
      ensures errorLogs == AppendCapped(old(errorLogs), entry, MaxErrorLogs)
      ensures |old(errorLogs)| <= MaxErrorLogs ==> |errorLogs| <= MaxErrorLogs
    {
      errorLogs := errorLogs + [entry];
      if |errorLogs| > MaxErrorLogs {
        errorLogs := errorLogs[1..];
      }
    }

    /** `getLogs(level)`: the entries at `level`, or a copy of the whole buffer when no level is given. */
    function GetLogs(level: Option<Level>): (r: seq<LogEntry>)
      reads this
      ensures level.None? ==> r == logs
      ensures level.Some? ==> forall e :: e in r <==> e in logs && e.level == level.value
    {
      if level.Some? then
        AtLevelMembers(logs, level.value);
        AtLevel(logs, level.value)
      else logs
    }

    /** Empties the buffer and the persisted error list. */
    method Clear()
      modifies this
      ensures Valid()
      ensures logs == [] && errorLogs == []
    {
      logs := [];
      errorLogs := [];
    }
  }

  // ---------------------------------------------------------------------
  // User-facing error messages

  /** The table of user-facing errors. */
  datatype FriendlyError =
    | ApiKeyInvalid
    | ApiKeyMissing
    | ApiRateLimit
    | ApiInsufficientCredits
    | NetworkError
    | Timeout
    | FileTooLarge
    | InvalidFileType
    | FileReadError
    | ExtractionFailed
    | NotAnInvoice
    | LowQualityImage
    | UnknownError
  {
    function Title(): string
    {
      match this
      case ApiKeyInvalid => "API Key Issue"
      case ApiKeyMissing => "API Key Missing"
      case ApiRateLimit => "Rate Limit Exceeded"
      case ApiInsufficientCredits => "Insufficient Credits"
      case NetworkError => "Connection Issue"
      case Timeout => "Request Timeout"
      case FileTooLarge => "File Too Large"
      case InvalidFileType => "Invalid File Type"
      case FileReadError => "File Read Error"
      case ExtractionFailed => "Extraction Failed"
      case NotAnInvoice => "Not an Invoice"
      case LowQualityImage => "Poor Image Quality"
      case UnknownError => "Something Went Wrong"
    }

    function Message(): string
    {
      match this
      case ApiKeyInvalid => "Your Anthropic API key appears to be invalid. Please check your API key in the .env file."
      case ApiKeyMissing => "No API key found. Please add your Anthropic API key to the .env file."
      case ApiRateLimit => "Too many requests. Please wait a moment before trying again."
      case ApiInsufficientCredits => "Your Anthropic account has insufficient credits. Please add credits to continue."
      case NetworkError => "Unable to connect to the service. Please check your internet connection."
      case Timeout => "The request took too long. Please try again."
      case FileTooLarge => "The invoice image is too large. Please use an image under 5MB."
      case InvalidFileType => "Please upload a valid image file (JPG, PNG, or PDF)."
      case FileReadError => "Unable to read the file. Please try uploading it again."
      case ExtractionFailed => "Unable to extract data from the invoice. The image may be unclear or not an invoice."
      case NotAnInvoice => "This document doesn't appear to be an invoice. Please upload a valid invoice image."
      case LowQualityImage => "The image quality is too low to extract reliable data. Please upload a clearer image."
      case UnknownError => "An unexpected error occurred. Please try again or contact support if the issue persists."
    }

    function Action(): string
    {
      match this
      case ApiKeyInvalid => "Verify API Key"
      case ApiKeyMissing => "Add API Key"
      case ApiRateLimit => "Try Again Later"
      case ApiInsufficientCredits => "Add Credits"
      case NetworkError => "Retry"
      case Timeout => "Retry"
      case FileTooLarge => "Choose Smaller File"
      case InvalidFileType => "Choose Different File"
      case FileReadError => "Try Again"
      case ExtractionFailed => "Try Different Image"
      case NotAnInvoice => "Upload Invoice"
      case LowQualityImage => "Upload Better Image"
      case UnknownError => "Try Again"
    }
  }

  /** The parts of a raw error the classifier reads. */
  datatype ErrorInfo = ErrorInfo(message: Option<string>, status: Option<int>)

  /** The classifier's context object; a missing property is `Undefined`. */
  datatype ErrorContext = ErrorContext(kind: Value, documentType: Value, extractionQuality: Value)

  const EmptyContext := ErrorContext(Undefined, Undefined, Undefined)

  /** `error?.message?.includes(text)` */
  predicate MessageHas(error: Option<ErrorInfo>, text: string)
  {
    error.Some? && error.value.message.Some? && Contains(error.value.message.value, text)
  }

  predicate IsAuthFailure(error: Option<ErrorInfo>)
  {
    MessageHas(error, "authentication_error") || MessageHas(error, "invalid x-api-key")
  }

  predicate IsMissingKey(error: Option<ErrorInfo>)
  {
    MessageHas(error, "apiKey") || MessageHas(error, "authToken")
  }

  predicate IsRateLimited(error: Option<ErrorInfo>)
  {
    (error.Some? && error.value.status == Some(429)) || MessageHas(error, "rate_limit")
  }

  predicate IsOutOfCredit(error: Option<ErrorInfo>)
  {
    MessageHas(error, "insufficient_quota") || MessageHas(error, "billing")
  }

  predicate IsNetworkFailure(error: Option<ErrorInfo>)
  {
    MessageHas(error, "network") || MessageHas(error, "fetch failed")
  }

  /** Any of the six message checks fires. */
  predicate MessageMatches(error: Option<ErrorInfo>)
  {
    IsAuthFailure(error) || IsMissingKey(error) || IsRateLimited(error)
    || IsOutOfCredit(error) || IsNetworkFailure(error) || MessageHas(error, "timeout")
  }

  /** `getUserFriendlyError`: message checks first, then the context, then the generic entry. */
  function GetUserFriendlyError(error: Option<ErrorInfo>, context: ErrorContext): FriendlyError
  {
    if IsAuthFailure(error) then ApiKeyInvalid
    else if IsMissingKey(error) then ApiKeyMissing
    else if IsRateLimited(error) then ApiRateLimit
    else if IsOutOfCredit(error) then ApiInsufficientCredits
    else if IsNetworkFailure(error) then NetworkError
    else if MessageHas(error, "timeout") then Timeout
    else if context.kind == Str("file_too_large") then FileTooLarge
    else if context.kind == Str("invalid_file_type") then InvalidFileType
    else if Truthy(context.documentType) && context.documentType != Str("invoice") then NotAnInvoice
    else if context.extractionQuality == Str("low") then LowQualityImage
    else UnknownError
  }

  /** Each message check wins over every later check and over the whole context. */
  lemma MessageChecksInOrder(error: Option<ErrorInfo>, context: ErrorContext)
    ensures GetUserFriendlyError(error, context) == ApiKeyInvalid <==> IsAuthFailure(error)
    ensures GetUserFriendlyError(error, context) == ApiKeyMissing <==> !IsAuthFailure(error) && IsMissingKey(error)
    ensures GetUserFriendlyError(error, context) == ApiRateLimit
      <==> !IsAuthFailure(error) && !IsMissingKey(error) && IsRateLimited(error)
    ensures GetUserFriendlyError(error, context) == ApiInsufficientCredits
      <==> !IsAuthFailure(error) && !IsMissingKey(error) && !IsRateLimited(error) && IsOutOfCredit(error)
    ensures GetUserFriendlyError(error, context) == NetworkError
      <==> !IsAuthFailure(error) && !IsMissingKey(error) && !IsRateLimited(error) && !IsOutOfCredit(error)
           && IsNetworkFailure(error)
    ensures GetUserFriendlyError(error, context) == Timeout
      <==> !IsAuthFailure(error) && !IsMissingKey(error) && !IsRateLimited(error) && !IsOutOfCredit(error)
           && !IsNetworkFailure(error) && MessageHas(error, "timeout")
  {
  }

  /** When no message check fires, the context decides, in a fixed order. */
  lemma ContextRulesInOrder(error: Option<ErrorInfo>, context: ErrorContext)
    requires !MessageMatches(error)
    ensures context.kind == Str("file_too_large") ==> GetUserFriendlyError(error, context) == FileTooLarge
    ensures context.kind == Str("invalid_file_type") ==> GetUserFriendlyError(error, context) == InvalidFileType
    ensures GetUserFriendlyError(error, context) == NotAnInvoice
      <==> context.kind != Str("file_too_large") && context.kind != Str("invalid_file_type")
           && Truthy(context.documentType) && context.documentType != Str("invoice")
    ensures GetUserFriendlyError(error, context) == LowQualityImage
      <==> context.kind != Str("file_too_large") && context.kind != Str("invalid_file_type")
           && !(Truthy(context.documentType) && context.documentType != Str("invoice"))
           && context.extractionQuality == Str("low")
  {
  }

  /**
   * The classifier only ever answers with eleven of the thirteen table
   * entries: 'File Read Error' and 'Extraction Failed' are never chosen.
   * With no error and an empty context the answer is the generic entry.
   */
  lemma ClassifierRange(error: Option<ErrorInfo>, context: ErrorContext)
    ensures GetUserFriendlyError(error, context) != FileReadError
    ensures GetUserFriendlyError(error, context) != ExtractionFailed
    ensures GetUserFriendlyError(None, EmptyContext) == UnknownError
  {
  }
}
