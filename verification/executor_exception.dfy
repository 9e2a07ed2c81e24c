/**
  The executor's error taxonomy: a closed set of error codes, the HTTP status
  each code maps to, the codes a caller may retry, and the exception that
  carries a code, a message, the id of the logged run and the elapsed time.
 */
module ExecutorErrors {
  import opened Wrappers

  /** The id the run store gives a logged run. */
  type RunId = nat

  datatype ErrorCode =
    | CliNotFound
    | CliTimeout
    | CliError
    | ParseError
    | SchemaInvalid
    | PromptTooLong
    | RateLimit
    | ModelError
    | WorkspaceError
    | SchemaNotFound

  /** The enum's string value, as it appears in a response body and a run record. */
  function CodeName(c: ErrorCode): string {
    match c
    case CliNotFound => "CLI_NOT_FOUND"
    case CliTimeout => "CLI_TIMEOUT"
    case CliError => "CLI_ERROR"
    case ParseError => "PARSE_ERROR"
    case SchemaInvalid => "SCHEMA_INVALID"
    case PromptTooLong => "PROMPT_TOO_LONG"
    case RateLimit => "RATE_LIMIT"
    case ModelError => "MODEL_ERROR"
    case WorkspaceError => "WORKSPACE_ERROR"
    case SchemaNotFound => "SCHEMA_NOT_FOUND"
  }

  /** Distinct codes have distinct names, so a name identifies its code. */
  lemma CodeNameInjective(a: ErrorCode, b: ErrorCode)
    ensures CodeName(a) == CodeName(b) ==> a == b
  {
  }

  /** The `ERROR_HTTP_STATUS` table: one status for every code. */
  function HttpStatus(c: ErrorCode): (s: int)
    ensures s in {400, 404, 429, 500, 502, 504}
    ensures s == 504 <==> c == CliTimeout
    ensures s == 400 <==> c == SchemaInvalid || c == PromptTooLong
    ensures s == 429 <==> c == RateLimit
    ensures s == 502 <==> c == ModelError
    ensures s == 404 <==> c == SchemaNotFound
    ensures s == 500 <==> c in {CliNotFound, CliError, ParseError, WorkspaceError}
  {
    match c
    case CliNotFound => 500
    case CliTimeout => 504
    case CliError => 500
    case ParseError => 500
    case SchemaInvalid => 400
    case PromptTooLong => 400
    case RateLimit => 429
    case ModelError => 502
    case WorkspaceError => 500
    case SchemaNotFound => 404
  }

  /** The `RETRIABLE_ERRORS` list. */
  const RetriableErrors: seq<ErrorCode> := [CliTimeout, CliError, RateLimit, ModelError]

  /** Membership in `RETRIABLE_ERRORS` (`RETRIABLE_ERRORS.includes(code)`). */
  predicate Retriable(c: ErrorCode) {
    c in RetriableErrors
  }

  /** Exactly four codes are retriable; the other six are not. */
  lemma RetriableExactly(c: ErrorCode)
    ensures Retriable(c) <==> c in {CliTimeout, CliError, RateLimit, ModelError}
    ensures !Retriable(c) <==> c in {CliNotFound, ParseError, SchemaInvalid, PromptTooLong, WorkspaceError, SchemaNotFound}
  {
  }

  /** A code the table maps to a client error (400 or 404) is never retriable. */
  lemma ClientErrorsNotRetriable(c: ErrorCode)
    ensures HttpStatus(c) == 400 || HttpStatus(c) == 404 ==> !Retriable(c)
  {
  }

  /** The error object inside a failure body. */
  datatype ErrorDetails = ErrorDetails(code: ErrorCode, message: string, retriable: bool)

  /** The JSON body an `ExecutorException` is raised with. */
  datatype ErrorBody = ErrorBody(success: bool, error: ErrorDetails, runId: Option<RunId>, durationMs: Option<int>)

  /** An `ExecutorException`: `runId` and `durationMs` are `undefined` (None) when not supplied. */
  datatype ExecutorException = ExecutorException(code: ErrorCode, message: string, runId: Option<RunId>, durationMs: Option<int>)
  {
    /** The response body passed to the HTTP exception. */
    function Body(): (b: ErrorBody)
      ensures !b.success
      ensures b.error.code == code && b.error.message == message
      ensures b.runId == runId && b.durationMs == durationMs
      ensures b.error.retriable <==> code in {CliTimeout, CliError, RateLimit, ModelError}
    {
      ErrorBody(false, ErrorDetails(code, message, code in RetriableErrors), runId, durationMs)
    }

    /**
      The HTTP status the exception is raised with: a client error (below 500)
      exactly for the invalid-request, not-found and rate-limit codes, and of
      those only a rate limit may be retried.
     */
    function Status(): (s: int)
      ensures 400 <= s < 600
      ensures s < 500 <==> code in {SchemaInvalid, PromptTooLong, RateLimit, SchemaNotFound}
      ensures s < 500 && IsRetriable() ==> s == 429
    {
      HttpStatus(code)
    }

    /**
      `error.message` as code that catches the exception reads it. `message` is
      a plain constructor parameter, not a property, and the response object has
      no top-level string `message`, so `HttpException` falls back to its class
      name split into words, whatever message the exception was built with.
     */
    function ErrorMessage(): string {
      InheritedMessage
    }

    /** `isRetriable()`. */
    predicate IsRetriable() {
      Retriable(code)
    }
  }

  /** The body's `retriable` flag and `isRetriable()` agree for every exception. */
  lemma BodyAgreesWithIsRetriable(e: ExecutorException)
    ensures e.Body().error.retriable == e.IsRetriable()
  {
  }

  /** The text `HttpException` derives from the class name `ExecutorException`. */
  const InheritedMessage: string := "Executor Exception"

  /**
    An exception with no run id or duration yet (the two-argument constructor
    call): its body reports the code, the message and the code's retriable
    flag, with `runId` and `durationMs` left undefined.
   */
  function Exception(code: ErrorCode, message: string): (e: ExecutorException)
    ensures e.Body() == ErrorBody(false, ErrorDetails(code, message, Retriable(code)), None, None)
    ensures e.IsRetriable() <==> code in {CliTimeout, CliError, RateLimit, ModelError}
  {
    ExecutorException(code, message, None, None)
  }
}
