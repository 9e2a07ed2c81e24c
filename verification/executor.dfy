/**
  `ExecutorService.execute`: resolves the model and timeout of a task, calls the
  CLI core, and logs the run whatever happens: a success is logged and
  answered with the id of the logged run; an `ExecutorException` is logged and
  thrown again with that id attached; any other error is logged as
  "UNKNOWN_ERROR" and thrown again unchanged.
 */
module Executor {
  import opened Wrappers
  import opened Json
  import opened ExecutorErrors
  import opened CliResponse
  import opened Configuration
  import opened CliProcess
  import opened ClaudeCli
  import opened RunLogger

  /** `ExecuteTaskDto` (the unused `metadata` is left out). */
  datatype ExecuteTaskDto = ExecuteTaskDto(
    taskType: string,
    prompt: string,
    schema: Json,
    agent: Option<string>,
    model: Option<string>,
    timeout: Option<int>,
    allowedTools: Option<seq<string>>,
    referenceType: Option<string>,
    referenceId: Option<string>)

  /** `ExecuteSuccessResponseDto` (`success` is always true). */
  datatype ExecuteSuccess = ExecuteSuccess(
    data: Json,
    runId: RunId,
    sessionId: Json,
    durationMs: int,
    usage: Usage,
    costUsd: Json)

  /** What `execute` throws: an `ExecutorException`, or another error passed on as it was. */
  datatype Thrown = ThrownExecutor(exception: ExecutorException) | ThrownError(message: string)

  /** The parameters handed to the CLI core: the model and timeout are resolved here already. */
  function CallParamsOf(dto: ExecuteTaskDto, cfg: ExecutorConfig): (p: CallParams)
    ensures p.prompt == dto.prompt && p.schema == dto.schema && p.allowedTools == dto.allowedTools
    ensures p.model.Some? && p.timeout.Some?
    ensures dto.model.Some? && dto.model.value != "" ==> p.model.value == dto.model.value
    ensures dto.model.None? || dto.model.value == "" ==> p.model.value == cfg.defaults.model
    ensures dto.timeout.Some? && dto.timeout.value != 0 ==> p.timeout.value == dto.timeout.value
    ensures dto.timeout.None? || dto.timeout.value == 0 ==> p.timeout.value == cfg.defaults.timeout
  {
    var model := StringOr(dto.model, cfg.defaults.model);
    var timeout := if dto.timeout.Some? && dto.timeout.value != 0 then dto.timeout.value else cfg.defaults.timeout;
    CallParams(dto.prompt, dto.schema, Some(model), Some(timeout), dto.allowedTools)
  }

  /** The run logged after a successful call. */
  function SuccessLog(dto: ExecuteTaskDto, cfg: ExecutorConfig, resp: CallResponse, stringify: Serializer): SuccessParams {
    SuccessParams(
      taskType := dto.taskType,
      model := CallParamsOf(dto, cfg).model.value,
      agentName := dto.agent,
      sessionId := resp.sessionId,
      tokensIn := resp.usage.inputTokens,
      tokensOut := resp.usage.outputTokens,
      costUsd := resp.costUsd,
      durationMs := resp.durationMs,
      referenceType := dto.referenceType,
      referenceId := dto.referenceId,
      inputPreview := Some(dto.prompt),
      outputPreview := Some(stringify(resp.data)))
  }

  /** The run logged when the call throws: an exception's code and message, or "UNKNOWN_ERROR" with duration 0. */
  function ErrorLog(dto: ExecuteTaskDto, cfg: ExecutorConfig, thrown: Thrown): ErrorParams {
    ErrorParams(
      taskType := dto.taskType,
      model := CallParamsOf(dto, cfg).model.value,
      agentName := dto.agent,
      durationMs := if thrown.ThrownExecutor? then thrown.exception.durationMs.GetOr(0) else 0,
      errorCode := if thrown.ThrownExecutor? then CodeName(thrown.exception.code) else "UNKNOWN_ERROR",
      errorMessage := if thrown.ThrownExecutor? then thrown.exception.message else thrown.message,
      referenceType := dto.referenceType,
      referenceId := dto.referenceId,
      inputPreview := Some(dto.prompt))
  }

  /** The answer of `execute` and the record it logs, for a given outcome of the CLI call and the id the log gives. */
  datatype Handled = Handled(result: Result<ExecuteSuccess, Thrown>, logged: RunRecord)

  /**
    The catch block keeps the message of what was thrown: an exception's message
    is logged and thrown again, and any other error's message is logged.
   */
  function Handle(dto: ExecuteTaskDto, cfg: ExecutorConfig, outcome: Outcome, id: RunId, stringify: Serializer, now: int): (h: Handled)
    ensures h.result.Success? <==> outcome.Returned?
    ensures h.logged.success <==> outcome.Returned?
    ensures outcome.ThrewExecutor? ==>
      && h.result.Failure? && h.result.error.ThrownExecutor?
      && h.result.error.exception.Body().error.message == outcome.exception.message
      && h.logged.errorMessage == Some(outcome.exception.message)
    ensures outcome.ThrewError? ==>
      h.result == Failure(ThrownError(outcome.message)) && h.logged.errorMessage == Some(outcome.message)
  {
    match outcome
    case Returned(resp) =>
      Handled(Success(ExecuteSuccess(resp.data, id, resp.sessionId, resp.durationMs, resp.usage, resp.costUsd)),
              SuccessRecord(SuccessLog(dto, cfg, resp, stringify), now))
    case ThrewExecutor(e) =>
      Handled(Failure(ThrownExecutor(ExecutorException(e.code, e.message, Some(id), e.durationMs))),
              ErrorRecord(ErrorLog(dto, cfg, ThrownExecutor(e)), now))
    case ThrewError(m) =>
      Handled(Failure(ThrownError(m)), ErrorRecord(ErrorLog(dto, cfg, ThrownError(m)), now))
  }

  /**
    What the catch block reads from what was thrown: `error.message` of an
    `ExecutorException` is the text `HttpException` derives, not the message the
    exception was built with; any other error keeps its own message.
   */
  function AsCaught(outcome: Outcome): Outcome {
    match outcome
    case ThrewExecutor(e) => ThrewExecutor(e.(message := e.ErrorMessage()))
    case _ => outcome
  }

  /**
    The catch block as written: it logs `error.message` and builds the new
    exception from it, so an `ExecutorException`'s own message is replaced by
    the inherited text in the run record and in the body thrown again.
   */
  function HandleAsWritten(dto: ExecuteTaskDto, cfg: ExecutorConfig, outcome: Outcome, id: RunId, stringify: Serializer, now: int): (h: Handled)
    ensures h.result.Success? <==> outcome.Returned?
    ensures outcome.ThrewExecutor? ==>
      && h.result.Failure? && h.result.error.ThrownExecutor?
      && h.result.error.exception.code == outcome.exception.code
      && h.result.error.exception.runId == Some(id)
      && h.result.error.exception.Body().error.message == InheritedMessage
      && h.logged.errorMessage == Some(InheritedMessage)
    ensures !outcome.ThrewExecutor? ==> h == Handle(dto, cfg, outcome, id, stringify, now)
  {
    Handle(dto, cfg, AsCaught(outcome), id, stringify, now)
  }

  /**
    As written, every exception's message is lost: the run record and the body
    thrown again both carry "Executor Exception", whatever the exception said,
    where the intended handling keeps the message.
   */
  lemma ExecutorMessageLost(dto: ExecuteTaskDto, cfg: ExecutorConfig, e: ExecutorException, id: RunId, stringify: Serializer, now: int)
    requires e.message != InheritedMessage
    ensures var written := HandleAsWritten(dto, cfg, ThrewExecutor(e), id, stringify, now);
      var intended := Handle(dto, cfg, ThrewExecutor(e), id, stringify, now);
      && written.logged.errorMessage != Some(e.message)
      && written.result.error.exception.Body().error.message != e.message
      && intended.logged.errorMessage == Some(e.message)
      && intended.result.error.exception.Body().error.message == e.message
  {
  }

  /**
    The input that shows it: a CLI timeout raised with the message
    "Claude CLI timeout after <t>ms" is logged and answered as "Executor Exception".
   */
  lemma TimeoutMessageLost(dto: ExecuteTaskDto, cfg: ExecutorConfig, t: int, d: int, id: RunId, stringify: Serializer, now: int)
    ensures var e := ExecutorException(CliTimeout, TimeoutMessage(t), None, Some(d));
      var written := HandleAsWritten(dto, cfg, ThrewExecutor(e), id, stringify, now);
      && written.logged.errorMessage == Some("Executor Exception") != Some(TimeoutMessage(t))
      && written.result.error.exception.Body().error.message != TimeoutMessage(t)
      && written.result.error.exception.Status() == 504
  {
    assert TimeoutMessage(t)[0] == 'C';
  }

  /**
    `execute`: calls the CLI core in `env`, then logs exactly one run in
    `store`, and answers or throws with that run's id.
   */
  method Execute(dto: ExecuteTaskDto, cfg: ExecutorConfig, env: Environment, store: RunStore, now: int)
    returns (r: Result<ExecuteSuccess, Thrown>)
    requires store.Valid()
    modifies store
    ensures store.Valid()
    ensures var h := Handle(dto, cfg, ExecuteSpec(cfg, CallParamsOf(dto, cfg), env), |old(store.runs)|, env.stringify, now);
      r == h.result && store.runs == old(store.runs) + [SavedRun(|old(store.runs)|, h.logged)]
  {
    var params := CallParamsOf(dto, cfg);
    var outcome, _, _ := ClaudeCli.Execute(cfg, params, env);
    match outcome
    case Returned(resp) =>
      var run := LogSuccess(store, SuccessLog(dto, cfg, resp, env.stringify), now);
      r := Success(ExecuteSuccess(resp.data, run.id, resp.sessionId, resp.durationMs, resp.usage, resp.costUsd));
    case ThrewExecutor(e) =>
      var run := LogError(store, ErrorLog(dto, cfg, ThrownExecutor(e)), now);
      r := Failure(ThrownExecutor(ExecutorException(e.code, e.message, Some(run.id), e.durationMs)));
    case ThrewError(m) =>
      var run := LogError(store, ErrorLog(dto, cfg, ThrownError(m)), now);
      r := Failure(ThrownError(m));
  }

  /**
    A successful call answers with the CLI's data, session, usage, cost and
    duration and the logged run's id, and logs the usage, the prompt and the
    serialised data.
   */
  lemma SuccessAnswered(dto: ExecuteTaskDto, cfg: ExecutorConfig, resp: CallResponse, id: RunId, stringify: Serializer, now: int)
    ensures var h := Handle(dto, cfg, Returned(resp), id, stringify, now);
      && h.result == Success(ExecuteSuccess(resp.data, id, resp.sessionId, resp.durationMs, resp.usage, resp.costUsd))
      && h.logged.success
      && h.logged.tokensIn == Some(resp.usage.inputTokens) && h.logged.tokensOut == Some(resp.usage.outputTokens)
      && h.logged.costUsd == Some(resp.costUsd) && h.logged.sessionId == Some(resp.sessionId)
      && h.logged.durationMs == resp.durationMs
      && h.logged.inputPreview == Preview(Some(dto.prompt))
      && h.logged.outputPreview == Preview(Some(stringify(resp.data)))
  {
  }

  /**
    An `ExecutorException` is logged with its code, message and `durationMs || 0`,
    and thrown again with the same code, message and duration and the logged
    run's id, so it keeps its HTTP status and retriable flag.
   */
  lemma ExecutorExceptionRethrownWithRunId(dto: ExecuteTaskDto, cfg: ExecutorConfig, e: ExecutorException, id: RunId, stringify: Serializer, now: int)
    ensures var h := Handle(dto, cfg, ThrewExecutor(e), id, stringify, now);
      && h.result.Failure? && h.result.error.ThrownExecutor?
      && var t := h.result.error.exception;
      && t.code == e.code && t.message == e.message && t.durationMs == e.durationMs && t.runId == Some(id)
      && t.Status() == e.Status() && t.Body().error == e.Body().error
      && !h.logged.success
      && h.logged.errorCode == Some(CodeName(e.code)) && h.logged.errorMessage == Some(e.message)
      && h.logged.durationMs == (if e.durationMs.Some? then e.durationMs.value else 0)
  {
  }

  /** Any other error is logged as "UNKNOWN_ERROR" with duration 0 and thrown again unchanged. */
  lemma OtherErrorRethrownUnchanged(dto: ExecuteTaskDto, cfg: ExecutorConfig, m: string, id: RunId, stringify: Serializer, now: int)
    ensures var h := Handle(dto, cfg, ThrewError(m), id, stringify, now);
      && h.result == Failure(ThrownError(m))
      && !h.logged.success
      && h.logged.errorCode == Some("UNKNOWN_ERROR") && h.logged.errorMessage == Some(m)
      && h.logged.durationMs == 0
  {
  }

  /** No error code's name is "UNKNOWN_ERROR": a logged run tells a classified failure from any other. */
  lemma UnknownErrorDistinct(dto: ExecuteTaskDto, cfg: ExecutorConfig, t: Thrown)
    ensures ErrorLog(dto, cfg, t).errorCode == "UNKNOWN_ERROR" <==> t.ThrownError?
  {
    if t.ThrownExecutor? {
      var c := t.exception.code;
      assert CodeName(c) != "UNKNOWN_ERROR" by {
        match c
        case CliNotFound =>
        case CliTimeout =>
        case CliError =>
        case ParseError =>
        case SchemaInvalid =>
        case PromptTooLong =>
        case RateLimit =>
        case ModelError =>
        case WorkspaceError =>
        case SchemaNotFound =>
      }
    }
  }

  /**
    A prompt over the limit is rejected before any process runs, and the
    rejection is still logged: as `PROMPT_TOO_LONG` with duration 0.
   */
  lemma LongPromptLogged(dto: ExecuteTaskDto, cfg: ExecutorConfig, env: Environment, id: RunId, now: int)
    requires |dto.prompt| > cfg.limits.maxPromptLength
    ensures var h := Handle(dto, cfg, ExecuteSpec(cfg, CallParamsOf(dto, cfg), env), id, env.stringify, now);
      && h.result.Failure? && h.result.error.ThrownExecutor?
      && h.result.error.exception.code == PromptTooLong && h.result.error.exception.runId == Some(id)
      && h.logged.errorCode == Some("PROMPT_TOO_LONG") && h.logged.durationMs == 0
  {
  }
}
