/**
  `ClaudeCliService.execute`: the prompt-length check, the effective model and
  timeout, the CLI argument vector, the retry loop over `executeProcess` with
  exponential backoff, the classification of the last failure, and the
  decoding of the successful attempt's stdout.

  The outside world is an `Environment`: the event trace each attempt
  observes, the JSON parser and serialiser, and the two clock readings. The
  processes spawned and the sleeps requested are returned as records.
 */
module ClaudeCli {
  import opened Wrappers
  import opened Strings
  import opened Json
  import opened ExecutorErrors
  import opened CliProcess
  import opened CliResponse
  import opened Configuration

  /** `ClaudeCliCallParams`; an optional field that is not supplied is None. */
  datatype CallParams = CallParams(
    prompt: string,
    schema: Json,
    model: Option<string>,
    timeout: Option<int>,
    allowedTools: Option<seq<string>>)

  /** `ClaudeCliResponse`. */
  datatype CallResponse = CallResponse(data: Json, usage: Usage, costUsd: Json, sessionId: Json, durationMs: int)

  /**
    How a call to `execute` ends: it returns a response, throws an
    `ExecutorException`, or throws some other error (known by its message).
   */
  datatype Outcome =
    | Returned(response: CallResponse)
    | ThrewExecutor(exception: ExecutorException)
    | ThrewError(message: string)

  /** One `spawn(command, args, { cwd })` call, with the timeout its attempt arms. */
  datatype Spawn = Spawn(command: string, args: seq<string>, cwd: string, timeout: int)

  /**
    What `execute` observes: `traces(k)` is the event trace of attempt `k`
    (attempts count from 1), `startTime` and `endTime` are the two `Date.now()`
    readings.
   */
  datatype Environment = Environment(
    traces: nat -> seq<ProcessEvent>,
    parse: Parser,
    stringify: Serializer,
    startTime: int,
    endTime: int)

  /** `params.model || defaults.model`. */
  function EffectiveModel(p: CallParams, cfg: ExecutorConfig): (m: string)
    ensures p.model.Some? && p.model.value != "" ==> m == p.model.value
    ensures p.model.None? || p.model.value == "" ==> m == cfg.defaults.model
  {
    StringOr(p.model, cfg.defaults.model)
  }

  /** `params.timeout || defaults.timeout`: an absent timeout and a timeout of 0 both take the default. */
  function EffectiveTimeout(p: CallParams, cfg: ExecutorConfig): (t: int)
    ensures p.timeout.Some? && p.timeout.value != 0 ==> t == p.timeout.value
    ensures p.timeout.None? || p.timeout.value == 0 ==> t == cfg.defaults.timeout
  {
    if p.timeout.Some? && p.timeout.value != 0 then p.timeout.value else cfg.defaults.timeout
  }

  /** `params.allowedTools?.length` is truthy. */
  predicate HasTools(p: CallParams) {
    p.allowedTools.Some? && |p.allowedTools.value| > 0
  }

  /** The argument vector `buildCliArgs` produces. */
  function CliArgs(p: CallParams, model: string, stringify: Serializer): (args: seq<string>)
    ensures |args| == (if HasTools(p) then 11 else 9)
  {
    var base := ["--print", "--model", model, "--output-format", "json", "--json-schema", stringify(p.schema), "-p", p.prompt];
    if HasTools(p) then base + ["--allowedTools", Join(p.allowedTools.value, ",")] else base
  }

  /**
    `buildCliArgs`, the `push` form of `CliArgs`: the fixed arguments, then
    `--allowedTools` only when tools were given.
   */
  method BuildCliArgs(p: CallParams, model: string, stringify: Serializer) returns (args: seq<string>)
    ensures args == CliArgs(p, model, stringify)
  {
    args := ["--print", "--model", model, "--output-format", "json", "--json-schema", stringify(p.schema), "-p", p.prompt];
    if p.allowedTools.Some? && |p.allowedTools.value| > 0 {
      args := args + ["--allowedTools", Join(p.allowedTools.value, ",")];
    }
  }

  /**
    How the CLI reads an argument vector of the shape `--print` followed by
    flag/value pairs: the value after the first occurrence of `flag` in a flag
    position at or after `i`.
   */
  function OptionValue(args: seq<string>, flag: string, i: nat): Option<string>
    decreases |args| - i
  {
    if i + 1 >= |args| then None
    else if args[i] == flag then Some(args[i + 1])
    else OptionValue(args, flag, i + 2)
  }

  /**
    The CLI reads back every setting from the vector: the model, JSON output,
    the serialised schema, the prompt, and the comma-joined tool list exactly
    when one was given, whatever text the values hold.
   */
  lemma ArgsReadBack(p: CallParams, model: string, stringify: Serializer)
    ensures var args := CliArgs(p, model, stringify);
      && args[0] == "--print"
      && OptionValue(args, "--model", 1) == Some(model)
      && OptionValue(args, "--output-format", 1) == Some("json")
      && OptionValue(args, "--json-schema", 1) == Some(stringify(p.schema))
      && OptionValue(args, "-p", 1) == Some(p.prompt)
      && OptionValue(args, "--allowedTools", 1) ==
         (if HasTools(p) then Some(Join(p.allowedTools.value, ",")) else None)
  {
    var args := CliArgs(p, model, stringify);
    assert args[1] == "--model" && args[3] == "--output-format" && args[5] == "--json-schema" && args[7] == "-p";
    assert OptionValue(args, "--output-format", 1) == OptionValue(args, "--output-format", 3);
    assert OptionValue(args, "--json-schema", 1) == OptionValue(args, "--json-schema", 5);
    assert OptionValue(args, "-p", 1) == OptionValue(args, "-p", 5) == OptionValue(args, "-p", 7);
    assert OptionValue(args, "--allowedTools", 1) == OptionValue(args, "--allowedTools", 5);
    assert OptionValue(args, "--allowedTools", 5) == OptionValue(args, "--allowedTools", 9);
    if HasTools(p) {
      assert args[9] == "--allowedTools";
    } else {
      assert OptionValue(args, "--allowedTools", 9) == None;
    }
  }

  /** `base ** e` for a natural exponent (`Math.pow` on the integer settings). */
  function Pow(base: int, e: nat): int {
    if e == 0 then 1 else base * Pow(base, e - 1)
  }

  /** The delays slept after the first `count` failed attempts: after attempt `i + 1` fails, `delayMs * multiplier ** i`. */
  function Backoff(delayMs: int, multiplier: int, count: nat): (r: seq<int>)
    ensures |r| == count
  {
    seq(count, i requires 0 <= i => delayMs * Pow(multiplier, i))
  }

  /** One more failed attempt adds one more delay, the last one multiplied once more. */
  lemma BackoffSnoc(delayMs: int, multiplier: int, count: nat)
    ensures Backoff(delayMs, multiplier, count + 1) == Backoff(delayMs, multiplier, count) + [delayMs * Pow(multiplier, count)]
  {
  }

  /** With the configured multiplier of 2, each delay is twice the one before. */
  lemma BackoffDoubles(delayMs: int, count: nat, i: nat)
    requires i + 1 < count
    ensures Backoff(delayMs, 2, count)[i + 1] == 2 * Backoff(delayMs, 2, count)[i]
  {
    assert Pow(2, i + 1) == 2 * Pow(2, i);
  }

  /** The attempts a retry loop makes and the settlement of its last one. */
  datatype RetryResult = RetryResult(calls: nat, outcome: Result<ProcessResult, string>)

  /** The settlement of each numbered attempt, given the trace each attempt's process produces. */
  function Settlements(traces: nat -> seq<ProcessEvent>, timeout: int): nat -> Result<ProcessResult, string> {
    (j: nat) => Settlement(traces(j), timeout)
  }

  /**
    The retry loop from attempt `k` of `n`, given the settlement of every
    attempt: attempts run until one succeeds or attempt `n` has run, whatever
    the failure was.
   */
  function Retry(settlements: nat -> Result<ProcessResult, string>, k: nat, n: int): (r: RetryResult)
    requires 1 <= k <= n
    ensures k <= r.calls <= n
    ensures r.outcome == settlements(r.calls)
    ensures r.outcome.Failure? ==> r.calls == n
    decreases n - k
  {
    var s := settlements(k);
    if s.Success? || k == n then RetryResult(k, s)
    else Retry(settlements, k + 1, n)
  }

  /** Every attempt before the one that ends the loop failed. */
  lemma {:induction false} RetryEarlierFailed(settlements: nat -> Result<ProcessResult, string>, k: nat, n: int)
    requires 1 <= k <= n
    ensures forall j :: k <= j < Retry(settlements, k, n).calls ==> settlements(j).Failure?
    decreases n - k
  {
    if settlements(k).Failure? && k < n {
      RetryEarlierFailed(settlements, k + 1, n);
    }
  }

  /** A failed attempt `k` hands over to attempt `k + 1`, or ends the loop when it was the last. */
  lemma RetryAfterFailure(settlements: nat -> Result<ProcessResult, string>, k: nat, n: int, message: string)
    requires 1 <= k <= n
    requires settlements(k) == Failure(message)
    ensures k < n ==> Retry(settlements, k, n) == Retry(settlements, k + 1, n)
    ensures k == n ==> Retry(settlements, k, n) == RetryResult(n, Failure(message))
  {
  }

  /** A successful attempt `k` ends the loop with its own settlement. */
  lemma RetryAfterSuccess(settlements: nat -> Result<ProcessResult, string>, k: nat, n: int)
    requires 1 <= k <= n
    requires settlements(k).Success?
    ensures Retry(settlements, k, n) == RetryResult(k, settlements(k))
  {
  }

  /** The exception thrown when every attempt failed: only the last failure's message decides its code. */
  function Classify(message: string, cliPath: string, durationMs: int): (e: ExecutorException)
    ensures e.code == CliTimeout <==> Contains(message, "timeout")
    ensures e.code == CliNotFound <==> !Contains(message, "timeout") && Contains(message, "ENOENT")
    ensures e.code in {CliTimeout, CliNotFound, CliError}
    ensures e.code != CliNotFound ==> e.message == message
    ensures e.code == CliNotFound ==> e.message == "Claude CLI not found at path: " + cliPath
    ensures e.runId.None? && e.durationMs == Some(durationMs)
  {
    if Contains(message, "timeout") then ExecutorException(CliTimeout, message, None, Some(durationMs))
    else if Contains(message, "ENOENT") then
      ExecutorException(CliNotFound, "Claude CLI not found at path: " + cliPath, None, Some(durationMs))
    else ExecutorException(CliError, message, None, Some(durationMs))
  }

  function PromptTooLongMessage(length: int, max: int): string {
    "Prompt length " + IntToString(length) + " exceeds maximum " + IntToString(max)
  }

  /** The TypeError `lastError.message` raises when the loop ran no attempt and `lastError` is still `undefined`. */
  const NoAttemptMessage: string := "Cannot read properties of undefined (reading 'message')"

  const ParseErrorPrefix: string := "Failed to parse Claude CLI response: "

  /**
    What `execute` makes of the loop's result: the last failure classified, or
    the successful attempt's stdout decoded, with a decode failure wrapped as
    `PARSE_ERROR`.
   */
  function Conclude(outcome: Result<ProcessResult, string>, cliPath: string, parse: Parser, durationMs: int): Outcome {
    match outcome
    case Failure(m) => ThrewExecutor(Classify(m, cliPath, durationMs))
    case Success(result) =>
      match ParseResponse(result.stdout, parse)
      case Failure(m) => ThrewExecutor(ExecutorException(ParseError, ParseErrorPrefix + m, None, Some(durationMs)))
      case Success(parsed) =>
        Returned(CallResponse(parsed.data, parsed.usage, parsed.costUsd, parsed.sessionId, durationMs))
  }

  /** What `execute` returns or throws. */
  function ExecuteSpec(cfg: ExecutorConfig, p: CallParams, env: Environment): Outcome {
    if |p.prompt| > cfg.limits.maxPromptLength then
      ThrewExecutor(Exception(PromptTooLong, PromptTooLongMessage(|p.prompt|, cfg.limits.maxPromptLength)))
    else if cfg.retry.attempts < 1 then ThrewError(NoAttemptMessage)
    else
      var rr := Retry(Settlements(env.traces, EffectiveTimeout(p, cfg)), 1, cfg.retry.attempts);
      Conclude(rr.outcome, cfg.paths.claudeCliPath, env.parse, env.endTime - env.startTime)
  }

  /** The spawns a run of `calls` attempts makes: the same command, arguments, directory and timeout each time. */
  predicate SpawnsOf(spawns: seq<Spawn>, calls: nat, cfg: ExecutorConfig, p: CallParams, env: Environment) {
    && |spawns| == calls
    && forall i :: 0 <= i < calls ==>
      spawns[i] == Spawn(cfg.paths.claudeCliPath, CliArgs(p, EffectiveModel(p, cfg), env.stringify),
                         cfg.paths.workspacePath, EffectiveTimeout(p, cfg))
  }

  /**
    The retry loop of `execute`: attempt `attempt` spawns the process and waits
    for its settlement; a success ends the loop, a failure is remembered as
    `lastError` and, unless it was the last attempt, followed by a sleep.
   */
  method RunAttempts(traces: nat -> seq<ProcessEvent>, timeout: int, n: int, spawn: Spawn, delayMs: int, multiplier: int)
    returns (result: Option<ProcessResult>, lastError: Option<string>, spawns: seq<Spawn>, sleeps: seq<int>)
    ensures n < 1 ==> result.None? && lastError.None? && spawns == [] && sleeps == []
    ensures n >= 1 ==>
      var rr := Retry(Settlements(traces, timeout), 1, n);
      && (result.Some? ==> rr.outcome == Success(result.value))
      && (result.None? ==> lastError.Some? && rr.outcome == Failure(lastError.value))
      && |spawns| == rr.calls && (forall i :: 0 <= i < |spawns| ==> spawns[i] == spawn)
      && |sleeps| == rr.calls - 1 && sleeps == Backoff(delayMs, multiplier, |sleeps|)
  {
    result, lastError, spawns, sleeps := None, None, [], [];
    ghost var settlements := Settlements(traces, timeout);
    var attempt := 1;
    while attempt <= n
      invariant 1 <= attempt && (n >= 1 ==> attempt <= n + 1) && (n < 1 ==> attempt == 1)
      invariant result.None?
      invariant lastError.None? <==> attempt == 1
      invariant attempt <= n ==> Retry(settlements, 1, n) == Retry(settlements, attempt, n)
      invariant n >= 1 && attempt == n + 1 ==> Retry(settlements, 1, n) == RetryResult(n, Failure(lastError.value))
      invariant |spawns| == attempt - 1 && forall i :: 0 <= i < |spawns| ==> spawns[i] == spawn
      invariant |sleeps| == if n >= 1 && attempt == n + 1 then n - 1 else attempt - 1
      invariant sleeps == Backoff(delayMs, multiplier, |sleeps|)
      decreases n - attempt
    {
      spawns := spawns + [spawn];
      var settled := ExecuteProcess(traces(attempt), timeout);
      assert settled == settlements(attempt);
      if settled.Success? {
        RetryAfterSuccess(settlements, attempt, n);
        result := Some(settled.value);
        break;
      }
      RetryAfterFailure(settlements, attempt, n, settled.error);
      lastError := Some(settled.error);
      if attempt < n {
        var delay := delayMs * Pow(multiplier, attempt - 1);
        BackoffSnoc(delayMs, multiplier, |sleeps|);
        sleeps := sleeps + [delay];
      }
      attempt := attempt + 1;
    }
  }

  /**
    `execute`. Besides its outcome it returns the processes it spawned and the
    delays it slept, in order.
   */
  method Execute(cfg: ExecutorConfig, p: CallParams, env: Environment)
    returns (r: Outcome, spawns: seq<Spawn>, sleeps: seq<int>)
    ensures r == ExecuteSpec(cfg, p, env)
    ensures |p.prompt| > cfg.limits.maxPromptLength || cfg.retry.attempts < 1 ==> spawns == [] && sleeps == []
    ensures |p.prompt| <= cfg.limits.maxPromptLength && cfg.retry.attempts >= 1 ==>
      var calls := Retry(Settlements(env.traces, EffectiveTimeout(p, cfg)), 1, cfg.retry.attempts).calls;
      && SpawnsOf(spawns, calls, cfg, p, env)
      && sleeps == Backoff(cfg.retry.delayMs, cfg.retry.backoffMultiplier, calls - 1)
  {
    var model := EffectiveModel(p, cfg);
    var timeout := EffectiveTimeout(p, cfg);
    spawns, sleeps := [], [];
    if |p.prompt| > cfg.limits.maxPromptLength {
      r := ThrewExecutor(Exception(PromptTooLong, PromptTooLongMessage(|p.prompt|, cfg.limits.maxPromptLength)));
      return;
    }
    var args := BuildCliArgs(p, model, env.stringify);
    var spawn := Spawn(cfg.paths.claudeCliPath, args, cfg.paths.workspacePath, timeout);
    var result, lastError;
    result, lastError, spawns, sleeps :=
      RunAttempts(env.traces, timeout, cfg.retry.attempts, spawn, cfg.retry.delayMs, cfg.retry.backoffMultiplier);
    if result.None? && lastError.None? {
      r := ThrewError(NoAttemptMessage);
      return;
    }
    var outcome := if result.Some? then Success(result.value) else Failure(lastError.value);
    r := Conclude(outcome, cfg.paths.claudeCliPath, env.parse, env.endTime - env.startTime);
  }

  /**
    The prompt-length check: `PROMPT_TOO_LONG` is thrown exactly when the prompt
    is longer than the maximum (a prompt of exactly the maximum is accepted),
    and then no process is spawned.
   */
  lemma PromptTooLongExactly(cfg: ExecutorConfig, p: CallParams, env: Environment)
    ensures var r := ExecuteSpec(cfg, p, env);
      (r.ThrewExecutor? && r.exception.code == PromptTooLong) <==> |p.prompt| > cfg.limits.maxPromptLength
    ensures |p.prompt| > cfg.limits.maxPromptLength ==>
      ExecuteSpec(cfg, p, env) ==
        ThrewExecutor(ExecutorException(PromptTooLong, PromptTooLongMessage(|p.prompt|, cfg.limits.maxPromptLength), None, None))
  {
  }

  /** When every attempt times out, exactly `attempts` processes run and the call fails with `CLI_TIMEOUT` and the timeout message. */
  lemma AllAttemptsTimeOut(cfg: ExecutorConfig, p: CallParams, env: Environment)
    requires |p.prompt| <= cfg.limits.maxPromptLength && cfg.retry.attempts >= 1
    requires forall k :: 1 <= k <= cfg.retry.attempts ==>
      forall j :: 0 <= j < |env.traces(k)| ==> !Settles(env.traces(k)[j])
    ensures Retry(Settlements(env.traces, EffectiveTimeout(p, cfg)), 1, cfg.retry.attempts).calls == cfg.retry.attempts
    ensures ExecuteSpec(cfg, p, env) ==
      ThrewExecutor(ExecutorException(CliTimeout, TimeoutMessage(EffectiveTimeout(p, cfg)), None, Some(env.endTime - env.startTime)))
  {
    var t := EffectiveTimeout(p, cfg);
    var rr := Retry(Settlements(env.traces, t), 1, cfg.retry.attempts);
    assert FirstSettling(env.traces(rr.calls)).None?;
    TimeoutMessageMentionsTimeout(t);
  }

  /**
    A CLI binary that cannot be found is retried like any other failure: when
    every spawn fails with an ENOENT error, all `attempts` attempts run and the
    call fails with `CLI_NOT_FOUND` naming the configured path.
   */
  lemma NotFoundIsRetried(cfg: ExecutorConfig, p: CallParams, env: Environment, m: string)
    requires |p.prompt| <= cfg.limits.maxPromptLength && cfg.retry.attempts >= 1
    requires forall k :: 1 <= k <= cfg.retry.attempts ==> env.traces(k) == [SpawnError(m)]
    requires Contains(m, "ENOENT") && !Contains(SpawnMessage(m), "timeout")
    ensures Retry(Settlements(env.traces, EffectiveTimeout(p, cfg)), 1, cfg.retry.attempts).calls == cfg.retry.attempts
    ensures ExecuteSpec(cfg, p, env) ==
      ThrewExecutor(ExecutorException(CliNotFound, "Claude CLI not found at path: " + cfg.paths.claudeCliPath,
                                      None, Some(env.endTime - env.startTime)))
  {
    var t := EffectiveTimeout(p, cfg);
    var rr := Retry(Settlements(env.traces, t), 1, cfg.retry.attempts);
    assert FirstSettling([SpawnError(m)]) == Some(0);
    ContainsAfterPrefix("Failed to spawn Claude CLI: ", m, "ENOENT");
  }

  /** A clean first attempt is the only one: one spawn, no sleep. */
  lemma SuccessStopsRetrying(cfg: ExecutorConfig, p: CallParams, env: Environment)
    requires cfg.retry.attempts >= 1
    requires Settlement(env.traces(1), EffectiveTimeout(p, cfg)).Success?
    ensures Retry(Settlements(env.traces, EffectiveTimeout(p, cfg)), 1, cfg.retry.attempts).calls == 1
    ensures Backoff(cfg.retry.delayMs, cfg.retry.backoffMultiplier, 0) == []
  {
  }

  /**
    A response that cannot be decoded is a `PARSE_ERROR` carrying the decoder's
    message; it is not retried, since decoding happens after the loop.
   */
  lemma DecodeFailureNotRetried(cfg: ExecutorConfig, p: CallParams, env: Environment)
    requires |p.prompt| <= cfg.limits.maxPromptLength && cfg.retry.attempts >= 1
    requires Settlement(env.traces(1), EffectiveTimeout(p, cfg)).Success?
    requires ParseResponse(Settlement(env.traces(1), EffectiveTimeout(p, cfg)).value.stdout, env.parse).Failure?
    ensures Retry(Settlements(env.traces, EffectiveTimeout(p, cfg)), 1, cfg.retry.attempts).calls == 1
    ensures var e := ParseResponse(Settlement(env.traces(1), EffectiveTimeout(p, cfg)).value.stdout, env.parse).error;
      ExecuteSpec(cfg, p, env) ==
        ThrewExecutor(ExecutorException(ParseError, ParseErrorPrefix + e, None, Some(env.endTime - env.startTime)))
  {
  }

  /**
    The codes `execute` throws: only the prompt check, the three
    classifications and the decode failure; in particular never
    `RATE_LIMIT` or `MODEL_ERROR`, which nothing detects.
   */
  lemma ThrownCodes(cfg: ExecutorConfig, p: CallParams, env: Environment)
    ensures var r := ExecuteSpec(cfg, p, env);
      r.ThrewExecutor? ==> r.exception.code in {PromptTooLong, CliTimeout, CliNotFound, CliError, ParseError}
    ensures var r := ExecuteSpec(cfg, p, env);
      r.ThrewExecutor? && r.exception.code != PromptTooLong ==>
        r.exception.durationMs == Some(env.endTime - env.startTime) && r.exception.runId.None?
  {
    if |p.prompt| > cfg.limits.maxPromptLength {
      assert ExecuteSpec(cfg, p, env).exception.code == PromptTooLong;
    } else if cfg.retry.attempts >= 1 {
      var rr := Retry(Settlements(env.traces, EffectiveTimeout(p, cfg)), 1, cfg.retry.attempts);
      assert ExecuteSpec(cfg, p, env) == Conclude(rr.outcome, cfg.paths.claudeCliPath, env.parse, env.endTime - env.startTime);
    }
  }

  /**
    Classification reads only the message text: a process that exits with a
    non-zero code and mentions "timeout" on stderr is reported as
    `CLI_TIMEOUT`, though no timer fired.
   */
  lemma StderrTimeoutClassifiedAsTimeout(code: Option<int>, stderr: string, cliPath: string, durationMs: int)
    requires code != Some(0)
    requires Contains(stderr, "timeout")
    ensures Classify(ExitMessage(code, stderr), cliPath, durationMs).code == CliTimeout
  {
    var p := "Claude CLI failed with code " + (if code.Some? then IntToString(code.value) else "null") + ": ";
    assert ExitMessage(code, stderr) == p + stderr;
    ContainsAfterPrefix(p, stderr, "timeout");
  }

  /** On success the response carries the decoded result and the elapsed time. */
  lemma ReturnedCarriesDecoded(cfg: ExecutorConfig, p: CallParams, env: Environment)
    requires ExecuteSpec(cfg, p, env).Returned?
    ensures |p.prompt| <= cfg.limits.maxPromptLength && cfg.retry.attempts >= 1
    ensures var rr := Retry(Settlements(env.traces, EffectiveTimeout(p, cfg)), 1, cfg.retry.attempts);
      && rr.outcome.Success?
      && var decoded := ParseResponse(rr.outcome.value.stdout, env.parse);
      && decoded.Success?
      && var resp := ExecuteSpec(cfg, p, env).response;
      && resp.data == decoded.value.data && resp.usage == decoded.value.usage
      && resp.costUsd == decoded.value.costUsd && resp.sessionId == decoded.value.sessionId
      && resp.durationMs == env.endTime - env.startTime
  {
  }
}
