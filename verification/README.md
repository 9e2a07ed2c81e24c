# Claude Executor Service, modelled in Dafny

The Claude Executor Service is an HTTP service that runs the `claude`
command-line tool as a subprocess. It passes the tool a prompt and a JSON
schema, decodes the structured answer, and logs every run to a database.
This project models the service's core and proves properties about that model:

- **CliProcess** (`executeProcess`): one attempt. The child process and its
  timer are replaced by the trace of callbacks the attempt observes. The
  promise settles at most once.
- **CliResponse** (`parseResponse`): decoding the tool's stdout. The first
  `type: "result"` message is read for its payload: `structured_output`,
  else a fenced `json` block, else the whole `result` text. Usage, cost and
  session id then take their defaults.
- **ClaudeCli** (`ClaudeCliService.execute`):
  - the prompt-length check;
  - the effective model and timeout;
  - the argument vector;
  - the retry loop with exponential backoff;
  - classification of the last failure by its message;
  - wrapping of decode failures as `PARSE_ERROR`.
- **ExecutorErrors** (`executor.exception.ts`): the error codes, their HTTP
  statuses, the retriable list and the body of an `ExecutorException`.
- **Executor** (`ExecutorService.execute`): calls the core and logs exactly one
  run, whatever the outcome. Exceptions are re-thrown, carrying the run id
  where they are `ExecutorException`s. The catch block as written reads
  `error.message`, which for an `ExecutorException` is not the message it was
  built with (see Findings); the model's `Execute` uses the corrected handling.
- **RunLogger**: the success and error records, their 500-character previews,
  and a run store that gives ids in order.
- **ApiKeyGuard**: where the API key is looked for, and the allow/deny
  decision.
- **Schemas** (`SchemasService`): a class whose fields are the schema cache. The
  cache is a JavaScript `Map`, so it keeps insertion order, and `set` on a
  present key replaces the value in place. The class covers loading, lookup,
  listing and reloading.
- **Stats** (`StatsService`), its integer parts:
  - the time window;
  - run and success counts;
  - the rounded average duration;
  - grouping by task type and by model.
- **Configuration** (`configuration.ts`): the environment-to-settings
  factory. Environment variables are read with `parseInt(v, 10) || default`.

`Wrappers`, `Strings` and `Json` are support modules. They provide `Option` and
`Result`, the JavaScript string operations the code uses, and a JSON value type
with JavaScript truthiness.

The outside world is modelled by parameters:

- **Processes**: each attempt's event trace is given by a function from the
  attempt number.
- **JSON**: `JSON.parse` and `JSON.stringify` are parameters of type
  `string -> Result<Json, string>` and `Json -> string`.
- **Clock**: clock readings are integers.
- **File system**: it is a directory listing and a file reader.
- **Run repository**: it is a `RunStore` object.

What the code does on the failure paths:

- Every failed attempt is retried until the attempt budget is spent, whatever
  the failure, including a missing binary (ENOENT)
  (`ClaudeCli.NotFoundIsRetried`).
- The final error is classified from the text of the last failure's message.
  A process that exits non-zero and prints "timeout" on stderr is therefore
  reported as `CLI_TIMEOUT` (`ClaudeCli.StderrTimeoutClassifiedAsTimeout`).
- Decode failures are not retried because decoding happens after the loop, not
  because of any classification (`ClaudeCli.DecodeFailureNotRetried`).
- There is no cancellation signal.
- With a configured attempt count below 1 the loop runs no attempt. Reading
  `lastError.message` then throws a TypeError, which the model returns as
  `ThrewError`. The configuration accepts such a count: `"-2"` gives -2
  (`Configuration.NegativeAttemptsAccepted`).

## Model

| member | source | states |
|---|---|---|
| ExecutorErrors.CodeNameInjective | src/common/exceptions/executor.exception.ts:3-14 | distinct error codes have distinct string values, so a logged code name identifies its code |
| ExecutorErrors.HttpStatus | src/common/exceptions/executor.exception.ts:16-27 | 504 exactly for CLI_TIMEOUT; 400 exactly for SCHEMA_INVALID and PROMPT_TOO_LONG; 429 exactly for RATE_LIMIT; 502 exactly for MODEL_ERROR; 404 exactly for SCHEMA_NOT_FOUND; 500 exactly for the other four |
| ExecutorErrors.RetriableExactly | src/common/exceptions/executor.exception.ts:29-34 | a code is retriable iff it is CLI_TIMEOUT, CLI_ERROR, RATE_LIMIT or MODEL_ERROR, and not retriable iff it is one of the other six |
| ExecutorErrors.ClientErrorsNotRetriable | src/common/exceptions/executor.exception.ts:16-34 | no code mapped to 400 or 404 is retriable |
| ExecutorErrors.ExecutorException.Body | src/common/exceptions/executor.exception.ts:37-56 | the body has `success` false, the exception's code, message, run id and duration, and `retriable` true iff the code is one of the four retriable codes |
| ExecutorErrors.ExecutorException.Status | src/common/exceptions/executor.exception.ts:54 | the status is a 4xx or 5xx code; it is a client error (below 500) exactly for SCHEMA_INVALID, PROMPT_TOO_LONG, RATE_LIMIT and SCHEMA_NOT_FOUND, and the only retriable client error is 429 |
| ExecutorErrors.BodyAgreesWithIsRetriable | src/common/exceptions/executor.exception.ts:49-60 | the body's `retriable` flag equals `isRetriable()` for every exception |
| ExecutorErrors.Exception | src/common/exceptions/executor.exception.ts:37-56 | a two-argument exception's body reports the code, the message and the code's retriable flag, with run id and duration undefined; it is retriable iff its code is one of the four retriable codes |
| Configuration.IntOr | src/config/configuration.ts:37 | `parseInt(v, 10) \|\| d`: NaN or 0 gives the default, any other parsed value is kept; so the setting is never 0 when the default is not 0 |
| Configuration.NoDigitsFallsBack | src/config/configuration.ts:37-59 | an unset value, or any value without a decimal digit, parses to NaN and the setting takes its default |
| Configuration.StringOr | src/config/configuration.ts:41-44 | a set, non-empty value is taken as it is; an unset or empty value gives the default |
| Configuration.Load | src/config/configuration.ts:36-70 | the backoff multiplier is 2; every numeric setting is non-zero; the API key is present iff API_KEY is set and non-empty, and then equals it; a non-empty CLAUDE_DEFAULT_MODEL is the default model |
| Configuration.DefaultsWhenUnset | src/config/configuration.ts:36-70 | with an empty environment: path "claude", workspace `cwd + "/claude-workspace"`, model "sonnet", timeout 120000, prompt limit 50000, 5 concurrent, 3 attempts, 1000 ms delay, port 3000, no API key |
| Configuration.ParseIntOfDecimal | src/config/configuration.ts:58 | `parseInt` reads back the decimal rendering of every natural number |
| Configuration.RetryAttemptsFromEnv | src/config/configuration.ts:58 | CLAUDE_RETRY_ATTEMPTS set to the decimal rendering of a positive n gives n attempts |
| Configuration.ZeroFallsBack | src/config/configuration.ts:58 | CLAUDE_RETRY_ATTEMPTS "0" gives the default 3, never 0 |
| Configuration.NegativeAttemptsAccepted | src/config/configuration.ts:58 | CLAUDE_RETRY_ATTEMPTS "-2" gives -2 attempts: a negative count is not rejected |
| Configuration.TrailingTextIgnored | src/config/configuration.ts:59 | CLAUDE_RETRY_DELAY_MS "30s" gives a 30 ms delay: text after the digits is ignored |
| CliProcess.ExecuteProcess | src/executor/claude-cli.service.ts:140-187 | folding the callbacks over the trace, with the `timedOut` flag and timer clearing, settles exactly as the first settling event prescribes (`Settlement`) |
| CliProcess.FirstSettlementWins | src/executor/claude-cli.service.ts:151-185 | events after the first close, spawn error or timer firing change neither which event settles nor the settlement |
| CliProcess.LateCloseIgnored | src/executor/claude-cli.service.ts:155-172 | a close that arrives after the timer fired is ignored and the attempt fails with the timeout message |
| CliProcess.ResolvesOnlyOnCleanClose | src/executor/claude-cli.service.ts:169-180 | an attempt succeeds iff its first settling event is a close with code 0, and then carries the stdout and stderr received before it, with exit code 0 |
| CliProcess.StdoutOfAppend | src/executor/claude-cli.service.ts:161-163 | stdout chunks accumulate in order: the stdout of a concatenated trace is the concatenation of the stdouts |
| CliProcess.TimeoutMessageMentionsTimeout | src/executor/claude-cli.service.ts:155-159 | the timeout rejection message contains "timeout", which classification looks for |
| CliResponse.FenceMatch | src/executor/claude-cli.service.ts:203 | a match of the fence regular expression ends where a closing "```" occurs, and a non-empty capture starts with a character that is not white space |
| CliResponse.FencedBodyTrimNonEmpty | src/executor/claude-cli.service.ts:204-205 | a non-empty capture never trims to the empty string |
| CliResponse.FencedBodyOfBlock | src/executor/claude-cli.service.ts:203-205 | for text without backticks before "```json", white space, a body without backticks that does not start with white space, "```" and anything after, the capture is exactly the body |
| CliResponse.FindResult | src/executor/claude-cli.service.ts:192 | `find` gives the first result message, with no null and no result message before it; none when no element is one; or the TypeError of a null element met first |
| CliResponse.Extras | src/executor/claude-cli.service.ts:213-221 | the data is kept; each of `usage.input_tokens`, `usage.output_tokens` and `total_cost_usd` is the message's own value when truthy, else 0; `session_id` is the message's own value when truthy, else "" |
| CliResponse.ParseResponse | src/executor/claude-cli.service.ts:189-222 | a decoded response comes from stdout that parses to an array holding a result message, the first one `find` meets, and it is that message's payload with that message's usage, cost and session |
| CliResponse.DecodesFirstResultMessage | src/executor/claude-cli.service.ts:189-222 | for every array whose first result message comes before any null, the decode is that message's payload with its usage, cost and session, or the payload's error |
| CliResponse.BareMessageDefaults | src/executor/claude-cli.service.ts:213-221 | a result message without usage, cost or session decodes with 0 tokens, 0 cost and an empty session |
| CliResponse.SyntaxErrorPreserved | src/executor/claude-cli.service.ts:190 | stdout that is not JSON fails with the parser's own message |
| CliResponse.NoResultMessage | src/executor/claude-cli.service.ts:192-196 | an array without a result message fails with "No result message in Claude CLI response" |
| CliResponse.FindResultFirst | src/executor/claude-cli.service.ts:192 | the first result message is the one found, whatever follows it |
| CliResponse.StructuredOutputFirst | src/executor/claude-cli.service.ts:200-201 | a truthy `structured_output` is the payload, whatever `result` holds |
| CliResponse.WholeResultParsed | src/executor/claude-cli.service.ts:202-208 | without a fenced block the whole `result` text is parsed |
| CliResponse.FenceAgreesWithStructuredOutput | src/executor/claude-cli.service.ts:200-221 | a result carrying a value in a fenced block decodes exactly as one carrying that value in `structured_output` |
| ClaudeCli.EffectiveModel | src/executor/claude-cli.service.ts:28 | a non-empty requested model wins; an absent or empty one gives the default |
| ClaudeCli.EffectiveTimeout | src/executor/claude-cli.service.ts:29 | a non-zero requested timeout wins; an absent or zero one gives the default |
| ClaudeCli.CliArgs | src/executor/claude-cli.service.ts:120-138 | the vector has 11 arguments when a non-empty tool list is given, else 9 |
| ClaudeCli.BuildCliArgs | src/executor/claude-cli.service.ts:120-138 | the method builds the vector `CliArgs` describes |
| ClaudeCli.ArgsReadBack | src/executor/claude-cli.service.ts:120-138 | reading the vector back as flag/value pairs after `--print` gives the model, "json", the serialised schema, the prompt, and the comma-joined tools exactly when tools were given |
| ClaudeCli.BackoffSnoc | src/executor/claude-cli.service.ts:59-64 | the delays grow by one entry per failed attempt, and the entry added after failed attempt i (counting from 0) is `delayMs * multiplier^i` |
| ClaudeCli.BackoffDoubles | src/executor/claude-cli.service.ts:59-64 | with the multiplier 2, each delay is twice the one before |
| ClaudeCli.Retry | src/executor/claude-cli.service.ts:49-66 | given each attempt's settlement, between k and n attempts run; the outcome is the last attempt's settlement; a failure means all n ran |
| ClaudeCli.RetryEarlierFailed | src/executor/claude-cli.service.ts:49-66 | every attempt before the one that ends the loop failed: the loop stops at the first success |
| ClaudeCli.Classify | src/executor/claude-cli.service.ts:68-91 | CLI_TIMEOUT iff the message contains "timeout"; CLI_NOT_FOUND iff it does not but contains "ENOENT", with the configured path in the message; CLI_ERROR otherwise; the message is kept except for CLI_NOT_FOUND; no run id; the duration is set |
| ClaudeCli.RunAttempts | src/executor/claude-cli.service.ts:45-66 | the loop spawns once per attempt that `Retry` makes over the settlements of the attempts' traces, reports the success or the last error `Retry` gives, and sleeps the backoff delays for all attempts but the last |
| ClaudeCli.Execute | src/executor/claude-cli.service.ts:26-118 | the outcome is `ExecuteSpec`; nothing is spawned or slept when the prompt is too long or no attempt is configured; otherwise every spawn has the same command, arguments, directory and timeout, and the delays are the backoff sequence |
| ClaudeCli.PromptTooLongExactly | src/executor/claude-cli.service.ts:32-37 | PROMPT_TOO_LONG is thrown iff the prompt is longer than the maximum, with the length message and no run id or duration |
| ClaudeCli.AllAttemptsTimeOut | src/executor/claude-cli.service.ts:49-77 | when every attempt times out, all attempts run and CLI_TIMEOUT is thrown with the timeout message and the elapsed time |
| ClaudeCli.NotFoundIsRetried | src/executor/claude-cli.service.ts:49-85 | when every spawn fails with ENOENT, all attempts run and CLI_NOT_FOUND names the configured path |
| ClaudeCli.SuccessStopsRetrying | src/executor/claude-cli.service.ts:49-52 | a successful first attempt is the only one, with no sleep |
| ClaudeCli.DecodeFailureNotRetried | src/executor/claude-cli.service.ts:94-117 | a successful attempt whose stdout does not decode is the only attempt, and gives PARSE_ERROR with the prefixed decoder message |
| ClaudeCli.ThrownCodes | src/executor/claude-cli.service.ts:26-118 | only PROMPT_TOO_LONG, CLI_TIMEOUT, CLI_NOT_FOUND, CLI_ERROR and PARSE_ERROR are thrown; all but the first carry the elapsed time and no run id |
| ClaudeCli.StderrTimeoutClassifiedAsTimeout | src/executor/claude-cli.service.ts:70-77 | a non-zero exit whose stderr mentions "timeout" is classified CLI_TIMEOUT |
| ClaudeCli.ReturnedCarriesDecoded | src/executor/claude-cli.service.ts:94-109 | a returned response comes from a successful attempt whose stdout decoded, and carries its data, usage, cost, session id and the elapsed time |
| RunLogger.OrNull | src/executor/run-logger.service.ts:46 | `s \|\| null` is null exactly for absent or empty text, else the text itself |
| RunLogger.Preview | src/executor/run-logger.service.ts:57-58 | the preview is null exactly for absent or empty text; otherwise it is the text's prefix of length min(length, 500) |
| RunLogger.ShortTextPreviewedWhole | src/executor/run-logger.service.ts:57 | text of 1 to 500 characters is previewed whole |
| RunLogger.SuccessRecord | src/executor/run-logger.service.ts:43-60 | success with no error code or message; session, tokens, cost and duration as given; optional text `\|\| null`; both previews |
| RunLogger.ErrorRecord | src/executor/run-logger.service.ts:68-85 | failure with the given code and message; no session, tokens, cost or output preview; duration as given; optional text `\|\| null`; the input preview |
| RunLogger.RecordsShareRequestFields | src/executor/run-logger.service.ts:43-85 | a success record and an error record for the same request agree on task type, model, agent, references and input preview, and differ in `success` |
| RunLogger.RunStore.constructor | src/executor/run-logger.service.ts:37-40 | the store starts empty |
| RunLogger.RunStore.Save | src/executor/run-logger.service.ts:62 | saving appends the record under the next id; ids stay equal to positions |
| RunLogger.LogSuccess | src/executor/run-logger.service.ts:42-65 | exactly one run is appended, holding `SuccessRecord`, and it is returned |
| RunLogger.LogError | src/executor/run-logger.service.ts:67-90 | exactly one run is appended, holding `ErrorRecord`, and it is returned |
| Executor.CallParamsOf | src/executor/executor.service.ts:26-40 | prompt, schema and tools are passed on; the model is the requested non-empty one, else the default; the timeout is the requested non-zero one, else the default |
| Executor.Handle | src/executor/executor.service.ts:33-101 | the corrected catch block (see Findings): the call answers iff the CLI core returned, and the logged run is a success iff it returned; an `ExecutorException` is logged and thrown again with the message it was built with; any other error is logged with its message and thrown again as it was |
| Executor.HandleAsWritten | src/executor/executor.service.ts:66-101 | the catch block as written: an `ExecutorException` is thrown again with its code and the run id, but both the run record and the new body carry "Executor Exception" as the message; every other outcome is handled as by `Handle` |
| Executor.ExecutorMessageLost | src/executor/executor.service.ts:74-82 | for every exception whose message is not "Executor Exception", the code as written loses that message in the run record and the body thrown again, while the corrected handling keeps it |
| Executor.TimeoutMessageLost | src/executor/executor.service.ts:74-82 | the input that shows it: a CLI timeout with message "Claude CLI timeout after <t>ms" is logged and answered (status 504) with "Executor Exception" instead |
| Executor.Execute | src/executor/executor.service.ts:23-102 | exactly one run is appended to the store under the next id, and the answer or error is the one the corrected `Handle` gives for that id and the CLI core's outcome |
| Executor.SuccessAnswered | src/executor/executor.service.ts:42-65 | a success answers with the core's data, session, duration, usage, cost and the run id, and logs usage, cost, session, the prompt preview and the serialised data preview |
| Executor.ExecutorExceptionRethrownWithRunId | src/executor/executor.service.ts:67-86 | corrected handling: an `ExecutorException` is logged with its code, message and `durationMs \|\| 0`, then thrown again with the same code, message, duration, status and retriable flag plus the run id |
| Executor.OtherErrorRethrownUnchanged | src/executor/executor.service.ts:88-100 | any other error is logged as UNKNOWN_ERROR with duration 0 and re-thrown unchanged |
| Executor.UnknownErrorDistinct | src/executor/executor.service.ts:73-93 | a logged code is UNKNOWN_ERROR iff the error was not an `ExecutorException` |
| Executor.LongPromptLogged | src/executor/executor.service.ts:33-86 | a prompt over the limit is still logged, as PROMPT_TOO_LONG with duration 0, and the re-thrown exception carries the run id |
| ApiKeyGuard.ExtractApiKey | src/common/guards/api-key.guard.ts:36-56 | a truthy `x-api-key` decides alone (first element of an array, undefined for an empty array); a key found is carried by the request; when nothing is found there is no usable query key |
| ApiKeyGuard.CanActivate | src/common/guards/api-key.guard.ts:14-34 | the guard either allows or throws one of the two messages |
| ApiKeyGuard.Decision | src/common/guards/api-key.guard.ts:14-34 | with a key configured: allowed iff the extracted key equals it; "API key is required" iff no key or an empty key was found; "Invalid API key" iff a different non-empty key was found |
| ApiKeyGuard.OpenWithoutConfiguredKey | src/common/guards/api-key.guard.ts:20-23 | with no key configured, or an empty one, every request is allowed |
| ApiKeyGuard.BearerKeyReadBack | src/common/guards/api-key.guard.ts:43-47 | the key after "Bearer " is read back exactly |
| ApiKeyGuard.QueryKeyLast | src/common/guards/api-key.guard.ts:49-53 | a non-empty string query key is used when no header supplies one; a non-string query value is never used |
| ApiKeyGuard.WrongHeaderKeyWins | src/common/guards/api-key.guard.ts:37-41 | a wrong `x-api-key` is rejected even when the right key is also sent as a bearer token |
| Schemas.JsonFiles | src/schemas/schemas.service.ts:36 | the files kept are exactly those of the listing that end in ".json" |
| Schemas.ReadEntry | src/schemas/schemas.service.ts:39-48 | a read entry is filed under the derived name and holds the parsed, non-null schema of the file's contents |
| Schemas.DescriptionFallsBackToTitle | src/schemas/schemas.service.ts:46 | the description is a truthy `description`, else `title` |
| Schemas.Put | src/schemas/schemas.service.ts:44-48 | `Map.set` replaces the entry; a present key keeps its position and a new key goes last; the cache stays consistent |
| Schemas.LoadFiles | src/schemas/schemas.service.ts:38-51 | the cache stays consistent: distinct keys, the same keys as the entries, each entry under its own name |
| Schemas.LoadFilesKeeps | src/schemas/schemas.service.ts:38-51 | loading never removes or reorders keys already present |
| Schemas.LoadedNamesComeFromFiles | src/schemas/schemas.service.ts:38-51 | every key after a load was already present or is the derived name of a loaded file |
| Schemas.LoadStopsAtFailure | src/schemas/schemas.service.ts:34-60 | a file that fails to read or parse ends the load with what the earlier files produced |
| Schemas.LoadFilesSnoc | src/schemas/schemas.service.ts:38-51 | when every file reads, one more file is one more `set` |
| Schemas.LastWriterWins | src/schemas/schemas.service.ts:44-48 | when every file reads, a file's schema is the entry under its name unless a later file derives the same name |
| Schemas.DeriveNameOfSchemaFile | src/schemas/schemas.service.ts:43 | for a name without dots, "name-schema.json" derives "name" |
| Schemas.SuffixesCollide | src/schemas/schemas.service.ts:43 | for a name without dots that does not end in "-schema", "name.json" and "name-schema.json" derive the same name |
| Schemas.PlainJsonName | src/schemas/schemas.service.ts:43 | for a name without dots that does not end in "-schema", "name.json" derives "name" |
| Schemas.SchemaSuffixOnlyAfterStem | src/schemas/schemas.service.ts:43 | "-schema.json" occurs in a dot-free name followed by ".json" only when the name ends in "-schema" |
| Schemas.CollisionKeepsLater | src/schemas/schemas.service.ts:38-48 | for a dot-free name n not ending in "-schema", loading "n.json" then "n-schema.json" leaves one key n, holding the later file's schema |
| Schemas.ListedPathRoundTrip | src/schemas/schemas.service.ts:66 | the path listed for a name without dots is "schemas/name-schema.json", whose file name derives the name again |
| Schemas.SchemasService.constructor | src/schemas/schemas.service.ts:22 | the cache starts empty |
| Schemas.SchemasService.LoadSchemas | src/schemas/schemas.service.ts:33-61 | a listing failure leaves the cache unchanged; otherwise the cache becomes `LoadFiles` of the ".json" files over the old cache |
| Schemas.SchemasService.GetSchema | src/schemas/schemas.service.ts:71-80 | succeeds iff the name is cached, with its schema; otherwise SCHEMA_NOT_FOUND "Schema not found: name", status 404 |
| Schemas.SchemasService.ListSchemas | src/schemas/schemas.service.ts:63-69 | one entry per cached name in key order, with the listed path and the stored description |
| Schemas.SchemasService.ReloadSchemas | src/schemas/schemas.service.ts:82-85 | the cache becomes the load of the new listing over an empty cache, or empty when the listing fails |
| Schemas.ReloadForgetsVanished | src/schemas/schemas.service.ts:82-85 | after a reload every cached name derives from a ".json" file of the new listing |
| Stats.StartDate | src/stats/stats.service.ts:58-70 | the window is 86400000 ms iff the period is "day", 604800000 ms iff "week", and 2592000000 ms otherwise |
| Stats.InWindow | src/stats/stats.service.ts:22-28 | the runs kept are exactly those created at or after the start |
| Stats.SuccessCount | src/stats/stats.service.ts:31 | at most the number of runs, and 0 iff no run succeeded |
| Stats.RoundDiv | src/stats/stats.service.ts:39-52 | `Math.round(s / c)`: the integer r with `r - 1/2 <= s/c < r + 1/2` |
| Stats.Members | src/stats/stats.service.ts:77-82 | a group holds exactly the runs with its key |
| Stats.DistinctKeys | src/stats/stats.service.ts:77-85 | each key of a run exactly once, and no other key |
| Stats.DistinctKeysPrefix | src/stats/stats.service.ts:77-85 | the keys are in order of first appearance: the keys of any prefix of the runs form a prefix of the keys |
| Stats.MembersNonEmpty | src/stats/stats.service.ts:86-87 | the group of a key that occurs is not empty, so the average never divides by zero |
| Stats.GroupSummary | src/stats/stats.service.ts:86-91 | `runs` is the group's size and `avgDuration` its rounded mean duration |
| Stats.GroupsPartition | src/stats/stats.service.ts:77-82 | the group sizes add up to the number of runs |
| Stats.TaskTypeSummary | src/stats/stats.service.ts:72-95 | there is an entry for a task type iff some run has it |
| Stats.ModelSummary | src/stats/stats.service.ts:97-120 | there is an entry for a model iff some run used it |
| Stats.GroupBy | src/stats/stats.service.ts:75-82 | the first loop builds, for each key in first-appearance order, exactly the runs with that key |
| Stats.SummariseGroups | src/stats/stats.service.ts:84-92 | the second loop gives each group its summary, under the group's key |
| Stats.CountGroups | src/stats/stats.service.ts:107-117 | the second loop gives each group its run count, under the group's key |
| Stats.GroupByTaskType | src/stats/stats.service.ts:72-95 | the result is `TaskTypeSummary` of the runs |
| Stats.GroupByModel | src/stats/stats.service.ts:97-120 | the result is `ModelSummary` of the runs |
| Stats.Groups | src/stats/stats.service.ts:75-82 | the groups map has a key iff some run has it, holding the runs with that key |
| Stats.GroupsAsWritten | src/stats/stats.service.ts:75-82 | the loop over a plain object fails only with ".push is not a function" |
| Stats.AsWrittenGrouping | src/stats/stats.service.ts:75-82 | the loop as written succeeds iff no key is an inherited `Object.prototype` name, and then builds `Groups` |
| Stats.ToStringTaskTypeThrows | src/stats/stats.service.ts:77-81 | one run of task type "toString" makes the loop throw, while the intended summary counts it once with its duration |
| Stats.SingleRunSummary | src/stats/stats.service.ts:77-91 | the intended per-task-type summary of a single run is one group, under that run's task type, counting one run whose average is its own duration |
| Stats.GetStats | src/stats/stats.service.ts:21-56 | the corrected `getStats` (see Findings): period echoed; total = runs in the window; successful ≤ total; average 0 without runs, else the rounded mean; the two groupings are the summaries of the window, for any task type or model text |
| Stats.SummariesCountEveryRun | src/stats/stats.service.ts:44-45 | the task-type group sizes add up to the number of runs in the window, and so do the model group sizes; each reported count is the size of a non-empty group |

## Left out

- Spawning the process, its environment, stdio, `kill('SIGTERM')` and the real timer are not modelled. Each attempt is an event trace, and a timer still armed at the end of the trace fires.
- `sleep` is recorded as the list of requested delays rather than waited out.
- `Date.now()`, `new Date()` and `process.cwd()` are parameters.
- Logging through the Nest `Logger` is left out: it has no effect on results.
- `JSON.parse` and `JSON.stringify` are parameters (any parser, any serialiser). Their agreement with each other is not modelled.
- Strings are sequences of characters. `length` and `substring` in JavaScript count UTF-16 code units, which can differ for characters outside the Basic Multilingual Plane.
- Numbers read from JSON (tokens, cost) are kept as the JSON values the CLI reported. The model does not coerce them to numbers.
- The cost totals, the per-model cost and the success rate in the stats are floating point and are left out.
- The run repository is a list with sequential numeric ids. Database UUIDs, `createdDate` (the day of the run) and save failures are left out. `createdAt` is the clock reading passed to the logger.
- The order in which the repository returns the runs of a window is taken to be the order they were saved.
- `Object.entries` lists integer-like keys first, in numeric order. The model lists every group key in first-appearance order, which only changes the key order of the returned objects.
- `Math.pow` with a non-integer multiplier cannot arise: the multiplier is the constant 2. A `NaN` or non-integer timeout is not modelled; timeouts are integers.
- Concurrency is left out: the limit of concurrent calls, and two requests sharing the schema cache or run store.
- Cancellation is not modelled, because the code has none.
- The schema cache's file system is a directory listing and a per-file reader. `loadSchemas` only logs a listing failure, so the model leaves the cache unchanged. A read, parse or null-schema failure stops the loop, keeping what was loaded before.
- `ClaudeCli.Retry`: the attempt count must be at least 1, because `execute` handles a count below 1 before calling it (`ExecuteSpec` returns the TypeError).
- Executor.Handle: keeps an `ExecutorException`'s message in the run record and the body thrown again. That is the evidently intended behaviour; the code as written uses "Executor Exception" instead, which `Executor.HandleAsWritten` models (see Findings).
- Executor.Execute: built on the corrected `Handle`, so it logs and throws again the exception's own message where the code as written uses "Executor Exception".
- Stats.GetStats: built on the corrected grouping, so a window with a run whose task type or model is an inherited name such as "toString" yields summaries, where the code as written throws a TypeError (`Stats.GroupsAsWritten`, see Findings).
- Configuration.ParseInt: returns the exact integer. JavaScript's `parseInt` returns a double, so a digit string beyond 2^53 (such as "9007199254740993") reads as a nearby double there.
- The `metadata` field of the request is unused by the code and left out. So is the `onModuleInit` hook, which only calls `loadSchemas`.

## Findings

| source | as written | input that shows it | evidently intended | confidence | as-written member | corrected member |
|---|---|---|---|---|---|---|
| src/stats/stats.service.ts:77-82 and 100-105 | groups are kept in the plain object `{}`, and `!groups[key]` tests for a missing key; an inherited name such as "toString", "constructor" or "__proto__" reads as present, so no array is made and `groups[key].push(run)` throws a TypeError, failing the whole `getStats` call | one run in the window whose task type (or model) is "toString" | every run is counted under its own key whatever the key's text | not executed; medium (follows from the language's property lookup) | Stats.GroupsAsWritten, Stats.ToStringTaskTypeThrows | Stats.GroupBy, Stats.GroupsPartition, Stats.GetStats |
| src/executor/executor.service.ts:74 and 82 | `error.message` of a caught `ExecutorException` is read for the run record and for the exception thrown again. `message` is only a constructor parameter placed in the body's `error.message` (src/common/exceptions/executor.exception.ts:39 and 48), so `HttpException` derives the property from the class name: "Executor Exception". Every logged error message and every re-thrown body loses the real message | a CLI timeout, thrown with the message "Claude CLI timeout after 120000ms" | the run record and the re-thrown body carry the exception's own message | not executed; medium (follows from the framework's `HttpException` message rule) | Executor.HandleAsWritten, Executor.ExecutorMessageLost, Executor.TimeoutMessageLost | Executor.Handle, Executor.ExecutorExceptionRethrownWithRunId, Executor.Execute |
