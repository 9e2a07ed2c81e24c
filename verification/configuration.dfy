/**
  The application configuration, computed from the process environment.
  Every setting is `env value || default`; numeric settings go through
  `parseInt(value, 10)` first, so a value that parses to NaN or to zero falls
  back to the default.
 */
module Configuration {
  import opened Wrappers
  import opened Strings

  datatype PathsConfig = PathsConfig(claudeCliPath: string, workspacePath: string)
  datatype DefaultsConfig = DefaultsConfig(model: string, timeout: int)
  datatype LimitsConfig = LimitsConfig(maxPromptLength: int, maxConcurrent: int)
  datatype RetryConfig = RetryConfig(attempts: int, delayMs: int, backoffMultiplier: int)
  datatype ExecutorConfig = ExecutorConfig(paths: PathsConfig, defaults: DefaultsConfig, limits: LimitsConfig, retry: RetryConfig)
  datatype DatabaseConfig = DatabaseConfig(host: string, port: int, username: string, password: string, database: string)
  /** `apiKey` is None when it is `undefined`. */
  datatype AppConfig = AppConfig(port: int, apiKey: Option<string>, executor: ExecutorConfig, database: DatabaseConfig)

  /** The process environment: a variable that is unset is absent from the map. */
  type Env = map<string, string>

  /** `process.env[name]`. */
  function Lookup(env: Env, name: string): Option<string> {
    if name in env then Some(env[name]) else None
  }

  predicate IsDecimalDigit(c: char) {
    '0' as int <= c as int <= '9' as int
  }

  /** The end of the run of decimal digits that starts at `from`. */
  function DigitRunEnd(s: string, from: nat): (r: nat)
    requires from <= |s|
    ensures from <= r <= |s|
    ensures forall j :: from <= j < r ==> IsDecimalDigit(s[j])
    ensures r < |s| ==> !IsDecimalDigit(s[r])
    decreases |s| - from
  {
    if from < |s| && IsDecimalDigit(s[from]) then DigitRunEnd(s, from + 1) else from
  }

  /** The integer a string of decimal digits denotes. */
  function DigitsValue(z: string): nat
    requires forall j :: 0 <= j < |z| ==> IsDecimalDigit(z[j])
  {
    if z == [] then 0
    else
      assert IsDecimalDigit(z[|z| - 1]);
      DigitsValue(z[..|z| - 1]) * 10 + (z[|z| - 1] as int - '0' as int)
  }

  /**
    `parseInt(input, 10)` following section 19.2.5 of ECMA-262: `undefined` is
    first turned into the string "undefined"; leading white space is skipped; one
    '+' or '-' is accepted; then the longest run of decimal digits is read. No
    digits gives NaN (None). A negative zero is returned as 0, which is just as
    falsy as -0.
   */
  function ParseInt(input: Option<string>): Option<int> {
    var s := input.GetOr("undefined");
    var b := SkipWhitespace(s, 0);
    var signed := b < |s| && (s[b] == '-' || s[b] == '+');
    var start := if signed then b + 1 else b;
    var end := DigitRunEnd(s, start);
    if end == start then None
    else
      var m: int := DigitsValue(s[start..end]);
      Some(if signed && s[b] == '-' then -m else m)
  }

  /** `parseInt(v, 10) || d`: NaN and zero are falsy and give the default. */
  function IntOr(v: Option<string>, d: int): (r: int)
    ensures ParseInt(v).None? || ParseInt(v) == Some(0) ==> r == d
    ensures ParseInt(v).Some? && ParseInt(v).value != 0 ==> r == ParseInt(v).value
    ensures d != 0 ==> r != 0
  {
    match ParseInt(v)
    case Some(n) => if n != 0 then n else d
    case None => d
  }

  /** `v || d` for a string that may be unset: the empty string is falsy. */
  function StringOr(v: Option<string>, d: string): (r: string)
    ensures v.Some? && v.value != "" ==> r == v.value
    ensures v.None? || v.value == "" ==> r == d
  {
    if v.Some? && v.value != "" then v.value else d
  }

  /** The configuration factory; `cwd` is `process.cwd()`. */
  function Load(env: Env, cwd: string): (c: AppConfig)
    ensures c.executor.retry.backoffMultiplier == 2
    ensures c.port != 0 && c.executor.defaults.timeout != 0 && c.executor.limits.maxPromptLength != 0
    ensures c.executor.limits.maxConcurrent != 0 && c.executor.retry.attempts != 0 && c.executor.retry.delayMs != 0
    ensures c.database.port != 0
    ensures c.apiKey.Some? <==> ("API_KEY" in env && env["API_KEY"] != "")
    ensures c.apiKey.Some? ==> c.apiKey.value == env["API_KEY"]
    ensures "CLAUDE_DEFAULT_MODEL" in env && env["CLAUDE_DEFAULT_MODEL"] != "" ==>
      c.executor.defaults.model == env["CLAUDE_DEFAULT_MODEL"]
  {
    AppConfig(
      port := IntOr(Lookup(env, "PORT"), 3000),
      apiKey := if Lookup(env, "API_KEY").Some? && env["API_KEY"] != "" then Some(env["API_KEY"]) else None,
      executor := ExecutorConfig(
        paths := PathsConfig(
          claudeCliPath := StringOr(Lookup(env, "CLAUDE_CLI_PATH"), "claude"),
          workspacePath := StringOr(Lookup(env, "CLAUDE_WORKSPACE_PATH"), cwd + "/claude-workspace")),
        defaults := DefaultsConfig(
          model := StringOr(Lookup(env, "CLAUDE_DEFAULT_MODEL"), "sonnet"),
          timeout := IntOr(Lookup(env, "CLAUDE_DEFAULT_TIMEOUT"), 120000)),
        limits := LimitsConfig(
          maxPromptLength := IntOr(Lookup(env, "CLAUDE_MAX_PROMPT_LENGTH"), 50000),
          maxConcurrent := IntOr(Lookup(env, "CLAUDE_MAX_CONCURRENT"), 5)),
        retry := RetryConfig(
          attempts := IntOr(Lookup(env, "CLAUDE_RETRY_ATTEMPTS"), 3),
          delayMs := IntOr(Lookup(env, "CLAUDE_RETRY_DELAY_MS"), 1000),
          backoffMultiplier := 2)),
      database := DatabaseConfig(
        host := StringOr(Lookup(env, "DATABASE_HOST"), "localhost"),
        port := IntOr(Lookup(env, "DATABASE_PORT"), 5432),
        username := StringOr(Lookup(env, "DATABASE_USERNAME"), "postgres"),
        password := StringOr(Lookup(env, "DATABASE_PASSWORD"), "postgres"),
        database := StringOr(Lookup(env, "DATABASE_NAME"), "claude_executor")))
  }

  /** With nothing set in the environment every setting takes its documented default. */
  lemma DefaultsWhenUnset(cwd: string)
    ensures var c := Load(map[], cwd);
      && c.executor.paths.claudeCliPath == "claude"
      && c.executor.paths.workspacePath == cwd + "/claude-workspace"
      && c.executor.defaults.model == "sonnet"
      && c.executor.defaults.timeout == 120000
      && c.executor.limits.maxPromptLength == 50000
      && c.executor.limits.maxConcurrent == 5
      && c.executor.retry.attempts == 3
      && c.executor.retry.delayMs == 1000
      && c.port == 3000
      && c.apiKey.None?
  {
    assert ParseInt(None) == None by {
      var s := "undefined";
      assert SkipWhitespace(s, 0) == 0;
      assert DigitRunEnd(s, 0) == 0;
    }
  }

  lemma {:induction false} DigitsValueSnoc(z: string, d: char)
    requires forall j :: 0 <= j < |z| ==> IsDecimalDigit(z[j])
    requires IsDecimalDigit(d)
    ensures DigitsValue(z + [d]) == DigitsValue(z) * 10 + (d as int - '0' as int)
  {
    assert (z + [d])[..|z|] == z;
  }

  /** Reading back the digits a template literal writes gives the number again. */
  lemma {:induction false} DigitsValueOfNatToString(n: nat)
    ensures forall j :: 0 <= j < |NatToString(n)| ==> IsDecimalDigit(NatToString(n)[j])
    ensures DigitsValue(NatToString(n)) == n
  {
    if n < 10 {
      assert NatToString(n) == [DigitChar(n)];
      assert DigitsValue([DigitChar(n)]) == DigitsValue([]) * 10 + (DigitChar(n) as int - '0' as int) by {
        assert [DigitChar(n)][..0] == [];
      }
    } else {
      DigitsValueOfNatToString(n / 10);
      DigitsValueSnoc(NatToString(n / 10), DigitChar(n % 10));
    }
  }

  /** `parseInt` reads back the decimal rendering of any natural number. */
  lemma ParseIntOfDecimal(n: nat)
    ensures ParseInt(Some(NatToString(n))) == Some(n)
  {
    var s := NatToString(n);
    DigitsValueOfNatToString(n);
    assert SkipWhitespace(s, 0) == 0;
    assert s[0] != '-' && s[0] != '+';
    assert DigitRunEnd(s, 0) == |s| by {
      DigitRunWhole(s, 0);
    }
    assert s[0..|s|] == s;
  }

  lemma {:induction false} DigitRunWhole(s: string, from: nat)
    requires from <= |s|
    requires forall j :: from <= j < |s| ==> IsDecimalDigit(s[j])
    ensures DigitRunEnd(s, from) == |s|
    decreases |s| - from
  {
    if from < |s| {
      DigitRunWhole(s, from + 1);
    }
  }

  /** A numeric setting given as the decimal rendering of a positive number takes that number. */
  lemma RetryAttemptsFromEnv(env: Env, cwd: string, n: nat)
    requires "CLAUDE_RETRY_ATTEMPTS" in env && env["CLAUDE_RETRY_ATTEMPTS"] == NatToString(n)
    requires n > 0
    ensures Load(env, cwd).executor.retry.attempts == n
  {
    ParseIntOfDecimal(n);
  }

  /**
    A value with no decimal digit in it (unset, empty, "abc", "  -x") parses to
    NaN, so the setting takes its default.
   */
  lemma NoDigitsFallsBack(v: Option<string>, d: int)
    requires v.Some? ==> forall j :: 0 <= j < |v.value| ==> !IsDecimalDigit(v.value[j])
    ensures ParseInt(v) == None && IntOr(v, d) == d
  {
    var s := v.GetOr("undefined");
    assert forall j :: 0 <= j < |s| ==> !IsDecimalDigit(s[j]) by {
      if v.None? {
        assert s == "undefined";
      }
    }
    var b := SkipWhitespace(s, 0);
    var start := if b < |s| && (s[b] == '-' || s[b] == '+') then b + 1 else b;
    assert DigitRunEnd(s, start) == start;
  }

  /** A setting whose value parses to zero falls back to the default ("0" gives 3 attempts, never 0). */
  lemma ZeroFallsBack(env: Env, cwd: string)
    requires "CLAUDE_RETRY_ATTEMPTS" in env && env["CLAUDE_RETRY_ATTEMPTS"] == "0"
    ensures Load(env, cwd).executor.retry.attempts == 3
  {
    ParseIntOfDecimal(0);
    assert NatToString(0) == "0";
  }

  /** A negative value is accepted as it is: "-2" gives -2 attempts. */
  lemma NegativeAttemptsAccepted(env: Env, cwd: string)
    requires "CLAUDE_RETRY_ATTEMPTS" in env && env["CLAUDE_RETRY_ATTEMPTS"] == "-2"
    ensures Load(env, cwd).executor.retry.attempts == -2
  {
    var s := "-2";
    assert ParseInt(Some(s)) == Some(-2) by {
      assert SkipWhitespace(s, 0) == 0;
      assert DigitRunEnd(s, 1) == 2 by {
        assert DigitRunEnd(s, 2) == 2;
      }
      assert s[1..2] == "2";
      assert DigitsValue("2") == 2 by {
        assert "2"[..0] == [];
      }
    }
    assert Load(env, cwd).executor.retry.attempts == IntOr(Some(s), 3);
  }

  /** Text after the digits is ignored: "30s" sets a 30 ms delay. */
  lemma TrailingTextIgnored(env: Env, cwd: string)
    requires "CLAUDE_RETRY_DELAY_MS" in env && env["CLAUDE_RETRY_DELAY_MS"] == "30s"
    ensures Load(env, cwd).executor.retry.delayMs == 30
  {
    var s := "30s";
    assert ParseInt(Some(s)) == Some(30) by {
      assert SkipWhitespace(s, 0) == 0;
      assert DigitRunEnd(s, 0) == 2 by {
        assert DigitRunEnd(s, 2) == 2;
      }
      assert s[0..2] == "30";
      assert DigitsValue("30") == 30 by {
        assert "30"[..1] == "3";
        assert "3"[..0] == [];
      }
    }
    assert Load(env, cwd).executor.retry.delayMs == IntOr(Some(s), 1000);
  }
}
