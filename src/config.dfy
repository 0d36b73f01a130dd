/**
 * AIAnalysisConfig (app/ai_analysis/config.py): the settings of the
 * analysis module and their field validators. As in pydantic, a validator
 * runs only on a value the caller supplies; defaults are taken as they are.
 * Every failing field contributes its message to the validation error.
 */
module Config {
  import opened Wrappers

  datatype Settings = Settings(
    apiKey: Option<string>,
    modelName: string,
    maxContextTokens: int,
    safetyBuffer: int,
    maxRetries: int,
    retryBaseDelay: real,
    cacheTtlMinutes: int,
    logLevel: string)

  /** The defaults of the class body. */
  const Defaults := Settings(None, "gpt-4o-2024-08-06", 120000, 20000, 3, 1.0, 30, "INFO")

  /** What the caller passes: None for a field left out, Some(v) for a supplied one. */
  datatype Overrides = Overrides(
    apiKey: Option<Option<string>>,
    modelName: Option<string>,
    maxContextTokens: Option<int>,
    safetyBuffer: Option<int>,
    maxRetries: Option<int>,
    retryBaseDelay: Option<real>,
    cacheTtlMinutes: Option<int>,
    logLevel: Option<string>)

  const NoOverrides := Overrides(None, None, None, None, None, None, None, None)

  const ValidLevels: seq<string> := ["DEBUG", "INFO", "WARNING", "ERROR", "CRITICAL"]

  const ContextTooSmall := "max_context_tokens must be at least 1000"
  const ContextTooLarge := "max_context_tokens seems unreasonably high"
  const NegativeBuffer := "safety_buffer cannot be negative"
  const NegativeRetries := "max_retries cannot be negative"
  const TooManyRetries := "max_retries seems unreasonably high"
  const NonPositiveDelay := "retry_base_delay must be positive"
  const DelayTooLong := "retry_base_delay seems unreasonably high"
  const BadLevel := "log_level must be one of: DEBUG, INFO, WARNING, ERROR, CRITICAL"
  const MissingKey := "OpenAI API key must be provided or set in OPENAI_API_KEY environment variable"

  /** validate_max_context_tokens. */
  function CheckMaxContextTokens(v: int): (r: Result<int, string>)
    ensures r.Ok? <==> 1000 <= v <= 1000000
    ensures r.Ok? ==> r.value == v
    ensures r.Err? ==> r.error == (if v < 1000 then ContextTooSmall else ContextTooLarge)
  {
    if v < 1000 then Err(ContextTooSmall)
    else if v > 1000000 then Err(ContextTooLarge)
    else Ok(v)
  }

  /** validate_safety_buffer: only the sign is checked, not the relation to max_context_tokens. */
  function CheckSafetyBuffer(v: int): (r: Result<int, string>)
    ensures r.Ok? <==> v >= 0
    ensures r.Ok? ==> r.value == v
  {
    if v < 0 then Err(NegativeBuffer) else Ok(v)
  }

  /** validate_max_retries. */
  function CheckMaxRetries(v: int): (r: Result<int, string>)
    ensures r.Ok? <==> 0 <= v <= 10
    ensures r.Ok? ==> r.value == v
    ensures r.Err? ==> r.error == (if v < 0 then NegativeRetries else TooManyRetries)
  {
    if v < 0 then Err(NegativeRetries)
    else if v > 10 then Err(TooManyRetries)
    else Ok(v)
  }

  /** validate_retry_base_delay. */
  function CheckRetryBaseDelay(v: real): (r: Result<real, string>)
    ensures r.Ok? <==> 0.0 < v <= 10.0
    ensures r.Ok? ==> r.value == v
    ensures r.Err? ==> r.error == (if v <= 0.0 then NonPositiveDelay else DelayTooLong)
  {
    if v <= 0.0 then Err(NonPositiveDelay)
    else if v > 10.0 then Err(DelayTooLong)
    else Ok(v)
  }

  /** validate_log_level: case matters, "info" is refused. */
  function CheckLogLevel(v: string): (r: Result<string, string>)
    ensures r.Ok? <==> v in ValidLevels
    ensures r.Ok? ==> r.value == v
  {
    if v !in ValidLevels then Err(BadLevel) else Ok(v)
  }

  /**
   * validate_api_key: a supplied None passes only when the environment has a
   * non-empty OPENAI_API_KEY; a supplied string passes as it is.
   */
  function CheckApiKey(v: Option<string>, env: Option<string>): (r: Result<Option<string>, string>)
    ensures r.Ok? <==> (v.Some? || (env.Some? && env.value != ""))
    ensures r.Ok? ==> r.value == v
  {
    if v.None? && (env.None? || env.value == "") then Err(MissingKey) else Ok(v)
  }

  /** The message of a failed check, if any. */
  function Failure<T>(r: Result<T, string>): seq<string>
  {
    if r.Err? then [r.error] else []
  }

  /** Runs the check on a supplied value; a left-out field keeps its default and is not checked. */
  function Checked<T>(supplied: Option<T>, default: T, check: T -> Result<T, string>): Result<T, string>
  {
    match supplied
    case None => Ok(default)
    case Some(v) => check(v)
  }

  /**
   * AIAnalysisConfig(**overrides), with env the value of OPENAI_API_KEY.
   * The error lists the messages of all failing fields in declaration order.
   */
  function MakeConfig(o: Overrides, env: Option<string>): (r: Result<Settings, seq<string>>)
    ensures r.Err? ==> |r.error| > 0
  {
    var key := Checked(o.apiKey, Defaults.apiKey, v => CheckApiKey(v, env));
    var context := Checked(o.maxContextTokens, Defaults.maxContextTokens, CheckMaxContextTokens);
    var buffer := Checked(o.safetyBuffer, Defaults.safetyBuffer, CheckSafetyBuffer);
    var retries := Checked(o.maxRetries, Defaults.maxRetries, CheckMaxRetries);
    var delay := Checked(o.retryBaseDelay, Defaults.retryBaseDelay, CheckRetryBaseDelay);
    var level := Checked(o.logLevel, Defaults.logLevel, CheckLogLevel);
    var errors := Failure(key) + Failure(context) + Failure(buffer) + Failure(retries)
      + Failure(delay) + Failure(level);
    if errors != [] then Err(errors)
    else Ok(Settings(key.value, o.modelName.GetOr(Defaults.modelName), context.value,
      buffer.value, retries.value, delay.value, o.cacheTtlMinutes.GetOr(Defaults.cacheTtlMinutes),
      level.value))
  }

  /** The bounds every constructed configuration satisfies. */
  predicate WithinBounds(s: Settings)
  {
    1000 <= s.maxContextTokens <= 1000000 && s.safetyBuffer >= 0
    && 0 <= s.maxRetries <= 10 && 0.0 < s.retryBaseDelay <= 10.0 && s.logLevel in ValidLevels
  }

  /**
   * Whatever is supplied, a configuration that is built keeps the validators'
   * bounds (the defaults meet them), and it carries each supplied value.
   */
  lemma {:induction false} MadeConfigIsBounded(o: Overrides, env: Option<string>)
    requires MakeConfig(o, env).Ok?
    ensures WithinBounds(MakeConfig(o, env).value)
    ensures o.maxContextTokens.Some? ==> MakeConfig(o, env).value.maxContextTokens == o.maxContextTokens.value
    ensures o.safetyBuffer.Some? ==> MakeConfig(o, env).value.safetyBuffer == o.safetyBuffer.value
    ensures o.maxRetries.Some? ==> MakeConfig(o, env).value.maxRetries == o.maxRetries.value
  {
    assert Defaults.logLevel == ValidLevels[1];
  }

  /** A field that fails its validator makes the whole construction fail. */
  lemma {:induction false} BadFieldRejects(o: Overrides, env: Option<string>)
    requires (o.maxContextTokens.Some? && !(1000 <= o.maxContextTokens.value <= 1000000))
      || (o.maxRetries.Some? && !(0 <= o.maxRetries.value <= 10))
      || (o.safetyBuffer.Some? && o.safetyBuffer.value < 0)
    ensures MakeConfig(o, env).Err?
  {
  }

  /**
   * safety_buffer is not checked against max_context_tokens: a valid
   * configuration can leave no room at all for a chunk.
   */
  lemma {:induction false} BufferMayExceedContext()
    ensures var o := NoOverrides.(maxContextTokens := Some(1000), safetyBuffer := Some(5000));
      var r := MakeConfig(o, None);
      r.Ok? && r.value.maxContextTokens - r.value.safetyBuffer < 0
  {
    var o := NoOverrides.(maxContextTokens := Some(1000), safetyBuffer := Some(5000));
    assert Defaults.logLevel == ValidLevels[1];
    assert MakeConfig(o, None).Ok?;
  }

  /** The API key check runs only when a key is supplied: the bare constructor succeeds without one. */
  lemma {:induction false} DefaultsNeedNoKey()
    ensures MakeConfig(NoOverrides, None) == Ok(Defaults)
  {
    assert Defaults.logLevel == ValidLevels[1];
  }
}
