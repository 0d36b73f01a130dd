/**
 * The structured-analysis call: the classifier that decides whether a failed
 * call to the language model is worth retrying, the bounded retry loop with
 * exponential backoff, and the shaping of the model's JSON reply into a dict.
 *
 * The language model and json.loads are oracles. The k-th call of the model
 * (k counting from 0) answers call(k): the reply's content, "" when the reply
 * has none, or the exception it raised. parse(s) is the value json.loads(s)
 * returns, or None when it raises JSONDecodeError. Sleeps are recorded in
 * seconds, not taken.
 */
module Retry {
  import opened Wrappers
  import opened Errors
  import opened PyValue
  import Text
  import PyMath

  // ----- _determine_retry_strategy -----

  datatype Strategy = Strategy(retry: bool, kind: string)

  predicate MentionsRateLimit(msg: string)
  {
    Text.Contains(Text.Lower(msg), "rate limit") || Text.Contains(Text.Lower(msg), "rate_limit")
  }

  predicate MentionsTimeout(msg: string)
  {
    Text.Contains(Text.Lower(msg), "timeout")
  }

  predicate MentionsServerError(msg: string)
  {
    Text.Contains(Text.Lower(msg), "server error") || Text.Contains(Text.Lower(msg), "5xx")
  }

  predicate MentionsConnection(msg: string)
  {
    Text.Contains(Text.Lower(msg), "connection")
  }

  /** A message naming a failure that may go away by itself. */
  predicate Transient(msg: string)
  {
    MentionsRateLimit(msg) || MentionsTimeout(msg) || MentionsServerError(msg) || MentionsConnection(msg)
  }

  /**
   * The classifier: the first of rate limit, timeout, server error and
   * connection that the lower-cased message mentions, retried; anything else
   * is an API error that is not.
   */
  function DetermineRetryStrategy(msg: string): (r: Strategy)
    ensures r.retry <==> Transient(msg)
    ensures !r.retry <==> r == Strategy(false, "API")
    ensures r.kind == "Rate limit" <==> MentionsRateLimit(msg)
  {
    if MentionsRateLimit(msg) then Strategy(true, "Rate limit")
    else if MentionsTimeout(msg) then Strategy(true, "Timeout")
    else if MentionsServerError(msg) then Strategy(true, "Server")
    else if MentionsConnection(msg) then Strategy(true, "Connection")
    else Strategy(false, "API")
  }

  /** The checks come in order: a message that mentions several kinds is classified by the earliest. */
  lemma {:induction false} StrategyOrder(msg: string)
    ensures DetermineRetryStrategy(msg).kind == "Timeout" <==> MentionsTimeout(msg) && !MentionsRateLimit(msg)
    ensures DetermineRetryStrategy(msg).kind == "Server" <==>
      MentionsServerError(msg) && !MentionsRateLimit(msg) && !MentionsTimeout(msg)
    ensures DetermineRetryStrategy(msg).kind == "Connection" <==>
      MentionsConnection(msg) && !MentionsRateLimit(msg) && !MentionsTimeout(msg) && !MentionsServerError(msg)
  {
  }

  /** The classifier ignores case: a message and its lower-cased form are classified alike. */
  lemma {:induction false} StrategyIgnoresCase(msg: string)
    ensures DetermineRetryStrategy(Text.Lower(msg)) == DetermineRetryStrategy(msg)
  {
    Text.LowerIdempotent(msg);
  }

  // ----- _extract_json_from_text and _safe_json_load -----

  function LastIndexOf(s: string, c: char): (j: nat)
    requires c in s
    ensures j < |s| && s[j] == c
    ensures forall k :: j < k < |s| ==> s[k] != c
  {
    if s[|s| - 1] == c then |s| - 1 else LastIndexOf(s[..|s| - 1], c)
  }

  /**
   * Where the greedy pattern ({[\s\S]*}) matches: from the first '{' to the
   * last '}' after it. Because the match runs to the last '}', it is the
   * only match, and it encloses every other brace-delimited substring.
   */
  function BraceSpan(text: string): (r: Option<(nat, nat)>)
    ensures r.Some? ==>
      var (i, j) := r.value;
      i < j < |text| && text[i] == '{' && text[j] == '}'
      && (forall k :: 0 <= k < i ==> text[k] != '{')
      && (forall k :: j < k < |text| ==> text[k] != '}')
    ensures r.None? ==> forall i, j :: 0 <= i < j < |text| && text[i] == '{' ==> text[j] != '}'
  {
    if '{' in text && '}' in text then
      var i := Text.IndexOf(text, '{');
      var j := LastIndexOf(text, '}');
      assert forall k :: 0 <= k < i ==> text[..i][k] == text[k];
      if i < j then Some((i, j)) else None
    else
      None
  }

  /** The brace-delimited substring parsed, or {} when there is none or it does not parse. */
  function ExtractJsonFromText(parse: string -> Option<Value>, text: string): (r: Value)
    ensures BraceSpan(text).None? ==> r == PyDict([])
    ensures BraceSpan(text).Some? ==>
      var (i, j) := BraceSpan(text).value;
      r == parse(text[i..j + 1]).GetOr(PyDict([]))
  {
    match BraceSpan(text)
    case None => PyDict([])
    case Some((i, j)) =>
      match parse(text[i..j + 1])
      case Some(v) => v
      case None => PyDict([])
  }

  /**
   * _safe_json_load: a reply that parses is returned when it is a dict and
   * wrapped as {"content": parsed} otherwise; a reply that does not parse
   * goes to ExtractJsonFromText.
   */
  function SafeJsonLoad(parse: string -> Option<Value>, content: string): (r: Value)
    ensures parse(content).Some? && parse(content).value.PyDict? ==> r == parse(content).value
    ensures parse(content).Some? && !parse(content).value.PyDict? ==>
      r == PyDict([("content", parse(content).value)])
    ensures parse(content).None? ==> r == ExtractJsonFromText(parse, content)
  {
    match parse(content)
    case Some(PyDict(es)) => PyDict(es)
    case Some(v) => PyDict([("content", v)])
    case None => ExtractJsonFromText(parse, content)
  }

  /** What a real JSON parser guarantees: a document that starts with '{' and parses is an object. */
  ghost predicate ObjectParser(parse: string -> Option<Value>)
  {
    forall s :: |s| > 0 && s[0] == '{' && parse(s).Some? ==> parse(s).value.PyDict?
  }

  /** With such a parser the reply is always shaped into a dict. */
  lemma {:induction false} SafeJsonLoadIsDict(parse: string -> Option<Value>, content: string)
    requires ObjectParser(parse)
    ensures SafeJsonLoad(parse, content).PyDict?
  {
    if parse(content).None? && BraceSpan(content).Some? {
      var (i, j) := BraceSpan(content).value;
      var s := content[i..j + 1];
      assert |s| > 0 && s[0] == '{';
    }
  }

  // ----- call_structured_analysis -----

  datatype Reply = Content(text: string) | Raised(error: Error)

  /** The synchronous call, or the asynchronous one with or without an async client. */
  datatype Variant = SyncCall | AsyncCall(hasClient: bool)

  /** The outcome of the whole call, the sleeps taken between attempts and the number of calls of the model. */
  datatype Run = Run(result: Result<Value, Error>, sleeps: seq<real>, calls: nat)

  const Exhausted := "Failed to get a valid response after all retries"
  const NoAsyncClient := "Async OpenAI client not available. Please update your openai package."
  const ValueFailure := "Failed due to value/type error: "

  predicate IsValueOrTypeError(e: Error)
  {
    IsValueError(e) || e.TypeError?
  }

  function UnexpectedFailure(v: Variant): string
  {
    if v.SyncCall? then "Unexpected error in API call: " else "Unexpected error in async API call: "
  }

  /** The backoff before the attempt after attempt k: base × 2^k seconds. */
  function Delay(base: real, k: nat): real
  {
    base * PyMath.Pow2(k) as real
  }

  /** The exception an API error becomes when it is not retried (any more). */
  function ApiFailure(e: Error, attempt: nat): (r: Error)
    ensures r.RateLimitError? || r.APIError?
    ensures r.RateLimitError? <==> DetermineRetryStrategy(Message(e)).kind == "Rate limit"
  {
    if MentionsRateLimit(Message(e)) then
      RateLimitError("OpenAI rate limit exceeded after " + Text.IntToString(attempt) + " attempts: " + Message(e))
    else
      APIError("OpenAI API error after " + Text.IntToString(attempt) + " attempts: " + Message(e))
  }

  /** What one attempt's try/except decides: the call's outcome, or another attempt after the given sleeps. */
  datatype Step = Done(result: Result<Value, Error>) | Again(sleeps: seq<real>)

  /**
   * The body of one attempt: a non-empty reply is shaped and returned; an
   * empty one is retried at once unless this is the last attempt, which
   * returns {}; an API error (the project's own APIError or RateLimitError,
   * which the OpenAI SDK does not raise) is retried after a backoff while the
   * classifier allows and attempts remain; another AIAnalysisError propagates; any other
   * exception is retried after a backoff and, on the last attempt, becomes
   * an AIAnalysisError.
   */
  function AttemptStep(v: Variant, maxRetries: int, base: real, parse: string -> Option<Value>,
                       attempt: nat, reply: Reply): (r: Step)
    ensures r.Again? ==> attempt < maxRetries
    ensures r.Again? ==> r.sleeps == [] || r.sleeps == [Delay(base, attempt)]
    ensures r.Done? && r.result.Err? ==> IsAIAnalysisError(r.result.error)
    ensures r.Done? && r.result.Ok? ==>
      reply.Content? && r.result.value == (if reply.text != "" then SafeJsonLoad(parse, reply.text) else PyDict([]))
  {
    match reply
    case Content(s) =>
      if s != "" then Done(Ok(SafeJsonLoad(parse, s)))
      else if attempt < maxRetries then Again([])
      else Done(Ok(PyDict([])))
    case Raised(e) =>
      if IsAPIError(e) then
        if DetermineRetryStrategy(Message(e)).retry && attempt < maxRetries then Again([Delay(base, attempt)])
        else Done(Err(ApiFailure(e, attempt)))
      else if IsAIAnalysisError(e) then Done(Err(e))
      else if attempt >= maxRetries then
        var msg := if IsValueOrTypeError(e) then ValueFailure else UnexpectedFailure(v);
        Done(Err(AIAnalysisError(msg + Message(e))))
      else Again([Delay(base, attempt)])
  }

  /** The attempts from attempt on, of a loop over range(maxRetries + 1). */
  function Attempts(v: Variant, maxRetries: int, base: real, call: nat -> Reply,
                    parse: string -> Option<Value>, attempt: nat): Run
    decreases maxRetries + 1 - attempt
  {
    if attempt > maxRetries then Run(Err(AIAnalysisError(Exhausted)), [], attempt)
    else match AttemptStep(v, maxRetries, base, parse, attempt, call(attempt))
      case Done(r) => Run(r, [], attempt + 1)
      case Again(pause) =>
        var rest := Attempts(v, maxRetries, base, call, parse, attempt + 1);
        Run(rest.result, pause + rest.sleeps, rest.calls)
  }

  /** One attempt of the loop: it ends the run, or its sleeps come before those of the later attempts. */
  lemma {:induction false} AttemptsUnfold(v: Variant, maxRetries: int, base: real, call: nat -> Reply,
                       parse: string -> Option<Value>, attempt: nat)
    requires attempt <= maxRetries
    ensures var step := AttemptStep(v, maxRetries, base, parse, attempt, call(attempt));
      var rest := Attempts(v, maxRetries, base, call, parse, attempt + 1);
      Attempts(v, maxRetries, base, call, parse, attempt) ==
        if step.Done? then Run(step.result, [], attempt + 1) else Run(rest.result, step.sleeps + rest.sleeps, rest.calls)
  {
  }

  /** The whole call: the asynchronous one first insists on an async client. */
  function StructuredCall(v: Variant, maxRetries: int, base: real, call: nat -> Reply,
                          parse: string -> Option<Value>): Run
  {
    if v == AsyncCall(false) then Run(Err(ValueError(NoAsyncClient)), [], 0)
    else Attempts(v, maxRetries, base, call, parse, 0)
  }

  /**
   * call_structured_analysis and call_structured_analysis_async: the
   * `for attempt` loop, which returns or raises what an attempt decides,
   * and otherwise sleeps as it says and moves on to the next attempt.
   */
  method CallStructuredAnalysis(v: Variant, maxRetries: int, base: real, call: nat -> Reply,
                                parse: string -> Option<Value>)
    returns (result: Result<Value, Error>, sleeps: seq<real>, calls: nat)
    ensures Run(result, sleeps, calls) == StructuredCall(v, maxRetries, base, call, parse)
  {
    if v == AsyncCall(false) {
      return Err(ValueError(NoAsyncClient)), [], 0;
    }
    ghost var whole := Attempts(v, maxRetries, base, call, parse, 0);
    sleeps := [];
    var attempt: nat := 0;
    while attempt <= maxRetries
      invariant Resumes(whole, v, maxRetries, base, call, parse, attempt, sleeps)
      decreases maxRetries + 1 - attempt
    {
      var step := AttemptStep(v, maxRetries, base, parse, attempt, call(attempt));
      if step.Done? {
        DoneEndsRun(whole, v, maxRetries, base, call, parse, attempt, sleeps);
        return step.result, sleeps, attempt + 1;
      }
      AgainResumes(whole, v, maxRetries, base, call, parse, attempt, sleeps);
      sleeps := sleeps + step.sleeps;
      attempt := attempt + 1;
    }
    ExhaustedEndsRun(whole, v, maxRetries, base, call, parse, attempt, sleeps);
    return Err(AIAnalysisError(Exhausted)), sleeps, attempt;
  }

  /** The whole run is what the sleeps taken so far and the attempts from attempt on make together. */
  ghost predicate Resumes(whole: Run, v: Variant, maxRetries: int, base: real, call: nat -> Reply,
                          parse: string -> Option<Value>, attempt: nat, taken: seq<real>)
  {
    var here := Attempts(v, maxRetries, base, call, parse, attempt);
    whole == Run(here.result, taken + here.sleeps, here.calls)
  }

  lemma {:induction false} DoneEndsRun(whole: Run, v: Variant, maxRetries: int, base: real, call: nat -> Reply,
                                       parse: string -> Option<Value>, attempt: nat, taken: seq<real>)
    requires attempt <= maxRetries
    requires Resumes(whole, v, maxRetries, base, call, parse, attempt, taken)
    requires AttemptStep(v, maxRetries, base, parse, attempt, call(attempt)).Done?
    ensures whole == Run(AttemptStep(v, maxRetries, base, parse, attempt, call(attempt)).result, taken, attempt + 1)
  {
    AttemptsUnfold(v, maxRetries, base, call, parse, attempt);
    assert taken + [] == taken;
  }

  lemma {:induction false} AgainResumes(whole: Run, v: Variant, maxRetries: int, base: real, call: nat -> Reply,
                                        parse: string -> Option<Value>, attempt: nat, taken: seq<real>)
    requires attempt <= maxRetries
    requires Resumes(whole, v, maxRetries, base, call, parse, attempt, taken)
    requires AttemptStep(v, maxRetries, base, parse, attempt, call(attempt)).Again?
    ensures Resumes(whole, v, maxRetries, base, call, parse, attempt + 1,
                    taken + AttemptStep(v, maxRetries, base, parse, attempt, call(attempt)).sleeps)
  {
    var step := AttemptStep(v, maxRetries, base, parse, attempt, call(attempt));
    var rest := Attempts(v, maxRetries, base, call, parse, attempt + 1);
    AttemptsUnfold(v, maxRetries, base, call, parse, attempt);
    assert taken + (step.sleeps + rest.sleeps) == (taken + step.sleeps) + rest.sleeps;
  }

  lemma {:induction false} ExhaustedEndsRun(whole: Run, v: Variant, maxRetries: int, base: real, call: nat -> Reply,
                                            parse: string -> Option<Value>, attempt: nat, taken: seq<real>)
    requires attempt > maxRetries
    requires Resumes(whole, v, maxRetries, base, call, parse, attempt, taken)
    ensures whole == Run(Err(AIAnalysisError(Exhausted)), taken, attempt)
  {
    assert taken + [] == taken;
  }

  // ----- properties of the retry loop -----

  /**
   * At most maxRetries + 1 calls are made, and a sleep separates only
   * consecutive calls, so there are fewer sleeps than calls.
   */
  lemma {:induction false} AttemptsBounded(v: Variant, maxRetries: int, base: real, call: nat -> Reply,
                                          parse: string -> Option<Value>, attempt: nat)
    requires attempt <= maxRetries
    ensures var run := Attempts(v, maxRetries, base, call, parse, attempt);
      attempt < run.calls <= maxRetries + 1 && |run.sleeps| < run.calls - attempt
    decreases maxRetries - attempt
  {
    if attempt < maxRetries {
      AttemptsBounded(v, maxRetries, base, call, parse, attempt + 1);
    }
  }

  /** With no retries configured the loop never runs and the final raise is reached; otherwise it never is. */
  lemma {:induction false} CallCount(v: Variant, maxRetries: int, base: real, call: nat -> Reply, parse: string -> Option<Value>)
    requires v != AsyncCall(false)
    ensures var run := StructuredCall(v, maxRetries, base, call, parse);
      (maxRetries < 0 ==> run == Run(Err(AIAnalysisError(Exhausted)), [], 0))
      && (maxRetries >= 0 ==> 1 <= run.calls <= maxRetries + 1 && |run.sleeps| < run.calls)
  {
    if maxRetries >= 0 {
      AttemptsBounded(v, maxRetries, base, call, parse, 0);
    }
  }

  /** The first sleep from attempt on is at least base × 2^attempt. */
  lemma {:induction false} FirstSleep(v: Variant, maxRetries: int, base: real, call: nat -> Reply,
                                     parse: string -> Option<Value>, attempt: nat)
    requires base >= 0.0
    ensures var s := Attempts(v, maxRetries, base, call, parse, attempt).sleeps;
      |s| > 0 ==> Delay(base, attempt) <= s[0]
    decreases maxRetries + 1 - attempt
  {
    if attempt <= maxRetries {
      var step := AttemptStep(v, maxRetries, base, parse, attempt, call(attempt));
      if step.Again? && step.sleeps == [] {
        FirstSleep(v, maxRetries, base, call, parse, attempt + 1);
        DelayGrows(base, attempt, attempt + 1);
      }
    }
  }

  /**
   * Exponential backoff: each sleep at least doubles the one before; an
   * empty reply, retried without a sleep, makes the next one grow faster.
   */
  lemma {:induction false} SleepsDouble(v: Variant, maxRetries: int, base: real, call: nat -> Reply,
                                       parse: string -> Option<Value>, attempt: nat)
    requires base >= 0.0
    ensures var s := Attempts(v, maxRetries, base, call, parse, attempt).sleeps;
      forall n :: 0 <= n < |s| - 1 ==> 2.0 * s[n] <= s[n + 1]
    decreases maxRetries + 1 - attempt
  {
    if attempt <= maxRetries {
      var step := AttemptStep(v, maxRetries, base, parse, attempt, call(attempt));
      if step.Again? {
        SleepsDouble(v, maxRetries, base, call, parse, attempt + 1);
        if step.sleeps != [] {
          FirstSleep(v, maxRetries, base, call, parse, attempt + 1);
          assert Delay(base, attempt + 1) == 2.0 * Delay(base, attempt);
          var rest := Attempts(v, maxRetries, base, call, parse, attempt + 1).sleeps;
          var s := [Delay(base, attempt)] + rest;
          forall n | 0 <= n < |s| - 1
            ensures 2.0 * s[n] <= s[n + 1]
          {
            if n > 0 {
              assert s[n] == rest[n - 1] && s[n + 1] == rest[n];
            }
          }
        }
      }
    }
  }

  ghost predicate Capped(s: seq<real>, base: real, maxRetries: int)
  {
    forall n :: 0 <= n < |s| ==> maxRetries > 0 && s[n] <= Delay(base, (maxRetries - 1) as nat)
  }

  /** No sleep exceeds base × 2^(maxRetries − 1), the backoff after the last attempt but one. */
  lemma {:induction false} SleepsCapped(v: Variant, maxRetries: int, base: real, call: nat -> Reply,
                                       parse: string -> Option<Value>, attempt: nat)
    requires base >= 0.0
    ensures Capped(Attempts(v, maxRetries, base, call, parse, attempt).sleeps, base, maxRetries)
    decreases maxRetries + 1 - attempt
  {
    if attempt <= maxRetries {
      var step := AttemptStep(v, maxRetries, base, parse, attempt, call(attempt));
      if step.Again? {
        SleepsCapped(v, maxRetries, base, call, parse, attempt + 1);
        DelayGrows(base, attempt, (maxRetries - 1) as nat);
        var rest := Attempts(v, maxRetries, base, call, parse, attempt + 1).sleeps;
        var s := step.sleeps + rest;
        forall n | 0 <= n < |s|
          ensures s[n] <= Delay(base, (maxRetries - 1) as nat)
        {
          if n >= |step.sleeps| {
            assert s[n] == rest[n - |step.sleeps|];
            assert rest[n - |step.sleeps|] <= Delay(base, (maxRetries - 1) as nat);
          } else {
            assert s[n] == Delay(base, attempt);
            assert Delay(base, attempt) <= Delay(base, (maxRetries - 1) as nat);
          }
        }
      }
    }
  }

  lemma {:induction false} DelayGrows(base: real, j: nat, k: nat)
    requires base >= 0.0 && j <= k
    ensures Delay(base, j) <= Delay(base, k)
    decreases k - j
  {
    if j < k {
      DelayGrows(base, j, k - 1);
      assert Delay(base, k) == 2.0 * Delay(base, k - 1);
    }
  }

  /** Every exception the call raises belongs to the AIAnalysisError hierarchy, apart from the missing async client. */
  lemma {:induction false} ErrorsAreAnalysisErrors(v: Variant, maxRetries: int, base: real, call: nat -> Reply,
                                                  parse: string -> Option<Value>, attempt: nat)
    ensures var r := Attempts(v, maxRetries, base, call, parse, attempt).result;
      r.Err? ==> IsAIAnalysisError(r.error)
    decreases maxRetries + 1 - attempt
  {
    if attempt < maxRetries {
      ErrorsAreAnalysisErrors(v, maxRetries, base, call, parse, attempt + 1);
    }
  }

  /** A reply that came back, once parsed by a real JSON parser, is always a dict. */
  lemma {:induction false} ResultIsDict(v: Variant, maxRetries: int, base: real, call: nat -> Reply,
                                       parse: string -> Option<Value>, attempt: nat)
    requires ObjectParser(parse)
    ensures var r := Attempts(v, maxRetries, base, call, parse, attempt).result;
      r.Ok? ==> r.value.PyDict?
    decreases maxRetries + 1 - attempt
  {
    if attempt <= maxRetries {
      var reply := call(attempt);
      var step := AttemptStep(v, maxRetries, base, parse, attempt, reply);
      if step.Again? {
        ResultIsDict(v, maxRetries, base, call, parse, attempt + 1);
      } else if reply.Content? && reply.text != "" {
        SafeJsonLoadIsDict(parse, reply.text);
      }
    }
  }

  /** A model that keeps answering nothing is asked maxRetries + 1 times, without sleeps, and the call returns {}. */
  lemma {:induction false} EmptyRepliesGiveEmptyDict(v: Variant, maxRetries: int, base: real, call: nat -> Reply,
                                                    parse: string -> Option<Value>, attempt: nat)
    requires attempt <= maxRetries
    requires forall k :: attempt <= k <= maxRetries ==> call(k) == Content("")
    ensures Attempts(v, maxRetries, base, call, parse, attempt) == Run(Ok(PyDict([])), [], maxRetries + 1)
    decreases maxRetries - attempt
  {
    if attempt < maxRetries {
      EmptyRepliesGiveEmptyDict(v, maxRetries, base, call, parse, attempt + 1);
    }
  }

  /**
   * A transient API error that persists exhausts the retries: maxRetries + 1
   * calls with a sleep between each two, then the last error is raised as a
   * RateLimitError or APIError counting maxRetries attempts.
   */
  lemma {:induction false} PersistentTransientError(v: Variant, maxRetries: int, base: real, call: nat -> Reply,
                                                   parse: string -> Option<Value>, attempt: nat, e: Error)
    requires attempt <= maxRetries
    requires IsAPIError(e) && Transient(Message(e))
    requires forall k :: attempt <= k <= maxRetries ==> call(k) == Raised(e)
    ensures var run := Attempts(v, maxRetries, base, call, parse, attempt);
      run.result == Err(ApiFailure(e, maxRetries as nat))
      && run.calls == maxRetries + 1 && |run.sleeps| == maxRetries - attempt
    decreases maxRetries - attempt
  {
    if attempt < maxRetries {
      PersistentTransientError(v, maxRetries, base, call, parse, attempt + 1, e);
    }
  }

  /** An API error that is not transient is raised at once, without a retry. */
  lemma {:induction false} PermanentErrorStops(v: Variant, maxRetries: int, base: real, call: nat -> Reply,
                            parse: string -> Option<Value>, e: Error)
    requires v != AsyncCall(false) && maxRetries >= 0
    requires call(0) == Raised(e) && IsAPIError(e) && !Transient(Message(e))
    ensures StructuredCall(v, maxRetries, base, call, parse)
      == Run(Err(APIError("OpenAI API error after 0 attempts: " + Message(e))), [], 1)
  {
    assert Text.NatToString(0) == [Text.DigitChar(0)] == "0";
    assert "OpenAI API error after " + "0" + " attempts: " + Message(e)
      == "OpenAI API error after 0 attempts: " + Message(e);
    assert ApiFailure(e, 0) == APIError("OpenAI API error after 0 attempts: " + Message(e));
  }

  /** The backoffs of the attempts from attempt on, n of them. */
  function Backoffs(base: real, attempt: nat, n: nat): (r: seq<real>)
    ensures |r| == n
    ensures forall k :: 0 <= k < n ==> r[k] == Delay(base, attempt + k)
    decreases n
  {
    if n == 0 then [] else [Delay(base, attempt)] + Backoffs(base, attempt + 1, n - 1)
  }

  /**
   * An exception outside the AIAnalysisError hierarchy (every exception of
   * the OpenAI SDK is one) never reaches the classifier: whatever its
   * message it is retried after each backoff, and when it persists to the
   * last attempt it is raised as an AIAnalysisError.
   */
  lemma {:induction false} PersistentForeignError(v: Variant, maxRetries: int, base: real, call: nat -> Reply,
                                                 parse: string -> Option<Value>, attempt: nat, e: Error)
    requires attempt <= maxRetries
    requires !IsAIAnalysisError(e)
    requires forall k :: attempt <= k <= maxRetries ==> call(k) == Raised(e)
    ensures var run := Attempts(v, maxRetries, base, call, parse, attempt);
      && run.result == Err(AIAnalysisError((if IsValueOrTypeError(e) then ValueFailure else UnexpectedFailure(v)) + Message(e)))
      && run.calls == maxRetries + 1
      && run.sleeps == Backoffs(base, attempt, (maxRetries - attempt) as nat)
    decreases maxRetries - attempt
  {
    if attempt < maxRetries {
      PersistentForeignError(v, maxRetries, base, call, parse, attempt + 1, e);
      AttemptsUnfold(v, maxRetries, base, call, parse, attempt);
    }
  }

  /**
   * The contrast with PermanentErrorStops: a foreign exception whose message
   * the classifier would call permanent is still retried, after base seconds.
   */
  lemma {:induction false} ForeignErrorRetried(v: Variant, maxRetries: int, base: real, call: nat -> Reply,
                                              parse: string -> Option<Value>, e: Error)
    requires v != AsyncCall(false) && maxRetries >= 1
    requires call(0) == Raised(e) && !IsAIAnalysisError(e)
    ensures var run := StructuredCall(v, maxRetries, base, call, parse);
      run.calls >= 2 && |run.sleeps| >= 1 && run.sleeps[0] == Delay(base, 0)
  {
    AttemptsUnfold(v, maxRetries, base, call, parse, 0);
    AttemptsBounded(v, maxRetries, base, call, parse, 1);
  }
}
