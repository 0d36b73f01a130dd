/** The exceptions the core raises, with the subclass relations the handlers test. */
module Errors {
  datatype Error =
    | AIAnalysisError(msg: string)
    | TokenLimitError(msg: string)
    | APIError(msg: string)
    | RateLimitError(msg: string)
    | ContentProcessingError(msg: string)
    | DatabaseError(msg: string)
    | DataSyncError(msg: string)
    | ValueError(msg: string)
    | TypeError(msg: string)
    | KeyError(msg: string)
    | AttributeError(msg: string)
    | ZeroDivisionError(msg: string)
    | UnicodeError(msg: string)
    | ConnectionError(msg: string)
    | OtherError(kind: string, msg: string)

  /** isinstance(e, AIAnalysisError) over the hierarchy of app/ai_analysis/errors.py. */
  predicate IsAIAnalysisError(e: Error)
  {
    e.AIAnalysisError? || e.TokenLimitError? || e.APIError? || e.RateLimitError?
    || e.ContentProcessingError? || e.DatabaseError?
  }

  /** isinstance(e, ValueError): UnicodeError is a subclass. */
  predicate IsValueError(e: Error)
  {
    e.ValueError? || e.UnicodeError?
  }

  /** isinstance(e, APIError): RateLimitError is a subclass. */
  predicate IsAPIError(e: Error)
  {
    e.APIError? || e.RateLimitError?
  }

  /** str(e). */
  function Message(e: Error): string
  {
    e.msg
  }
}
