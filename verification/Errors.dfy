/** The errors that operations report, by what went wrong. */
module Errors {
  import opened Judgment

  const BATCHING_UNVERIFIED := JudgmentError(Configuration, "provider multi-state batch capability is not verified")
  const BATCH_LIMITS_ZERO := JudgmentError(Configuration, "batch judgment and request byte limits must be positive")
  const SERVICE_LIMIT_ZERO := JudgmentError(Configuration, "provider advertises a zero judgment batch limit")
  const KIND_UNVERIFIED := JudgmentError(Configuration, "provider capability for this question type is not verified")
  const TOO_MANY_CHOICES := JudgmentError(Configuration, "choice count exceeds the verified provider limit")
  const CACHE_LIMITS_ZERO := JudgmentError(Configuration, "cache entry, byte, and TTL limits must be positive")
  const JUDGMENT_TOO_LARGE := JudgmentError(Configuration, "one judgment exceeds duckjeu_max_request_bytes")
  const JUDGMENT_OVER_LIMITS := JudgmentError(Configuration, "one judgment exceeds the configured batch limits")
  const REQUEST_BYTES_ZERO := JudgmentError(Configuration, "duckjeu_max_request_bytes must be positive")
  const INFLIGHT_ZERO := JudgmentError(Configuration, "duckjeu_max_inflight must be positive")
  const QUERY_OVER := JudgmentError(ProviderFailure, "query execution is no longer active")
  const CANCELLED_WAITING := JudgmentError(ProviderFailure, "query was cancelled while awaiting a judgment")
  const CANCELLED_ACQUIRING :=
    JudgmentError(ProviderFailure, "query was cancelled while waiting for an external request slot")
  const TYPE_UNSUPPORTED := JudgmentError(Configuration, "provider does not verify support for this judgment type")
  const REPEATED_REQUEST_KEYS := JudgmentError(InvalidResponse, "provider batch contains duplicate request keys")
  const ANSWER_COUNT_DIFFERS :=
    JudgmentError(InvalidResponse, "provider batch answer count does not match the request count")
  const REPEATED_ANSWER_KEYS := JudgmentError(InvalidResponse, "provider batch contains duplicate answer keys")
  const UNKNOWN_ANSWER_KEY := JudgmentError(InvalidResponse, "provider batch contains an unknown answer key")
  const ANSWER_KEYS_DIFFER := JudgmentError(InvalidResponse, "provider batch answer keys do not match the request keys")
  const REPEATED_QUESTION_KEYS := JudgmentError(Configuration, "TypeSafe batch question keys must be unique")
  const MIXED_QUESTIONS :=
    JudgmentError(Configuration, "TypeSafe batch judgments must share one compatible question context")
  const QUESTION_MISSING := JudgmentError(Configuration, "TypeSafe choice batch is missing its question")
  const BATCH_EMPTY := JudgmentError(Configuration, "TypeSafe batch must contain at least one judgment")
  const CRITERION_MISSING := JudgmentError(Configuration, "TypeSafe noul batch is missing its criterion")
  const BATCHING_UNSUPPORTED := JudgmentError(Configuration, "provider does not support cross-state batch requests")
  const NOT_SERIALIZABLE := JudgmentError(ProviderFailure, "provider request could not be serialized")
  const NOT_JSON := JudgmentError(InvalidResponse, "provider returned a body that is not valid JSON")
  const ANSWERS_MISSING := JudgmentError(InvalidResponse, "provider response is missing the 'answers' object")
  const QUESTION_KEYS_DIFFER :=
    JudgmentError(InvalidResponse, "provider response answers do not match the requested question keys")
  const ILL_TYPED_ANSWER := JudgmentError(InvalidResponse, "provider answer is not a valid typed answer")
  const MODEL_DRIFTED :=
    JudgmentError(ProviderFailure, "provider model does not match the verified multi-state batch model")
}
