/** Error values and the outcome type shared by every service. */
module Httpx {

  /** The width of every amount the gateway handles; arithmetic outside it does not verify. */
  newtype int64 = x: int | -0x8000_0000_0000_0000 <= x < 0x8000_0000_0000_0000

  datatype Option<+T> = None | Some(value: T)

  /** The error codes that the modelled services answer with. */
  datatype Code =
    | INVALID_REQUEST | INTERNAL_ERROR | UNSUPPORTED
    | INVALID_AGENT_ADDRESS | INVALID_AGENT_SIGNATURE | INVALID_AGENT_STATE
    | AGENT_NOT_FOUND | AGENT_REVOKED | AGENT_SUSPENDED | AGENT_NOT_WHITELISTED
    | AGENT_TIMESTAMP_EXPIRED | AGENT_NONCE_REUSED | AGENT_NONCE_EXPIRED
    | RATE_LIMITED
    | IDEMPOTENCY_CONFLICT | IDEMPOTENCY_IN_PROGRESS
    | KOVAR_USER_REBIND_FORBIDDEN | KOVAR_TOKEN_ALREADY_BOUND | KOVAR_KEY_ALREADY_BOUND
    | KOVAR_TOKEN_RECONCILIATION_REQUIRED | KOVAR_CONTRACT_INCOMPLETE
    | PRICING_NOT_CONFIGURED | PRICING_UNAVAILABLE
    | QUOTA_UNAVAILABLE | INSUFFICIENT_ACCOUNT_QUOTA | INSUFFICIENT_AGENT_TOKEN_QUOTA
    | PER_REQUEST_LIMIT_EXCEEDED | DAILY_LIMIT_EXCEEDED | MONTHLY_LIMIT_EXCEEDED
    | TASK_ALREADY_STARTED
    | UPSTREAM_INVALID_RESPONSE | UPSTREAM_ERROR | UPSTREAM_RESPONSE_TOO_LARGE | UPSTREAM_STREAM_INCOMPLETE
    | Other(name: string)

  datatype Error = Error(status: int, code: Code)

  datatype Result<+T> = Ok(value: T) | Err(error: Error)

  function Invalid(): Error {
    Error(400, INVALID_REQUEST)
  }

  function Conflict(code: Code): Error {
    Error(409, code)
  }
}
