/** The budget check that every task passes twice: when it is routed and when it is admitted. */
module Budget {
  import opened Httpx
  import opened Identity

  /** The amounts are usable and every limit holds for the true sums, which may need more than 64 bits. */
  ghost predicate WithinBudget(p: Policy, estimate: int64, account: int64, token: int64, today: int, month: int) {
    && Affordable(p, estimate, account, token) && 0 <= today && 0 <= month
    && today + estimate as int <= p.daily as int
    && month + estimate as int <= p.monthly as int
  }

  ghost predicate Affordable(p: Policy, estimate: int64, account: int64, token: int64) {
    0 <= estimate <= account && estimate <= token && estimate <= p.perRequest
  }

  /** The checks subtract, on 64-bit integers, so that no sum can overflow. They accept exactly the
      estimates within budget, blame the day exactly when nothing narrower is exceeded, and the month
      exactly when the day fits. */
  function BudgetGuard(p: Policy, estimate: int64, account: int64, token: int64, today: int64, month: int64)
    : (verdict: Option<Error>)
    ensures verdict.None? <==> WithinBudget(p, estimate, account, token, today as int, month as int)
    ensures verdict == Some(Error(402, DAILY_LIMIT_EXCEEDED)) <==>
            && Affordable(p, estimate, account, token) && today >= 0 && month >= 0
            && today as int + estimate as int > p.daily as int
    ensures verdict == Some(Error(402, MONTHLY_LIMIT_EXCEEDED)) <==>
            && Affordable(p, estimate, account, token) && today >= 0 && month >= 0
            && today as int + estimate as int <= p.daily as int
            && month as int + estimate as int > p.monthly as int
  {
    if estimate < 0 || account < 0 || token < 0 || today < 0 || month < 0 then
      Some(Error(502, QUOTA_UNAVAILABLE))
    else if estimate > account then Some(Error(402, INSUFFICIENT_ACCOUNT_QUOTA))
    else if estimate > token then Some(Error(402, INSUFFICIENT_AGENT_TOKEN_QUOTA))
    else if estimate > p.perRequest then Some(Error(402, PER_REQUEST_LIMIT_EXCEEDED))
    else if today > p.daily || estimate > p.daily - today then Some(Error(402, DAILY_LIMIT_EXCEEDED))
    else if month > p.monthly || estimate > p.monthly - month then Some(Error(402, MONTHLY_LIMIT_EXCEEDED))
    else None
  }
}
