/** Vocabulary shared by the provider adapters and the code that drives them. */
module ProviderContract {

  datatype JobStatus = Queued | Running | Succeeded | Failed | Unknown | RequiresAction | Cancelled {
    predicate Terminal() {
      Succeeded? || Failed? || Cancelled?
    }

    /** The states a callback may announce. */
    predicate Reportable() {
      Queued? || Running? || Terminal()
    }

    function Rank(): int {
      if Queued? then 0 else if Running? then 1 else if Terminal() then 2 else -1
    }
  }

  datatype ErrorCode =
    | InvalidRequest | Unauthenticated | Forbidden | RateLimited | QuotaExceeded | ContentBlocked
    | ModelUnavailable | RegionUnavailable | Timeout | Unavailable | BudgetExceeded | ConflictCode | NotFound

  datatype ProviderError = ProviderError(code: ErrorCode, retryable: bool)
}
