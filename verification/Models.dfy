/** The error taxonomy of models.py and the job statuses of jobs.py. */
module Models {
  type Id = string

  datatype Status = Queued | Running | Succeeded | Failed

  datatype ErrorCode =
    | AuthRequired | RemoteDisabled | ProviderSimDisabled | ProviderCredentials
    | ProviderCapacity | ProviderQueueBackpressure | InvalidTarget | InvalidRequest
    | BudgetExhausted | RateLimited | BudgetGuardrail | TimedOut | Cancelled
    | InternalError | ProviderError
}
