/** The parts of the workflow runtime's activity options that the workflows set.
    Durations are whole seconds. */
module Temporal {

  datatype RetryPolicy = RetryPolicy(maximumInterval: int)

  datatype ActivityOptions = ActivityOptions(startToCloseTimeout: int, retryPolicy: RetryPolicy)
}
