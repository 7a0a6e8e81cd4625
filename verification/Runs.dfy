/** The status columns shared by the automation modules. */
module Runs {
  datatype RunStatus =
    | Pending | Queued | Running | AwaitingReview
    | Succeeded | SucceededWithWarnings | PartiallyFailed | Failed | Cancelled

  datatype ClientStatus = Active | Blocked | Partial | Unknown
}
