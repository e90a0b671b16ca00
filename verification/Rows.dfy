/** Status columns shared by the task, approval, workflow and team tables. */
module Rows {

  datatype TaskStatus =
    | Pending
    | InProgress
    | NeedsApproval
    | NeedsInput
    | Blocked
    | Completed
    | Failed

  /** No engine ever moves a task out of these. */
  predicate Ended(s: TaskStatus) {
    s in {Completed, Failed, Blocked}
  }

  datatype ApprovalStatus = AwaitingDecision | Approved | Denied | Expired

  function DecisionStatus(approve: bool): ApprovalStatus {
    if approve then Approved else Denied
  }
}
