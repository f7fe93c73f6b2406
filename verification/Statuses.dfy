/** Status values of jobs, workflow tasks and workflows. */
module Statuses {

  datatype JobStatus = Queued | Running | Succeeded | Failed | Retrying | Cancelled | Timeout | DeadLetter {
    predicate IsTerminal() {
      Succeeded? || Failed? || Cancelled? || Timeout? || DeadLetter?
    }
  }

  datatype TaskStatus = TaskPending | TaskRunning | TaskSucceeded | TaskFailed | TaskCancelled

  datatype WorkflowStatus = WfPending | WfRunning | WfSucceeded | WfFailed | WfCancelled {
    predicate IsTerminal() {
      WfSucceeded? || WfFailed? || WfCancelled?
    }
  }
}
