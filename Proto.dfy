/**
 * The records the background manager reads and writes: the task message exchanged with the
 * orchestrator, its output part, the result vocabulary and the handler's processing response.
 * Only the fields the manager touches are kept.
 */
module Proto {
  import opened Wrappers

  /** The five canonical outcome kinds. */
  datatype ResultType = SUCCESS | SKIP | FAIL | RETRY | RESCHEDULE

  /** What a handler method returns: a status, an optional output text and a countdown in seconds. */
  datatype ProcessingResponse = ProcessingResponse(status: ResultType, output: Option<string>, countdown: int)

  /** Task options: the task's identifier and an optional API key scoped to the task. */
  datatype TaskOptions = TaskOptions(taskId: string, apiKey: Option<string>)

  /** Task input: which event the task is for and the identifier of the object it concerns. */
  datatype TaskInput = TaskInput(eventType: string, objectId: string)

  /** The output part of a result message; absent fields are `None`. */
  datatype TaskOutput = TaskOutput(result: ResultType, message: Option<string>, countdown: Option<int>, runtime: Option<real>)

  /** A task message: the envelope received, and, once processed, the result sent back. */
  datatype Task = Task(options: TaskOptions, input: TaskInput, output: Option<TaskOutput>)
}
