/** Values that stand for Java's nullable references and thrown exceptions. */
module Outcomes {

  /** A nullable Java reference: `None` is `null`. */
  datatype Option<+T> = None | Some(value: T)

  /** The exceptions that the tasks raise or let through. A collaborator (the
      template engine, the HTTP client, the file storage) may fail with any of
      them; the tasks pass such failures on unchanged unless they say otherwise. */
  datatype Error =
    | Exception(message: string)                       // java.lang.Exception thrown by a task
    | IllegalVariableEvaluationException(message: string)  // a template variable that cannot be resolved
    | IOException(message: string)                     // a download or storage failure
    | IllegalArgumentException(message: string)        // e.g. a malformed base64 payload
    | OpenAiHttpException(message: string)             // a failure reported by the API
    | RuntimeException(cause: Error)                   // `new RuntimeException(e)`
    | IndexOutOfBoundsException(index: int, length: int)

  /** The outcome of a Java call that either returns a value or throws. */
  datatype Result<+T> = Ok(value: T) | Err(error: Error) {
    predicate IsFailure() { Err? }

    function PropagateFailure<U>(): Result<U>
      requires Err?
    {
      Err(error)
    }

    function Extract(): T
      requires Ok?
    {
      value
    }
  }
}
