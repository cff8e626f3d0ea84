/**
 * What the app sees of its remote collaborators (the authentication service and the document
 * store): the request it issues and the outcome its completion listener receives. Their own
 * semantics are not modelled; an outcome is supplied by the caller of each operation.
 */
module Remote {
  import opened Wrappers

  /** The result handed to a completion listener: a value, or an exception whose
      `localizedMessage` may be null. */
  datatype Outcome<+T> = Success(value: T) | Failure(message: Option<string>) {

    /** `task.exception?.localizedMessage ?: fallback`, the text shown for a failure. */
    function ErrorText(fallback: string): (r: string)
      requires Failure?
      ensures message.Some? ==> r == message.value
      ensures message.None? ==> r == fallback
    {
      message.GetOr(fallback)
    }
  }
}
