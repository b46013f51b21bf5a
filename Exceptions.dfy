/** The exceptions that can leave the event-store saga repository and the worker-connector factory. */
module Exceptions {

  /** A type's identity as the repository reports it in errors (the runtime `Type` object). */
  type TypeName = string

  /** Saga and commit identifiers (`System.Guid`). */
  type Guid = nat

  datatype Exception =
    /** An I/O or integrity failure of the persistence backend. */
    | StorageException(message: string)
    /** Another writer advanced the stream past the revision this writer observed. */
    | ConcurrencyException
    /** `new Guid(null)`: the request id was absent. */
    | ArgumentNullException(parameter: string)
    /** `new Guid(s)` on a string that is not a Guid. */
    | FormatException(text: string)
    /** A saga handler threw. */
    | HandlerException(reason: string)
    /** Enumeration or connection requested that the component cannot do. */
    | NotSupportedException(message: string)
    /** The repository's own error, wrapping its cause. */
    | SagaException(message: string, sagaType: TypeName, messageType: TypeName, id: Guid, inner: Exception)
}
