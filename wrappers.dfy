/** Failure-compatible results and the exceptions of the configuration core.
    Every Java method of the core that can throw returns a `Result` here; the
    error says which exception the Java code would raise. */
module Wrappers {

  datatype Option<+T> = None | Some(value: T)

  /** Why a `ReflectionException` was raised. */
  datatype Reason =
    | NotAJsonArray
    | NotAJsonObject
    | NotAJsonPrimitive
    | NotAString
    | NotANumber
    | NotABoolean
    | Missing(member: string)
    | UnparsableDate
    | ChannelTypeNotSet
    | NoMatchingType
    | NotAnIpv4Address
    | NoFieldForChannel
    | NotAnArray
    | NotTwoDimensional
    | ContainerNotImplemented
    | ConstructionFailed

  /** The Java exceptions the core raises or lets through. */
  datatype Error =
    | ReflectionError(reason: Reason)      // io.openems.api.exception.ReflectionException
    | NotImplementedError                  // io.openems.api.exception.NotImplementedException
    | NumberFormatError(text: string)      // java.lang.NumberFormatException
    | IllegalStateError                    // Gson: accessor on an element of the wrong shape
    | UnsupportedOperationError            // Gson: scalar accessor on a JsonObject or JsonNull
    | BufferOverflowError                  // java.nio.BufferOverflowException
    | StackOverflowError                   // JVM stack exhausted (encoding a cyclic graph)

  datatype Result<+T> = Ok(value: T) | Err(error: Error) {
    predicate IsFailure() {
      Err?
    }

    function PropagateFailure<U>(): Result<U>
      requires Err?
    {
      Err(error)
    }

    function Extract(): T
      requires Ok?
    {
      value
    }
  }

  /** The result of an operation that returns nothing (a Java `void` method). */
  datatype Outcome = Pass | Fail(error: Error) {
    predicate IsFailure() {
      Fail?
    }

    function PropagateFailure<U>(): Result<U>
      requires Fail?
    {
      Err(error)
    }
  }
}
