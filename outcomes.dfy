/** The exceptions a logging call can throw, as values, and the end of a call. */
module Outcomes {
  import opened LogLevels

  datatype LogError =
    /** ArgumentNullException, carrying the parameter name. */
    | ArgumentNull(paramName: string)
    /** A plain System.Exception thrown by the constructor. */
    | ConfigurationError(message: string)
    /** ArgumentException thrown for a missing message. */
    | ArgumentError(message: string)
    /** Whatever the file system, the console or the database throws. */
    | SinkFailure(sink: LogDestination)
    /** InvalidOperationException thrown by ADO.NET. */
    | InvalidOperation(message: string)

  /** A call either returns normally or throws. */
  datatype Outcome = Done | Thrown(error: LogError)

  const OptionsParamName := "jobLoggerOptions"
  const NoDestinationMessage := "There is no destination configurate to put the message"
  const NoLevelMessage := "There is no level configurate for the message"
  const MessageMustBeSpecified := "Message must be specified"
  /** ADO.NET's text for a command run without a connection. */
  const ConnectionNotInitialized := "ExecuteNonQuery: Connection property has not been initialized."
}
