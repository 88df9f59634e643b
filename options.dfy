/** The options record handed to the logger's constructor. */
module LoggerOptions {
  import opened Wrappers
  import opened LogLevels

  /**
   * Both collections are settable properties and may be set to `null`,
   * which is `None` here; the source keeps them as enumerables, in order and
   * with any repetitions, which a `seq` does too.
   */
  datatype JobLoggerOptions = JobLoggerOptions(
    destinations: Option<seq<LogDestination>>,
    levels: Option<seq<LogLevel>>)

  /** A freshly constructed options object: both collections are empty. */
  const DefaultOptions := JobLoggerOptions(Some([]), Some([]))
}
