# JobLogger, modelled in Dafny

A model of `JobLogger`, the logger class of the CodeReview repository, and
of the options record it is built from.

A logger is built from a set of destinations (console, file, database) and
a set of severity levels (Message, Warning, Error). The constructor rejects
null options, missing or empty destinations, and missing or empty levels,
in that order. It then reduces the destinations to three flags.

Each call of `LogMessage`, `LogWarning` or `LogError` goes through the same
three steps:

- **Severity gate.** A level that is not configured makes the call a silent
  no-op, whatever the message is.
- **Message check.** A null or white-space message then throws
  `ArgumentException`.
- **Fan-out.** Otherwise the enabled destinations are written in the fixed
  order file, console, database. The first destination that throws ends
  the call.

The destinations work as follows:

- **File.** Appends the display line and `"\n"` to `LogFile<date>.txt` in
  the configured directory, by reading the whole file and rewriting it.
- **Console.** Selects a colour by level (Red, Yellow, White), writes the
  line, and leaves that colour selected.
- **Database.** Computes a level code (Message 1, Error 2, Warning 3) and
  runs an insert of the raw message and the code. As written, the insert
  command is never given the opened connection, so it always throws and
  stores nothing (see "## Findings"). The logger in this model uses the
  corrected insert, which stores the row; the code as written is modelled
  beside it.

Modules, one per component:

- `Wrappers` (`wrappers.dfy`): `Option` stands for a null reference, and
  `Result` for a constructor that may throw.
- `LogLevels` (`log_levels.dfy`): the two enumerations, the console colours,
  and the three per-level mappings: the display name and the database code,
  each with its inverse, and the console colour, pinned down level by level.
- `Outcomes` (`outcomes.dfy`): the exceptions a call can throw, as values.
  The logger's own message texts are copied from the source; the
  connection error's text is the one ADO.NET uses.
- `LoggerOptions` (`options.dfy`): the options record. A null collection is
  `None`, and the default value has both collections empty.
- `MessageFormat` (`message_format.dfy`): .NET's `char.IsWhiteSpace` and
  `string.IsNullOrWhiteSpace`, the display line, and the log file's path.
- `Sinks` (`sinks.dfy`): the world a call can change.
  - `World` holds the files, the directories, the console lines, the console
    colour, the database rows, and the order in which the destinations were
    written.
  - Each destination has an effect function and a sink function that may
    throw.
  - `Environment` is the class whose ghost fields the logger's methods
    update.
- `Logging` (`logging.dfy`): the logger itself.
  - `Configure` is what the constructor computes.
  - `LogCall` is the specification of one call, and `Run` of a sequence of
    calls.
  - The fan-out and transcript lemmas relate them.
  - The class `JobLogger` has readonly `const` fields. `Create` is proved
    to fail exactly as `Configure` does and otherwise to build a logger
    holding `Configure`'s result. Each logging method is proved to match
    `LogCall` or a sink function.
- `Demo` (`demo.dfy`): the demonstration program, as a lemma and as a method.

Inputs that the source reads from the machine are parameters here:

- The constructor takes the connection string and the log directory instead
  of reading `appsettings.json`.
- Each call takes an `Ambient` value with four parts. `date` is the
  `yyyy-MM-dd` date the file sink reads. `fileStamp` and `consoleStamp` are
  the timestamps each sink prints; the source formats the line separately in
  each sink, so the two may differ. `faults` is the set of destinations
  whose external system throws on this call.

Three details of the code that the model keeps:

- The file sink and the console sink each format the line, each reading the
  clock, so their timestamps may differ (JobLogger.cs:85 and
  JobLogger.cs:106).
- A null message is rejected like a blank one (JobLogger.cs:59).
- The constructor checks neither the directory nor the connection string.
  An empty directory setting makes every file write throw, because
  `Directory.CreateDirectory` rejects the empty path (JobLogger.cs:79-80).
  An empty connection string makes every database write throw, because
  `SqlConnection.Open` rejects it (JobLogger.cs:127-131).

## Model

| member | source | states |
|---|---|---|
| `LogLevels.LevelName` | JobLogger.cs:138 | the level's display name is non-empty and parses back to the same level |
| `LogLevels.DatabaseCode` | JobLogger.cs:111-125 | the stored code is never the initial 0, and it decodes back to the level it came from |
| `LogLevels.DatabaseCodeIsBijective` | JobLogger.cs:111-125 | exactly the codes 1, 2 and 3 decode, and each decodes to the one level that is stored as it |
| `LogLevels.ForegroundColour` | JobLogger.cs:92-104 | Red is chosen exactly for Error, Yellow exactly for Warning, White exactly for Message |
| `MessageFormat.BlankIsEmptyAfterTrim` | JobLogger.cs:59 | the blank test holds exactly for a null message or one that `Trim` reduces to the empty string, .NET's documented equivalent of `string.IsNullOrWhiteSpace` |
| `MessageFormat.FormatMessage` | JobLogger.cs:138 | the line's length, its level that can be read back from its front, the timestamp after the tag, then `" - "`, then the message and a final `.`, which fixes every character |
| `MessageFormat.FormatMessageInjective` | JobLogger.cs:138 | two lines with the same level and timestamp are equal only when their messages are |
| `MessageFormat.LogFilePath` | JobLogger.cs:76 | the path is the directory, then `LogFile`, then the date, then `.txt`, with no separators |
| `MessageFormat.DailyPartition` | JobLogger.cs:74-76 | in one directory, different dates give different file paths |
| `Sinks.AppendToFile` | JobLogger.cs:77-87 | the day's file becomes its old text, or "" if absent, plus the line and `\n`; every other file is unchanged; the directory exists afterwards; console and rows are untouched |
| `Sinks.WriteToConsole` | JobLogger.cs:92-106 | one more console line, formatted with the console's timestamp; the level's colour stays selected; files and rows are untouched |
| `Sinks.InsertRow` | JobLogger.cs:109-134 | one more row holding the raw message and a code in {1, 2, 3}; files and console are untouched |
| `Sinks.Failing` | JobLogger.cs:72-135 | the failing destinations are the ambient faults, with the file system added exactly when the directory setting is empty and the database added exactly when the connection string is empty |
| `Sinks.FileSink` | JobLogger.cs:72-88 | succeeds exactly when the file system works and the directory setting is non-empty; a failure changes nothing; a success is the append |
| `Sinks.EmptyDirectoryFileSinkThrows` | JobLogger.cs:79-80 | with an empty directory setting the file sink throws and changes nothing, whatever the file system does |
| `Sinks.ConsoleSink` | JobLogger.cs:90-107 | succeeds exactly when the console works; a failure changes nothing; a success is the write |
| `Sinks.DatabaseSink` | JobLogger.cs:109-135 | succeeds exactly when the database works and the connection string is non-empty; a failure changes nothing; a success inserts the row |
| `Sinks.EmptyConnectionStringDatabaseSinkThrows` | JobLogger.cs:127-131 | with an empty connection string the database sink throws and stores nothing, whatever the database does |
| `Sinks.DatabaseSinkAsWritten` | JobLogger.cs:127-134 | the as-written sink always throws and never changes the world |
| `Sinks.DatabaseSinkAsWrittenLosesRow` | JobLogger.cs:127-134 | whenever the connection opens (a reachable database and a non-empty connection string), the intended sink stores the row; the as-written one throws InvalidOperationException and stores nothing |
| `Sinks.TwoDaysTwoFiles` | JobLogger.cs:74-87 | writes on two different dates go to two different files, and the second write leaves the first day's file as the first write left it |
| `Logging.Configure` | JobLogger.cs:24-36 | a logger is built exactly when the options, their destinations and their levels are all present and non-empty; otherwise it throws ArgumentNull, then the no-destination error, then the no-level error; each flag holds exactly when its destination is listed; the levels are kept as given; every logger built has a level and an enabled destination |
| `Logging.DefaultOptionsRejected` | JobLoggerOptions.cs:8-10 | default options, with both collections empty, fail with the no-destination error |
| `Logging.EnabledSinks` | JobLogger.cs:62-69 | lists each destination exactly when its flag is set |
| `Logging.FanOutOrder` | JobLogger.cs:62-69 | the destinations are listed in strictly increasing order file, console, database, so none appears twice |
| `Logging.UntilFault` | JobLogger.cs:62-69 | the destinations written are a prefix of the list, none of them failing, and the first one not written is the one that failed |
| `Logging.LogCall` | JobLogger.cs:54-61 | an unconfigured level is a no-op for every message, null included; a configured level with a blank message throws ArgumentException and changes nothing |
| `Logging.AcceptedCallFansOut` | JobLogger.cs:62-69 | an accepted call writes the enabled destinations in order, up to the first failing one, and throws that one's failure or returns normally; an empty directory counts as a failing file system |
| `Logging.EmptyDirectoryCallThrows` | JobLogger.cs:79-80 | an accepted call to a file logger with an empty directory setting throws and writes no destination |
| `Logging.EmptyConnectionStringCallStoresNothing` | JobLogger.cs:127-131 | an accepted call to a database logger with an empty connection string throws and stores no row |
| `Logging.AcceptedCallWritesEachEnabledSinkOnce` | JobLogger.cs:62-69 | with working destinations and the settings they need present, each enabled one gets exactly one write (the appended file line, the console line and colour, the row) and each disabled one gets none |
| `Logging.FirstCallStep` | JobLogger.cs:54-70 | the first call of a working day returns normally and adds exactly its own console line, row and file line (nothing when its level is not accepted); the rest of the day runs from there |
| `Logging.RunSucceeds` | JobLogger.cs:54-70 | a run of calls on one day, with working destinations, the settings they need present, and non-blank accepted messages, never throws |
| `Logging.RunConsoleTranscript` | JobLogger.cs:90-106 | over such a run, the console gains exactly the accepted calls' lines in call order, or nothing when disabled |
| `Logging.RunRowTranscript` | JobLogger.cs:109-134 | over such a run, the Log table gains exactly the accepted calls' rows in call order, or nothing when disabled |
| `Logging.RunFileTranscript` | JobLogger.cs:72-87 | over such a run, the day's file gains the accepted calls' lines in call order, and no other file changes |
| `Logging.JobLogger.Create` | JobLogger.cs:21-36 | construction fails with exactly the error `Configure` gives; otherwise it returns a fresh logger whose fields are `Configure`'s result |
| `Logging.JobLogger.constructor` | JobLogger.cs:33-36 | the levels are stored as given, each flag is membership of its destination, and the logger is well formed |
| `Logging.JobLogger.LogMessage` | JobLogger.cs:48 | behaves as `LogMessageWithLevel` at level Message |
| `Logging.JobLogger.LogWarning` | JobLogger.cs:50 | behaves as `LogMessageWithLevel` at level Warning |
| `Logging.JobLogger.LogError` | JobLogger.cs:52 | behaves as `LogMessageWithLevel` at level Error |
| `Logging.JobLogger.LogMessageWithLevel` | JobLogger.cs:54-70 | the new environment and the outcome are those `LogCall` gives for the old environment |
| `Logging.JobLogger.LogMessageToFile` | JobLogger.cs:72-88 | the new environment and outcome are `FileSink`'s |
| `Logging.JobLogger.LogMessageToConsole` | JobLogger.cs:90-107 | the new environment and outcome are `ConsoleSink`'s |
| `Logging.JobLogger.LogMessageToDatabase` | JobLogger.cs:109-135 | the new environment and outcome are `DatabaseSink`'s |
| `Demo.DemoConfig` | Program.cs:9-13 | the program's options build a logger for the console and the file at levels Message and Warning |
| `Demo.ProgramScenario` | Program.cs:9-16 | on one day with working destinations and a non-empty directory setting, "demo" and then "hi!" each give one console line and one file line, in that order, and no database row |
| `Demo.RunProgram` | Program.cs:7-17 | the program's effect on the environment is the two-call run of its logger |

## Left out

- Logging.LogCall, Logging.AcceptedCallFansOut, Logging.AcceptedCallWritesEachEnabledSinkOnce, Logging.FirstCallStep, Logging.RunSucceeds, Logging.RunConsoleTranscript, Logging.RunFileTranscript, Logging.RunRowTranscript, Logging.JobLogger.LogMessageWithLevel, Logging.JobLogger.LogMessageToDatabase: every member built on `LogCall`, `Run` or the database sink holds of the corrected insert only. With database logging enabled, the code as written throws at every database write (see "## Findings"). An accepted call there, once the file and the console are written, throws instead of returning, so a run ends at its first accepted call and none of its later lines or rows appear.
- Logging.Configure, Logging.JobLogger.Create: after validation the source's constructor reads `appsettings.json`, which must exist (`optional: false`, JobLogger.cs:38-41). A missing or malformed file makes the constructor throw; the model builds the logger whenever validation passes.

- Reading `appsettings.json`: the connection string and the log directory are constructor parameters. Empty settings are modelled; a missing setting, which the source reads as null, is not.
- The SQL connection and command, beyond their effect: a row `(message, code)` is appended to one Log table. Neither the connection string's choice of database nor the interpolated SQL text and its injection behaviour is modelled.
- File-system calls: only their effect on a map from path to text and a set of directories is kept. `CreateDirectory` creating parent directories, non-atomic rewrites, concurrent writers and the platform's path rules are not modelled. In particular, a directory without a trailing separator yields a file beside the directory, not inside it.
- A failing destination throws before it changes anything. A partial effect is not modelled, such as a directory created before the write fails.
- The clock: the date and the timestamps are opaque strings. Locale-dependent formatting is not modelled.
- Console rendering: only the selected colour and the sequence of lines written are kept.
- Aliasing of the levels collection: the source stores the caller's enumerable by reference. The model stores its value as of construction.
- Enum values outside the declared members, which the switches' `default` branches would catch: the model's enumerations are closed.

## Findings

| source | as written | input that shows it | evidently intended | confidence | as-written member | corrected member |
|---|---|---|---|---|---|---|
| JobLogger.cs:127-134 | the `SqlCommand` is created from its text alone and never given the opened connection, so `ExecuteNonQuery` throws `InvalidOperationException` | a logger whose destinations are [Database], calling `LogError("x")` with a reachable database: the call throws and no row is stored | the insert runs on the opened connection and stores `("x", 2)` | not executed; high, from the ADO.NET contract of `SqlCommand(string)` | `Sinks.DatabaseSinkAsWritten`, `Sinks.DatabaseSinkAsWrittenLosesRow` | `Sinks.DatabaseSink` (used by `Logging.LogCall` and `Logging.JobLogger.LogMessageToDatabase`) |
