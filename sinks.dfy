/**
 * The three output destinations as effects on an abstract world, and the
 * `Environment` object the logger's methods update in place.
 */
module Sinks {
  import opened LogLevels
  import opened Outcomes
  import opened MessageFormat

  /**
   * Everything a logging call can change: the file system (file contents by
   * path, and the directories that exist), the console (the lines written
   * so far and the current foreground colour), the rows of the Log table,
   * and the order in which the destinations received writes.
   */
  datatype World = World(
    files: map<string, string>,
    directories: set<string>,
    console: seq<string>,
    colour: ConsoleColor,
    rows: seq<(string, int)>,
    writes: seq<LogDestination>)

  /**
   * What the source reads from the machine during one call: today's date
   * as `yyyy-MM-dd`, the clock as the file sink and the console sink each
   * print it, and the destinations whose external system throws this time.
   */
  datatype Ambient = Ambient(
    date: string,
    fileStamp: string,
    consoleStamp: string,
    faults: set<LogDestination>)

  /** The world after a call, and how the call ended. */
  datatype Step = Step(world: World, outcome: Outcome)

  /** What reading a file gives: its text, or the empty string when it does not exist. */
  function PriorContent(files: map<string, string>, path: string): string
  {
    if path in files then files[path] else ""
  }

  /** A successful file write: only the day's file changes, and it keeps its old text with the new line appended. */
  function AppendToFile(directory: string, w: World, level: LogLevel, message: string, a: Ambient): (w': World)
    ensures var path := LogFilePath(directory, a.date);
      && w'.files.Keys == w.files.Keys + {path}
      && w'.files[path] == PriorContent(w.files, path) + FormatMessage(level, a.fileStamp, message) + "\n"
      && (forall p :: p in w.files && p != path ==> w'.files[p] == w.files[p])
    ensures w'.directories == w.directories + {directory}
    ensures w'.console == w.console && w'.colour == w.colour && w'.rows == w.rows
    ensures w'.writes == w.writes + [File]
  {
    var path := LogFilePath(directory, a.date);
    w.(files := w.files[path := PriorContent(w.files, path) + FormatMessage(level, a.fileStamp, message) + "\n"],
       directories := w.directories + {directory},
       writes := w.writes + [File])
  }

  /** A successful console write: one more line, and the level's colour left selected. */
  function WriteToConsole(w: World, level: LogLevel, message: string, a: Ambient): (w': World)
    ensures w'.console == w.console + [FormatMessage(level, a.consoleStamp, message)]
    ensures w'.colour == ForegroundColour(level)
    ensures w'.files == w.files && w'.directories == w.directories && w'.rows == w.rows
    ensures w'.writes == w.writes + [Console]
  {
    w.(colour := ForegroundColour(level),
       console := w.console + [FormatMessage(level, a.consoleStamp, message)],
       writes := w.writes + [Console])
  }

  /** A successful insert: one more row holding the raw message, unformatted, and the level's code. */
  function InsertRow(w: World, level: LogLevel, message: string): (w': World)
    ensures w'.rows == w.rows + [(message, DatabaseCode(level))]
    ensures w'.rows[|w.rows|].1 in {1, 2, 3}
    ensures w'.files == w.files && w'.directories == w.directories
    ensures w'.console == w.console && w'.colour == w.colour
    ensures w'.writes == w.writes + [Database]
  {
    w.(rows := w.rows + [(message, DatabaseCode(level))], writes := w.writes + [Database])
  }

  /** Directory.Exists: the empty path never names an existing directory. */
  predicate DirectoryExists(directories: set<string>, directory: string)
  {
    directory != "" && directory in directories
  }

  /**
   * The destinations that throw on this call: the ones whose external
   * system fails; the file system as well when the directory setting is
   * empty, because Directory.CreateDirectory rejects the empty path with an
   * ArgumentException; and the database as well when the connection string
   * is empty, because SqlConnection.Open then throws InvalidOperationException.
   */
  function Failing(directory: string, connectionString: string, a: Ambient): (f: set<LogDestination>)
    ensures File in f <==> File in a.faults || directory == ""
    ensures Console in f <==> Console in a.faults
    ensures Database in f <==> Database in a.faults || connectionString == ""
  {
    a.faults + (if directory == "" then {File} else {}) + (if connectionString == "" then {Database} else {})
  }

  /** The file sink: throws without effect when the file system fails or the directory is empty, appends otherwise. */
  function FileSink(directory: string, w: World, level: LogLevel, message: string, a: Ambient): (s: Step)
    ensures s.outcome.Done? <==> File !in a.faults && directory != ""
    ensures s.outcome.Thrown? ==> s == Step(w, Thrown(SinkFailure(File)))
    ensures s.outcome.Done? ==> s.world == AppendToFile(directory, w, level, message, a)
  {
    if File in a.faults || directory == "" then Step(w, Thrown(SinkFailure(File)))
    else Step(AppendToFile(directory, w, level, message, a), Done)
  }

  /** With an empty directory setting, every file write throws and changes nothing, even on a working file system. */
  lemma EmptyDirectoryFileSinkThrows(w: World, level: LogLevel, message: string, a: Ambient)
    ensures FileSink("", w, level, message, a) == Step(w, Thrown(SinkFailure(File)))
  {
  }

  /** The console sink. */
  function ConsoleSink(w: World, level: LogLevel, message: string, a: Ambient): (s: Step)
    ensures s.outcome.Done? <==> Console !in a.faults
    ensures s.outcome.Thrown? ==> s == Step(w, Thrown(SinkFailure(Console)))
    ensures s.outcome.Done? ==> s.world == WriteToConsole(w, level, message, a)
  {
    if Console in a.faults then Step(w, Thrown(SinkFailure(Console)))
    else Step(WriteToConsole(w, level, message, a), Done)
  }

  /**
   * The database sink as evidently intended: the insert runs on the opened
   * connection. Opening throws when the database fails or the connection
   * string is empty.
   */
  function DatabaseSink(connectionString: string, w: World, level: LogLevel, message: string, a: Ambient): (s: Step)
    ensures s.outcome.Done? <==> Database !in a.faults && connectionString != ""
    ensures s.outcome.Thrown? ==> s == Step(w, Thrown(SinkFailure(Database)))
    ensures s.outcome.Done? ==> s.world == InsertRow(w, level, message)
  {
    if Database in a.faults || connectionString == "" then Step(w, Thrown(SinkFailure(Database)))
    else Step(InsertRow(w, level, message), Done)
  }

  /** With an empty connection string, opening the connection throws, so no row is stored even on a working database. */
  lemma EmptyConnectionStringDatabaseSinkThrows(w: World, level: LogLevel, message: string, a: Ambient)
    ensures DatabaseSink("", w, level, message, a) == Step(w, Thrown(SinkFailure(Database)))
  {
  }

  /**
   * The database sink as written: the command is created from its text
   * alone and never given the connection, so executing it throws once the
   * connection has opened. Opening throws first when the database fails or
   * the connection string is empty.
   */
  function DatabaseSinkAsWritten(connectionString: string, w: World, level: LogLevel, message: string, a: Ambient): (s: Step)
    ensures s.world == w
    ensures s.outcome.Thrown?
  {
    if Database in a.faults || connectionString == "" then Step(w, Thrown(SinkFailure(Database)))
    else Step(w, Thrown(InvalidOperation(ConnectionNotInitialized)))
  }

  /** Whenever the connection opens, the as-written sink loses the row that the intended sink stores. */
  lemma DatabaseSinkAsWrittenLosesRow(connectionString: string, w: World, level: LogLevel, message: string, a: Ambient)
    requires Database !in a.faults && connectionString != ""
    ensures DatabaseSink(connectionString, w, level, message, a).world.rows == w.rows + [(message, DatabaseCode(level))]
    ensures DatabaseSinkAsWritten(connectionString, w, level, message, a).world.rows == w.rows
    ensures DatabaseSinkAsWritten(connectionString, w, level, message, a).outcome
         == Thrown(InvalidOperation(ConnectionNotInitialized))
  {
  }

  /** A write on a later day goes to a new file and leaves the earlier day's file as it was. */
  lemma TwoDaysTwoFiles(directory: string, w: World, first: LogLevel, m1: string, a1: Ambient, second: LogLevel, m2: string, a2: Ambient)
    requires a1.date != a2.date
    ensures var w1 := AppendToFile(directory, w, first, m1, a1);
      var w2 := AppendToFile(directory, w1, second, m2, a2);
      var day1 := LogFilePath(directory, a1.date);
      var day2 := LogFilePath(directory, a2.date);
      && day1 != day2
      && w2.files[day1] == PriorContent(w.files, day1) + FormatMessage(first, a1.fileStamp, m1) + "\n"
      && w2.files[day2] == PriorContent(w.files, day2) + FormatMessage(second, a2.fileStamp, m2) + "\n"
  {
    DailyPartition(directory, a1.date, a2.date);
  }

  /**
   * The machine the logger runs on. Its fields are ghost: they stand for
   * the file system, the console and the database, and exist only for
   * the proofs.
   */
  class Environment {
    ghost var files: map<string, string>
    ghost var directories: set<string>
    ghost var console: seq<string>
    ghost var colour: ConsoleColor
    ghost var rows: seq<(string, int)>
    ghost var writes: seq<LogDestination>

    ghost function State(): World
      reads this
    {
      World(files, directories, console, colour, rows, writes)
    }

    constructor (ghost initial: World)
      ensures State() == initial
    {
      files := initial.files;
      directories := initial.directories;
      console := initial.console;
      colour := initial.colour;
      rows := initial.rows;
      writes := initial.writes;
    }
  }
}
