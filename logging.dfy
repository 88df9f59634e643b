/**
 * The JobLogger: construction-time validation, the severity gate, the
 * blank-message check and the fan-out to the enabled destinations in the
 * fixed order file, console, database.
 */
module Logging {
  import opened Wrappers
  import opened LogLevels
  import opened Outcomes
  import opened LoggerOptions
  import opened MessageFormat
  import opened Sinks

  /**
   * What a constructed logger keeps: the configured levels, one flag per
   * destination, and the two values read from the application settings.
   */
  datatype LoggerConfig = LoggerConfig(
    levels: seq<LogLevel>,
    toFile: bool,
    toDatabase: bool,
    toConsole: bool,
    connectionString: string,
    directory: string)

  /** A collection that is neither null nor empty. */
  predicate Present<T>(c: Option<seq<T>>)
  {
    c.Some? && |c.value| != 0
  }

  /**
   * What the constructor does with its options: it throws for null
   * options, then for missing destinations, then for missing levels, and
   * otherwise reduces the destinations to three flags.
   */
  function Configure(options: Option<JobLoggerOptions>, connectionString: string, directory: string): (r: Result<LoggerConfig, LogError>)
    ensures r.Success? <==> options.Some? && Present(options.value.destinations) && Present(options.value.levels)
    ensures options.None? ==> r == Failure(ArgumentNull(OptionsParamName))
    ensures options.Some? && !Present(options.value.destinations) ==>
      r == Failure(ConfigurationError(NoDestinationMessage))
    ensures options.Some? && Present(options.value.destinations) && !Present(options.value.levels) ==>
      r == Failure(ConfigurationError(NoLevelMessage))
    ensures r.Success? ==>
      var destinations := options.value.destinations.value;
      && r.value.levels == options.value.levels.value
      && (r.value.toFile <==> File in destinations)
      && (r.value.toDatabase <==> Database in destinations)
      && (r.value.toConsole <==> Console in destinations)
      && r.value.connectionString == connectionString
      && r.value.directory == directory
    ensures r.Success? ==> WellFormed(r.value)
  {
    if options.None? then Failure(ArgumentNull(OptionsParamName))
    else if !Present(options.value.destinations) then Failure(ConfigurationError(NoDestinationMessage))
    else if !Present(options.value.levels) then Failure(ConfigurationError(NoLevelMessage))
    else
      var destinations := options.value.destinations.value;
      SomeDestinationEnabled(destinations);
      Success(LoggerConfig(options.value.levels.value,
        File in destinations, Database in destinations, Console in destinations,
        connectionString, directory))
  }

  /** A non-empty destination list names at least one of the three destinations. */
  lemma SomeDestinationEnabled(destinations: seq<LogDestination>)
    requires |destinations| != 0
    ensures File in destinations || Database in destinations || Console in destinations
  {
    var d := destinations[0];
    assert d in destinations;
    match d {
      case File =>
      case Database =>
      case Console =>
    }
  }

  /** Every constructed logger has a level to accept and a destination to write to. */
  predicate WellFormed(c: LoggerConfig)
  {
    |c.levels| != 0 && (c.toFile || c.toDatabase || c.toConsole)
  }

  /** Options as freshly constructed can never build a logger. */
  lemma DefaultOptionsRejected(connectionString: string, directory: string)
    ensures Configure(Some(DefaultOptions), connectionString, directory) == Failure(ConfigurationError(NoDestinationMessage))
  {
  }

  /** The position of a destination in the fan-out. */
  function FanOutRank(d: LogDestination): nat
  {
    match d
    case File => 0
    case Console => 1
    case Database => 2
  }

  /** The enabled destinations in the order the logger writes them. */
  function EnabledSinks(c: LoggerConfig): (ds: seq<LogDestination>)
    ensures File in ds <==> c.toFile
    ensures Console in ds <==> c.toConsole
    ensures Database in ds <==> c.toDatabase
  {
    (if c.toFile then [File] else []) + (if c.toConsole then [Console] else []) + (if c.toDatabase then [Database] else [])
  }

  /** The fan-out visits the destinations in strictly increasing order file, console, database, so none twice. */
  lemma FanOutOrder(c: LoggerConfig)
    ensures var ds := EnabledSinks(c);
      forall i, j :: 0 <= i < j < |ds| ==> FanOutRank(ds[i]) < FanOutRank(ds[j])
  {
  }

  /** The destinations written before the first one that fails. */
  function UntilFault(ds: seq<LogDestination>, faults: set<LogDestination>): (r: seq<LogDestination>)
    ensures r <= ds
    ensures forall d :: d in r ==> d !in faults
    ensures |r| < |ds| ==> ds[|r|] in faults
  {
    if ds == [] || ds[0] in faults then [] else [ds[0]] + UntilFault(ds[1..], faults)
  }

  /** The effect of one successful write. */
  function Deliver(d: LogDestination, c: LoggerConfig, w: World, level: LogLevel, message: string, a: Ambient): World
  {
    match d
    case File => AppendToFile(c.directory, w, level, message, a)
    case Console => WriteToConsole(w, level, message, a)
    case Database => InsertRow(w, level, message)
  }

  /** The successful writes, one after another. */
  function DeliverAll(ds: seq<LogDestination>, c: LoggerConfig, w: World, level: LogLevel, message: string, a: Ambient): World
    decreases |ds|
  {
    if ds == [] then w else DeliverAll(ds[1..], c, Deliver(ds[0], c, w, level, message, a), level, message, a)
  }

  /** A fan-out throws what its first failing destination throws. */
  function FanOutOutcome(ds: seq<LogDestination>, faults: set<LogDestination>): Outcome
  {
    var done := UntilFault(ds, faults);
    if |done| < |ds| then Thrown(SinkFailure(ds[|done|])) else Done
  }

  /**
   * One call of LogMessageWithLevel. A sink throws out of the call, so a
   * failing sink keeps the later ones from running.
   */
  function LogCall(c: LoggerConfig, w: World, level: LogLevel, message: Option<string>, a: Ambient): (r: Step)
    ensures level !in c.levels ==> r == Step(w, Done)
    ensures level in c.levels && IsNullOrWhiteSpace(message) ==>
      r == Step(w, Thrown(ArgumentError(MessageMustBeSpecified)))
  {
    if level !in c.levels then Step(w, Done)
    else if IsNullOrWhiteSpace(message) then Step(w, Thrown(ArgumentError(MessageMustBeSpecified)))
    else
      var afterFile := if c.toFile then FileSink(c.directory, w, level, message.value, a) else Step(w, Done);
      if afterFile.outcome.Thrown? then afterFile
      else ConsoleStage(c, afterFile.world, level, message.value, a)
  }

  /** The rest of an accepted call once the file sink, if enabled, has succeeded. */
  function ConsoleStage(c: LoggerConfig, w: World, level: LogLevel, text: string, a: Ambient): Step
  {
    var afterConsole := if c.toConsole then ConsoleSink(w, level, text, a) else Step(w, Done);
    if afterConsole.outcome.Thrown? then afterConsole
    else DatabaseStage(c, afterConsole.world, level, text, a)
  }

  /** The last step of an accepted call. */
  function DatabaseStage(c: LoggerConfig, w: World, level: LogLevel, text: string, a: Ambient): Step
  {
    if c.toDatabase then DatabaseSink(c.connectionString, w, level, text, a) else Step(w, Done)
  }

  /** The destinations from the console onwards, in fan-out order. */
  function LaterSinks(c: LoggerConfig): seq<LogDestination>
  {
    (if c.toConsole then [Console] else []) + LastSinks(c)
  }

  /** The destinations after the console: the database, if enabled. */
  function LastSinks(c: LoggerConfig): seq<LogDestination>
  {
    if c.toDatabase then [Database] else []
  }

  /** Fanning out to a working first destination is writing it, then fanning out to the rest. */
  lemma FanOutCons(d: LogDestination, ds: seq<LogDestination>, faults: set<LogDestination>,
                   c: LoggerConfig, w: World, level: LogLevel, text: string, a: Ambient)
    requires d !in faults
    ensures UntilFault([d] + ds, faults) == [d] + UntilFault(ds, faults)
    ensures FanOutOutcome([d] + ds, faults) == FanOutOutcome(ds, faults)
    ensures DeliverAll([d] + UntilFault(ds, faults), c, w, level, text, a)
         == DeliverAll(UntilFault(ds, faults), c, Deliver(d, c, w, level, text, a), level, text, a)
  {
    assert ([d] + ds)[1..] == ds;
    assert ([d] + UntilFault(ds, faults))[1..] == UntilFault(ds, faults);
  }

  /** Fanning out to a failing first destination writes nothing and throws its failure. */
  lemma FanOutStop(d: LogDestination, ds: seq<LogDestination>, faults: set<LogDestination>)
    requires d in faults
    ensures UntilFault([d] + ds, faults) == []
    ensures FanOutOutcome([d] + ds, faults) == Thrown(SinkFailure(d))
  {
  }

  /** The database stage is the fan-out over the last destinations. */
  lemma DatabaseStageFansOut(c: LoggerConfig, w: World, level: LogLevel, text: string, a: Ambient)
    ensures var f := Failing(c.directory, c.connectionString, a);
      DatabaseStage(c, w, level, text, a) ==
      Step(DeliverAll(UntilFault(LastSinks(c), f), c, w, level, text, a), FanOutOutcome(LastSinks(c), f))
  {
    var f := Failing(c.directory, c.connectionString, a);
    if c.toDatabase {
      if Database in f {
        FanOutStop(Database, [], f);
      } else {
        FanOutCons(Database, [], f, c, w, level, text, a);
        assert [Database] + [] == [Database];
      }
    }
  }

  /** The console stage is the fan-out over the destinations from the console onwards. */
  lemma ConsoleStageFansOut(c: LoggerConfig, w: World, level: LogLevel, text: string, a: Ambient)
    ensures var f := Failing(c.directory, c.connectionString, a);
      ConsoleStage(c, w, level, text, a) ==
      Step(DeliverAll(UntilFault(LaterSinks(c), f), c, w, level, text, a), FanOutOutcome(LaterSinks(c), f))
  {
    var f := Failing(c.directory, c.connectionString, a);
    if c.toConsole {
      if Console in f {
        FanOutStop(Console, LastSinks(c), f);
      } else {
        FanOutCons(Console, LastSinks(c), f, c, w, level, text, a);
        DatabaseStageFansOut(c, WriteToConsole(w, level, text, a), level, text, a);
      }
    } else {
      assert LaterSinks(c) == LastSinks(c);
      DatabaseStageFansOut(c, w, level, text, a);
    }
  }

  /**
   * An accepted call is the ordered fan-out: the enabled destinations are
   * written in order, each once, up to the first that fails, and the call
   * throws that one's failure. The file system counts as failing when the
   * directory setting is empty.
   */
  lemma AcceptedCallFansOut(c: LoggerConfig, w: World, level: LogLevel, message: Option<string>, a: Ambient)
    requires level in c.levels && !IsNullOrWhiteSpace(message)
    ensures var f := Failing(c.directory, c.connectionString, a);
      LogCall(c, w, level, message, a) ==
      Step(DeliverAll(UntilFault(EnabledSinks(c), f), c, w, level, message.value, a), FanOutOutcome(EnabledSinks(c), f))
  {
    var text := message.value;
    var f := Failing(c.directory, c.connectionString, a);
    EnabledSinksSplit(c);
    var ds := EnabledSinks(c);
    if c.toFile {
      assert ds == [File] + LaterSinks(c);
      if File in f {
        FanOutStop(File, LaterSinks(c), f);
        assert LogCall(c, w, level, message, a) == Step(w, Thrown(SinkFailure(File)));
      } else {
        FanOutCons(File, LaterSinks(c), f, c, w, level, text, a);
        AcceptedCallIsConsoleStage(c, w, level, message, a);
        ConsoleStageFansOut(c, AppendToFile(c.directory, w, level, text, a), level, text, a);
      }
    } else {
      assert ds == LaterSinks(c);
      AcceptedCallIsConsoleStage(c, w, level, message, a);
      ConsoleStageFansOut(c, w, level, text, a);
    }
  }

  /** An accepted call to a file logger with an empty directory setting throws before any destination is written. */
  lemma EmptyDirectoryCallThrows(c: LoggerConfig, w: World, level: LogLevel, message: Option<string>, a: Ambient)
    requires c.toFile && c.directory == ""
    requires level in c.levels && !IsNullOrWhiteSpace(message)
    ensures LogCall(c, w, level, message, a) == Step(w, Thrown(SinkFailure(File)))
  {
    EmptyDirectoryFileSinkThrows(w, level, message.value, a);
  }

  /**
   * An accepted call to a database logger with an empty connection string
   * stores no row; it throws once the file and console stages, if enabled,
   * have succeeded.
   */
  lemma EmptyConnectionStringCallStoresNothing(c: LoggerConfig, w: World, level: LogLevel, message: Option<string>, a: Ambient)
    requires c.toDatabase && c.connectionString == ""
    requires level in c.levels && !IsNullOrWhiteSpace(message)
    ensures LogCall(c, w, level, message, a).outcome.Thrown?
    ensures LogCall(c, w, level, message, a).world.rows == w.rows
  {
    var f := Failing(c.directory, c.connectionString, a);
    AcceptedCallFansOut(c, w, level, message, a);
    EnabledSinksSplit(c);
    UntilFaultSkipsFailing(EnabledSinks(c), f, Database);
    DeliverAllRows(UntilFault(EnabledSinks(c), f), c, w, level, message.value, a);
  }

  /** The fault-free prefix never holds a failing destination, so it stops before one that is listed. */
  lemma UntilFaultSkipsFailing(ds: seq<LogDestination>, faults: set<LogDestination>, d: LogDestination)
    requires d in ds && d in faults
    ensures d !in UntilFault(ds, faults)
    ensures |UntilFault(ds, faults)| < |ds|
  {
  }

  /** Delivering to destinations other than the database leaves the rows as they were. */
  lemma {:induction false} DeliverAllRows(ds: seq<LogDestination>, c: LoggerConfig, w: World, level: LogLevel, text: string, a: Ambient)
    requires Database !in ds
    ensures DeliverAll(ds, c, w, level, text, a).rows == w.rows
    decreases |ds|
  {
    if ds != [] {
      assert ds[0] != Database && Database !in ds[1..];
      DeliverAllRows(ds[1..], c, Deliver(ds[0], c, w, level, text, a), level, text, a);
    }
  }

  /** Without failures, the console and database stages write each enabled destination once. */
  lemma ConsoleStageWritesOnce(c: LoggerConfig, w: World, level: LogLevel, text: string, a: Ambient)
    requires c.toConsole ==> Console !in a.faults
    requires c.toDatabase ==> Database !in a.faults && c.connectionString != ""
    ensures var r := ConsoleStage(c, w, level, text, a);
      && r.outcome == Done
      && r.world.writes == w.writes + LaterSinks(c)
      && r.world.files == w.files && r.world.directories == w.directories
      && r.world.console == w.console + (if c.toConsole then [FormatMessage(level, a.consoleStamp, text)] else [])
      && r.world.colour == (if c.toConsole then ForegroundColour(level) else w.colour)
      && r.world.rows == w.rows + (if c.toDatabase then [(text, DatabaseCode(level))] else [])
  {
    var w1 := if c.toConsole then WriteToConsole(w, level, text, a) else w;
    assert ConsoleStage(c, w, level, text, a) == DatabaseStage(c, w1, level, text, a);
    assert w1.writes == w.writes + (if c.toConsole then [Console] else []);
  }

  /** When no enabled destination fails, each enabled one receives exactly one write and the others none. */
  lemma AcceptedCallWritesEachEnabledSinkOnce(c: LoggerConfig, w: World, level: LogLevel, message: Option<string>, a: Ambient)
    requires level in c.levels && !IsNullOrWhiteSpace(message)
    requires c.toFile ==> File !in a.faults && c.directory != ""
    requires c.toConsole ==> Console !in a.faults
    requires c.toDatabase ==> Database !in a.faults && c.connectionString != ""
    ensures var r := LogCall(c, w, level, message, a);
      var path := LogFilePath(c.directory, a.date);
      && r.outcome == Done
      && r.world.writes == w.writes + EnabledSinks(c)
      && r.world.files == (if c.toFile
           then w.files[path := PriorContent(w.files, path) + FormatMessage(level, a.fileStamp, message.value) + "\n"]
           else w.files)
      && r.world.directories == (if c.toFile then w.directories + {c.directory} else w.directories)
      && r.world.console == w.console + (if c.toConsole then [FormatMessage(level, a.consoleStamp, message.value)] else [])
      && r.world.colour == (if c.toConsole then ForegroundColour(level) else w.colour)
      && r.world.rows == w.rows + (if c.toDatabase then [(message.value, DatabaseCode(level))] else [])
  {
    var text := message.value;
    var w1 := FileStage(c, w, level, text, a);
    AcceptedCallIsConsoleStage(c, w, level, message, a);
    ConsoleStageWritesOnce(c, w1, level, text, a);
    WritesRegroup(w.writes, c);
  }

  /** The write log of an accepted call splits into the file's write and the later destinations' writes. */
  lemma WritesRegroup(writes: seq<LogDestination>, c: LoggerConfig)
    ensures writes + EnabledSinks(c) == (writes + (if c.toFile then [File] else [])) + LaterSinks(c)
  {
    EnabledSinksSplit(c);
    Regroup(writes, if c.toFile then [File] else [], LaterSinks(c));
  }

  /** The fan-out list is the file, if enabled, followed by the later destinations. */
  lemma EnabledSinksSplit(c: LoggerConfig)
    ensures EnabledSinks(c) == (if c.toFile then [File] else []) + LaterSinks(c)
  {
    var first := if c.toFile then [File] else [];
    var second := if c.toConsole then [Console] else [];
    assert first + second + LastSinks(c) == first + (second + LastSinks(c));
  }

  /** The world after the file stage of an accepted call that did not throw. */
  function FileStage(c: LoggerConfig, w: World, level: LogLevel, text: string, a: Ambient): World
  {
    if c.toFile then AppendToFile(c.directory, w, level, text, a) else w
  }

  /** Once the file stage has succeeded, an accepted call continues with the console stage. */
  lemma AcceptedCallIsConsoleStage(c: LoggerConfig, w: World, level: LogLevel, message: Option<string>, a: Ambient)
    requires level in c.levels && !IsNullOrWhiteSpace(message)
    requires c.toFile ==> File !in a.faults && c.directory != ""
    ensures LogCall(c, w, level, message, a) == ConsoleStage(c, FileStage(c, w, level, message.value, a), level, message.value, a)
  {
  }

  /** The methods' specification carried over a run of calls, as a program makes them; a throw ends the run. */
  datatype Call = Call(level: LogLevel, message: Option<string>, ambient: Ambient)

  function Run(c: LoggerConfig, w: World, calls: seq<Call>): Step
    decreases |calls|
  {
    if calls == [] then Step(w, Done)
    else
      var first := LogCall(c, w, calls[0].level, calls[0].message, calls[0].ambient);
      if first.outcome.Thrown? then first else Run(c, first.world, calls[1..])
  }

  /** The text of a call whose message passed the blank test. */
  function Text(call: Call): string
  {
    if call.message.Some? then call.message.value else ""
  }

  /** What one call contributes to the console, the file and the Log table: nothing unless its level is accepted. */
  function ConsoleEntry(c: LoggerConfig, call: Call): seq<string>
  {
    if call.level in c.levels then [FormatMessage(call.level, call.ambient.consoleStamp, Text(call))] else []
  }

  function FileEntry(c: LoggerConfig, call: Call): string
  {
    if call.level in c.levels then FormatMessage(call.level, call.ambient.fileStamp, Text(call)) + "\n" else []
  }

  function RowEntry(c: LoggerConfig, call: Call): seq<(string, int)>
  {
    if call.level in c.levels then [(Text(call), DatabaseCode(call.level))] else []
  }

  /** The console lines of the accepted calls, in call order. */
  function ConsoleTranscript(c: LoggerConfig, calls: seq<Call>): seq<string>
    decreases |calls|
  {
    if calls == [] then []
    else ConsoleEntry(c, calls[0]) + ConsoleTranscript(c, calls[1..])
  }

  /** The file text of the accepted calls, in call order. */
  function FileTranscript(c: LoggerConfig, calls: seq<Call>): string
    decreases |calls|
  {
    if calls == [] then []
    else FileEntry(c, calls[0]) + FileTranscript(c, calls[1..])
  }

  /** The database rows of the accepted calls, in call order. */
  function RowTranscript(c: LoggerConfig, calls: seq<Call>): seq<(string, int)>
    decreases |calls|
  {
    if calls == [] then []
    else RowEntry(c, calls[0]) + RowTranscript(c, calls[1..])
  }

  /** The settings an enabled destination needs: a directory for the file, a connection string for the database. */
  predicate SettingsPresent(c: LoggerConfig)
  {
    && (c.toFile ==> c.directory != "")
    && (c.toDatabase ==> c.connectionString != "")
  }

  /**
   * Every call of the run happens on `date`, with working destinations,
   * and every accepted one has a message.
   */
  predicate WorkingDay(c: LoggerConfig, calls: seq<Call>, date: string)
    decreases |calls|
  {
    || calls == []
    || (&& calls[0].ambient.faults == {}
        && calls[0].ambient.date == date
        && (calls[0].level in c.levels ==> !IsNullOrWhiteSpace(calls[0].message))
        && WorkingDay(c, calls[1..], date))
  }

  /** The first call of a working day returns normally, so the run goes on with the rest. */
  lemma FirstCallOfDay(c: LoggerConfig, w: World, calls: seq<Call>, date: string)
    requires SettingsPresent(c) && calls != [] && WorkingDay(c, calls, date)
    ensures var first := LogCall(c, w, calls[0].level, calls[0].message, calls[0].ambient);
      && first.outcome == Done
      && Run(c, w, calls) == Run(c, first.world, calls[1..])
  {
    FirstCallEffects(c, w, calls, date);
  }

  /** The effect of the first call of a working day. */
  lemma FirstCallEffects(c: LoggerConfig, w: World, calls: seq<Call>, date: string)
    requires SettingsPresent(c) && calls != [] && WorkingDay(c, calls, date)
    ensures var call := calls[0];
      var first := LogCall(c, w, call.level, call.message, call.ambient);
      var accepted := call.level in c.levels;
      var path := LogFilePath(c.directory, date);
      && first.outcome == Done
      && first.world.console == w.console + (if c.toConsole then ConsoleEntry(c, call) else [])
      && first.world.rows == w.rows + (if c.toDatabase then RowEntry(c, call) else [])
      && first.world.files == (if c.toFile && accepted
           then w.files[path := PriorContent(w.files, path) + FileEntry(c, call)]
           else w.files)
  {
    var call := calls[0];
    assert call.ambient.faults == {} && call.ambient.date == date;
    if call.level in c.levels {
      assert !IsNullOrWhiteSpace(call.message);
      assert Text(call) == call.message.value;
      AcceptedCallWritesEachEnabledSinkOnce(c, w, call.level, call.message, call.ambient);
      var line := FormatMessage(call.level, call.ambient.fileStamp, call.message.value);
      assert FileEntry(c, call) == line + "\n";
      Regroup(PriorContent(w.files, LogFilePath(c.directory, date)), line, "\n");
    } else {
      assert LogCall(c, w, call.level, call.message, call.ambient) == Step(w, Done);
    }
  }

  /** The world after the first call of a working day, from which the rest of the day runs. */
  lemma FirstCallStep(c: LoggerConfig, w: World, calls: seq<Call>, date: string) returns (w1: World)
    requires SettingsPresent(c) && calls != [] && WorkingDay(c, calls, date)
    ensures WorkingDay(c, calls[1..], date)
    ensures Run(c, w, calls) == Run(c, w1, calls[1..])
    ensures w1.console == w.console + (if c.toConsole then ConsoleEntry(c, calls[0]) else [])
    ensures w1.rows == w.rows + (if c.toDatabase then RowEntry(c, calls[0]) else [])
    ensures var path := LogFilePath(c.directory, date);
      w1.files == (if c.toFile && calls[0].level in c.levels
        then w.files[path := PriorContent(w.files, path) + FileEntry(c, calls[0])]
        else w.files)
  {
    FirstCallOfDay(c, w, calls, date);
    FirstCallEffects(c, w, calls, date);
    w1 := LogCall(c, w, calls[0].level, calls[0].message, calls[0].ambient).world;
  }

  /** A working day's run of calls ends normally. */
  lemma {:induction false} RunSucceeds(c: LoggerConfig, w: World, calls: seq<Call>, date: string)
    requires SettingsPresent(c) && WorkingDay(c, calls, date)
    ensures Run(c, w, calls).outcome == Done
    decreases |calls|
  {
    if calls != [] {
      FirstCallOfDay(c, w, calls, date);
      var first := LogCall(c, w, calls[0].level, calls[0].message, calls[0].ambient);
      RunSucceeds(c, first.world, calls[1..], date);
    }
  }

  /** The console receives the accepted calls' lines in call order, or nothing when it is disabled. */
  lemma {:induction false} RunConsoleTranscript(c: LoggerConfig, w: World, calls: seq<Call>, date: string)
    requires SettingsPresent(c) && WorkingDay(c, calls, date)
    ensures Run(c, w, calls).world.console == w.console + (if c.toConsole then ConsoleTranscript(c, calls) else [])
    decreases |calls|
  {
    if calls != [] {
      var w1 := FirstCallStep(c, w, calls, date);
      RunConsoleTranscript(c, w1, calls[1..], date);
      if c.toConsole {
        Regroup(w.console, ConsoleEntry(c, calls[0]), ConsoleTranscript(c, calls[1..]));
      }
    }
  }

  /** The Log table receives the accepted calls' rows in call order, or nothing when it is disabled. */
  lemma {:induction false} RunRowTranscript(c: LoggerConfig, w: World, calls: seq<Call>, date: string)
    requires SettingsPresent(c) && WorkingDay(c, calls, date)
    ensures Run(c, w, calls).world.rows == w.rows + (if c.toDatabase then RowTranscript(c, calls) else [])
    decreases |calls|
  {
    if calls != [] {
      var w1 := FirstCallStep(c, w, calls, date);
      RunRowTranscript(c, w1, calls[1..], date);
      if c.toDatabase {
        Regroup(w.rows, RowEntry(c, calls[0]), RowTranscript(c, calls[1..]));
      }
    }
  }

  /** The day's file gains the accepted calls' lines in call order; no other file changes. */
  lemma {:induction false} RunFileTranscript(c: LoggerConfig, w: World, calls: seq<Call>, date: string)
    requires SettingsPresent(c) && WorkingDay(c, calls, date)
    ensures var path := LogFilePath(c.directory, date);
      Run(c, w, calls).world.files == (if c.toFile && FileTranscript(c, calls) != []
        then w.files[path := PriorContent(w.files, path) + FileTranscript(c, calls)]
        else w.files)
    decreases |calls|
  {
    if calls != [] {
      var call := calls[0];
      var rest := calls[1..];
      var w1 := FirstCallStep(c, w, calls, date);
      RunFileTranscript(c, w1, rest, date);
      var line := FileEntry(c, call);
      assert FileTranscript(c, calls) == line + FileTranscript(c, rest);
      var path := LogFilePath(c.directory, date);
      if c.toFile && call.level in c.levels {
        assert line != [];
        AppendTwice(w.files, path, line, FileTranscript(c, rest));
      } else if call.level !in c.levels {
        assert line == [];
        assert FileTranscript(c, calls) == FileTranscript(c, rest);
      }
    }
  }

  /** Sequence concatenation regroups freely. */
  lemma Regroup<T>(before: seq<T>, entry: seq<T>, rest: seq<T>)
    ensures (before + entry) + rest == before + (entry + rest)
  {
  }

  /** Appending `line` to a file and then `more` is appending `line + more`. */
  lemma AppendTwice(files: map<string, string>, path: string, line: string, more: string)
    requires line != []
    ensures var once := files[path := PriorContent(files, path) + line];
      (if more != [] then once[path := PriorContent(once, path) + more] else once)
        == files[path := PriorContent(files, path) + (line + more)]
  {
    var prior := PriorContent(files, path);
    assert prior + line + more == prior + (line + more);
    if more == [] {
      assert line + more == line;
    }
  }

  /**
   * The logger object. Its fields are assigned once by the constructor and
   * never change; each logging method updates the environment it is given.
   */
  class JobLogger {
    const logLevels: seq<LogLevel>
    const logToFile: bool
    const logToDatabase: bool
    const logToConsole: bool
    const connectionString: string
    const logFileDirectory: string

    /** The logger's fields as a value. */
    function Config(): LoggerConfig
    {
      LoggerConfig(logLevels, logToFile, logToDatabase, logToConsole, connectionString, logFileDirectory)
    }

    /**
     * The public constructor: validation, then the field assignments. The
     * settings file is not read; its two values are parameters.
     */
    static method Create(options: Option<JobLoggerOptions>, connectionString: string, logFileDirectory: string)
      returns (r: Result<JobLogger, LogError>)
      ensures r.Failure? ==> Configure(options, connectionString, logFileDirectory) == Failure(r.error)
      ensures r.Success? ==>
        && fresh(r.value)
        && Configure(options, connectionString, logFileDirectory) == Success(r.value.Config())
    {
      if options.None? {
        return Failure(ArgumentNull(OptionsParamName));
      }
      var o := options.value;
      if o.destinations.None? || |o.destinations.value| == 0 {
        return Failure(ConfigurationError(NoDestinationMessage));
      }
      if o.levels.None? || |o.levels.value| == 0 {
        return Failure(ConfigurationError(NoLevelMessage));
      }
      var logger := new JobLogger(o.destinations.value, o.levels.value, connectionString, logFileDirectory);
      return Success(logger);
    }

    /** The field assignments, after the options have been checked. */
    constructor (destinations: seq<LogDestination>, levels: seq<LogLevel>, connectionString: string, logFileDirectory: string)
      requires |destinations| != 0 && |levels| != 0
      ensures logLevels == levels
      ensures logToFile == (File in destinations)
      ensures logToDatabase == (Database in destinations)
      ensures logToConsole == (Console in destinations)
      ensures this.connectionString == connectionString && this.logFileDirectory == logFileDirectory
      ensures WellFormed(Config())
    {
      logLevels := levels;
      logToFile := File in destinations;
      logToDatabase := Database in destinations;
      logToConsole := Console in destinations;
      this.connectionString := connectionString;
      this.logFileDirectory := logFileDirectory;
      SomeDestinationEnabled(destinations);
    }

    method LogMessage(message: Option<string>, env: Environment, a: Ambient) returns (r: Outcome)
      modifies env
      ensures Step(env.State(), r) == LogCall(Config(), old(env.State()), Message, message, a)
    {
      r := LogMessageWithLevel(Message, message, env, a);
    }

    method LogWarning(message: Option<string>, env: Environment, a: Ambient) returns (r: Outcome)
      modifies env
      ensures Step(env.State(), r) == LogCall(Config(), old(env.State()), Warning, message, a)
    {
      r := LogMessageWithLevel(Warning, message, env, a);
    }

    method LogError(message: Option<string>, env: Environment, a: Ambient) returns (r: Outcome)
      modifies env
      ensures Step(env.State(), r) == LogCall(Config(), old(env.State()), Error, message, a)
    {
      r := LogMessageWithLevel(Error, message, env, a);
    }

    method LogMessageWithLevel(level: LogLevel, message: Option<string>, env: Environment, a: Ambient) returns (r: Outcome)
      modifies env
      ensures Step(env.State(), r) == LogCall(Config(), old(env.State()), level, message, a)
    {
      if level !in logLevels {
        return Done;
      }
      if IsNullOrWhiteSpace(message) {
        return Thrown(ArgumentError(MessageMustBeSpecified));
      }
      r := Done;
      if logToFile {
        r := LogMessageToFile(level, message.value, env, a);
        if r.Thrown? {
          return;
        }
      }
      if logToConsole {
        r := LogMessageToConsole(level, message.value, env, a);
        if r.Thrown? {
          return;
        }
      }
      if logToDatabase {
        r := LogMessageToDatabase(level, message.value, env, a);
      }
    }

    method LogMessageToFile(level: LogLevel, message: string, env: Environment, a: Ambient) returns (r: Outcome)
      modifies env
      ensures Step(env.State(), r) == FileSink(logFileDirectory, old(env.State()), level, message, a)
    {
      if File in a.faults {
        return Thrown(SinkFailure(File));
      }
      var shortDate := a.date;
      var logFilePath := logFileDirectory + "LogFile" + shortDate + ".txt";
      ghost var fileContent := "";
      if logFileDirectory == "" {
        // The empty path never exists, and creating it throws ArgumentException.
        return Thrown(SinkFailure(File));
      }
      if !DirectoryExists(env.directories, logFileDirectory) {
        env.directories := env.directories + {logFileDirectory};
      }
      if logFilePath in env.files {
        fileContent := env.files[logFilePath];
      }
      fileContent := fileContent + FormatMessage(level, a.fileStamp, message) + "\n";
      env.files := env.files[logFilePath := fileContent];
      env.writes := env.writes + [File];
      r := Done;
    }

    method LogMessageToConsole(level: LogLevel, message: string, env: Environment, a: Ambient) returns (r: Outcome)
      modifies env
      ensures Step(env.State(), r) == ConsoleSink(old(env.State()), level, message, a)
    {
      if Console in a.faults {
        return Thrown(SinkFailure(Console));
      }
      match level {
        case Error => env.colour := Red;
        case Warning => env.colour := Yellow;
        case Message => env.colour := White;
      }
      env.console := env.console + [FormatMessage(level, a.consoleStamp, message)];
      env.writes := env.writes + [Console];
      r := Done;
    }

    method LogMessageToDatabase(level: LogLevel, message: string, env: Environment, a: Ambient) returns (r: Outcome)
      modifies env
      ensures Step(env.State(), r) == DatabaseSink(connectionString, old(env.State()), level, message, a)
    {
      var logType := DatabaseCode(level);
      if Database in a.faults || connectionString == "" {
        // Opening the connection throws; with an empty connection string it always does.
        return Thrown(SinkFailure(Database));
      }
      env.rows := env.rows + [(message, logType)];
      env.writes := env.writes + [Database];
      r := Done;
    }
  }
}
