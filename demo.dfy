/**
 * The demonstration program: a logger writing to the console and a file at
 * levels Message and Warning logs "demo" and then "hi!".
 */
module Demo {
  import opened Wrappers
  import opened LogLevels
  import opened Outcomes
  import opened LoggerOptions
  import opened MessageFormat
  import opened Sinks
  import opened Logging

  const DemoOptions := JobLoggerOptions(Some([Console, File]), Some([Message, Warning]))

  function DemoCalls(first: Ambient, second: Ambient): seq<Call>
  {
    [Call(Message, Some("demo"), first), Call(Warning, Some("hi!"), second)]
  }

  /**
   * On one day with working destinations, both calls succeed, the console
   * and the day's file each receive the two lines in call order, and the
   * database receives nothing.
   */
  lemma ProgramScenario(connectionString: string, directory: string, w: World, first: Ambient, second: Ambient)
    requires directory != ""
    requires first.date == second.date && first.faults == {} && second.faults == {}
    ensures Configure(Some(DemoOptions), connectionString, directory).Success?
    ensures var c := Configure(Some(DemoOptions), connectionString, directory).value;
      var r := Run(c, w, DemoCalls(first, second));
      var path := LogFilePath(directory, first.date);
      && r.outcome == Done
      && r.world.console == w.console +
           [FormatMessage(Message, first.consoleStamp, "demo"), FormatMessage(Warning, second.consoleStamp, "hi!")]
      && r.world.files == w.files[path := PriorContent(w.files, path)
           + (FormatMessage(Message, first.fileStamp, "demo") + "\n" + FormatMessage(Warning, second.fileStamp, "hi!") + "\n")]
      && r.world.rows == w.rows
  {
    DemoConfig(connectionString, directory);
    var c := LoggerConfig([Message, Warning], true, false, true, connectionString, directory);
    var calls := DemoCalls(first, second);
    DemoWorkingDay(c, first, second);
    RunSucceeds(c, w, calls, first.date);
    RunConsoleTranscript(c, w, calls, first.date);
    RunRowTranscript(c, w, calls, first.date);
    RunFileTranscript(c, w, calls, first.date);
    DemoTranscripts(c, first, second);
  }

  /** The program's options build a console-and-file logger for Message and Warning. */
  lemma DemoConfig(connectionString: string, directory: string)
    ensures Configure(Some(DemoOptions), connectionString, directory)
         == Success(LoggerConfig([Message, Warning], true, false, true, connectionString, directory))
  {
  }

  lemma DemoWorkingDay(c: LoggerConfig, first: Ambient, second: Ambient)
    requires first.date == second.date && first.faults == {} && second.faults == {}
    ensures WorkingDay(c, DemoCalls(first, second), first.date)
  {
    assert !IsWhiteSpace("demo"[0]) && !IsWhiteSpace("hi!"[0]);
  }

  lemma DemoTranscripts(c: LoggerConfig, first: Ambient, second: Ambient)
    requires c.levels == [Message, Warning]
    ensures var calls := DemoCalls(first, second);
      && ConsoleTranscript(c, calls) ==
           [FormatMessage(Message, first.consoleStamp, "demo"), FormatMessage(Warning, second.consoleStamp, "hi!")]
      && FileTranscript(c, calls) ==
           FormatMessage(Message, first.fileStamp, "demo") + "\n" + FormatMessage(Warning, second.fileStamp, "hi!") + "\n"
  {
    var calls := DemoCalls(first, second);
    assert calls[1..][1..] == [];
    assert calls[0].level in c.levels && calls[1..][0].level in c.levels;
    assert Text(calls[0]) == "demo" && Text(calls[1..][0]) == "hi!";
    var line1 := FormatMessage(Message, first.fileStamp, "demo") + "\n";
    var line2 := FormatMessage(Warning, second.fileStamp, "hi!") + "\n";
    assert FileTranscript(c, calls[1..]) == line2 + [];
    assert FileTranscript(c, calls) == line1 + (line2 + []);
    assert ConsoleTranscript(c, calls[1..]) == [FormatMessage(Warning, second.consoleStamp, "hi!")] + [];
    assert ConsoleTranscript(c, calls) ==
      [FormatMessage(Message, first.consoleStamp, "demo")] + ([FormatMessage(Warning, second.consoleStamp, "hi!")] + []);
  }

  /** The program's body: build the logger, then make the two calls; an exception ends the program. */
  method RunProgram(env: Environment, connectionString: string, directory: string, first: Ambient, second: Ambient)
    returns (r: Outcome)
    modifies env
    ensures Configure(Some(DemoOptions), connectionString, directory).Success?
    ensures Step(env.State(), r) ==
      Run(Configure(Some(DemoOptions), connectionString, directory).value, old(env.State()), DemoCalls(first, second))
  {
    var created := JobLogger.Create(Some(DemoOptions), connectionString, directory);
    var logger := created.value;
    ghost var c := logger.Config();
    ghost var calls := DemoCalls(first, second);
    ghost var start := env.State();
    r := logger.LogMessage(Some("demo"), env, first);
    ghost var afterFirst := env.State();
    if r.Thrown? {
      assert Step(env.State(), r) == Run(c, start, calls);
      return;
    }
    r := logger.LogWarning(Some("hi!"), env, second);
    assert calls[1..][1..] == [];
    assert Run(c, afterFirst, calls[1..]) == Step(env.State(), r);
  }
}
