/**
 * The pure text functions of the logger: the blank-message test, the
 * display line of a record and the name of the daily log file.
 */
module MessageFormat {
  import opened Wrappers
  import opened LogLevels

  /** .NET's char.IsWhiteSpace: the Unicode separators plus the control characters U+0009 to U+000D and U+0085. */
  predicate IsWhiteSpace(c: char)
  {
    || ('\U{9}' <= c <= '\U{D}')
    || c == '\U{20}' || c == '\U{85}' || c == '\U{A0}' || c == '\U{1680}'
    || ('\U{2000}' <= c <= '\U{200A}')
    || c == '\U{2028}' || c == '\U{2029}' || c == '\U{202F}' || c == '\U{205F}' || c == '\U{3000}'
  }

  /** .NET's string.IsNullOrWhiteSpace; `None` is a null reference. */
  predicate IsNullOrWhiteSpace(s: Option<string>)
  {
    s.None? || forall i :: 0 <= i < |s.value| ==> IsWhiteSpace(s.value[i])
  }

  /** String.TrimStart: drops the leading white-space characters. */
  function TrimStart(s: string): string
    decreases |s|
  {
    if s != [] && IsWhiteSpace(s[0]) then TrimStart(s[1..]) else s
  }

  /** String.TrimEnd: drops the trailing white-space characters. */
  function TrimEnd(s: string): string
    decreases |s|
  {
    if s != [] && IsWhiteSpace(s[|s| - 1]) then TrimEnd(s[..|s| - 1]) else s
  }

  /** String.Trim: drops the white space at both ends. */
  function Trim(s: string): string
  {
    TrimEnd(TrimStart(s))
  }

  /**
   * The blank test agrees with .NET's documented equivalent: a null
   * reference, or a string that trims to the empty string.
   */
  lemma BlankIsEmptyAfterTrim(s: Option<string>)
    ensures IsNullOrWhiteSpace(s) <==> s.None? || |Trim(s.value)| == 0
  {
    if s.Some? {
      TrimStartEmpty(s.value);
      var t := TrimStart(s.value);
      if t != [] {
        TrimEndKeepsVisible(t);
      }
    }
  }

  /** Trimming the front leaves nothing exactly when every character is white space; otherwise it stops at a visible one. */
  lemma {:induction false} TrimStartEmpty(s: string)
    ensures TrimStart(s) == [] <==> forall i :: 0 <= i < |s| ==> IsWhiteSpace(s[i])
    ensures TrimStart(s) != [] ==> !IsWhiteSpace(TrimStart(s)[0])
    decreases |s|
  {
    if s != [] && IsWhiteSpace(s[0]) {
      TrimStartEmpty(s[1..]);
      assert forall i :: 1 <= i < |s| ==> s[i] == s[1..][i - 1];
    }
  }

  /** Trimming the end of a string that starts with a visible character leaves that character. */
  lemma {:induction false} TrimEndKeepsVisible(t: string)
    requires t != [] && !IsWhiteSpace(t[0])
    ensures TrimEnd(t) != []
    decreases |t|
  {
    if IsWhiteSpace(t[|t| - 1]) {
      TrimEndKeepsVisible(t[..|t| - 1]);
    }
  }

  /** The bracketed level that opens every display line. */
  function LevelTag(level: LogLevel): string
  {
    "[" + LevelName(level) + "]: "
  }

  /**
   * The display line `[<Level>]: <timestamp> - <message>.`. The timestamp is
   * whatever the clock printed when the line was formatted.
   */
  function FormatMessage(level: LogLevel, timestamp: string, message: string): (line: string)
    ensures |line| == |LevelTag(level)| + |timestamp| + |message| + 4
    ensures LevelTag(level) <= line
    ensures LineLevel(line) == Some(level)
    ensures line[|LevelTag(level)|..|LevelTag(level)| + |timestamp|] == timestamp
    ensures line[|LevelTag(level)| + |timestamp|..|line| - 1 - |message|] == " - "
    ensures line[|line| - 1 - |message|..|line| - 1] == message
    ensures line[|line| - 1] == '.'
  {
    var line := LevelTag(level) + timestamp + " - " + message + ".";
    LineLevelOfTag(level, line);
    line
  }

  /** Reads the level back from the front of a display line. */
  function LineLevel(line: string): Option<LogLevel>
  {
    if LevelTag(Message) <= line then Some(Message)
    else if LevelTag(Warning) <= line then Some(Warning)
    else if LevelTag(Error) <= line then Some(Error)
    else None
  }

  /** The three tags differ in their second character, so a line starts with at most one of them. */
  lemma LineLevelOfTag(level: LogLevel, line: string)
    requires LevelTag(level) <= line
    ensures LineLevel(line) == Some(level)
  {
    assert LevelTag(level)[1] == line[1];
    assert LevelTag(Message)[1] == 'M' && LevelTag(Warning)[1] == 'W' && LevelTag(Error)[1] == 'E';
  }

  /** Two display lines with the same level and timestamp are equal only if their messages are. */
  lemma FormatMessageInjective(level: LogLevel, timestamp: string, m1: string, m2: string)
    requires FormatMessage(level, timestamp, m1) == FormatMessage(level, timestamp, m2)
    ensures m1 == m2
  {
    var line := FormatMessage(level, timestamp, m1);
    assert line[|line| - 1 - |m1|..|line| - 1] == m1;
  }

  /** The daily file: the directory, `LogFile`, the date and `.txt`, joined with no separator. */
  function LogFilePath(directory: string, date: string): (path: string)
    ensures |path| == |directory| + |date| + 11
    ensures directory <= path
    ensures path[|directory|..|directory| + 7] == "LogFile"
    ensures path[|directory| + 7..|path| - 4] == date
    ensures path[|path| - 4..] == ".txt"
  {
    directory + "LogFile" + date + ".txt"
  }

  /** Calls on different dates write to different files. */
  lemma DailyPartition(directory: string, d1: string, d2: string)
    requires d1 != d2
    ensures LogFilePath(directory, d1) != LogFilePath(directory, d2)
  {
  }
}
