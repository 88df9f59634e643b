/**
 * The two enumerations the logger is configured with, and the three fixed
 * mappings it applies to a severity level: its display name, its database
 * code and the console colour it is shown in.
 */
module LogLevels {
  import opened Wrappers

  datatype LogLevel = Message | Warning | Error

  datatype LogDestination = Console | File | Database

  /** The sixteen console colours of .NET. */
  datatype ConsoleColor =
    | Black | DarkBlue | DarkGreen | DarkCyan | DarkRed | DarkMagenta | DarkYellow | Gray
    | DarkGray | Blue | Green | Cyan | Red | Magenta | Yellow | White

  /** The enum member's own name, as string interpolation prints it. */
  function LevelName(level: LogLevel): (name: string)
    ensures |name| > 0
    ensures LevelOfName(name) == Some(level)
  {
    match level
    case Message => "Message"
    case Warning => "Warning"
    case Error => "Error"
  }

  /** Inverse of LevelName: parses a display name back into a level. */
  function LevelOfName(name: string): Option<LogLevel>
  {
    if name == "Message" then Some(Message)
    else if name == "Warning" then Some(Warning)
    else if name == "Error" then Some(Error)
    else None
  }

  /** The integer stored in the level column of the Log table. */
  function DatabaseCode(level: LogLevel): (code: int)
    ensures code != 0
    ensures LevelOfCode(code) == Some(level)
  {
    match level
    case Error => 2
    case Warning => 3
    case Message => 1
  }

  /** Inverse of DatabaseCode: the level a stored code stands for. */
  function LevelOfCode(code: int): Option<LogLevel>
  {
    if code == 1 then Some(Message)
    else if code == 2 then Some(Error)
    else if code == 3 then Some(Warning)
    else None
  }

  /** The codes are exactly 1, 2 and 3, and each denotes one level. */
  lemma DatabaseCodeIsBijective(code: int)
    ensures LevelOfCode(code).Some? <==> 1 <= code <= 3
    ensures LevelOfCode(code).Some? ==> DatabaseCode(LevelOfCode(code).value) == code
  {
  }

  /** The foreground colour the console sink selects before writing. */
  function ForegroundColour(level: LogLevel): (c: ConsoleColor)
    ensures c == Red <==> level == Error
    ensures c == Yellow <==> level == Warning
    ensures c == White <==> level == Message
  {
    match level
    case Error => Red
    case Warning => Yellow
    case Message => White
  }
}
