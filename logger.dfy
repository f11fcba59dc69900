/**
 * Log levels, their names and colours, and where one log call writes: the
 * combined log, the error log and one of two Discord webhooks. The writes
 * themselves (console, files, HTTP) are not modelled; `Log` says what each
 * destination receives.
 */
module Logger {
  import opened Wrappers

  /** `LogLevel` is a Go `int`; the seven named levels are 0 to 6, most severe first. */
  type LogLevel = int

  const LevelCritical: LogLevel := 0
  const LevelError: LogLevel := 1
  const LevelWarn: LogLevel := 2
  const LevelSuccess: LogLevel := 3
  const LevelInfo: LogLevel := 4
  const LevelDebug: LogLevel := 5
  const LevelSystem: LogLevel := 6

  /** The names of the seven levels, by level. */
  const LevelNames: seq<string> := ["CRITICAL", "ERROR", "WARN", "SUCCESS", "INFO", "DEBUG", "SYSTEM"]

  /** The embed colours of the seven levels, by level. */
  const DiscordColors: seq<int> := [0xFF0000, 0xFF0000, 0xFFFF00, 0x00FF00, 0x0000FF, 0x800080, 0x808080]

  const Esc: char := 27 as char
  const ColorReset: string := [Esc] + "[0m"

  predicate IsNamedLevel(l: LogLevel) {
    LevelCritical <= l <= LevelSystem
  }

  /** `LogLevel.String`. */
  function LevelString(l: LogLevel): (s: string)
    ensures IsNamedLevel(l) ==> s == LevelNames[l]
    ensures !IsNamedLevel(l) ==> s == "UNKNOWN"
  {
    match l
    case 0 => "CRITICAL"
    case 1 => "ERROR"
    case 2 => "WARN"
    case 3 => "SUCCESS"
    case 4 => "INFO"
    case 5 => "DEBUG"
    case 6 => "SYSTEM"
    case _ => "UNKNOWN"
  }

  /** Different named levels have different names, and none is called "UNKNOWN". */
  lemma LevelStringInjective(a: LogLevel, b: LogLevel)
    requires IsNamedLevel(a)
    ensures LevelString(a) != "UNKNOWN"
    ensures LevelString(a) == LevelString(b) ==> a == b
  {
  }

  /** `LogLevel.Color`: an ANSI escape sequence; an unnamed level gets the reset sequence. */
  function Color(l: LogLevel): (c: string)
    ensures |c| >= 4 && c[0] == Esc && c[1] == '[' && c[|c| - 1] == 'm'
    ensures !IsNamedLevel(l) <==> c == ColorReset
  {
    var code := match l
      case 0 => "1;31"
      case 1 => "31"
      case 2 => "33"
      case 3 => "32"
      case 4 => "36"
      case 5 => "35"
      case 6 => "34"
      case _ => "0";
    [Esc] + "[" + code + "m"
  }

  /** Different named levels have different console colours. */
  lemma ColorInjective(a: LogLevel, b: LogLevel)
    requires IsNamedLevel(a) && IsNamedLevel(b) && a != b
    ensures Color(a) != Color(b)
  {
    var ca, cb := Color(a), Color(b);
    if |ca| == |cb| {
      assert ca[|ca| - 2] != cb[|cb| - 2] || ca[2] != cb[2];
    }
  }

  /** `LogLevel.DiscordColor`: a 24-bit RGB value; Critical and Error share red. */
  function DiscordColor(l: LogLevel): (c: int)
    ensures 0 <= c <= 0xFFFFFF
    ensures IsNamedLevel(l) ==> c == DiscordColors[l]
    ensures !IsNamedLevel(l) ==> c == 0xFFFFFF
  {
    match l
    case 0 => 0xFF0000
    case 1 => 0xFF0000
    case 2 => 0xFFFF00
    case 3 => 0x00FF00
    case 4 => 0x0000FF
    case 5 => 0x800080
    case 6 => 0x808080
    case _ => 0xFFFFFF
  }

  /** Whether a level also goes to error.log and the error webhook: Critical, Error (and any lower number). */
  predicate IsErrorLevel(l: LogLevel) {
    l <= LevelError
  }

  /** The line written to the log files: `[ts] [LEVEL] [prefix]: message` and a newline. */
  function FileLine(timestamp: string, level: LogLevel, prefix: string, message: string): string
  {
    "[" + timestamp + "] [" + LevelString(level) + "] [" + prefix + "]: " + message + "\n"
  }

  /** The console line: the file line with the level name wrapped in its colour. */
  function ConsoleLine(timestamp: string, level: LogLevel, prefix: string, message: string): string
  {
    "[" + timestamp + "] [" + Color(level) + LevelString(level) + ColorReset + "] [" + prefix + "]: " + message + "\n"
  }

  /** The file line carries no escape character unless the caller's text does. */
  lemma FileLineHasNoColor(timestamp: string, level: LogLevel, prefix: string, message: string)
    requires Esc !in timestamp && Esc !in prefix && Esc !in message
    ensures Esc !in FileLine(timestamp, level, prefix, message)
    ensures Esc in ConsoleLine(timestamp, level, prefix, message)
  {
    var name := LevelString(level);
    assert Esc !in name;
    var line := FileLine(timestamp, level, prefix, message);
    assert line == "[" + timestamp + "] [" + name + "] [" + prefix + "]: " + message + "\n";
    var c := ConsoleLine(timestamp, level, prefix, message);
    assert c[|"[" + timestamp + "] ["|] == Esc;
  }

  /** `sendToWebhook`'s choice: errors to the error URL, the rest to the logs URL; empty URLs are skipped. */
  function WebhookTarget(level: LogLevel, errorURL: string, logsURL: string): (target: Option<string>)
    ensures target.Some? ==> target.value != ""
    ensures target == Some(errorURL) && errorURL != logsURL ==> IsErrorLevel(level)
    ensures IsErrorLevel(level) ==> (target.Some? <==> errorURL != "") && (target.Some? ==> target.value == errorURL)
    ensures !IsErrorLevel(level) ==> (target.Some? <==> logsURL != "") && (target.Some? ==> target.value == logsURL)
  {
    if level <= LevelError && errorURL != "" then Some(errorURL)
    else if logsURL != "" && level > LevelError then Some(logsURL)
    else None
  }

  /** What one `log` call sends where. */
  datatype Writes = Writes(combined: Option<string>, errorLog: Option<string>, webhook: Option<string>)

  /**
   * `log`: the file line goes to combined.log when it is open, and also to
   * error.log for error levels; the webhook is chosen by `WebhookTarget`.
   */
  function Log(level: LogLevel, message: string, prefix: string, timestamp: string,
               logFileOpen: bool, errorFileOpen: bool, errorURL: string, logsURL: string): (w: Writes)
    ensures w.combined.Some? <==> logFileOpen
    ensures w.errorLog.Some? <==> IsErrorLevel(level) && errorFileOpen
    ensures w.combined.Some? ==> w.combined.value == FileLine(timestamp, level, prefix, message)
    ensures w.errorLog.Some? ==> w.errorLog.value == FileLine(timestamp, level, prefix, message)
    ensures w.webhook == WebhookTarget(level, errorURL, logsURL)
  {
    var line := FileLine(timestamp, level, prefix, message);
    Writes(
      if logFileOpen then Some(line) else None,
      if level <= LevelError && errorFileOpen then Some(line) else None,
      WebhookTarget(level, errorURL, logsURL))
  }

  /** An error never goes to the logs webhook, and a non-error never to error.log or the error webhook. */
  lemma ErrorsStaySeparate(level: LogLevel, message: string, prefix: string, timestamp: string,
                           logFileOpen: bool, errorFileOpen: bool, errorURL: string, logsURL: string)
    requires errorURL != logsURL
    ensures var w := Log(level, message, prefix, timestamp, logFileOpen, errorFileOpen, errorURL, logsURL);
      (IsErrorLevel(level) ==> w.webhook != Some(logsURL))
      && (!IsErrorLevel(level) ==> w.errorLog.None? && w.webhook != Some(errorURL))
  {
  }
}
