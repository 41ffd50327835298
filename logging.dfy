/**
  The console project's file logger (VolMixerConsole/Logging): a level mask
  decides which of the error, info and warning entries are written; each entry is
  one line "<time> - <PREFIX><message>" appended to "<directory>\<name>.log".

  The clock and the file system are parameters: `now` is the text of
  `DateTime.Now`, `dirExists` answers `Directory.Exists`, and the file is the
  sequence of lines this logger has appended. `string.Format` and an exception's
  text are parameters as well.
*/
module Logging {
  import opened Wrappers
  import opened Text

  // LogLevel, a [Flags] byte enum
  const NONE: bv8 := 0
  const INFO: bv8 := 1
  const WARNING: bv8 := 2
  const ERROR: bv8 := 4
  const DEFAULT_LEVEL: bv8 := ERROR | INFO | WARNING

  /** What a `LoggerInfo` enables; its properties are fixed at construction. */
  datatype LoggerInfo = LoggerInfo(warningEnabled: bool, infoEnabled: bool, errorEnabled: bool)

  /** `new LoggerInfo(level)`: each kind is enabled when its whole flag is set in the mask. */
  function NewLoggerInfo(level: bv8): (r: LoggerInfo)
    ensures r.errorEnabled <==> level & 4 != 0
    ensures r.infoEnabled <==> level & 1 != 0
    ensures r.warningEnabled <==> level & 2 != 0
  {
    LoggerInfo(
      warningEnabled := level & WARNING == WARNING,
      infoEnabled := level & INFO == INFO,
      errorEnabled := level & ERROR == ERROR)
  }

  /** The default mask enables everything, NONE nothing, and each flag alone only itself. */
  lemma LevelsEnable()
    ensures NewLoggerInfo(DEFAULT_LEVEL) == LoggerInfo(true, true, true)
    ensures NewLoggerInfo(NONE) == LoggerInfo(false, false, false)
    ensures NewLoggerInfo(ERROR) == LoggerInfo(false, false, true)
    ensures NewLoggerInfo(INFO) == LoggerInfo(false, true, false)
    ensures NewLoggerInfo(WARNING) == LoggerInfo(true, false, false)
  {
  }

  /** Bits outside the three flags are ignored, and adding flags never disables a kind. */
  lemma LevelsMonotone(a: bv8, b: bv8)
    requires a & b == a
    ensures NewLoggerInfo(a).errorEnabled ==> NewLoggerInfo(b).errorEnabled
    ensures NewLoggerInfo(a).infoEnabled ==> NewLoggerInfo(b).infoEnabled
    ensures NewLoggerInfo(a).warningEnabled ==> NewLoggerInfo(b).warningEnabled
    ensures NewLoggerInfo(a) == NewLoggerInfo(a & DEFAULT_LEVEL)
  {
  }

  // ---------------------------------------------------------------------------
  // Construction

  const DEFAULT_PATH: string := "C:\\temp"
  const LOG_ENDING: string := ".log"
  const SEPARATOR: string := "\\"

  /** The message of the directory error: the text is not interpolated, so it never names the directory. */
  const DIRECTORY_NOT_FOUND_MESSAGE: string := "The directory: '{pDirectory}' does not exist."

  datatype LoggerError =
    | ArgumentNull(paramName: string)
    | DirectoryNotFound(message: string)

  /** The directory with a trailing backslash. */
  function WithSeparator(directory: string): (r: string)
    ensures EndsWith(r, SEPARATOR)
    ensures |directory| <= |r| <= |directory| + 1
    ensures r[..|directory|] == directory
  {
    if EndsWith(directory, SEPARATOR) then directory else directory + SEPARATOR
  }

  /** Adding the separator twice is adding it once. */
  lemma WithSeparatorIdempotent(directory: string)
    ensures WithSeparator(WithSeparator(directory)) == WithSeparator(directory)
  {
  }

  /**
    The file the logger appends to, or the exception its constructor throws: an
    empty file name first, then a directory that does not exist.
  */
  function LogFilePath(fileName: string, directory: string, dirExists: string -> bool): (r: Result<string, LoggerError>)
    ensures r == Err(ArgumentNull("pLogFileName")) <==> fileName == ""
    ensures r.Err? && r.error.DirectoryNotFound? <==> fileName != "" && !dirExists(WithSeparator(directory))
    ensures r.Err? && r.error.DirectoryNotFound? ==> r.error.message == DIRECTORY_NOT_FOUND_MESSAGE
    ensures r.Ok? ==> EndsWith(r.value, LOG_ENDING) && |r.value| >= |directory| + |fileName| + |LOG_ENDING|
  {
    if fileName == "" then Err(ArgumentNull("pLogFileName"))
    else
      var dir := WithSeparator(directory);
      if !dirExists(dir) then Err(DirectoryNotFound(DIRECTORY_NOT_FOUND_MESSAGE))
      else
        var path := dir + (fileName + LOG_ENDING);
        assert path[|path| - |LOG_ENDING|..] == LOG_ENDING;
        Ok(path)
  }

  /** The path is the directory with its separator, the file name and ".log", in that order. */
  lemma LogFilePathParts(fileName: string, directory: string, dirExists: string -> bool)
    requires LogFilePath(fileName, directory, dirExists).Ok?
    ensures var path := LogFilePath(fileName, directory, dirExists).value;
            var dir := WithSeparator(directory);
            && path[..|dir|] == dir
            && path[|dir|..|dir| + |fileName|] == fileName
            && path[|dir| + |fileName|..] == LOG_ENDING
  {
    var dir := WithSeparator(directory);
    var path := dir + (fileName + LOG_ENDING);
    assert path[|dir|..] == fileName + LOG_ENDING;
  }

  /** With the default directory the log goes to C:\temp\<name>.log. */
  lemma DefaultDirectoryPath(fileName: string, dirExists: string -> bool)
    requires fileName != "" && dirExists("C:\\temp\\")
    ensures LogFilePath(fileName, DEFAULT_PATH, dirExists) == Ok("C:\\temp\\" + fileName + ".log")
  {
    assert !EndsWith(DEFAULT_PATH, SEPARATOR);
    assert DEFAULT_PATH + SEPARATOR == "C:\\temp\\";
    assert "C:\\temp\\" + (fileName + LOG_ENDING) == "C:\\temp\\" + fileName + ".log";
  }

  // ---------------------------------------------------------------------------
  // Entries

  const ERROR_PREFIX: string := "ERROR - "
  const INFO_PREFIX: string := "INFO - "
  const WARN_PREFIX: string := "WARNING - "

  /** The four overloads of each logging method. */
  datatype Message =
    | Plain(text: string)
    | WithException(text: string, exception: string)
    | Format1(format: string, param1: string)
    | Format2(format: string, param1: string, param2: string)

  /** The text an overload writes after the prefix. */
  function Render(m: Message, format1: (string, string) -> string, format2: (string, string, string) -> string): (r: string)
    ensures m.Plain? ==> r == m.text
    ensures m.WithException? ==>
              && |r| == 21 + |m.text| + |m.exception|
              && r[..9] == "Message: " && r[9..9 + |m.text|] == m.text
              && r[9 + |m.text|..21 + |m.text|] == " Exception: "
              && r[|r| - |m.exception|..] == m.exception
  {
    match m
    case Plain(text) => text
    case WithException(text, exception) =>
      var r := "Message: " + text + " Exception: " + exception;
      assert r[..9] == "Message: ";
      assert r[9..9 + |text|] == text;
      assert r[9 + |text|..21 + |text|] == " Exception: ";
      assert r[|r| - |exception|..] == exception;
      r
    case Format1(format, p1) => format1(format, p1)
    case Format2(format, p1, p2) => format2(format, p1, p2)
  }

  /** One line of the log: "<time> - <prefix><text>". */
  function Entry(now: string, prefix: string, text: string): (r: string)
    ensures |r| == |now| + 3 + |prefix| + |text|
    ensures r[..|now|] == now && r[|now|..|now| + 3] == " - "
    ensures r[|now| + 3..|now| + 3 + |prefix|] == prefix && r[|now| + 3 + |prefix|..] == text
  {
    var r := now + " - " + prefix + text;
    assert r[|now| + 3..] == prefix + text;
    r
  }

  /**
    Entries of different kinds written at the same time never coincide, whatever
    their messages: the character after the time separator tells the kind.
  */
  lemma EntryKindsDiffer(now: string, a: string, b: string)
    ensures Entry(now, ERROR_PREFIX, a) != Entry(now, INFO_PREFIX, b)
    ensures Entry(now, ERROR_PREFIX, a) != Entry(now, WARN_PREFIX, b)
    ensures Entry(now, INFO_PREFIX, a) != Entry(now, WARN_PREFIX, b)
  {
    assert Entry(now, ERROR_PREFIX, a)[|now| + 3] == 'E';
    assert Entry(now, INFO_PREFIX, b)[|now| + 3] == 'I';
    assert Entry(now, WARN_PREFIX, b)[|now| + 3] == 'W';
    assert Entry(now, INFO_PREFIX, a)[|now| + 3] == 'I';
  }

  /** The file logger: its path, its enabled kinds and the lines it has appended. */
  class Logger {
    const info: LoggerInfo
    const logFilePath: string
    var file: seq<string>

    constructor (info: LoggerInfo, logFilePath: string)
      ensures this.info == info && this.logFilePath == logFilePath && file == []
    {
      this.info := info;
      this.logFilePath := logFilePath;
      file := [];
    }

    /** `new Logger(pLogFileName, pDirectory, pLogLevel)`, or the exception it throws. */
    static method Create(pLogFileName: string, pDirectory: string, pLogLevel: bv8, dirExists: string -> bool)
      returns (r: Result<Logger, LoggerError>)
      ensures r.Err? ==> LogFilePath(pLogFileName, pDirectory, dirExists) == Err(r.error)
      ensures r.Ok? ==>
                && fresh(r.value)
                && LogFilePath(pLogFileName, pDirectory, dirExists) == Ok(r.value.logFilePath)
                && r.value.info == NewLoggerInfo(pLogLevel) && r.value.file == []
    {
      var path := LogFilePath(pLogFileName, pDirectory, dirExists);
      if path.Err? {
        return Err(path.error);
      }
      var logger := new Logger(NewLoggerInfo(pLogLevel), path.value);
      return Ok(logger);
    }

    /** `Write`: one line appended, stamped with the time. */
    method Write(pMessage: string, now: string)
      modifies this
      ensures file == old(file) + [Entry(now, "", pMessage)]
    {
      assert now + " - " + pMessage == Entry(now, "", pMessage);
      file := file + [now + " - " + pMessage];
    }

    /** An error entry when errors are enabled, nothing otherwise. */
    method LogError(m: Message, now: string, format1: (string, string) -> string, format2: (string, string, string) -> string)
      modifies this
      ensures file == old(file) + (if info.errorEnabled then [Entry(now, ERROR_PREFIX, Render(m, format1, format2))] else [])
    {
      if !info.errorEnabled {
        return;
      }
      var text := Render(m, format1, format2);
      assert Entry(now, "", ERROR_PREFIX + text) == Entry(now, ERROR_PREFIX, text);
      Write(ERROR_PREFIX + text, now);
    }

    /** An info entry when info is enabled, nothing otherwise. */
    method LogInfo(m: Message, now: string, format1: (string, string) -> string, format2: (string, string, string) -> string)
      modifies this
      ensures file == old(file) + (if info.infoEnabled then [Entry(now, INFO_PREFIX, Render(m, format1, format2))] else [])
    {
      if !info.infoEnabled {
        return;
      }
      var text := Render(m, format1, format2);
      assert Entry(now, "", INFO_PREFIX + text) == Entry(now, INFO_PREFIX, text);
      Write(INFO_PREFIX + text, now);
    }

    /** A warning entry when warnings are enabled, nothing otherwise. */
    method LogWarning(m: Message, now: string, format1: (string, string) -> string, format2: (string, string, string) -> string)
      modifies this
      ensures file == old(file) + (if info.warningEnabled then [Entry(now, WARN_PREFIX, Render(m, format1, format2))] else [])
    {
      if !info.warningEnabled {
        return;
      }
      var text := Render(m, format1, format2);
      assert Entry(now, "", WARN_PREFIX + text) == Entry(now, WARN_PREFIX, text);
      Write(WARN_PREFIX + text, now);
    }
  }
}
