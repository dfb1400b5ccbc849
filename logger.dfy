/**
 * Log level selection and logger start-up (src/ksana_llm/utils/logger.h). The
 * environment variables KLLM_LOG_LEVEL and KLLM_LOG_FILE are passed in as
 * optional strings (None: unset).
 */
module Logger {
  import opened Wrappers
  import opened Numerals

  /** The values of enum Level; a Level variable can hold any int by a cast. */
  const DEBUG: int := 0
  const INFO: int := 1
  const WARNING: int := 2
  const ERROR: int := 3
  const FATAL: int := 4

  const DEFAULT_LOG_LEVEL: string := "INFO"
  const DEFAULT_LOG_FILE: string := "log/ksana_llm.log"

  const LOG_NAME_TO_LEVEL: map<string, int> :=
    map["DEBUG" := DEBUG, "INFO" := INFO, "WARNING" := WARNING, "ERROR" := ERROR, "FATAL" := FATAL]

  /** The level named by KLLM_LOG_LEVEL; INFO when it is unset or names no level. */
  function GetLogLevel(env_log_level: Option<string>): (level: int)
    ensures DEBUG <= level <= FATAL
    ensures env_log_level.None? ==> level == INFO
    ensures env_log_level.Some? && env_log_level.value !in LOG_NAME_TO_LEVEL ==> level == INFO
  {
    var log_level_str := if env_log_level.Some? then env_log_level.value else DEFAULT_LOG_LEVEL;
    if log_level_str in LOG_NAME_TO_LEVEL then LOG_NAME_TO_LEVEL[log_level_str] else INFO
  }

  /** The log file named by KLLM_LOG_FILE, or log/ksana_llm.log when it is unset. */
  function GetLogFile(env_log_file: Option<string>): (file: string)
    ensures env_log_file.None? ==> file == DEFAULT_LOG_FILE
    ensures env_log_file.Some? ==> file == env_log_file.value
  {
    if env_log_file.Some? then env_log_file.value else DEFAULT_LOG_FILE
  }

  /** The name of a level; anything outside the enum is reported as "Invalid: <number>". */
  function GetLevelName(level: int): (name: string)
    ensures DEBUG <= level <= FATAL ==> name in LOG_NAME_TO_LEVEL && LOG_NAME_TO_LEVEL[name] == level
    ensures !(DEBUG <= level <= FATAL) ==> name == "Invalid: " + IntToString(level)
  {
    if level == DEBUG then "DEBUG"
    else if level == INFO then "INFO"
    else if level == WARNING then "WARNING"
    else if level == ERROR then "ERROR"
    else if level == FATAL then "FATAL"
    else "Invalid: " + IntToString(level)
  }

  /** Every level survives a trip through its name and the environment variable. */
  lemma LevelNameRoundTrip(level: int)
    requires DEBUG <= level <= FATAL
    ensures GetLogLevel(Some(GetLevelName(level))) == level
  {
  }

  /** Every accepted level name survives a trip through its level. */
  lemma LevelOfNameRoundTrip(name: string)
    requires name in LOG_NAME_TO_LEVEL
    ensures GetLevelName(GetLogLevel(Some(name))) == name
  {
  }

  /** Names of invalid levels never parse as a level name, so they read back as INFO. */
  lemma InvalidNameReadsAsInfo(level: int)
    requires !(DEBUG <= level <= FATAL)
    ensures GetLogLevel(Some(GetLevelName(level))) == INFO
  {
    var name := GetLevelName(level);
    assert name[0] == 'I' && |name| > 4 && name[4] == 'l';
    assert name !in LOG_NAME_TO_LEVEL by {
      assert name != "INFO" by { assert |name| != 4; }
    }
  }

  /** loguru's named verbosities (Verbosity_OFF ... Verbosity_MAX). */
  const VERBOSITY_OFF: int := -9
  const VERBOSITY_FATAL: int := -3
  const VERBOSITY_ERROR: int := -2
  const VERBOSITY_WARNING: int := -1
  const VERBOSITY_INFO: int := 0
  const VERBOSITY_MAX: int := 9

  /** The file verbosity InitLoguru derives from a level. */
  function Verbosity(log_level: int): (v: int)
    ensures log_level <= DEBUG ==> v == VERBOSITY_MAX
    ensures log_level == INFO ==> v == VERBOSITY_INFO
    ensures log_level == WARNING ==> v == VERBOSITY_WARNING
    ensures log_level == ERROR ==> v == VERBOSITY_ERROR
    ensures log_level == FATAL ==> v == VERBOSITY_FATAL
    ensures log_level > FATAL ==> v == VERBOSITY_MAX
  {
    var verbosity := VERBOSITY_MAX;
    if log_level <= DEBUG then VERBOSITY_MAX
    else if log_level == INFO then VERBOSITY_INFO
    else if log_level == WARNING then VERBOSITY_WARNING
    else if log_level == ERROR then VERBOSITY_ERROR
    else if log_level == FATAL then VERBOSITY_FATAL
    else verbosity
  }

  /** A more severe level never lets more messages through, across the whole enum. */
  lemma VerbosityNonIncreasing(a: int, b: int)
    requires a <= b <= FATAL
    ensures Verbosity(b) <= Verbosity(a)
  {
  }

  /** A log file loguru writes to, with the verbosity it was added with. */
  datatype LogSink = LogSink(path: string, append: bool, verbosity: int)

  /** The state InitLoguru touches: loguru's globals and the function-local once-flag. */
  class LoggerState {
    var stderr_verbosity: int
    var sinks: seq<LogSink>
    var initialized: bool

    constructor()
      ensures sinks == [] && !initialized && stderr_verbosity == VERBOSITY_INFO
    {
      stderr_verbosity := VERBOSITY_INFO;
      sinks := [];
      initialized := false;
    }

    /**
     * Turns stderr logging off and, on the first call only, adds the log file
     * in append mode with the verbosity of the configured level.
     */
    method InitLoguru(env_log_level: Option<string>, env_log_file: Option<string>)
      modifies this
      ensures initialized && stderr_verbosity == VERBOSITY_OFF
      ensures old(initialized) ==> sinks == old(sinks)
      ensures !old(initialized) ==>
        sinks == old(sinks) + [LogSink(GetLogFile(env_log_file), true, Verbosity(GetLogLevel(env_log_level)))]
    {
      var log_level := GetLogLevel(env_log_level);
      var verbosity := Verbosity(log_level);
      stderr_verbosity := VERBOSITY_OFF;
      if !initialized {
        sinks := sinks + [LogSink(GetLogFile(env_log_file), true, verbosity)];
        initialized := true;
      }
    }
  }

  /** A second initialisation adds no second file. */
  method InitTwiceAddsOneFile(log: LoggerState, level: Option<string>, file: Option<string>)
    requires !log.initialized && log.sinks == []
    modifies log
    ensures log.sinks == [LogSink(GetLogFile(file), true, Verbosity(GetLogLevel(level)))]
  {
    log.InitLoguru(level, file);
    log.InitLoguru(level, file);
  }

  /** The text ThrowRuntimeError raises: "<info> (<file>:<line>)". */
  function RuntimeErrorMessage(file: string, line: int, info: string): string
  {
    info + " (" + file + ":" + IntToString(line) + ")"
  }

  /** The error CheckAssert raises, if any: it raises exactly when result is false. */
  function CheckAssert(result: bool, file: string, line: int, info: string): (raised: Option<string>)
    ensures raised.Some? <==> !result
    ensures raised.Some? ==> IsInfix(info, raised.value) && IsInfix(file + ":" + IntToString(line), raised.value)
  {
    if !result then
      var where := file + ":" + IntToString(line);
      var m := info + " (" + where + ")";
      assert RuntimeErrorMessage(file, line, info) == m;
      assert OccursAt(info, m, 0) by { assert m[0..|info|] == info; }
      assert OccursAt(where, m, |info| + 2) by { assert m[|info| + 2..|info| + 2 + |where|] == where; }
      Some(RuntimeErrorMessage(file, line, info))
    else None
  }
}
