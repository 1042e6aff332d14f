/**
 * The API server's construction: it keeps its configuration and database
 * handle and builds a text logger at the level named by `LOG_LEVEL`.
 * Level values are those of Go's `log/slog`.
 */
module ApiServer {
  import opened Wrappers
  import Storage

  /** `slog.Level`: an integer, more verbose levels being smaller. */
  newtype Level = int

  const LevelDebug: Level := -4
  const LevelInfo: Level := 0
  const LevelWarn: Level := 4
  const LevelError: Level := 8

  /** The value of a `slog.Level` variable nobody has assigned. */
  const ZeroLevel: Level := 0

  /** The names the level switch recognises. */
  predicate KnownLevelName(name: string) {
    name == "debug" || name == "" || name == "info" || name == "warn" || name == "error"
  }

  /** The environment-sourced settings of the server. */
  datatype Config = Config(
    bindAddr: string,
    dbName: string,
    dbUser: string,
    dbPass: string,
    dbHost: string,
    dbPort: string,
    logLevel: string)

  /** A logger writing text records; only its minimum level is modelled. */
  datatype Logger = Logger(level: Level)

  /**
   * The level switch of `NewLogger`: "debug" and "" select Debug, "info",
   * "warn" and "error" their own levels, and any other name (matching is
   * exact, so case matters) leaves the level at its zero value.
   */
  function SelectLevel(logLevel: string): (level: Level)
    ensures level == LevelDebug <==> logLevel == "debug" || logLevel == ""
    ensures level == LevelWarn <==> logLevel == "warn"
    ensures level == LevelError <==> logLevel == "error"
    ensures level == LevelInfo <==> logLevel == "info" || !KnownLevelName(logLevel)
  {
    if logLevel == "debug" || logLevel == "" then LevelDebug
    else if logLevel == "info" then LevelInfo
    else if logLevel == "warn" then LevelWarn
    else if logLevel == "error" then LevelError
    else ZeroLevel
  }

  /** An unrecognised name gets the zero value, which is the Info level. */
  lemma UnknownNameIsInfo(logLevel: string)
    requires !KnownLevelName(logLevel)
    ensures SelectLevel(logLevel) == ZeroLevel == LevelInfo
  {
  }

  /** Names are matched exactly: an upper-case "DEBUG" is not Debug but the default. */
  lemma UpperCaseIsNotRecognised()
    ensures SelectLevel("DEBUG") == LevelInfo
    ensures SelectLevel("Error") == LevelInfo
  {
  }

  class APIServer {
    var config: Config
    var database: Storage.TaskTable
    var logger: Option<Logger>

    /** `New`: keep the configuration and database, then build the logger from the configured level. */
    constructor New(config: Config, database: Storage.TaskTable)
      ensures this.config == config && this.database == database
      ensures logger == Some(Logger(SelectLevel(config.logLevel)))
    {
      this.config := config;
      this.database := database;
      this.logger := None;
      new;
      NewLogger(config.logLevel);
    }

    /** `NewLogger`: replace the logger by one at the level `logLevel` selects. */
    method NewLogger(logLevel: string)
      modifies this`logger
      ensures logger == Some(Logger(SelectLevel(logLevel)))
    {
      var level := SelectLevel(logLevel);
      logger := Some(Logger(level));
    }
  }
}
