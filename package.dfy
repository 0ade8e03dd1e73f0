/**
 * logger_utils' `instantiate_logger`: configure one named logger in the
 * calling process. The logger's own level gates every record first; the
 * console handler then gates again on `level_console`; the file handler,
 * when there is one, has no level of its own. Every call adds handlers.
 */
module Package {
  import opened Wrappers
  import opened Levels
  import opened Records
  import opened ColourFormat
  import opened Logging

  const BASE_LOG_NAME: string := "record"
  const SUFFIX_LOG_NAME: string := "%Y-%m-%d.log"

  /** The defaults of `instantiate_logger`, for a given `log_path`. */
  function DefaultConfig(logPath: Option<string>): (c: SinkConfig)
    ensures c.levelLog == DEBUG && c.levelConsole == INFO && c.logPath == logPath
  {
    SinkConfig(logPath, DEBUG, PACKAGE_FORMAT, BASE_LOG_NAME, SUFFIX_LOG_NAME, ("midnight", 1),
               INFO, PACKAGE_FORMAT)
  }

  /**
   * `instantiate_logger(name, ...)` on the logger `getLogger(name)` returns:
   * set its level, then append a file handler (when a path is given) and a
   * console handler. Handlers from earlier calls stay.
   */
  method InstantiateLogger(logger: Logger, c: SinkConfig)
    modifies logger
    ensures logger.level == c.levelLog
    ensures logger.handlers == old(logger.handlers) + SinkHandlers(c)
    ensures |logger.handlers| == |old(logger.handlers)| + (if c.logPath.Some? then 2 else 1)
  {
    logger.level := c.levelLog;
    if c.logPath.Some? {
      logger.handlers := logger.handlers + [Handler(NOTSET, LogFileOf(c), Plain(c.formatLog))];
    }
    logger.handlers := logger.handlers + [Handler(c.levelConsole, Stderr, Coloured(c.formatConsole))];
  }

  /**
   * The first `instantiate_logger(name, ...)` for a name: `getLogger(name)`
   * creates the logger at NOTSET with no handlers, and the call leaves it at
   * `level_log` with exactly the configured handlers.
   */
  method InstantiateNewLogger(c: SinkConfig) returns (logger: Logger)
    ensures fresh(logger)
    ensures logger.level == c.levelLog && logger.handlers == SinkHandlers(c)
  {
    logger := new Logger();
    InstantiateLogger(logger, c);
  }

  function Max(a: int, b: int): int {
    if a < b then b else a
  }

  /**
   * The console of a freshly instantiated logger shows a record iff the
   * logger is enabled for its level (above the disable threshold and at least
   * the effective level) and it passes `level_console`; with a level other
   * than NOTSET that is `levelno > 0 && levelno >= max(level_log, level_console)`.
   */
  lemma InstantiatedConsole(c: SinkConfig, inherited: int, r: LogRecord)
    ensures LinesOn(Log(c.levelLog, inherited, SinkHandlers(c), r), Stderr)
      == if r.levelno > DISABLE && r.levelno >= EffectiveLevel(c.levelLog, inherited)
            && r.levelno >= c.levelConsole
         then [CustomFormat(c.formatConsole, r)] else []
    ensures c.levelLog != NOTSET ==>
      (LinesOn(Log(c.levelLog, inherited, SinkHandlers(c), r), Stderr) != []
       <==> r.levelno > DISABLE && r.levelno >= Max(c.levelLog, c.levelConsole))
  {
    SinkRouting(c, r);
  }

  /**
   * The file of a freshly instantiated logger receives a record iff a path was
   * given and the logger is enabled for the record's level (which also clears
   * NOTSET, the file handler's own level); no other file receives anything.
   */
  lemma InstantiatedFile(c: SinkConfig, inherited: int, r: LogRecord, dir: string, base: string)
    ensures LinesOn(Log(c.levelLog, inherited, SinkHandlers(c), r), LogFile(dir, base))
      == if c.logPath == Some(dir) && c.baseLogName == base
            && r.levelno > DISABLE && r.levelno >= EffectiveLevel(c.levelLog, inherited)
         then [Render(c.formatLog, r)] else []
  {
    SinkRouting(c, r);
  }

  /**
   * A second call with the same arguments leaves both handler sets in place,
   * so every record the console lets through is shown twice.
   */
  lemma RepeatedCallDuplicates(c: SinkConfig, inherited: int, r: LogRecord)
    ensures LinesOn(Log(c.levelLog, inherited, SinkHandlers(c) + SinkHandlers(c), r), Stderr)
      == LinesOn(Log(c.levelLog, inherited, SinkHandlers(c), r), Stderr)
         + LinesOn(Log(c.levelLog, inherited, SinkHandlers(c), r), Stderr)
  {
    if IsEnabledFor(c.levelLog, inherited, r.levelno) {
      CallHandlersAppend(SinkHandlers(c), SinkHandlers(c), r);
      LinesOnAppend(CallHandlers(SinkHandlers(c), r), CallHandlers(SinkHandlers(c), r), Stderr);
    }
  }

  /**
   * With the defaults and a log path, an INFO record reaches both the console
   * and the file while a DEBUG record reaches only the file.
   */
  lemma DefaultsWithLogPath(dir: string, inherited: int, info: LogRecord, debug: LogRecord)
    requires info.levelno == INFO && debug.levelno == DEBUG
    ensures LinesOn(Log(DEBUG, inherited, SinkHandlers(DefaultConfig(Some(dir))), info), Stderr)
      == [CustomFormat(PACKAGE_FORMAT, info)]
    ensures LinesOn(Log(DEBUG, inherited, SinkHandlers(DefaultConfig(Some(dir))), debug), Stderr) == []
    ensures LinesOn(Log(DEBUG, inherited, SinkHandlers(DefaultConfig(Some(dir))), info), LogFile(dir, BASE_LOG_NAME))
      == [Render(PACKAGE_FORMAT, info)]
    ensures LinesOn(Log(DEBUG, inherited, SinkHandlers(DefaultConfig(Some(dir))), debug), LogFile(dir, BASE_LOG_NAME))
      == [Render(PACKAGE_FORMAT, debug)]
  {
    var c := DefaultConfig(Some(dir));
    InstantiatedConsole(c, inherited, info);
    InstantiatedConsole(c, inherited, debug);
    InstantiatedFile(c, inherited, info, dir, BASE_LOG_NAME);
    InstantiatedFile(c, inherited, debug, dir, BASE_LOG_NAME);
  }
}
