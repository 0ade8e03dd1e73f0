# haplog logging core, modelled in Dafny

haplog routes Python `logging` records from many producer processes through one
queue to a single listener. The listener writes them to a coloured console on
stderr and, when a log path is given, to a rotating file. Next to it sits
`OutputLogger`, a file-like object that turns redirected `print` output into log
records one line at a time. The older `logger_utils` package has the same adapter
and colour formatter, plus `instantiate_logger`, which configures one named logger
in the calling process.

The model has these modules:

- `Levels`: the numeric levels (DEBUG=10 … CRITICAL=50) and their names.
- `Text`: Python's `str.rstrip`, `%-Ns` padding and `str.endswith("\n")`.
- `Records`: the log record, and the fixed templates as sequences of literal
  and `%(field)s` pieces. It covers both default `LOGGING_FORMAT`s.
- `ColourFormat`: `CustomFormatter`'s level→coloured-template table and its
  `format`.
- `Logging`: the `logging` library behaviour the core depends on. It covers handler
  levels, `callHandlers`, logger levels and the effective level, and the handler
  pair that both configurers install (file, then console).
- `OutputLogging`: the `OutputLogger` class. `Run` is the pure meaning of a
  history of writes; the class invariant ties `linebuf` and the log calls made
  so far to `Run`.
- `Haplog`: `MultiProcessLogger` (queue, listener configurer, listener loop,
  `start`, `join`) and the producer side (`worker_configurer`). Everything runs
  as one sequential schedule.
- `Package`: `instantiate_logger` and its two-stage level gate.

Both source files define the same `OutputLogger` and `CustomFormatter`, so each
is modelled once. The rows below cite either copy.

Two points about what the code does, which the model follows:

- `write` calls only `rstrip()`, so leading whitespace in a message is kept.
- `level_log` is stored but never applied in haplog. The listener's file
  handler is left at NOTSET, and the listener calls `Logger.handle`, which does
  not check the logger's level. So the file gets every handled record with
  `levelno >= 0`.

Library details kept exactly as Python behaves:

- A handler without a level is at NOTSET (0). `callHandlers` gates on
  `levelno >= handler.level`.
- `CustomFormatter.format` on a level outside the table uses
  `logging.Formatter(None)`, which renders the bare message.
- A logger left at NOTSET takes its ancestors' level. `Log` gets that level as
  `inherited`.
- A logger call is enabled only when `levelno` exceeds the library-wide
  `logging.disable` threshold, 0 by default (`DISABLE`), and reaches the
  logger's effective level. A record at NOTSET or below is dropped by every
  logger. The listener's `Logger.handle` checks neither threshold.
- The root logger starts at WARNING, and its records are named "root".
  `getLogger("")` is the root logger, so an adapter on the empty name logs
  records named "root".

The listener hands each record to `logging.getLogger(record.name).handle`. In
the listener process that logger has no handlers of its own, so the record
reaches the root logger's handlers by propagation. The model hands it to the
root handlers directly.

`MultiProcessLogger` tracks its listener `Process` as Created, Running or
Exited. `start` on a listener that was started before raises, and the model
returns `ok == false` with nothing changed. `join` puts its sentinel first.
Then it raises when the listener was never started (`ok == false`). On an
exited listener it returns at once. So a sentinel put after the
listener has exited stays on the queue.

An item on the queue is a record, the `None` sentinel, or `Junk`: an object
that is not a record. Handling `Junk` raises, so the listener prints the "Oops!"
line on stderr and carries on, which is the `except Exception` branch.

## Model

| member | source | states |
|---|---|---|
| `Levels.LevelName` | haplog/logger_utils.py:11 | the `%(levelname)s` value: the five standard names have 4 to 8 characters; NOTSET is named "NOTSET"; any other level is "Level " followed by `IntToString` of the level, which reads back as the level |
| `Levels.NatToStringValue` | haplog/logger_utils.py:11 | the decimal digits `NatToString` writes for a natural number read back as that number |
| `Levels.NatToStringNoLeadingZero` | haplog/logger_utils.py:11 | the digits written for a natural number have no leading zero: a number of two or more digits does not start with "0", and one below 10 is its single digit |
| `Levels.IntToStringValue` | haplog/logger_utils.py:11 | `IntToString`, the number in an unregistered level's name, reads back as the level: a minus sign and the magnitude's digits for a negative one, its digits otherwise |
| `Text.RStrip` | haplog/logger_utils.py:85 | `rstrip()` returns a prefix of its input that does not end in whitespace, and everything it removes is whitespace (`IsSpace`) |
| `Text.RStripUnique` | python-package/logger_utils/logger_utils.py:111 | any prefix with those three properties is the `rstrip` result, so they define it |
| `Text.RStripIdempotent` | haplog/logger_utils.py:85 | stripping an already-stripped message changes nothing |
| `Text.RStripTrailingSpace` | haplog/logger_utils.py:85 | whitespace appended after a line that ends in a non-space is exactly what `rstrip` removes |
| `Text.PadRight` | haplog/logger_utils.py:11 | `%-8s` gives width max(8, len); the text comes first, then only spaces |
| `Records.RecordName` | haplog/logger_utils.py:72 | the record name of a logger: the logger's own name when that is non-empty; "root" for the empty name, which `getLogger` maps to the root logger |
| `Records.RenderAppend` | haplog/logger_utils.py:59-60 | `Render`, the template applied to a record: rendering a joined template is rendering each part, in order |
| `Records.MessageOnlyRendersMessage` | haplog/logger_utils.py:58-59 | the fallback template `%(message)s` renders the bare message |
| `Records.PaddedLevelNameWidth` | haplog/logger_utils.py:11 | every standard level name pads to exactly 8 characters and keeps its name in front |
| `Records.PaddedLevelNames` | haplog/logger_utils.py:11 | the padded names are "DEBUG   ", "INFO    ", "WARNING ", "ERROR   ", "CRITICAL" |
| `Records.HaplogFormatLayout` | haplog/logger_utils.py:10-12 | the haplog default renders as time, padded level, "[name]", file, " - ", function, "() : ", message |
| `Records.PackageFormatLayout` | python-package/logger_utils/logger_utils.py:6 | the logger_utils default is the same layout without the logger name |
| `ColourFormat.Formats` | haplog/logger_utils.py:49-55 | the table has exactly the keys DEBUG, INFO, WARNING, ERROR and CRITICAL; each value is colour ++ template ++ reset |
| `ColourFormat.Template` | haplog/logger_utils.py:58 | the `.get` lookup finds a template iff the level is one of the five |
| `ColourFormat.ColoursDistinct` | haplog/logger_utils.py:34-42 | two different levels never share a colour |
| `ColourFormat.CustomFormatSpec` | haplog/logger_utils.py:57-60 | `CustomFormat`, the formatter's `format`: a standard-level record is colour + rendered template + reset; any other level gives the bare message |
| `ColourFormat.HaplogConsoleLine` | tests/test_multi_process_logger.py:123-125 | an INFO record renders as green + time + " INFO     [test_logger] file - func() : msg" + reset |
| `ColourFormat.PackageConsoleLine` | tests/test_instantiate_logger.py:18 | the logger_utils INFO line is green, time, " ", "INFO    ", " ", "test_instantiate_logger.py", " - ", "test_console_info", "() : ", "test", reset: the line the test looks for |
| `Logging.Emit` | haplog/logger_utils.py:151-152 | a handler produces one output iff the record's level is at least the handler's level, and none otherwise |
| `Logging.EffectiveLevel` | python-package/logger_utils/logger_utils.py:70-71 | a logger with a level other than NOTSET gates on that level |
| `Logging.Log` | python-package/logger_utils/logger_utils.py:70-71 | a call at `levelno` reaches no handler when `levelno` is at most the disable threshold (0) or below the effective level; otherwise it reaches every handler as `CallHandlers` says |
| `Logging.CallHandlersFilter` | haplog/logger_utils.py:163-164 | `CallHandlers` is the same as taking the handlers whose level the record reaches, in their order, and delivering the record to each: a queue handler queues it, any other writes it formatted to its sink |
| `Logging.CallHandlersAppend` | python-package/logger_utils/logger_utils.py:81-87 | handlers appended after earlier ones act after them, and the earlier ones still act |
| `Logging.LinesOnAppend` | haplog/logger_utils.py:158-164 | a sink keeps its lines in the order they were produced |
| `Logging.QueuedAppend` | haplog/logger_utils.py:190-192 | the queue keeps records in the order they were put |
| `Logging.OneHandler` | haplog/logger_utils.py:151-153 | a single handler writes one formatted line to its own stream iff the record passes its level, and nothing to any other sink; a queue handler queues the record itself |
| `Logging.SinkHandlers` | haplog/logger_utils.py:134-154 | two handlers with a log path, one without |
| `Logging.SinkRouting` | haplog/logger_utils.py:138-154 | console iff levelno >= level_console, colour formatted; the configured file iff a path is given and levelno >= NOTSET, plain formatted; no other file; nothing queued |
| `Logging.Logger.constructor` | python-package/logger_utils/logger_utils.py:70 | a logger not yet configured is at NOTSET with no handlers |
| `Logging.Logger.Root` | haplog/logger_utils.py:135 | the root logger, before anything is configured, is at WARNING with no handlers |
| `OutputLogging.Run` | haplog/logger_utils.py:81-89 | over any history of writes: the raw lines joined, then the pending buffer, equal everything written; one line per fragment that `EndsWithNewline`; each line ends in "\n"; the buffer is empty after such a fragment |
| `OutputLogging.RunSnoc` | python-package/logger_utils/logger_utils.py:108-114 | one more write either emits buffer + fragment and empties the buffer, or only extends the buffer |
| `OutputLogging.RunOne` | haplog/logger_utils.py:81-89 | one write to a fresh adapter is one raw line if it ends in a newline, otherwise only buffered |
| `OutputLogging.RunJoinedLine` | haplog/logger_utils.py:81-89 | an unterminated write followed by a terminated one is a single raw line, the two joined |
| `OutputLogging.RunTwoLines` | haplog/logger_utils.py:81-89 | two terminated writes are two raw lines, in order, with nothing pending |
| `OutputLogging.PrintLogsOneLine` | tests/test_output_logger.py:22-25 | `print("test")` writes "test" then "\n" and logs exactly ["test"] |
| `OutputLogging.InnerNewlineDoesNotSplit` | haplog/logger_utils.py:81-82 | "a\nb" then "c\n" log the single message "a\nbc" |
| `OutputLogging.TwoLinesInOrder` | python-package/logger_utils/logger_utils.py:103-114 | two terminated writes log two messages, in order, with leading whitespace kept |
| `OutputLogging.TrailingPartialStays` | python-package/logger_utils/logger_utils.py:116-120 | a trailing fragment without "\n" is never logged and stays in the buffer |
| `OutputLogging.OutputLogger.constructor` | haplog/logger_utils.py:71-74 | a fresh adapter has an empty buffer and has logged nothing |
| `OutputLogging.OutputLogger.Write` | haplog/logger_utils.py:72-89 | append; on a fragment ending in "\n", log rstrip(buffer + fragment) at the adapter's level, on the adapter's logger ("root" for the empty name), and clear the buffer; otherwise log nothing; the class invariant is kept |
| `OutputLogging.OutputLogger.Flush` | haplog/logger_utils.py:91-95 | changes nothing |
| `Haplog.DefaultConfig` | haplog/logger_utils.py:107-119 | the defaults are level_log DEBUG and level_console INFO |
| `Haplog.Handled` | haplog/logger_utils.py:158-162 | the handled items are the FIFO prefix in front of the first sentinel; nothing behind it is handled |
| `Haplog.HandledUpTo` | haplog/logger_utils.py:181-183 | once `join` puts its sentinel behind a queue with no sentinel, every queued item is handled |
| `Haplog.LoopExit` | haplog/logger_utils.py:158-162 | the loop stops right after the first sentinel, or has handled the whole queue when it holds none |
| `Haplog.PopFront` | haplog/logger_utils.py:160-162 | taking the front of the queue either meets the first sentinel or adds one more item to the handled prefix |
| `Haplog.DrainSnoc` | haplog/logger_utils.py:163-164 | `Drain`, the listener's output for a run of items: handling one more item appends that item's output |
| `Haplog.DrainAppend` | haplog/logger_utils.py:158-164 | `Drain` of two queue segments in turn writes their outputs in turn |
| `Haplog.ItemRouting` | haplog/logger_utils.py:160-175 | `HandleItem` with the installed handlers: a record is routed as the two sinks say, a non-record gives only the error line on stderr, the sentinel writes nothing |
| `Haplog.JunkRouting` | haplog/logger_utils.py:167-175 | an item that is not a record writes the "Oops!" line to stderr and nothing to any other sink |
| `Haplog.ListenerRouting` | haplog/logger_utils.py:156-176 | with the installed handlers, stderr gets exactly the console view and the configured file exactly the file view, in dequeue order; no other file gets anything |
| `Haplog.EveryRecordShownOnce` | tests/test_multi_process_logger.py:174-180 | n records at or above level_console give exactly n identical console lines |
| `Haplog.JoinShowsEveryRecord` | haplog/logger_utils.py:181-183 | n identical records at or above level_console (and NOTSET) followed by join's sentinel give n identical console lines, and, when a path is given, n identical plain lines in the file |
| `Haplog.EveryRecordFiledOnce` | haplog/logger_utils.py:138-148 | with a log path, n identical records are n identical plain-formatted lines in the file, at any level from NOTSET (0) up; level_log plays no part |
| `Haplog.WorkerGate` | haplog/logger_utils.py:186-194 | a worker-configured root puts a record on the queue, unchanged, iff levelno > 0 (the disable threshold) and levelno >= worker_level, and writes nothing else |
| `Haplog.QueuedBeforeJoinHandled` | haplog/logger_utils.py:181-183 | records queued before join's sentinel are all handled, in order, and nothing put after the sentinel is |
| `Haplog.WorkerConfigurer` | haplog/logger_utils.py:186-194 | adds one queue handler after the existing ones and sets the root level to worker_level |
| `Haplog.ConfiguredWorkerRoot` | haplog/logger_utils.py:186-194 | a producer's fresh root logger (WARNING, no handlers) after `worker_configurer` holds exactly the queue handler and is at worker_level |
| `Haplog.ProducerLog` | haplog/logger_utils.py:190-194 | a producer's log call appends to the shared queue exactly what its root's handlers queue |
| `Haplog.MultiProcessLogger.constructor` | haplog/logger_utils.py:107-132 | stores the configuration; the listener is created but not started, the queue is empty, nothing is installed and nothing is written |
| `Haplog.MultiProcessLogger.ListenerConfigurer` | haplog/logger_utils.py:134-154 | appends the file handler, if there is a path, and then the console handler |
| `Haplog.MultiProcessLogger.Start` | haplog/logger_utils.py:178-179 | succeeds iff the listener was never started; then it runs and has installed its handlers first; a second start changes nothing |
| `Haplog.MultiProcessLogger.Put` | haplog/logger_utils.py:182 | enqueueing appends the item at the back |
| `Haplog.MultiProcessLogger.ListenerLoop` | haplog/logger_utils.py:156-176 | appends the output of the handled prefix; stops iff a sentinel was queued; leaves exactly the items behind it |
| `Haplog.MultiProcessLogger.Join` | haplog/logger_utils.py:181-183 | always puts one sentinel; fails iff the listener was never started; on a running listener it handles the prefix before the first sentinel and exits, leaving on the queue exactly what was behind that sentinel, join's own included, and when none was queued before, everything queued is handled and the queue ends empty; otherwise nothing is handled and the sentinel stays |
| `Package.DefaultConfig` | python-package/logger_utils/logger_utils.py:50-61 | the defaults are level_log DEBUG and level_console INFO |
| `Package.InstantiateLogger` | python-package/logger_utils/logger_utils.py:50-87 | sets the logger's level; keeps the old handlers and appends 2 with a path, 1 without |
| `Package.InstantiateNewLogger` | python-package/logger_utils/logger_utils.py:69-87 | the first call for a name leaves the new logger at level_log with exactly the configured handlers, file first when a path is given |
| `Package.InstantiatedConsole` | python-package/logger_utils/logger_utils.py:84-87 | the console shows a record iff levelno > 0 (the disable threshold), it passes the effective level and it passes level_console, which, when level_log is not NOTSET, is levelno > 0 and levelno >= max(level_log, level_console) |
| `Package.InstantiatedFile` | python-package/logger_utils/logger_utils.py:74-81 | the file gets a record iff a path is given, levelno > 0 and it passes the effective level; no other file gets anything |
| `Package.RepeatedCallDuplicates` | python-package/logger_utils/logger_utils.py:81-87 | after a second identical call every console line appears twice |
| `Package.DefaultsWithLogPath` | tests/test_instantiate_logger.py:43-60 | with the defaults, INFO reaches console and file, and DEBUG reaches only the file |

## Left out

- The processes: the `Manager().Queue`, the listener `Process` and the worker
  processes run concurrently in the source. Here one sequential schedule stands
  for them: `Start` configures the listener, producers `Put` onto a sequence,
  and `Join` puts the sentinel and runs the listener loop.
- `Haplog.MultiProcessLogger.ListenerLoop`: when the queue empties without a
  sentinel, the model returns `stopped == false`. The real `get()` would block
  there and wait for more items.
- `OutputLogging.OutputLogger.Write`: `emitted` records the `logger.log`
  calls. Whether the logger's level then lets each call through is `Log`'s
  concern and is not applied to `emitted`.
- `logging.disable` is fixed at its default of 0. Raising it is not modelled.
- `Haplog.MultiProcessLogger.Join`: a running listener drains the queue inside
  `Join`. In the source it drains concurrently from the moment it starts.
- The handlers the listener process inherits. Under the fork start method the
  listener copies the parent's logging configuration at `start()`, including
  any handlers already on the parent's root. The model starts the listener's
  root with no handlers of its own.
- The `BrokenPipeError` branch of `listener_process`. It calls `join()` from
  inside the listener, and what it does depends on multiprocessing internals.
- The traceback printed after the "Oops!" line. Its text comes from the runtime.
- `TimedRotatingFileHandler` rotation, the suffix, path resolution and the file
  encoding. These depend on time and the filesystem. A file is one append-only
  sink named by directory and base name.
- The caller attribution done with `stacklevel=2`, `asctime` and the clock. The
  file name, function name and time come in as parts of the record, or as the
  `CallSite` argument of `Write`.
- Templates as strings. `%`-format parsing is not modelled: a template is
  already a sequence of pieces.
- The colorama initialisation on Windows.
- Ancestor handlers, propagation flags, filters, `disabled` loggers and
  `lastResort`. A logger's own handler list is all that is modelled.
- Messages with `%` arguments. The `message` field holds the merged text.
- Exception and stack info on records.
- Identity of queues and logger objects beyond the one queue and logger passed
  in.
- Python's default arguments. Each `DefaultConfig` function and the comments
  give the defaults; the constructors take every argument explicitly.
