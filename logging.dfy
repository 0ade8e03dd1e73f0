/**
 * The part of Python's `logging` library the core is built on: handlers with
 * a level and a formatter, the handler list of a logger, the level a logger
 * lets through, and the two-sink handler set (optional rotating file, then
 * coloured console) that both the listener and `instantiate_logger` install.
 */
module Logging {
  import opened Wrappers
  import opened Levels
  import opened Records
  import opened ColourFormat

  /** Where a handler writes: standard error, a log file, or the shared queue. */
  datatype Sink = Stderr | LogFile(dir: string, base: string) | Queue

  /** `logging.Formatter(fmt)` or `CustomFormatter(fmt)`. */
  datatype Formatter = Plain(fmt: Format) | Coloured(fmt: Format)

  /** A handler's level defaults to NOTSET, which lets every record with `levelno >= 0` through. */
  datatype Handler = Handler(level: int, sink: Sink, formatter: Formatter)

  /** One effect of handling a record: a line written to a stream, or a record put on the queue. */
  datatype Output = Line(sink: Sink, text: string) | Enqueued(record: LogRecord)

  function FormatWith(f: Formatter, r: LogRecord): string {
    match f
    case Plain(fmt) => Render(fmt, r)
    case Coloured(fmt) => CustomFormat(fmt, r)
  }

  /**
   * `Handler.handle` as reached from `Logger.callHandlers`, which first gates on
   * `record.levelno >= hdlr.level`. A `QueueHandler` puts the record itself
   * (its message already merged) on the queue.
   */
  function Emit(h: Handler, r: LogRecord): (out: seq<Output>)
    ensures |out| <= 1
    ensures out != [] <==> r.levelno >= h.level
  {
    if r.levelno < h.level then []
    else if h.sink == Queue then [Enqueued(r)]
    else [Line(h.sink, FormatWith(h.formatter, r))]
  }

  /** `Logger.callHandlers`: every handler in list order. */
  function CallHandlers(hs: seq<Handler>, r: LogRecord): seq<Output> {
    if hs == [] then [] else Emit(hs[0], r) + CallHandlers(hs[1..], r)
  }

  /** What a handler does with a record it accepts: write it formatted to its stream, or queue it. */
  function Deliver(h: Handler, r: LogRecord): Output {
    if h.sink == Queue then Enqueued(r) else Line(h.sink, FormatWith(h.formatter, r))
  }

  /** The handlers of `hs` whose level lets `levelno` through, in list order. */
  function Accepting(hs: seq<Handler>, levelno: int): (a: seq<Handler>)
    ensures |a| <= |hs|
    ensures forall i :: 0 <= i < |a| ==> a[i] in hs && levelno >= a[i].level
    ensures forall i :: 0 <= i < |hs| && levelno >= hs[i].level ==> hs[i] in a
  {
    if hs == [] then []
    else
      var rest := Accepting(hs[1..], levelno);
      assert forall i :: 0 <= i < |rest| ==> rest[i] in hs by {
        forall i | 0 <= i < |rest| ensures rest[i] in hs {
          assert rest[i] in hs[1..];
        }
      }
      assert forall i :: 1 <= i < |hs| ==> hs[i] == hs[1..][i - 1];
      (if levelno >= hs[0].level then [hs[0]] else []) + rest
  }

  /** The deliveries of a list of handlers, one per handler, in order. */
  function Deliveries(hs: seq<Handler>, r: LogRecord): (out: seq<Output>)
    ensures |out| == |hs| && forall i :: 0 <= i < |hs| ==> out[i] == Deliver(hs[i], r)
  {
    seq(|hs|, i requires 0 <= i < |hs| => Deliver(hs[i], r))
  }

  /**
   * `callHandlers` is: keep the handlers whose level the record reaches, then
   * let each of them deliver it, in list order.
   */
  lemma {:induction false} CallHandlersFilter(hs: seq<Handler>, r: LogRecord)
    ensures CallHandlers(hs, r) == Deliveries(Accepting(hs, r.levelno), r)
  {
    if hs != [] {
      CallHandlersFilter(hs[1..], r);
      var rest := Accepting(hs[1..], r.levelno);
      var head := if r.levelno >= hs[0].level then [hs[0]] else [];
      assert Accepting(hs, r.levelno) == head + rest;
      EmitDelivers(hs[0], r);
      DeliveriesAppend(head, rest, r);
    }
  }

  /** A single handler's output is its delivery when it accepts the record, and nothing otherwise. */
  lemma EmitDelivers(h: Handler, r: LogRecord)
    ensures Emit(h, r) == Deliveries(if r.levelno >= h.level then [h] else [], r)
  {
  }

  lemma DeliveriesAppend(a: seq<Handler>, b: seq<Handler>, r: LogRecord)
    ensures Deliveries(a + b, r) == Deliveries(a, r) + Deliveries(b, r)
  {
  }

  /** `Logger.getEffectiveLevel`: a logger left at NOTSET takes the level of its ancestors. */
  function EffectiveLevel(own: int, inherited: int): (e: int)
    ensures own != NOTSET ==> e == own
  {
    if own != NOTSET then own else inherited
  }

  /**
   * The `logging.disable` threshold (`manager.disable`), 0 unless a program
   * calls `logging.disable`: `isEnabledFor` refuses every level at or below it.
   */
  const DISABLE: int := 0

  /** `Logger.isEnabledFor(levelno)`: above the disable threshold and at least the effective level. */
  predicate IsEnabledFor(level: int, inherited: int, levelno: int) {
    levelno > DISABLE && levelno >= EffectiveLevel(level, inherited)
  }

  /**
   * `Logger.log(levelno, ...)` on a logger with level `level` whose ancestors
   * have effective level `inherited`: a record the logger is not enabled for
   * is never created; otherwise it goes to the logger's handlers.
   */
  function Log(level: int, inherited: int, hs: seq<Handler>, r: LogRecord): (out: seq<Output>)
    ensures r.levelno <= DISABLE || r.levelno < EffectiveLevel(level, inherited) ==> out == []
    ensures r.levelno > DISABLE && r.levelno >= EffectiveLevel(level, inherited) ==> out == CallHandlers(hs, r)
  {
    if IsEnabledFor(level, inherited, r.levelno) then CallHandlers(hs, r) else []
  }

  /** The line one output writes to sink `s`, if any. */
  function LineOn(o: Output, s: Sink): seq<string> {
    if o.Line? && o.sink == s then [o.text] else []
  }

  /** The lines written to one sink, in order. */
  function LinesOn(out: seq<Output>, s: Sink): seq<string> {
    if out == [] then [] else LineOn(out[0], s) + LinesOn(out[1..], s)
  }

  /** The record one output puts on the queue, if any. */
  function QueuedBy(o: Output): seq<LogRecord> {
    if o.Enqueued? then [o.record] else []
  }

  /** The records put on the queue, in order. */
  function Queued(out: seq<Output>): seq<LogRecord> {
    if out == [] then [] else QueuedBy(out[0]) + Queued(out[1..])
  }

  /** Handling a record with two handler lists one after the other is handling it with their join. */
  lemma {:induction false} CallHandlersAppend(a: seq<Handler>, b: seq<Handler>, r: LogRecord)
    ensures CallHandlers(a + b, r) == CallHandlers(a, r) + CallHandlers(b, r)
  {
    if a == [] {
      assert a + b == b;
    } else {
      assert (a + b)[1..] == a[1..] + b;
      CallHandlersAppend(a[1..], b, r);
    }
  }

  /** A sink's lines of joined outputs are the two runs of lines, in order. */
  lemma {:induction false} LinesOnAppend(a: seq<Output>, b: seq<Output>, s: Sink)
    ensures LinesOn(a + b, s) == LinesOn(a, s) + LinesOn(b, s)
  {
    if a == [] {
      assert a + b == b;
    } else {
      assert (a + b)[0] == a[0];
      assert (a + b)[1..] == a[1..] + b;
      LinesOnAppend(a[1..], b, s);
    }
  }

  /** The queued records of joined outputs are the two runs of records, in order. */
  lemma {:induction false} QueuedAppend(a: seq<Output>, b: seq<Output>)
    ensures Queued(a + b) == Queued(a) + Queued(b)
  {
    if a == [] {
      assert a + b == b;
    } else {
      assert (a + b)[0] == a[0];
      assert (a + b)[1..] == a[1..] + b;
      QueuedAppend(a[1..], b);
    }
  }

  /**
   * The sink configuration shared by `MultiProcessLogger` and
   * `instantiate_logger`. `rotatePeriod` is `(when, interval)` of
   * `TimedRotatingFileHandler`; it and the suffix are carried but not modelled.
   */
  datatype SinkConfig = SinkConfig(
    logPath: Option<string>,
    levelLog: int,
    formatLog: Format,
    baseLogName: string,
    suffixLogName: string,
    rotatePeriod: (string, int),
    levelConsole: int,
    formatConsole: Format)

  /** The file named by a configuration: `<log_path>/<base_log_name>`. */
  function LogFileOf(c: SinkConfig): Sink
    requires c.logPath.Some?
  {
    LogFile(c.logPath.value, c.baseLogName)
  }

  /**
   * The handlers both configurers add, in the order they add them: a rotating
   * file handler left at level NOTSET with a plain formatter when a path is
   * given, then a console handler at `levelConsole` with the colour formatter.
   */
  function SinkHandlers(c: SinkConfig): (hs: seq<Handler>)
    ensures |hs| == if c.logPath.Some? then 2 else 1
  {
    (if c.logPath.Some? then [Handler(NOTSET, LogFileOf(c), Plain(c.formatLog))] else [])
    + [Handler(c.levelConsole, Stderr, Coloured(c.formatConsole))]
  }

  /**
   * Routing through the two sinks: a record reaches the console iff its level
   * is at least `levelConsole`, rendered with the colour table; it reaches the
   * configured file iff a path was given and its level is at least NOTSET
   * (the file handler has no level of its own), rendered with `formatLog`; no
   * other file and nothing on the queue.
   */
  lemma SinkRouting(c: SinkConfig, r: LogRecord)
    ensures LinesOn(CallHandlers(SinkHandlers(c), r), Stderr)
      == if r.levelno >= c.levelConsole then [CustomFormat(c.formatConsole, r)] else []
    ensures forall dir, base ::
      LinesOn(CallHandlers(SinkHandlers(c), r), LogFile(dir, base))
        == if c.logPath == Some(dir) && c.baseLogName == base && r.levelno >= NOTSET
           then [Render(c.formatLog, r)] else []
    ensures Queued(CallHandlers(SinkHandlers(c), r)) == []
  {
    var console := Handler(c.levelConsole, Stderr, Coloured(c.formatConsole));
    var cOut := CallHandlers([console], r);
    OneHandler(console, r, Stderr);
    if c.logPath.Some? {
      var file := Handler(NOTSET, LogFileOf(c), Plain(c.formatLog));
      var fOut := CallHandlers([file], r);
      assert SinkHandlers(c) == [file] + [console];
      CallHandlersAppend([file], [console], r);
      forall dir, base
        ensures LinesOn(fOut + cOut, LogFile(dir, base))
          == if c.logPath == Some(dir) && c.baseLogName == base && r.levelno >= NOTSET
             then [Render(c.formatLog, r)] else []
      {
        OneHandler(file, r, LogFile(dir, base));
        OneHandler(console, r, LogFile(dir, base));
        LinesOnAppend(fOut, cOut, LogFile(dir, base));
      }
      OneHandler(file, r, Stderr);
      LinesOnAppend(fOut, cOut, Stderr);
      QueuedAppend(fOut, cOut);
    } else {
      assert SinkHandlers(c) == [console];
      forall dir, base
        ensures LinesOn(cOut, LogFile(dir, base)) == []
      {
        OneHandler(console, r, LogFile(dir, base));
      }
    }
  }

  /** What a single handler writes to sink `s` and puts on the queue. */
  lemma OneHandler(h: Handler, r: LogRecord, s: Sink)
    ensures LinesOn(CallHandlers([h], r), s)
      == if r.levelno >= h.level && h.sink == s && s != Queue then [FormatWith(h.formatter, r)] else []
    ensures Queued(CallHandlers([h], r))
      == if r.levelno >= h.level && h.sink == Queue then [r] else []
  {
    var out := CallHandlers([h], r);
    assert out == Emit(h, r) + CallHandlers([], r) by { assert [h][1..] == []; }
    assert out == Emit(h, r);
    if out != [] {
      assert out[1..] == [];
    }
  }

  /** A logger object: its own level and its handler list (`logging.getLogger(name)`). */
  class Logger {
    var level: int
    var handlers: seq<Handler>

    /**
     * A named logger the program has not configured: level NOTSET, so it
     * defers to its ancestors, and no handlers.
     */
    constructor ()
      ensures level == NOTSET && handlers == []
    {
      level := NOTSET;
      handlers := [];
    }

    /**
     * The root logger of a fresh process (`logging.getLogger()`): level
     * WARNING and no handlers. The configurers overwrite the level.
     */
    constructor Root()
      ensures level == WARNING && handlers == []
    {
      level := WARNING;
      handlers := [];
    }
  }
}
