/**
 * haplog's `MultiProcessLogger`, run sequentially: producers put records on
 * one queue, and a listener takes items off it in FIFO order, routes each
 * record through its root logger's handlers (an optional rotating file and
 * the coloured console) and stops at the first `None` sentinel put there by
 * `join()`. `worker_configurer` is the producer side: a queue handler on the
 * producer's root logger, and the root level as the gate before the queue.
 */
module Haplog {
  import opened Wrappers
  import opened Levels
  import opened Records
  import opened ColourFormat
  import opened Logging

  /** A queue entry: a record, the `None` sentinel, or an object that is not a record. */
  datatype Item = Rec(record: LogRecord) | Sentinel | Junk

  /** What the listener prints to stderr when handling an item raises (before the traceback). */
  const OOPS: string := "Oops! An issue occurred during the logging process:"

  const BASE_LOG_NAME: string := "record"
  const SUFFIX_LOG_NAME: string := "%Y-%m-%d.log"

  /** The constructor's defaults, for a given `log_path`. */
  function DefaultConfig(logPath: Option<string>): (c: SinkConfig)
    ensures c.levelLog == DEBUG && c.levelConsole == INFO && c.logPath == logPath
  {
    SinkConfig(logPath, DEBUG, HAPLOG_FORMAT, BASE_LOG_NAME, SUFFIX_LOG_NAME, ("midnight", 1),
               INFO, HAPLOG_FORMAT)
  }

  predicate NoSentinel(items: seq<Item>) {
    forall i :: 0 <= i < |items| ==> !items[i].Sentinel?
  }

  /**
   * The items the listener handles: those in front of the first sentinel.
   * Nothing behind the sentinel is handled.
   */
  function Handled(items: seq<Item>): (h: seq<Item>)
    ensures |h| <= |items| && h == items[..|h|]
    ensures NoSentinel(h)
    ensures |h| < |items| ==> items[|h|].Sentinel?
  {
    if items == [] || items[0].Sentinel? then [] else [items[0]] + Handled(items[1..])
  }

  /** Items up to a sentinel are exactly what is handled from a queue that holds them, then the sentinel. */
  lemma HandledUpTo(h: seq<Item>, rest: seq<Item>)
    requires NoSentinel(h)
    ensures Handled(h + [Sentinel] + rest) == h
    ensures Handled(h) == h
  {
    var q := h + [Sentinel] + rest;
    var k := |Handled(q)|;
    assert q[|h|].Sentinel?;
    assert q[..|h|] == h;
    var k' := |Handled(h)|;
    assert Handled(h) == h[..k'];
    assert h[..|h|] == h;
  }

  /**
   * Where the listener loop ends: either right after the first sentinel, or
   * with the whole queue handled and no sentinel seen.
   */
  lemma LoopExit(q: seq<Item>, handled: seq<Item>, stopped: bool, rest: seq<Item>)
    requires NoSentinel(handled)
    requires q == handled + (if stopped then [Sentinel] else []) + rest
    requires !stopped ==> rest == []
    ensures stopped <==> exists i :: 0 <= i < |q| && q[i].Sentinel?
    ensures Handled(q) == handled
    ensures stopped ==> rest == q[|handled| + 1..]
  {
    HandledUpTo(handled, rest);
    if stopped {
      assert q[|handled|].Sentinel?;
      assert q[|handled| + 1..] == rest;
    } else {
      assert q == handled;
    }
  }

  /** Taking the front item off the queue: a sentinel ends the handled part, anything else joins it. */
  lemma PopFront(q: seq<Item>, handled: seq<Item>, queue: seq<Item>)
    requires queue != [] && NoSentinel(handled) && q == handled + queue
    ensures queue[0].Sentinel? ==> q == handled + [Sentinel] + queue[1..]
    ensures !queue[0].Sentinel? ==> NoSentinel(handled + [queue[0]]) && q == handled + [queue[0]] + queue[1..]
  {
    assert queue == [queue[0]] + queue[1..];
  }

  /** Handling one more item appends what that item writes. */
  lemma DrainSnoc(hs: seq<Handler>, items: seq<Item>, item: Item)
    ensures Drain(hs, items + [item]) == Drain(hs, items) + HandleItem(hs, item)
  {
    assert (items + [item])[..|items|] == items;
  }

  /** The listener's output after one more item is handled. */
  lemma OutputStep(o0: seq<Output>, o: seq<Output>, hs: seq<Handler>, handled: seq<Item>, item: Item)
    requires o == o0 + Drain(hs, handled)
    ensures o + HandleItem(hs, item) == o0 + Drain(hs, handled + [item])
  {
    DrainSnoc(hs, handled, item);
    OutputsAssoc(o0, Drain(hs, handled), HandleItem(hs, item));
  }

  lemma OutputsAssoc(a: seq<Output>, b: seq<Output>, c: seq<Output>)
    ensures (a + b) + c == a + (b + c)
  {
  }

  /** What handling one item writes: a record goes to the handlers, a non-record yields the error line. */
  function HandleItem(hs: seq<Handler>, item: Item): seq<Output> {
    match item
    case Rec(r) => CallHandlers(hs, r)
    case Junk => [Line(Stderr, OOPS)]
    case Sentinel => []
  }

  /** Everything the listener writes while handling `items` in order. */
  function Drain(hs: seq<Handler>, items: seq<Item>): seq<Output> {
    if items == [] then [] else Drain(hs, items[..|items| - 1]) + HandleItem(hs, items[|items| - 1])
  }

  /** The console lines one item should produce: a record at or above the console level, or the error line. */
  function ConsoleLines(c: SinkConfig, item: Item): seq<string> {
    match item
    case Rec(r) => if r.levelno >= c.levelConsole then [CustomFormat(c.formatConsole, r)] else []
    case Junk => [OOPS]
    case Sentinel => []
  }

  /** The file lines one item should produce: every record, when a path is given. */
  function FileLines(c: SinkConfig, item: Item): seq<string> {
    match item
    case Rec(r) => if c.logPath.Some? && r.levelno >= NOTSET then [Render(c.formatLog, r)] else []
    case Junk => []
    case Sentinel => []
  }

  /** The console lines the listener should produce for `items`, item by item. */
  function ConsoleView(c: SinkConfig, items: seq<Item>): seq<string> {
    if items == [] then [] else ConsoleView(c, items[..|items| - 1]) + ConsoleLines(c, items[|items| - 1])
  }

  /** The file lines the listener should produce for `items`, item by item. */
  function FileView(c: SinkConfig, items: seq<Item>): seq<string> {
    if items == [] then [] else FileView(c, items[..|items| - 1]) + FileLines(c, items[|items| - 1])
  }

  /** What handling one item with the installed handlers writes to each sink. */
  lemma ItemRouting(c: SinkConfig, item: Item)
    ensures LinesOn(HandleItem(SinkHandlers(c), item), Stderr) == ConsoleLines(c, item)
    ensures c.logPath.Some? ==> LinesOn(HandleItem(SinkHandlers(c), item), LogFileOf(c)) == FileLines(c, item)
    ensures forall dir, base ::
      (!(c.logPath.Some? && LogFile(dir, base) == LogFileOf(c))
       ==> LinesOn(HandleItem(SinkHandlers(c), item), LogFile(dir, base)) == [])
  {
    if item.Rec? {
      SinkRouting(c, item.record);
    } else if item.Junk? {
      JunkRouting(SinkHandlers(c));
    }
  }

  /** A non-record writes the error line to stderr and nothing anywhere else. */
  lemma JunkRouting(hs: seq<Handler>)
    ensures forall s :: LinesOn(HandleItem(hs, Junk), s) == if s == Stderr then [OOPS] else []
  {
    var b := HandleItem(hs, Junk);
    assert b == [Line(Stderr, OOPS)];
    assert b[1..] == [];
  }

  /**
   * With the handlers the listener installs, draining `items` writes exactly
   * the console view to stderr and the file view to the configured file, in
   * dequeue order, and writes to no other file.
   */
  lemma {:induction false} ListenerRouting(c: SinkConfig, items: seq<Item>)
    ensures LinesOn(Drain(SinkHandlers(c), items), Stderr) == ConsoleView(c, items)
    ensures c.logPath.Some? ==> LinesOn(Drain(SinkHandlers(c), items), LogFileOf(c)) == FileView(c, items)
    ensures forall dir, base ::
      (!(c.logPath.Some? && LogFile(dir, base) == LogFileOf(c))
       ==> LinesOn(Drain(SinkHandlers(c), items), LogFile(dir, base)) == [])
  {
    if items != [] {
      var hs := SinkHandlers(c);
      var init := items[..|items| - 1];
      var last := items[|items| - 1];
      ListenerRouting(c, init);
      ItemRouting(c, last);
      var a := Drain(hs, init);
      var b := HandleItem(hs, last);
      assert Drain(hs, items) == a + b;
      LinesOnAppend(a, b, Stderr);
      if c.logPath.Some? {
        LinesOnAppend(a, b, LogFileOf(c));
      }
      forall dir, base ensures LinesOn(a + b, LogFile(dir, base)) == LinesOn(a, LogFile(dir, base)) + LinesOn(b, LogFile(dir, base)) {
        LinesOnAppend(a, b, LogFile(dir, base));
      }
    }
  }

  /** Handling the items of two queue segments in turn writes the two outputs in turn. */
  lemma {:induction false} DrainAppend(hs: seq<Handler>, a: seq<Item>, b: seq<Item>)
    ensures Drain(hs, a + b) == Drain(hs, a) + Drain(hs, b)
    decreases |b|
  {
    if b == [] {
      assert a + b == a;
    } else {
      var b', x := b[..|b| - 1], b[|b| - 1];
      assert (a + b)[..|a + b| - 1] == a + b';
      assert (a + b)[|a + b| - 1] == x;
      assert Drain(hs, a + b) == Drain(hs, a + b') + HandleItem(hs, x);
      DrainAppend(hs, a, b');
      OutputsAssoc(Drain(hs, a), Drain(hs, b'), HandleItem(hs, x));
    }
  }

  /**
   * `n` records at or above the console level, followed by the sentinel that
   * `join()` puts, give exactly `n` console lines, all the same rendering.
   */
  lemma {:induction false} EveryRecordShownOnce(c: SinkConfig, r: LogRecord, n: nat)
    requires r.levelno >= c.levelConsole
    ensures ConsoleView(c, seq(n, _ => Rec(r))) == seq(n, _ => CustomFormat(c.formatConsole, r))
  {
    if n > 0 {
      var items := seq(n, _ => Rec(r));
      assert items[..n - 1] == seq(n - 1, _ => Rec(r));
      EveryRecordShownOnce(c, r, n - 1);
      assert seq(n, _ => CustomFormat(c.formatConsole, r))
        == seq(n - 1, _ => CustomFormat(c.formatConsole, r)) + [CustomFormat(c.formatConsole, r)];
    }
  }

  /**
   * The listener test: `n` records of one producer, then the sentinel of
   * `join()`, on a listener with the installed handlers, give exactly `n`
   * console lines, and the file (when configured) gets the `n` plain lines.
   */
  lemma JoinShowsEveryRecord(c: SinkConfig, r: LogRecord, n: nat)
    requires r.levelno >= c.levelConsole && r.levelno >= NOTSET
    ensures LinesOn(Drain(SinkHandlers(c), Handled(seq(n, _ => Rec(r)) + [Sentinel])), Stderr)
      == seq(n, _ => CustomFormat(c.formatConsole, r))
    ensures c.logPath.Some? ==>
      LinesOn(Drain(SinkHandlers(c), Handled(seq(n, _ => Rec(r)) + [Sentinel])), LogFileOf(c))
        == seq(n, _ => Render(c.formatLog, r))
  {
    var items := seq(n, _ => Rec(r));
    HandledUpTo(items, []);
    assert items + [Sentinel] + [] == items + [Sentinel];
    ListenerRouting(c, items);
    EveryRecordShownOnce(c, r, n);
    if c.logPath.Some? {
      EveryRecordFiledOnce(c, r, n);
    }
  }

  /** With a log path, each of `n` identical records is one plain line in the file view. */
  lemma {:induction false} EveryRecordFiledOnce(c: SinkConfig, r: LogRecord, n: nat)
    requires c.logPath.Some? && r.levelno >= NOTSET
    ensures FileView(c, seq(n, _ => Rec(r))) == seq(n, _ => Render(c.formatLog, r))
  {
    if n > 0 {
      var items := seq(n, _ => Rec(r));
      assert items[..n - 1] == seq(n - 1, _ => Rec(r));
      assert items[n - 1] == Rec(r);
      EveryRecordFiledOnce(c, r, n - 1);
      assert seq(n, _ => Render(c.formatLog, r))
        == seq(n - 1, _ => Render(c.formatLog, r)) + [Render(c.formatLog, r)];
    }
  }

  /** The handler `worker_configurer` adds: a `QueueHandler` at level NOTSET. */
  const QUEUE_HANDLER: Handler := Handler(NOTSET, Queue, Plain(MESSAGE_ONLY))

  /**
   * The producer-side gate: on a root logger configured by
   * `worker_configurer(queue, worker_level)`, a record is put on the queue
   * iff its level is above the disable threshold and at least `worker_level`
   * (the queue handler's own level, NOTSET, then lets it through), unchanged,
   * and nothing else is written.
   */
  lemma WorkerGate(workerLevel: int, r: LogRecord)
    ensures Queued(Log(workerLevel, NOTSET, [QUEUE_HANDLER], r))
      == if r.levelno > DISABLE && r.levelno >= workerLevel then [r] else []
    ensures forall s :: LinesOn(Log(workerLevel, NOTSET, [QUEUE_HANDLER], r), s) == []
  {
    var out := Log(workerLevel, NOTSET, [QUEUE_HANDLER], r);
    assert EffectiveLevel(workerLevel, NOTSET) == workerLevel;
    assert CallHandlers([QUEUE_HANDLER], r) == Emit(QUEUE_HANDLER, r) + CallHandlers([], r) by {
      assert [QUEUE_HANDLER][1..] == [];
    }
    if r.levelno > DISABLE && r.levelno >= workerLevel {
      assert out == [Enqueued(r)];
      assert out[1..] == [];
    } else {
      assert out == [];
    }
  }

  /** The items a list of queued records becomes on the queue. */
  function AsItems(rs: seq<LogRecord>): (items: seq<Item>)
    ensures |items| == |rs| && NoSentinel(items)
    ensures forall i :: 0 <= i < |rs| ==> items[i] == Rec(rs[i])
  {
    seq(|rs|, i requires 0 <= i < |rs| => Rec(rs[i]))
  }

  /**
   * Every record the producers queued before `join()`'s sentinel is handled,
   * in the order it was queued, whatever is put behind the sentinel.
   */
  lemma QueuedBeforeJoinHandled(rs: seq<LogRecord>, rest: seq<Item>)
    ensures Handled(AsItems(rs) + [Sentinel] + rest) == AsItems(rs)
  {
    HandledUpTo(AsItems(rs), rest);
  }

  /**
   * `worker_configurer(queue, worker_level)`, where `worker_level` defaults to
   * DEBUG: add a queue handler to the producer's root logger and set its level.
   */
  method WorkerConfigurer(root: Logger, workerLevel: int)
    modifies root
    ensures root.handlers == old(root.handlers) + [QUEUE_HANDLER]
    ensures root.level == workerLevel
  {
    root.handlers := root.handlers + [QUEUE_HANDLER];
    root.level := workerLevel;
  }

  /**
   * A producer process's root logger, fresh at WARNING with no handlers, after
   * `worker_configurer(queue, worker_level)`: exactly the queue handler, at
   * `worker_level`.
   */
  method ConfiguredWorkerRoot(workerLevel: int) returns (root: Logger)
    ensures fresh(root)
    ensures root.level == workerLevel && root.handlers == [QUEUE_HANDLER]
  {
    root := new Logger.Root();
    WorkerConfigurer(root, workerLevel);
  }

  /**
   * A producer's `logger.log(...)` through its root logger: whatever the
   * root's handlers put on the queue is appended to the listener's queue.
   */
  method ProducerLog(root: Logger, mpl: MultiProcessLogger, r: LogRecord)
    modifies mpl`queue
    ensures mpl.queue == old(mpl.queue) + AsItems(Queued(Log(root.level, NOTSET, root.handlers, r)))
  {
    mpl.queue := mpl.queue + AsItems(Queued(Log(root.level, NOTSET, root.handlers, r)));
  }

  /**
   * The life of the listener process: created with the logger, running
   * after `start()`, exited once it has taken a sentinel during `join()`.
   */
  datatype Phase = Created | Running | Exited

  class MultiProcessLogger {
    const config: SinkConfig
    /** The manager queue shared with the producers. */
    var queue: seq<Item>
    /** Where the listener process is in its life. */
    var phase: Phase
    /** The listener's root logger handlers. */
    var rootHandlers: seq<Handler>
    /** Everything the listener has written (stderr lines, file lines), in order. */
    var output: seq<Output>

    /** The listener has installed its handlers exactly once iff it has been started. */
    ghost predicate Valid()
      reads this
    {
      (phase == Created ==> rootHandlers == [])
      && (phase != Created ==> rootHandlers == SinkHandlers(config))
    }

    /** `MultiProcessLogger(...)`: an empty queue; the listener created but not started. */
    constructor (config: SinkConfig)
      ensures Valid()
      ensures this.config == config && phase == Created
      ensures queue == [] && rootHandlers == [] && output == []
    {
      this.config := config;
      queue := [];
      phase := Created;
      rootHandlers := [];
      output := [];
    }

    /** `listener_configurer`: add the file handler (when a path is given), then the console handler. */
    method ListenerConfigurer()
      modifies this`rootHandlers
      ensures rootHandlers == old(rootHandlers) + SinkHandlers(config)
    {
      if config.logPath.Some? {
        rootHandlers := rootHandlers + [Handler(NOTSET, LogFileOf(config), Plain(config.formatLog))];
      }
      rootHandlers := rootHandlers + [Handler(config.levelConsole, Stderr, Coloured(config.formatConsole))];
    }

    /**
     * `start()`: the listener process begins by running its configurer.
     * A process starts only once: a later `start()` raises, reported here as
     * `ok == false`, and changes nothing.
     */
    method Start() returns (ok: bool)
      requires Valid()
      modifies this`rootHandlers, this`phase
      ensures Valid()
      ensures ok <==> old(phase) == Created
      ensures ok ==> phase == Running && rootHandlers == old(rootHandlers) + SinkHandlers(config)
      ensures !ok ==> phase == old(phase) && rootHandlers == old(rootHandlers)
    {
      if phase != Created {
        return false;
      }
      ListenerConfigurer();
      phase := Running;
      ok := true;
    }

    /** `queue.put(item)` by a producer. */
    method Put(item: Item)
      modifies this`queue
      ensures queue == old(queue) + [item]
    {
      queue := queue + [item];
    }

    /**
     * The `while True` loop of `listener_process`: take items in FIFO order,
     * hand each record to the handlers, report a non-record on stderr and go
     * on, and stop right after the first sentinel. When the queue runs dry
     * without one, `stopped` is false: the real listener would wait there.
     */
    method ListenerLoop() returns (stopped: bool)
      modifies this`queue, this`output
      ensures stopped <==> exists i :: 0 <= i < |old(queue)| && old(queue)[i].Sentinel?
      ensures output == old(output) + Drain(rootHandlers, Handled(old(queue)))
      ensures queue == if stopped then old(queue)[|Handled(old(queue))| + 1..] else []
    {
      ghost var handled: seq<Item> := [];
      stopped := false;
      while !stopped && queue != []
        invariant NoSentinel(handled)
        invariant !stopped ==> old(queue) == handled + queue
        invariant stopped ==> old(queue) == handled + [Sentinel] + queue
        invariant output == old(output) + Drain(rootHandlers, handled)
        decreases |queue|
      {
        var item := queue[0];
        PopFront(old(queue), handled, queue);
        queue := queue[1..];
        if item.Sentinel? {
          stopped := true;
        } else {
          OutputStep(old(output), output, rootHandlers, handled, item);
          if item.Junk? {
            output := output + [Line(Stderr, OOPS)];
          } else {
            output := output + CallHandlers(rootHandlers, item.record);
          }
          handled := handled + [item];
        }
      }
      LoopExit(old(queue), handled, stopped, queue);
    }

    /**
     * `join()`: put one sentinel, then wait for the listener. A running
     * listener handles everything in front of the first sentinel and exits;
     * when the queue held none, every item put before `join()` is handled and
     * the queue ends empty. A listener that has already exited handles
     * nothing more, and one never started cannot be joined (`ok == false`,
     * the exception `join()` raises); in both cases the sentinel stays queued.
     */
    method Join() returns (ok: bool)
      requires Valid()
      modifies this`queue, this`output, this`phase
      ensures Valid()
      ensures ok <==> old(phase) != Created
      ensures old(phase) == Running ==>
        phase == Exited
        && output == old(output) + Drain(SinkHandlers(config), Handled(old(queue) + [Sentinel]))
        && queue == (old(queue) + [Sentinel])[|Handled(old(queue) + [Sentinel])| + 1..]
      ensures old(phase) == Running && NoSentinel(old(queue)) ==>
        output == old(output) + Drain(SinkHandlers(config), old(queue)) && queue == []
      ensures old(phase) != Running ==>
        phase == old(phase) && output == old(output) && queue == old(queue) + [Sentinel]
    {
      ghost var before := queue;
      Put(Sentinel);
      if phase != Running {
        return phase == Exited;
      }
      var stopped := ListenerLoop();
      phase := Exited;
      ok := true;
      if NoSentinel(before) {
        HandledUpTo(before, []);
        assert before + [Sentinel] + [] == before + [Sentinel];
      }
    }
  }
}
