/**
 * `OutputLogger`, the file-like object that stdout is redirected to: it
 * buffers written text and turns it into one log call per newline-terminated
 * write. `Run` is the meaning of a whole history of writes; the class keeps
 * its buffer and the log calls it has made equal to what `Run` says.
 */
module OutputLogging {
  import opened Text
  import opened Levels
  import opened Records

  /**
   * What a history of writes has produced: the raw lines handed to the
   * logger (before `rstrip`), and the text still waiting in `linebuf`.
   */
  datatype Trace = Trace(lines: seq<string>, pending: string)

  /** The number of fragments that end in a newline. */
  function Terminated(fragments: seq<string>): nat {
    if fragments == [] then 0
    else Terminated(fragments[..|fragments| - 1]) + (if EndsWithNewline(fragments[|fragments| - 1]) then 1 else 0)
  }

  /**
   * The effect of writing `fragments` one after the other to a fresh adapter.
   * No text is lost or reordered: the raw lines, joined, followed by the
   * pending buffer, are exactly what was written. There is one line per
   * newline-terminated fragment and each ends in a newline; a newline inside
   * a fragment ends nothing. The buffer is empty right after such a fragment.
   */
  function Run(fragments: seq<string>): (t: Trace)
    ensures Concat(t.lines) + t.pending == Concat(fragments)
    ensures |t.lines| == Terminated(fragments)
    ensures forall i :: 0 <= i < |t.lines| ==> EndsWithNewline(t.lines[i])
    ensures fragments != [] && EndsWithNewline(fragments[|fragments| - 1]) ==> t.pending == ""
  {
    if fragments == [] then Trace([], "")
    else
      var before := Run(fragments[..|fragments| - 1]);
      var f := fragments[|fragments| - 1];
      assert Concat(fragments) == Concat(fragments[..|fragments| - 1]) + f;
      AppendAssoc(Concat(before.lines), before.pending, f);
      if EndsWithNewline(f) then
        var line := before.pending + f;
        ConcatSnoc(before.lines, line);
        assert EndsWithNewline(line) by { assert line[|line| - 1] == f[|f| - 1]; }
        LinesSnoc(before.lines, line);
        Trace(before.lines + [line], "")
      else
        Trace(before.lines, before.pending + f)
  }

  lemma AppendAssoc(a: string, b: string, c: string)
    ensures a + b + c == a + (b + c)
  {
  }

  lemma ConcatSnoc(ss: seq<string>, s: string)
    ensures Concat(ss + [s]) == Concat(ss) + s
  {
    assert (ss + [s])[..|ss|] == ss;
  }

  lemma LinesSnoc(lines: seq<string>, line: string)
    requires forall i :: 0 <= i < |lines| ==> EndsWithNewline(lines[i])
    requires EndsWithNewline(line)
    ensures forall i :: 0 <= i < |lines + [line]| ==> EndsWithNewline((lines + [line])[i])
  {
  }

  /** The messages logged: each raw line with its trailing whitespace removed. */
  function Messages(t: Trace): (ms: seq<string>)
    ensures |ms| == |t.lines|
  {
    seq(|t.lines|, i requires 0 <= i < |t.lines| => RStrip(t.lines[i]))
  }

  /** One more write: the step `Run` takes for the last fragment. */
  lemma RunSnoc(w: seq<string>, msg: string)
    ensures Run(w + [msg]) == if EndsWithNewline(msg)
      then Trace(Run(w).lines + [Run(w).pending + msg], "")
      else Trace(Run(w).lines, Run(w).pending + msg)
  {
    assert (w + [msg])[..|w|] == w;
  }

  /** A single write to a fresh adapter. */
  lemma RunOne(x: string)
    ensures Run([x]) == if EndsWithNewline(x) then Trace([x], "") else Trace([], x)
  {
    RunSnoc([], x);
    assert [] + [x] == [x];
    assert "" + x == x;
  }

  /** A write without a newline, then one with: a single raw line, the two joined. */
  lemma RunJoinedLine(x: string, y: string)
    requires !EndsWithNewline(x) && EndsWithNewline(y)
    ensures Run([x, y]) == Trace([x + y], "")
  {
    RunOne(x);
    RunSnoc([x], y);
    assert [x] + [y] == [x, y];
  }

  /** Two newline-terminated writes to a fresh adapter are two raw lines, with nothing pending. */
  lemma RunTwoLines(x: string, y: string)
    requires EndsWithNewline(x) && EndsWithNewline(y)
    ensures Run([x, y]) == Trace([x, y], "")
  {
    RunOne(x);
    RunSnoc([x], y);
    assert [x] + [y] == [x, y];
    assert "" + y == y;
    assert Run([x]).pending + y == y;
  }

  /** The messages of one raw line. */
  lemma MessagesOne(x: string, p: string)
    ensures Messages(Trace([x], p)) == [RStrip(x)]
  {
  }

  /** The messages of two raw lines, in order. */
  lemma MessagesTwo(x: string, y: string, p: string)
    ensures Messages(Trace([x, y], p)) == [RStrip(x), RStrip(y)]
  {
  }

  /** `print("test")`, which writes `"test"` and then `"\n"`, logs exactly `"test"`. */
  lemma PrintLogsOneLine()
    ensures Messages(Run(["test", "\n"])) == ["test"]
  {
    assert RStrip("test" + "\n") == "test" by {
      assert !IsSpace("test"[3]);
      RStripTrailingSpace("test", "\n");
    }
    assert !EndsWithNewline("test") && EndsWithNewline("\n");
    RunJoinedLine("test", "\n");
    MessagesOne("test" + "\n", "");
  }

  /**
   * Only the last character of a fragment decides: `"a\nb"` then `"c\n"`
   * is one message `"a\nbc"` with its inner newline kept.
   */
  lemma InnerNewlineDoesNotSplit()
    ensures Messages(Run(["a\nb", "c\n"])) == ["a\nbc"]
  {
    assert RStrip("a\nb" + "c\n") == "a\nbc" by {
      assert "a\nb" + "c\n" == "a\nbc" + "\n";
      assert !IsSpace("a\nbc"[3]);
      RStripTrailingSpace("a\nbc", "\n");
    }
    assert !EndsWithNewline("a\nb") && EndsWithNewline("c\n");
    RunJoinedLine("a\nb", "c\n");
    MessagesOne("a\nb" + "c\n", "");
  }

  /** Two terminated writes are two messages, in order; leading whitespace survives. */
  lemma TwoLinesInOrder()
    ensures Messages(Run(["a\n", "  b \n"])) == ["a", "  b"]
  {
    assert RStrip("a\n") == "a" by {
      assert "a" + "\n" == "a\n";
      assert !IsSpace("a"[0]);
      RStripTrailingSpace("a", "\n");
    }
    assert RStrip("  b \n") == "  b" by {
      assert "  b" + " \n" == "  b \n";
      assert !IsSpace("  b"[2]);
      RStripTrailingSpace("  b", " \n");
    }
    assert EndsWithNewline("a\n") && EndsWithNewline("  b \n");
    RunTwoLines("a\n", "  b \n");
    MessagesTwo("a\n", "  b \n", "");
  }

  /** A trailing fragment without a newline is never logged: it stays in the buffer. */
  lemma TrailingPartialStays(fragments: seq<string>, tail: string)
    requires !EndsWithNewline(tail)
    ensures Run(fragments + [tail]).lines == Run(fragments).lines
    ensures Run(fragments + [tail]).pending == Run(fragments).pending + tail
  {
    RunSnoc(fragments, tail);
  }

  /** The message texts of a sequence of log calls. */
  function MessageTexts(rs: seq<LogRecord>): (ms: seq<string>)
    ensures |ms| == |rs|
  {
    seq(|rs|, i requires 0 <= i < |rs| => rs[i].message)
  }

  /** Every log call was made on the adapter's logger at the adapter's level. */
  ghost predicate FromAdapter(rs: seq<LogRecord>, name: string, level: int) {
    forall i :: 0 <= i < |rs| ==> rs[i].name == name && rs[i].levelno == level
  }

  /** One more raw line adds its stripped text as one more message. */
  lemma MessagesSnoc(t: Trace, line: string)
    ensures Messages(Trace(t.lines + [line], "")) == Messages(t) + [RStrip(line)]
  {
    var after := Trace(t.lines + [line], "");
    assert forall i :: 0 <= i < |t.lines| ==> after.lines[i] == t.lines[i];
  }

  /** One more log call on the adapter's logger keeps every call on it and adds its text. */
  lemma RecordSnoc(rs: seq<LogRecord>, r: LogRecord, name: string, level: int)
    requires FromAdapter(rs, name, level) && r.name == name && r.levelno == level
    ensures FromAdapter(rs + [r], name, level)
    ensures MessageTexts(rs + [r]) == MessageTexts(rs) + [r.message]
  {
  }

  /** What the call site of a write supplies to the record: its file, its function and the time. */
  datatype CallSite = CallSite(filename: string, funcName: string, asctime: string)

  class OutputLogger {
    const loggerName: string
    const loggingLevel: int
    var linebuf: string
    /** Every fragment written so far. */
    ghost var written: seq<string>
    /** Every `logger.log` call made so far. */
    ghost var emitted: seq<LogRecord>

    /** The buffer and the log calls are those `Run` gives for the history of writes. */
    ghost predicate Valid()
      reads this
    {
      var t := Run(written);
      linebuf == t.pending
      && MessageTexts(emitted) == Messages(t)
      && FromAdapter(emitted, RecordName(loggerName), loggingLevel)
    }

    /** `OutputLogger(logger_name, logging_level)`; the source's default level is INFO. */
    constructor (loggerName: string, loggingLevel: int)
      ensures Valid()
      ensures this.loggerName == loggerName && this.loggingLevel == loggingLevel
      ensures linebuf == "" && written == [] && emitted == []
    {
      this.loggerName := loggerName;
      this.loggingLevel := loggingLevel;
      linebuf := "";
      written := [];
      emitted := [];
    }

    /**
     * `write(msg)`: append to the buffer; if `msg` itself ends in a newline,
     * log the buffer with trailing whitespace stripped at the adapter's level
     * and empty the buffer. The call goes to `getLogger(logger_name)`, so an
     * adapter on the empty name logs as "root".
     */
    method Write(msg: string, site: CallSite)
      requires Valid()
      modifies this
      ensures Valid()
      ensures written == old(written) + [msg]
      ensures linebuf == if EndsWithNewline(msg) then "" else old(linebuf) + msg
      ensures emitted == if EndsWithNewline(msg)
        then old(emitted) + [LogRecord(RecordName(loggerName), loggingLevel, site.filename, site.funcName,
                                       RStrip(old(linebuf) + msg), site.asctime)]
        else old(emitted)
    {
      ghost var before := Run(written);
      RunSnoc(written, msg);
      written := written + [msg];
      linebuf := linebuf + msg;
      if EndsWithNewline(msg) {
        var r := LogRecord(RecordName(loggerName), loggingLevel, site.filename, site.funcName, RStrip(linebuf), site.asctime);
        MessagesSnoc(before, linebuf);
        RecordSnoc(emitted, r, RecordName(loggerName), loggingLevel);
        emitted := emitted + [r];
        linebuf := "";
      }
    }

    /** `flush()` does nothing: a pending partial line is not logged. */
    method Flush()
      ensures unchanged(this)
    {
    }
  }
}
