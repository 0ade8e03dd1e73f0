/**
 * `CustomFormatter`: the console formatter that wraps a template in the ANSI
 * colour of the record's level. The table is built once from one template;
 * `format` looks the record's `levelno` up in it.
 */
module ColourFormat {
  import opened Wrappers
  import opened Levels
  import opened Records
  import opened Text

  const GREY: string := "\U{001B}[38;20m"
  const GREEN: string := "\U{001B}[32;20m"
  const YELLOW: string := "\U{001B}[33;20m"
  const RED: string := "\U{001B}[31;20m"
  const BOLD_RED: string := "\U{001B}[31;1m"
  const RESET: string := "\U{001B}[0m"

  /** The fixed palette, by severity: the colour a level is shown in. */
  function Colour(levelno: int): string
    requires IsStandard(levelno)
  {
    if levelno == DEBUG then GREY
    else if levelno == INFO then GREEN
    else if levelno == WARNING then YELLOW
    else if levelno == ERROR then RED
    else BOLD_RED
  }

  /** `self.formats`: one coloured template per standard level, and no other key. */
  function Formats(fmt: Format): (m: map<int, Format>)
    ensures m.Keys == {DEBUG, INFO, WARNING, ERROR, CRITICAL}
    ensures forall k :: k in m ==> IsStandard(k) && m[k] == [Lit(Colour(k))] + fmt + [Lit(RESET)]
  {
    map[DEBUG := [Lit(GREY)] + fmt + [Lit(RESET)],
        INFO := [Lit(GREEN)] + fmt + [Lit(RESET)],
        WARNING := [Lit(YELLOW)] + fmt + [Lit(RESET)],
        ERROR := [Lit(RED)] + fmt + [Lit(RESET)],
        CRITICAL := [Lit(BOLD_RED)] + fmt + [Lit(RESET)]]
  }

  /** `self.formats.get(levelno)`. */
  function Template(fmt: Format, levelno: int): (t: Option<Format>)
    ensures t.Some? <==> IsStandard(levelno)
  {
    var m := Formats(fmt);
    if levelno in m then Some(m[levelno]) else None
  }

  /**
   * `CustomFormatter(fmt).format(r)`: the record rendered with the template
   * found for its level; `logging.Formatter(None)` renders the bare message
   * when there is none.
   */
  function CustomFormat(fmt: Format, r: LogRecord): string {
    Render(Template(fmt, r.levelno).GetOr(MESSAGE_ONLY), r)
  }

  /** Different levels are shown in different colours. */
  lemma ColoursDistinct(a: int, b: int)
    requires IsStandard(a) && IsStandard(b) && a != b
    ensures Colour(a) != Colour(b)
  {
  }

  /**
   * A record at one of the five levels is its template's rendering wrapped in
   * that level's colour and the reset code; any other level gets the bare
   * message, uncoloured.
   */
  lemma CustomFormatSpec(fmt: Format, r: LogRecord)
    ensures IsStandard(r.levelno) ==> CustomFormat(fmt, r) == Colour(r.levelno) + Render(fmt, r) + RESET
    ensures !IsStandard(r.levelno) ==> CustomFormat(fmt, r) == r.message
  {
    if IsStandard(r.levelno) {
      var c := [Lit(Colour(r.levelno))];
      RenderAppend(c, fmt, r);
      RenderAppend(c + fmt, [Lit(RESET)], r);
      assert Render(c, r) == Colour(r.levelno) by { assert c[1..] == []; }
      assert Render([Lit(RESET)], r) == RESET by { assert [Lit(RESET)][1..] == []; }
    } else {
      MessageOnlyRendersMessage(r);
    }
  }

  /** The fields of the haplog test record, joined as the default template joins them. */
  lemma JoinedFields(name: string, file: string, func: string, msg: string)
    requires name == "test_logger" && file == "file" && func == "func" && msg == "msg"
    ensures "INFO    " + (" [" + (name + ("] " + (file + (" - " + (func + ("() : " + msg)))))))
      == "INFO     [test_logger] file - func() : msg"
  {
  }

  /**
   * The console line for the haplog default template: e.g. an INFO record of
   * logger `test_logger` from `func` in `file` reads
   * `"<time> INFO     [test_logger] file - func() : msg"` between the green
   * and the reset codes.
   */
  lemma HaplogConsoleLine(r: LogRecord)
    requires r.levelno == INFO && r.name == "test_logger" && r.filename == "file"
    requires r.funcName == "func" && r.message == "msg"
    ensures CustomFormat(HAPLOG_FORMAT, r)
      == GREEN + (r.asctime + (" " + "INFO     [test_logger] file - func() : msg")) + RESET
  {
    assert Render(HAPLOG_FORMAT, r) == r.asctime + (" " + "INFO     [test_logger] file - func() : msg") by {
      HaplogFormatLayout(r);
      assert PadRight(Levels.LevelName(r.levelno), 8) == "INFO    " by { PaddedLevelNames(); }
      JoinedFields(r.name, r.filename, r.funcName, r.message);
    }
    CustomFormatSpec(HAPLOG_FORMAT, r);
  }

  /**
   * The console line for the logger_utils default template, which carries no
   * logger name: `"<time> INFO     test_instantiate_logger.py - test_console_info() : test"`,
   * written here piece by piece as the template joins it.
   */
  lemma PackageConsoleLine(r: LogRecord)
    requires r.levelno == INFO && r.filename == "test_instantiate_logger.py"
    requires r.funcName == "test_console_info" && r.message == "test"
    ensures CustomFormat(PACKAGE_FORMAT, r)
      == GREEN + (r.asctime + (" " + ("INFO    " + (" " + ("test_instantiate_logger.py"
         + (" - " + ("test_console_info" + ("() : " + "test")))))))) + RESET
  {
    PackageFormatLayout(r);
    assert PadRight(Levels.LevelName(r.levelno), 8) == "INFO    " by { PaddedLevelNames(); }
    CustomFormatSpec(PACKAGE_FORMAT, r);
  }
}
