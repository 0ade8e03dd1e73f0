/**
 * Log records and the fixed `%`-style templates that render them.
 *
 * A template is kept as the sequence of pieces it is made of rather than as
 * a string to be parsed: literal text, and `%(<field>)s` substitutions with
 * an optional left-justified width (`%(levelname)-8s`).
 */
module Records {
  import opened Levels
  import opened Text

  /**
   * One log event. `asctime`, `filename` and `funcName` are supplied by the
   * caller: the clock and the call stack are not part of the model.
   */
  datatype LogRecord = LogRecord(
    name: string,
    levelno: int,
    filename: string,
    funcName: string,
    message: string,
    asctime: string)

  /**
   * The name on the records of `logging.getLogger(name)`: an empty name
   * gives the root logger, whose records are named "root"; any other name is
   * kept. No record is ever nameless.
   */
  function RecordName(loggerName: string): (name: string)
    ensures name != ""
    ensures loggerName != "" ==> name == loggerName
    ensures loggerName == "" ==> name == "root"
  {
    if loggerName == "" then "root" else loggerName
  }

  /** The record attributes a template may name. */
  datatype Field = AscTime | LevelName | Name | FileName | FuncName | Message

  /** `Sub(f, w)` is `%(f)-ws`; a width of 0 is plain `%(f)s`. */
  datatype Piece = Lit(text: string) | Sub(field: Field, width: nat)

  type Format = seq<Piece>

  /** The value a field takes for a record; `levelname` is derived from `levelno`. */
  function FieldValue(f: Field, r: LogRecord): string {
    match f
    case AscTime => r.asctime
    case LevelName => Levels.LevelName(r.levelno)
    case Name => r.name
    case FileName => r.filename
    case FuncName => r.funcName
    case Message => r.message
  }

  function RenderPiece(p: Piece, r: LogRecord): string {
    match p
    case Lit(t) => t
    case Sub(f, w) => PadRight(FieldValue(f, r), w)
  }

  /** `logging.Formatter(fmt).format(r)` for a record without exception or stack information. */
  function Render(fmt: Format, r: LogRecord): string {
    if fmt == [] then "" else RenderPiece(fmt[0], r) + Render(fmt[1..], r)
  }

  /** Rendering distributes over joining two templates. */
  lemma {:induction false} RenderAppend(a: Format, b: Format, r: LogRecord)
    ensures Render(a + b, r) == Render(a, r) + Render(b, r)
  {
    if a == [] {
      assert a + b == b;
    } else {
      RenderCons(a, b, r);
      RenderAppend(a[1..], b, r);
      var p := RenderPiece(a[0], r);
      assert p + (Render(a[1..], r) + Render(b, r)) == (p + Render(a[1..], r)) + Render(b, r);
    }
  }

  /** Rendering a joined template whose left part is not empty: its first piece, then the rest. */
  lemma RenderCons(a: Format, b: Format, r: LogRecord)
    requires a != []
    ensures Render(a + b, r) == RenderPiece(a[0], r) + Render(a[1..] + b, r)
  {
    assert (a + b)[0] == a[0];
    assert (a + b)[1..] == a[1..] + b;
  }

  /** `"%(message)s"`, the template `logging.Formatter(None)` falls back to. */
  const MESSAGE_ONLY: Format := [Sub(Message, 0)]

  /**
   * The haplog default:
   * `"%(asctime)s %(levelname)-8s [%(name)s] %(filename)s - %(funcName)s() : %(message)s"`.
   */
  const HAPLOG_FORMAT: Format :=
    [Sub(AscTime, 0), Lit(" "), Sub(LevelName, 8), Lit(" ["), Sub(Name, 0), Lit("] "),
     Sub(FileName, 0), Lit(" - "), Sub(FuncName, 0), Lit("() : "), Sub(Message, 0)]

  /**
   * The logger_utils default, which has no logger name:
   * `"%(asctime)s %(levelname)-8s %(filename)s - %(funcName)s() : %(message)s"`.
   */
  const PACKAGE_FORMAT: Format :=
    [Sub(AscTime, 0), Lit(" "), Sub(LevelName, 8), Lit(" "),
     Sub(FileName, 0), Lit(" - "), Sub(FuncName, 0), Lit("() : "), Sub(Message, 0)]

  /** What `%(message)s` renders to: the message itself. */
  lemma MessageOnlyRendersMessage(r: LogRecord)
    ensures Render(MESSAGE_ONLY, r) == r.message
  {
    assert MESSAGE_ONLY[1..] == [];
  }

  /**
   * The level name is padded to exactly eight characters for every level
   * the colour table knows, so the columns after it line up.
   */
  lemma PaddedLevelNameWidth(levelno: int)
    requires IsStandard(levelno)
    ensures |PadRight(Levels.LevelName(levelno), 8)| == 8
    ensures PadRight(Levels.LevelName(levelno), 8)[..|Levels.LevelName(levelno)|] == Levels.LevelName(levelno)
  {
  }

  /** The padded names as they appear in the output. */
  lemma PaddedLevelNames()
    ensures PadRight(Levels.LevelName(DEBUG), 8) == "DEBUG   "
    ensures PadRight(Levels.LevelName(INFO), 8) == "INFO    "
    ensures PadRight(Levels.LevelName(WARNING), 8) == "WARNING "
    ensures PadRight(Levels.LevelName(ERROR), 8) == "ERROR   "
    ensures PadRight(Levels.LevelName(CRITICAL), 8) == "CRITICAL"
  {
    PaddedName(DEBUG, "DEBUG", "   ");
    PaddedName(INFO, "INFO", "    ");
    PaddedName(WARNING, "WARNING", " ");
    PaddedName(ERROR, "ERROR", "   ");
    PaddedName(CRITICAL, "CRITICAL", "");
  }

  lemma PaddedName(levelno: int, name: string, pad: string)
    requires Levels.LevelName(levelno) == name && |name| <= 8
    requires pad == Spaces(8 - |name|)
    ensures PadRight(Levels.LevelName(levelno), 8) == name + pad
  {
  }

  /** Rendering a non-empty template: its first piece, then the rest. */
  lemma RenderStep(fmt: Format, k: nat, r: LogRecord)
    requires k < |fmt|
    ensures Render(fmt[k..], r) == RenderPiece(fmt[k], r) + Render(fmt[k + 1..], r)
  {
    assert fmt[k..][0] == fmt[k];
    assert fmt[k..][1..] == fmt[k + 1..];
  }

  /**
   * Everything after the level name in the haplog default template. The
   * concatenations are grouped from the right, the way `Render` builds them.
   */
  lemma HaplogFormatTail(r: LogRecord)
    ensures Render(HAPLOG_FORMAT[3..], r)
      == " [" + (r.name + ("] " + (r.filename + (" - " + (r.funcName + ("() : " + r.message))))))
  {
    var f := HAPLOG_FORMAT;
    HaplogFormatSite(r);
    RenderStep(f, 5, r); RenderStep(f, 4, r); RenderStep(f, 3, r);
  }

  /** The call-site part at the end of the haplog default template. */
  lemma HaplogFormatSite(r: LogRecord)
    ensures Render(HAPLOG_FORMAT[6..], r) == r.filename + (" - " + (r.funcName + ("() : " + r.message)))
  {
    var f := HAPLOG_FORMAT;
    assert f[11..] == [];
    RenderStep(f, 10, r); RenderStep(f, 9, r); RenderStep(f, 8, r); RenderStep(f, 7, r);
    RenderStep(f, 6, r);
  }

  /** The haplog default template, written out field by field. */
  lemma HaplogFormatLayout(r: LogRecord)
    ensures Render(HAPLOG_FORMAT, r)
      == r.asctime + (" " + (PadRight(Levels.LevelName(r.levelno), 8) + (" [" + (r.name + ("] "
         + (r.filename + (" - " + (r.funcName + ("() : " + r.message)))))))))
  {
    var f := HAPLOG_FORMAT;
    HaplogFormatTail(r);
    RenderStep(f, 2, r); RenderStep(f, 1, r); RenderStep(f, 0, r);
    assert f[0..] == f;
  }

  /** Everything after the level name in the logger_utils default template. */
  lemma PackageFormatTail(r: LogRecord)
    ensures Render(PACKAGE_FORMAT[3..], r)
      == " " + (r.filename + (" - " + (r.funcName + ("() : " + r.message))))
  {
    var f := PACKAGE_FORMAT;
    assert f[9..] == [];
    RenderStep(f, 8, r); RenderStep(f, 7, r); RenderStep(f, 6, r); RenderStep(f, 5, r);
    RenderStep(f, 4, r); RenderStep(f, 3, r);
  }

  /** The logger_utils default template, written out field by field. */
  lemma PackageFormatLayout(r: LogRecord)
    ensures Render(PACKAGE_FORMAT, r)
      == r.asctime + (" " + (PadRight(Levels.LevelName(r.levelno), 8) + (" "
         + (r.filename + (" - " + (r.funcName + ("() : " + r.message)))))))
  {
    var f := PACKAGE_FORMAT;
    PackageFormatTail(r);
    RenderStep(f, 2, r); RenderStep(f, 1, r); RenderStep(f, 0, r);
    assert f[0..] == f;
  }
}
