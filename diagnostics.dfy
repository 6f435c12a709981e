/**
 * Diagnostics and the parse driver of src/parser.cpp: the caret line of
 * `getErrorLine`, the severity prefix of `Diagnostic::print`, and the
 * parse-once / error-collecting `Parser`.
 *
 * The generated grammar is not modelled: a `GrammarRun` stands for what
 * one run of it does to the parse result (the nodes its actions append,
 * and the `ParseException` it may throw). Reading the source file is not
 * modelled either: the line `getErrorLine` would read is a parameter.
 */
module Diagnostics {
  import opened Ast

  datatype DiagnosticType =
    | DiagnosticType_Error
    | DiagnosticType_Warning
    | DiagnosticType_Info
      /** a value of the enum outside the three named ones */
    | DiagnosticType_Other(code: int)

  datatype Diagnostic = Diagnostic(dtype: DiagnosticType, message: string, loc: Location)

  /** One position of the generated parser's `yy::location`. */
  datatype Position = Position(filename: Option<string>, line: nat, column: nat)

  /** `makeLocation`: copies the span; the file name comes from the
      beginning position and is empty when that position has none. */
  function MakeLocation(begin: Position, end: Position): (loc: Location)
    ensures loc.begLine == begin.line && loc.begColumn == begin.column
    ensures loc.endLine == end.line && loc.endColumn == end.column
    ensures begin.filename.Some? ==> loc.filename == begin.filename.value
    ensures begin.filename.None? ==> loc.filename == ""
  {
    match begin.filename
    case Some(f) => Location(begin.line, begin.column, end.line, end.column, f)
    case None => Location(begin.line, begin.column, end.line, end.column, "")
  }

  // ---------------------------------------------------------------------
  // The caret line
  // ---------------------------------------------------------------------

  function Repeat(c: char, n: nat): (s: string)
    ensures |s| == n
    ensures forall i :: 0 <= i < n ==> s[i] == c
  {
    if n == 0 then [] else Repeat(c, n - 1) + [c]
  }

  /** Spaces before the first caret: `max(0, beg_column - 1)`. */
  function CaretIndent(loc: Location): nat
  {
    if loc.begColumn >= 1 then loc.begColumn - 1 else 0
  }

  /** Number of carets: the span's width on one line, at least one; a
      span over several lines is marked at its start only. */
  function CaretCount(loc: Location): nat
  {
    if loc.endLine != loc.begLine then 1
    else if loc.endColumn - loc.begColumn < 1 then 1
    else loc.endColumn - loc.begColumn
  }

  /** What `getErrorLine` returns. `sourceLine` is the line the file
      yields at `beg_line`, or None when the file cannot be opened or the
      stream fails before that line. */
  function ErrorLine(loc: Location, sourceLine: Option<string>): string
  {
    if loc.begColumn == 0 || loc.begLine == 0 then ""
    else match sourceLine
      case None => ""
      case Some(ln) => ln + "\n" + Repeat(' ', CaretIndent(loc)) + Repeat('^', CaretCount(loc)) + "\n"
  }

  /** `getErrorLine`, with its two counting loops. */
  method GetErrorLine(loc: Location, sourceLine: Option<string>) returns (ret: string)
    ensures ret == ErrorLine(loc, sourceLine)
  {
    if loc.begColumn == 0 || loc.begLine == 0 {
      return "";
    }
    if sourceLine.None? {
      return "";
    }
    ret := sourceLine.value + "\n";
    var cbeg: int := loc.begColumn;
    var cend: int := loc.endColumn;
    var count: int := cend - cbeg;
    var space: int := cbeg - 1;
    if loc.endLine != loc.begLine {
      count := 1;
    }
    space := if space < 0 then 0 else space;
    count := if count < 1 then 1 else count;
    ghost var head := ret;
    var i := 0;
    while i < space
      invariant 0 <= i <= space
      invariant ret == head + Repeat(' ', i)
    {
      ret := ret + " ";
      i := i + 1;
    }
    ghost var spaced := ret;
    i := 0;
    while i < count
      invariant 0 <= i <= count
      invariant ret == spaced + Repeat('^', i)
    {
      ret := ret + "^";
      i := i + 1;
    }
    ret := ret + "\n";
  }

  /** The caret row under a located line: it starts with `beg_column - 1`
      spaces and then carries at least one caret; on a one-line span the
      carets sit exactly under columns `beg_column` to `end_column - 1`
      (1-based), and a span over several lines gets a single caret. */
  lemma {:induction false} CaretMarksTheSpan(loc: Location, ln: string)
    requires loc.begColumn > 0 && loc.begLine > 0
    ensures var r := ErrorLine(loc, Some(ln));
      && |r| == |ln| + loc.begColumn + CaretCount(loc) + 1
      && r[..|ln|] == ln && r[|ln|] == '\n' && r[|r| - 1] == '\n'
    ensures var r := ErrorLine(loc, Some(ln));
      var row := r[|ln| + 1 .. |r| - 1];
      && |row| == loc.begColumn - 1 + CaretCount(loc)
      && CaretCount(loc) >= 1
      && (forall k :: 0 <= k < loc.begColumn - 1 ==> row[k] == ' ')
      && (forall k :: loc.begColumn - 1 <= k < |row| ==> row[k] == '^')
      && (loc.endLine != loc.begLine ==> CaretCount(loc) == 1)
      && (loc.endLine == loc.begLine && loc.endColumn > loc.begColumn ==>
            |row| == loc.endColumn - 1)
  {
    var sp := Repeat(' ', CaretIndent(loc));
    var cs := Repeat('^', CaretCount(loc));
    var r := ErrorLine(loc, Some(ln));
    assert r == ln + "\n" + sp + cs + "\n";
    var row := r[|ln| + 1 .. |r| - 1];
    assert row == sp + cs;
  }

  /** Without a line or a column there is nothing to point at. */
  lemma NoLocationNoCaret(loc: Location, sourceLine: Option<string>)
    requires loc.begColumn == 0 || loc.begLine == 0 || sourceLine.None?
    ensures ErrorLine(loc, sourceLine) == ""
  {
  }

  // ---------------------------------------------------------------------
  // Diagnostic::print
  // ---------------------------------------------------------------------

  function SeverityPrefix(t: DiagnosticType): (p: string)
    ensures t.DiagnosticType_Other? <==> p == ""
    ensures t.DiagnosticType_Error? ==> p == "error: "
    ensures t.DiagnosticType_Warning? ==> p == "warning: "
    ensures t.DiagnosticType_Info? ==> p == "info: "
  {
    match t
    case DiagnosticType_Error => "error: "
    case DiagnosticType_Warning => "warning: "
    case DiagnosticType_Info => "info: "
    case DiagnosticType_Other(_) => ""
  }

  /** `Diagnostic::print`: location, ":", the severity prefix, the
      message and a newline, then the caret block. `formatLoc` is the
      stream operator of `Location`, which is not part of this model. */
  function Print(d: Diagnostic, formatLoc: Location -> string, sourceLine: Option<string>): (out: string)
    ensures var loc, p, msg := formatLoc(d.loc), SeverityPrefix(d.dtype), d.message;
            var n := |loc| + 1 + |p| + |msg|;
            |out| == n + 1 + |ErrorLine(d.loc, sourceLine)| &&
            out[..|loc|] == loc && out[|loc|] == ':' && out[|loc| + 1..|loc| + 1 + |p|] == p &&
            out[|loc| + 1 + |p|..n] == msg && out[n] == '\n' && out[n + 1..] == ErrorLine(d.loc, sourceLine)
  {
    formatLoc(d.loc) + ":" + SeverityPrefix(d.dtype) + d.message + "\n" + ErrorLine(d.loc, sourceLine)
  }

  /** The three named severities print differently: two diagnostics with
      the same location and message print the same text only when they
      have the same severity. */
  lemma {:induction false} PrintShowsSeverity(d1: Diagnostic, d2: Diagnostic, formatLoc: Location -> string,
                                              sourceLine: Option<string>)
    requires d1.loc == d2.loc && d1.message == d2.message
    requires !d1.dtype.DiagnosticType_Other? && !d2.dtype.DiagnosticType_Other?
    requires Print(d1, formatLoc, sourceLine) == Print(d2, formatLoc, sourceLine)
    ensures d1.dtype == d2.dtype
  {
    var p1, p2 := SeverityPrefix(d1.dtype), SeverityPrefix(d2.dtype);
    var tail := d1.message + "\n" + ErrorLine(d1.loc, sourceLine);
    var head := formatLoc(d1.loc) + ":";
    assert Print(d1, formatLoc, sourceLine) == head + p1 + tail;
    assert Print(d2, formatLoc, sourceLine) == head + p2 + tail;
    assert |p1| == |p2|;
  }

  // ---------------------------------------------------------------------
  // Parse results and the parser
  // ---------------------------------------------------------------------

  datatype ParseResult = ParseResult(package: string, filename: string, ast: seq<Node>, messages: seq<Diagnostic>)

  datatype ParseException = ParseException(what: string, loc: Location)

  /** One run of the generated grammar: the nodes its actions appended to
      the result, and the exception it threw, if any. */
  datatype GrammarRun = GrammarRun(nodes: seq<Node>, failure: Option<ParseException>)

  /** The file handle the parser reads: its name and whether it opened. */
  datatype FileReader = FileReader(filename: string, isOpen: bool)

  /** `newParseResult()` with the file name filled in. */
  function FreshResult(filename: string): ParseResult
  {
    ParseResult("", filename, [], [])
  }

  /** The result after the grammar ran once: the appended nodes, or, when
      the grammar threw, an empty tree and one more Error diagnostic
      carrying the exception's message and location. */
  function AfterGrammar(r: ParseResult, run: GrammarRun): (r': ParseResult)
  {
    match run.failure
    case None => r.(ast := r.ast + run.nodes)
    case Some(pe) => r.(ast := [], messages := r.messages + [Diagnostic(DiagnosticType_Error, pe.what, pe.loc)])
  }

  /** A failed run leaves no tree and exactly one new diagnostic, an error;
      a successful run keeps the diagnostics and appends its nodes. Name and
      package never change. */
  lemma GrammarOutcome(r: ParseResult, run: GrammarRun)
    ensures var r' := AfterGrammar(r, run);
      && r'.filename == r.filename && r'.package == r.package
      && (run.failure.Some? ==>
            && r'.ast == []
            && |r'.messages| == |r.messages| + 1
            && r'.messages[..|r.messages|] == r.messages
            && r'.messages[|r.messages|].dtype == DiagnosticType_Error
            && r'.messages[|r.messages|].message == run.failure.value.what
            && r'.messages[|r.messages|].loc == run.failure.value.loc)
      && (run.failure.None? ==> r'.messages == r.messages && r'.ast == r.ast + run.nodes)
  {
  }

  class Parser {
    const file: FileReader
    const run: GrammarRun
    var result: ParseResult
    var parsed: bool

    constructor (file: FileReader, run: GrammarRun)
      ensures this.file == file && this.run == run
      ensures result == FreshResult(file.filename) && !parsed
    {
      this.file := file;
      this.run := run;
      result := FreshResult(file.filename);
      parsed := false;
    }

    /** `Parser::parse`: runs the grammar at most once. */
    method Parse()
      modifies this
      ensures parsed
      ensures old(parsed) ==> result == old(result)
      ensures !old(parsed) ==> result == AfterGrammar(old(result), run)
    {
      if parsed {
        return;
      }
      parsed := true;
      result := result.(ast := result.ast + run.nodes);
      if run.failure.Some? {
        var pe := run.failure.value;
        result := result.(ast := []);
        result := result.(messages := result.messages + [Diagnostic(DiagnosticType_Error, pe.what, pe.loc)]);
      }
    }

    /** `Parser::result`: parses first, then hands out the result. */
    method Result() returns (r: ParseResult)
      modifies this
      ensures parsed && r == result
      ensures old(parsed) ==> r == old(result)
      ensures !old(parsed) ==> r == AfterGrammar(old(result), run)
    {
      Parse();
      r := result;
    }
  }

  /** Asking a parser for its result twice runs the grammar once: both
      answers are the single run's result. */
  method ResultTwice(file: FileReader, run: GrammarRun) returns (first: ParseResult, second: ParseResult)
    ensures first == second
    ensures first == AfterGrammar(FreshResult(file.filename), run)
  {
    var p := new Parser(file, run);
    first := p.Result();
    second := p.Result();
  }

  /** The free function `parse(file)`: an unopened file gives a result
      with the file name and one "Can't open file" error, and the parser
      is not run; otherwise the parser's result. */
  method ParseFile(file: FileReader, run: GrammarRun) returns (r: ParseResult)
    ensures r.filename == file.filename
    ensures !file.isOpen ==>
              r.ast == [] && r.messages == [Diagnostic(DiagnosticType_Error, "Can't open file '" + file.filename + "'", NoLocation)]
    ensures file.isOpen ==> r == AfterGrammar(FreshResult(file.filename), run)
  {
    r := FreshResult(file.filename);
    if !file.isOpen {
      r := r.(messages := r.messages + [Diagnostic(DiagnosticType_Error, "Can't open file '" + file.filename + "'", NoLocation)]);
      return;
    }
    var p := new Parser(file, run);
    r := p.Result();
  }
}
