/** The statistics record of the code-statistics engine and the single-pass,
    comment-aware line classifier that fills it (`CodeStatisticsCalculator`). */
module CodeStatistics {
  import opened Text
  import opened Patterns
  import opened Exceptions

  /** The four counters of a calculator, as a value. */
  datatype Counts = Counts(lines: nat, codeLines: nat, classes: nat, methods: nat)

  /** A freshly constructed calculator. */
  const Zero := Counts(0, 0, 0, 0)

  /** What `add` does to the counters: each one is the sum of the two. */
  function Merge(a: Counts, b: Counts): Counts {
    Counts(a.lines + b.lines, a.codeLines + b.codeLines, a.classes + b.classes, a.methods + b.methods)
  }

  /** The record invariant: no counter exceeds the number of lines read. */
  predicate WithinLines(c: Counts) {
    c.codeLines <= c.lines && c.classes <= c.lines && c.methods <= c.lines
  }

  /** What the classifier knows between two lines: the counters so far and
      whether it is inside a block comment (`comment_started`). */
  datatype Scanner = Scanner(counts: Counts, commentStarted: bool)

  /** The effect of one line: the classifier goes on, or the line raised an
      exception after the counters had reached `partial`. */
  datatype StepResult = Continue(next: Scanner) | Raise(partial: Counts, error: Error)

  /** The counters left behind by a pass over some lines, and how the pass ended. */
  datatype ScanResult = ScanResult(counts: Counts, outcome: Outcome)

  /** `rule in patterns and patterns[rule].match(line)`. */
  predicate Fires(ps: PatternSet, rule: Rule, line: string) {
    rule in ps && Matches(ps[rule], line)
  }

  /** The code-line test of `add_by_io`, with Python's precedence: `and` binds
      tighter than `or`, so the test reads
      `(not blank and 'line_comment' not in patterns) or not patterns['line_comment'].match(line)`.
      When the left operand is false the right one is evaluated, and it looks the
      key up whether or not it is there. With a line-comment rule, a line is code
      exactly when it is not a line comment, blank or not; without one, a blank line
      raises `KeyError`. */
  function CodeLineTest(ps: PatternSet, line: string): (r: Result<bool>)
    ensures LineComment in ps ==> r == Ok(!Matches(ps[LineComment], line))
    ensures LineComment !in ps && !Blank(line) ==> r == Ok(true)
    ensures LineComment !in ps && Blank(line) ==> r == Err(KeyError("line_comment"))
  {
    if !Blank(line) && LineComment !in ps then Ok(true)
    else if LineComment !in ps then Err(KeyError(KeyName(LineComment)))
    else Ok(!Matches(ps[LineComment], line))
  }

  /** One iteration of the loop of `add_by_io`. */
  function Step(ps: PatternSet, s: Scanner, line: string): StepResult {
    var read := s.counts.(lines := s.counts.lines + 1);
    if s.commentStarted then
      Continue(Scanner(read, !Fires(ps, EndBlockComment, line)))
    else if Fires(ps, BeginBlockComment, line) then
      Continue(Scanner(read, true))
    else
      var declared := read.(classes := read.classes + (if Fires(ps, ClassDecl, line) then 1 else 0),
                            methods := read.methods + (if Fires(ps, MethodDecl, line) then 1 else 0));
      match CodeLineTest(ps, line)
      case Err(e) => Raise(declared, e)
      case Ok(isCode) =>
        Continue(Scanner(declared.(codeLines := declared.codeLines + if isCode then 1 else 0), false))
  }

  /** The whole loop of `add_by_io`, from the scanner state `s`: the lines in order,
      stopping at the first one that raises. */
  function Run(ps: PatternSet, s: Scanner, lines: seq<string>): ScanResult
    decreases |lines|
  {
    if |lines| == 0 then ScanResult(s.counts, Normal)
    else
      match Step(ps, s, lines[0])
      case Continue(next) => Run(ps, next, lines[1..])
      case Raise(partial, e) => ScanResult(partial, Raised(e))
  }

  /** `os.path.join(directory, name)` for a name without a slash, as `os.walk` yields. */
  function JoinPath(directory: string, name: string): (path: string)
    ensures EndsWith(path, name)
  {
    if directory == [] || directory[|directory| - 1] == '/' then directory + name
    else directory + "/" + name
  }

  /** `CodeStatisticsCalculator`: four counters updated in place. */
  class Calculator {
    var lines: nat
    var codeLines: nat
    var classes: nat
    var methods: nat

    /** `__init__`, whose arguments all default to 0. */
    constructor (lines: nat := 0, codeLines: nat := 0, classes: nat := 0, methods: nat := 0)
      ensures Value() == Counts(lines, codeLines, classes, methods)
    {
      this.lines := lines;
      this.codeLines := codeLines;
      this.classes := classes;
      this.methods := methods;
    }

    /** The counters as a value. */
    function Value(): Counts
      reads this
    {
      Counts(lines, codeLines, classes, methods)
    }

    /** `add`: adds the other calculator's counters to this one's. The other
        calculator may be this one; each counter is read before it is written. */
    method Add(other: Calculator)
      modifies this
      ensures Value() == Merge(old(Value()), old(other.Value()))
    {
      lines := lines + other.lines;
      codeLines := codeLines + other.codeLines;
      classes := classes + other.classes;
      methods := methods + other.methods;
    }

    /** `add_by_file_path`, with the file's lines given instead of read. */
    method AddByFilePath(filePath: string, contents: seq<string>) returns (outcome: Outcome)
      modifies this
      ensures ScanResult(Value(), outcome)
        == Run(PatternsFor(FileType(filePath)), Scanner(old(Value()), false), contents)
    {
      outcome := AddByIo(contents, FileType(filePath));
    }

    /** `add_by_io`: classifies the lines one by one, updating the counters in place.
        A raised exception leaves the counters as far as they got. */
    method AddByIo(io: seq<string>, fileType: string) returns (outcome: Outcome)
      modifies this
      ensures ScanResult(Value(), outcome) == Run(PatternsFor(fileType), Scanner(old(Value()), false), io)
    {
      var patterns: PatternSet;
      if fileType in Registry {
        patterns := Registry[fileType];
      } else {
        patterns := map[];
      }
      var commentStarted := false;
      for i := 0 to |io|
        invariant Run(patterns, Scanner(Value(), commentStarted), io[i..])
          == Run(patterns, Scanner(old(Value()), false), io)
      {
        assert io[i..][0] == io[i] && io[i..][1..] == io[i + 1..];
        var raised;
        commentStarted, raised := ReadLine(patterns, commentStarted, io[i]);
        if raised.Raised? {
          return raised;
        }
      }
      outcome := Normal;
    }

    /** The body of the loop of `add_by_io`: one line read in the given comment state.
        Returns the new comment state, or the exception the line raised. */
    method ReadLine(patterns: PatternSet, commentStarted: bool, line: string)
      returns (nowInComment: bool, outcome: Outcome)
      modifies this
      ensures match Step(patterns, Scanner(old(Value()), commentStarted), line)
        case Continue(next) => outcome == Normal && next == Scanner(Value(), nowInComment)
        case Raise(partial, e) => outcome == Raised(e) && partial == Value()
    {
      nowInComment := commentStarted;
      outcome := Normal;
      lines := lines + 1;
      if commentStarted {
        if Fires(patterns, EndBlockComment, line) {
          nowInComment := false;
        }
        return;
      } else if Fires(patterns, BeginBlockComment, line) {
        nowInComment := true;
        return;
      }

      if Fires(patterns, ClassDecl, line) {
        classes := classes + 1;
      }
      if Fires(patterns, MethodDecl, line) {
        methods := methods + 1;
      }
      if !Blank(line) && LineComment !in patterns {
        codeLines := codeLines + 1;
      } else if LineComment !in patterns {
        outcome := Raised(KeyError("line_comment"));
      } else if !Matches(patterns[LineComment], line) {
        codeLines := codeLines + 1;
      }
    }

    /** `os.path.splitext(path)[1]` on a POSIX path: from the last dot of the last
        path component on, unless everything before that dot in the component is a
        dot too (so `.bashrc` has no extension); `""` when there is no extension. */
    static function SplitExt(path: string): (ext: string)
      ensures ext == [] || (EndsWith(path, ext) && ext[0] == '.')
      ensures forall i :: 1 <= i < |ext| ==> ext[i] != '.' && ext[i] != '/'
    {
      var sep := LastIndexOf(path, '/');
      var dot := LastIndexOf(path, '.');
      if sep < dot && !DotsBetween(path, sep + 1, dot) then
        path[dot..]
      else []
    }

    /** `_file_type`: the extension without its dot (`re.sub('\A\.', '', ...)`), lower-cased.
        It holds no dot and no slash, and a path without a dot has the empty type. */
    static function FileType(path: string): (r: string)
      ensures '.' !in r && '/' !in r
      ensures '.' !in path ==> r == []
      ensures |r| < |path| || r == []
    {
      var ext := SplitExt(path);
      var stripped := if |ext| > 0 && ext[0] == '.' then ext[1..] else ext;
      LowerProperties(stripped);
      Lower(stripped)
    }
  }
}
