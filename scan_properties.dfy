/** What the statistics record and the line classifier guarantee. */
module ScanProperties {
  import opened Text
  import opened Patterns
  import opened Exceptions
  import opened CodeStatistics

  // ---- The record: `add` is field-wise addition ----

  lemma MergeCommutative(a: Counts, b: Counts)
    ensures Merge(a, b) == Merge(b, a)
  {
  }

  lemma MergeAssociative(a: Counts, b: Counts, c: Counts)
    ensures Merge(a, Merge(b, c)) == Merge(Merge(a, b), c)
  {
  }

  /** A zero-initialised calculator changes nothing when merged, on either side. */
  lemma MergeZero(a: Counts)
    ensures Merge(a, Zero) == a && Merge(Zero, a) == a
  {
  }

  /** Merging keeps every counter within the number of lines. */
  lemma MergeWithinLines(a: Counts, b: Counts)
    requires WithinLines(a) && WithinLines(b)
    ensures WithinLines(Merge(a, b))
  {
  }

  // ---- The classifier: one line ----

  /** Inside a block comment a line only counts as read, the closing line included. */
  lemma CommentLineCountsOnlyAsRead(ps: PatternSet, s: Scanner, line: string)
    requires s.commentStarted
    ensures Step(ps, s, line)
      == Continue(Scanner(s.counts.(lines := s.counts.lines + 1), !Fires(ps, EndBlockComment, line)))
  {
  }

  /** A line that opens a block comment only counts as read, and starts the comment. */
  lemma OpeningLineCountsOnlyAsRead(ps: PatternSet, s: Scanner, line: string)
    requires !s.commentStarted && Fires(ps, BeginBlockComment, line)
    ensures Step(ps, s, line) == Continue(Scanner(s.counts.(lines := s.counts.lines + 1), true))
  {
  }

  /** In a registered language, a line read in code state is code exactly when it is
      not a line comment; class and method declarations are counted independently. */
  lemma RegisteredCodeLine(ft: string, s: Scanner, line: string)
    requires ft in Registry
    requires !s.commentStarted && !Fires(Registry[ft], BeginBlockComment, line)
    ensures var ps := Registry[ft];
      Step(ps, s, line) == Continue(Scanner(Counts(
        s.counts.lines + 1,
        s.counts.codeLines + (if Matches(ps[LineComment], line) then 0 else 1),
        s.counts.classes + (if Fires(ps, ClassDecl, line) then 1 else 0),
        s.counts.methods + (if Fires(ps, MethodDecl, line) then 1 else 0)), false))
  {
    assert LineComment in Registry[ft];
  }

  /** In a registered language a blank line read in code state counts as code:
      it matches no rule, and the line-comment test is all that decides. */
  lemma BlankLineCountsAsCode(ft: string, s: Scanner, line: string)
    requires ft in Registry && !s.commentStarted && Blank(line)
    ensures Step(Registry[ft], s, line)
      == Continue(Scanner(s.counts.(lines := s.counts.lines + 1, codeLines := s.counts.codeLines + 1), false))
  {
    var ps := Registry[ft];
    forall rule | rule in ps ensures !Matches(ps[rule], line) {
      BlankMatchesNothing(ft, rule, line);
    }
    RegisteredCodeLine(ft, s, line);
  }

  // ---- The classifier: a whole file ----

  /** Every line read raises `lines` by one, whatever the comment state: a pass that
      ends normally has read them all, one that raises stopped part way. */
  lemma {:induction false} RunReadsEveryLine(ps: PatternSet, s: Scanner, lines: seq<string>)
    ensures var r := Run(ps, s, lines);
      && (r.outcome == Normal ==> r.counts.lines == s.counts.lines + |lines|)
      && (r.outcome.Raised? ==> s.counts.lines < r.counts.lines <= s.counts.lines + |lines|)
    decreases |lines|
  {
    if |lines| > 0 {
      match Step(ps, s, lines[0])
      case Continue(next) => RunReadsEveryLine(ps, next, lines[1..]);
      case Raise(_, _) =>
    }
  }

  /** During one pass, code lines, classes and methods each grow by at most as much as
      lines do, and no counter ever shrinks. */
  lemma {:induction false} RunGrowthBounded(ps: PatternSet, s: Scanner, lines: seq<string>)
    ensures var r := Run(ps, s, lines).counts;
      && s.counts.lines <= r.lines
      && s.counts.codeLines <= r.codeLines && s.counts.classes <= r.classes && s.counts.methods <= r.methods
      && r.codeLines - s.counts.codeLines <= r.lines - s.counts.lines
      && r.classes - s.counts.classes <= r.lines - s.counts.lines
      && r.methods - s.counts.methods <= r.lines - s.counts.lines
    decreases |lines|
  {
    if |lines| > 0 {
      match Step(ps, s, lines[0])
      case Continue(next) => RunGrowthBounded(ps, next, lines[1..]);
      case Raise(_, _) =>
    }
  }

  /** So a calculator that starts within bounds (a zero one does) stays within them. */
  lemma RunKeepsWithinLines(ps: PatternSet, s: Scanner, lines: seq<string>)
    requires WithinLines(s.counts)
    ensures WithinLines(Run(ps, s, lines).counts)
  {
    RunGrowthBounded(ps, s, lines);
  }

  /** A registered language never raises: its line-comment rule is always there. */
  lemma {:induction false} RegisteredNeverRaises(ft: string, s: Scanner, lines: seq<string>)
    requires ft in Registry
    ensures Run(Registry[ft], s, lines).outcome == Normal
    decreases |lines|
  {
    assert LineComment in Registry[ft];
    if |lines| > 0 {
      match Step(Registry[ft], s, lines[0])
      case Continue(next) => RegisteredNeverRaises(ft, next, lines[1..]);
    }
  }

  /** An unterminated block comment: every remaining line counts as read and as
      nothing else. */
  lemma {:induction false} UnterminatedCommentSkipsRest(ps: PatternSet, s: Scanner, lines: seq<string>)
    requires s.commentStarted
    requires forall i :: 0 <= i < |lines| ==> !Fires(ps, EndBlockComment, lines[i])
    ensures Run(ps, s, lines) == ScanResult(s.counts.(lines := s.counts.lines + |lines|), Normal)
    decreases |lines|
  {
    if |lines| > 0 {
      var next := Scanner(s.counts.(lines := s.counts.lines + 1), true);
      assert Step(ps, s, lines[0]) == Continue(next);
      assert forall i :: 0 <= i < |lines[1..]| ==> lines[1..][i] == lines[i + 1];
      UnterminatedCommentSkipsRest(ps, next, lines[1..]);
    }
  }

  /** A file type without patterns and a file without blank lines: every line is code,
      and classes and methods stay as they were. */
  lemma {:induction false} UnregisteredWithoutBlankLines(s: Scanner, lines: seq<string>)
    requires !s.commentStarted
    requires forall i :: 0 <= i < |lines| ==> !Blank(lines[i])
    ensures Run(map[], s, lines)
      == ScanResult(s.counts.(lines := s.counts.lines + |lines|, codeLines := s.counts.codeLines + |lines|), Normal)
    decreases |lines|
  {
    if |lines| > 0 {
      var next := Scanner(s.counts.(lines := s.counts.lines + 1, codeLines := s.counts.codeLines + 1), false);
      assert Step(map[], s, lines[0]) == Continue(next);
      assert forall i :: 0 <= i < |lines[1..]| ==> lines[1..][i] == lines[i + 1];
      UnregisteredWithoutBlankLines(next, lines[1..]);
    }
  }

  /** A file type without patterns and a blank line at index `k`: the lines before it
      are code, and the blank line itself raises `KeyError('line_comment')` once it has
      been counted as read. */
  lemma {:induction false} UnregisteredRaisesAtFirstBlankLine(s: Scanner, lines: seq<string>, k: nat)
    requires !s.commentStarted
    requires k < |lines| && Blank(lines[k])
    requires forall i :: 0 <= i < k ==> !Blank(lines[i])
    ensures Run(map[], s, lines) == ScanResult(
      s.counts.(lines := s.counts.lines + k + 1, codeLines := s.counts.codeLines + k),
      Raised(KeyError("line_comment")))
    decreases k
  {
    if k == 0 {
      assert Step(map[], s, lines[0]) == Raise(s.counts.(lines := s.counts.lines + 1), KeyError("line_comment"));
    } else {
      var next := Scanner(s.counts.(lines := s.counts.lines + 1, codeLines := s.counts.codeLines + 1), false);
      assert Step(map[], s, lines[0]) == Continue(next);
      assert forall i :: 0 <= i < |lines[1..]| ==> lines[1..][i] == lines[i + 1];
      UnregisteredRaisesAtFirstBlankLine(next, lines[1..], k - 1);
    }
  }

  /** A line comment of a registered language is never also a class or method declaration. */
  lemma LineCommentIsNoDeclaration(ft: string, line: string)
    requires ft in Registry && Matches(Registry[ft][LineComment], line)
    ensures !Fires(Registry[ft], ClassDecl, line) && !Fires(Registry[ft], MethodDecl, line)
  {
    RegistryShape();
    if ft == "py" {
      HashCommentIsNoDeclaration(PyPatterns, line);
    } else if ft == "js" {
      SlashCommentIsNoDeclaration(line);
    } else {
      HashCommentIsNoDeclaration(CoffeePatterns, line);
    }
  }

  lemma HashCommentIsNoDeclaration(ps: PatternSet, line: string)
    requires ps == PyPatterns || ps == CoffeePatterns
    requires Matches(ps[LineComment], line)
    ensures !Fires(ps, ClassDecl, line) && !Fires(ps, MethodDecl, line)
  {
    var t := DropSpace(line);
    assert |t| >= 1 ==> t[..1][0] == t[0];
    assert |t| >= 3 ==> t[..3][0] == t[0];
    assert |t| >= 5 ==> t[..5][0] == t[0];
    assert |line| >= 2 ==> line[..2][0] == line[0];
  }

  lemma SlashCommentIsNoDeclaration(line: string)
    requires Matches(JsPatterns[LineComment], line)
    ensures !Fires(JsPatterns, ClassDecl, line) && !Fires(JsPatterns, MethodDecl, line)
  {
    var t := DropSpace(line);
    assert |t| >= 2 ==> t[..2][0] == t[0];
    assert |line| >= 8 ==> line[..8][0] == line[0];
  }

  /** A file of one line that is only a line comment: one line read, no code, no
      declaration, whether or not the line also opens a block comment. */
  lemma LineCommentOnlyFile(ft: string, line: string)
    requires ft in Registry && Matches(Registry[ft][LineComment], line)
    ensures Run(Registry[ft], Scanner(Zero, false), [line]) == ScanResult(Counts(1, 0, 0, 0), Normal)
  {
    assert [line][1..] == [];
    if !Fires(Registry[ft], BeginBlockComment, line) {
      LineCommentIsNoDeclaration(ft, line);
      RegisteredCodeLine(ft, Scanner(Zero, false), line);
    }
  }

  // ---- Where a pass starts ----

  /** A result with `acc` added to its counters. */
  function Shifted(acc: Counts, r: ScanResult): ScanResult {
    ScanResult(Merge(acc, r.counts), r.outcome)
  }

  /** One line adds the same to the counters whatever they were before. */
  lemma StepFromAnyStart(ps: PatternSet, acc: Counts, c: Counts, inComment: bool, line: string)
    ensures var shifted := Step(ps, Scanner(Merge(acc, c), inComment), line);
      match Step(ps, Scanner(c, inComment), line)
      case Continue(next) => shifted == Continue(Scanner(Merge(acc, next.counts), next.commentStarted))
      case Raise(partial, e) => shifted == Raise(Merge(acc, partial), e)
  {
  }

  /** A pass adds the same to the counters whatever they were before, and ends the
      same way: a calculator's record does not depend on what it held already. */
  lemma {:induction false} RunFromAnyStart(ps: PatternSet, acc: Counts, c: Counts, inComment: bool, lines: seq<string>)
    ensures Run(ps, Scanner(Merge(acc, c), inComment), lines) == Shifted(acc, Run(ps, Scanner(c, inComment), lines))
    decreases |lines|
  {
    if |lines| > 0 {
      StepFromAnyStart(ps, acc, c, inComment, lines[0]);
      match Step(ps, Scanner(c, inComment), lines[0])
      case Continue(next) => RunFromAnyStart(ps, acc, next.counts, next.commentStarted, lines[1..]);
      case Raise(_, _) =>
    }
  }

  /** `add_by_io` on a calculator holding `acc` leaves `acc` merged with what a
      zero calculator would hold. */
  lemma RunFromZero(ps: PatternSet, acc: Counts, lines: seq<string>)
    ensures Run(ps, Scanner(acc, false), lines) == Shifted(acc, Run(ps, Scanner(Zero, false), lines))
  {
    MergeZero(acc);
    RunFromAnyStart(ps, acc, Zero, false, lines);
  }
}
