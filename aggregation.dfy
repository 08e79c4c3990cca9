/** The category aggregator of `CodeStats`: which walked files are scanned, the
    statistics of one category's directory, the name-to-statistics map and the
    grand total, together with the split of code lines into code and tests. */
module Aggregation {
  import opened Text
  import opened Patterns
  import opened Exceptions
  import opened CodeStatistics

  /** One file as the directory walk yields it: the directory it was found in,
      its name, and the lines `readlines()` would return for it. */
  datatype WalkedFile = WalkedFile(directory: string, name: string, contents: seq<string>)

  /** One `(name, directory)` pair given to `CodeStats`, with the files a walk of
      the directory yields, in the order they are yielded. */
  datatype Category = Category(name: string, directory: string, walk: seq<WalkedFile>)

  /** The name without one final newline: `$` also matches just before it. */
  function WithoutFinalNewline(fname: string): (body: string)
    ensures body == fname || (fname == body + "\n")
  {
    if |fname| > 0 && fname[|fname| - 1] == '\n' then fname[..|fname| - 1] else fname
  }

  /** `re.match('.*\.(py|js|coffee)$', fname)` succeeds: `.*` takes no newline, so
      the name is a newline-free part ending in one of the three extensions,
      possibly followed by a single newline. Case-sensitive. */
  predicate IsSourceFileName(fname: string) {
    var body := WithoutFinalNewline(fname);
    '\n' !in body && (EndsWith(body, ".py") || EndsWith(body, ".js") || EndsWith(body, ".coffee"))
  }

  /** What `_calculate_directory_statistics` computes from the counters `acc` on:
      every walked file whose name passes the filter is scanned, with the type
      of its joined path, until one of them raises. */
  function ScanWalk(acc: Counts, walk: seq<WalkedFile>): ScanResult
    decreases |walk|
  {
    if |walk| == 0 then ScanResult(acc, Normal)
    else
      var f := walk[0];
      if !IsSourceFileName(f.name) then ScanWalk(acc, walk[1..])
      else
        var path := JoinPath(f.directory, f.name);
        var r := Run(PatternsFor(Calculator.FileType(path)), Scanner(acc, false), f.contents);
        if r.outcome.Raised? then r else ScanWalk(r.counts, walk[1..])
  }

  /** `_calculate_directory_statistics`: a fresh calculator to which every file
      passing the filter is added by path. */
  method CalculateDirectoryStatistics(walk: seq<WalkedFile>) returns (stats: Calculator, outcome: Outcome)
    ensures fresh(stats)
    ensures ScanResult(stats.Value(), outcome) == ScanWalk(Zero, walk)
  {
    stats := new Calculator();
    for i := 0 to |walk|
      invariant ScanWalk(stats.Value(), walk[i..]) == ScanWalk(Zero, walk)
    {
      assert walk[i..][0] == walk[i] && walk[i..][1..] == walk[i + 1..];
      var f := walk[i];
      if IsSourceFileName(f.name) {
        outcome := stats.AddByFilePath(JoinPath(f.directory, f.name), f.contents);
        if outcome.Raised? {
          return;
        }
      }
    }
    outcome := Normal;
  }

  /** The names of the categories, as a set. */
  function Names(pairs: seq<Category>): (names: set<string>)
    ensures forall i :: 0 <= i < |pairs| ==> pairs[i].name in names
    ensures forall n :: n in names ==> exists i :: 0 <= i < |pairs| && pairs[i].name == n
  {
    if |pairs| == 0 then {} else {pairs[0].name} + Names(pairs[1..])
  }

  /** `_calculate_statistics`, a dictionary comprehension: the categories in order,
      each name bound to its directory's statistics (a later pair with the same
      name replaces an earlier one); an exception in any directory ends it. */
  function StatisticsFrom(m: map<string, Counts>, pairs: seq<Category>): (r: Result<map<string, Counts>>)
    ensures r.Ok? ==> r.value.Keys == m.Keys + Names(pairs)
    decreases |pairs|
  {
    if |pairs| == 0 then Ok(m)
    else
      var s := ScanWalk(Zero, pairs[0].walk);
      match s.outcome
      case Raised(e) => Err(e)
      case Normal => StatisticsFrom(m[pairs[0].name := s.counts], pairs[1..])
  }

  function Statistics(pairs: seq<Category>): (r: Result<map<string, Counts>>)
    ensures r.Ok? ==> r.value.Keys == Names(pairs)
  {
    StatisticsFrom(map[], pairs)
  }

  // ---- The grand total ----

  /** The total as intended: every category's record, looked up by its name, merged
      in the order of the pairs. */
  function TotalOf(pairs: seq<Category>, statistics: map<string, Counts>): Counts
    requires forall i :: 0 <= i < |pairs| ==> pairs[i].name in statistics
    decreases |pairs|
  {
    if |pairs| == 0 then Zero
    else
      Merge(statistics[pairs[0].name], TotalOf(pairs[1..], statistics))
  }

  /** `_calculate_total` as intended: `stats.add(self.statistics[pair[0]])` for every
      pair, into a fresh calculator. */
  method CalculateTotal(pairs: seq<Category>, statistics: map<string, Counts>) returns (stats: Calculator)
    requires Names(pairs) <= statistics.Keys
    ensures fresh(stats)
    ensures stats.Value() == TotalOf(pairs, statistics)
  {
    stats := new Calculator();
    for i := 0 to |pairs|
      invariant fresh(stats)
      invariant Merge(stats.Value(), TotalOf(pairs[i..], statistics)) == TotalOf(pairs, statistics)
    {
      TotalOfStep(pairs, statistics, i);
      var v := statistics[pairs[i].name];
      var record := new Calculator(v.lines, v.codeLines, v.classes, v.methods);
      stats.Add(record);
    }
    TotalOfNothing(pairs[|pairs|..], statistics, stats.Value());
  }

  /** Once no pair is left, the total of the rest adds nothing. */
  lemma TotalOfNothing(rest: seq<Category>, statistics: map<string, Counts>, acc: Counts)
    requires |rest| == 0
    ensures Merge(acc, TotalOf(rest, statistics)) == acc
  {
  }

  /** Taking the next pair off the front: its record merged with the total of the rest. */
  lemma TotalOfStep(pairs: seq<Category>, statistics: map<string, Counts>, i: nat)
    requires i < |pairs| && forall j :: i <= j < |pairs| ==> pairs[j].name in statistics
    ensures TotalOf(pairs[i..], statistics)
      == Merge(statistics[pairs[i].name], TotalOf(pairs[i + 1..], statistics))
  {
    assert pairs[i..][0] == pairs[i] && pairs[i..][1..] == pairs[i + 1..];
  }

  /** A value `add` may be handed: a statistics record, or (as line 138 hands it)
      the directory string of a pair. */
  datatype Operand = Record(counts: Counts) | Str(text: string)

  /** `add` applied to any operand: a string has no attribute `lines`, the first one
      `add` reads. */
  function AddOperand(acc: Counts, operand: Operand): Result<Counts>
  {
    match operand
    case Record(c) => Ok(Merge(acc, c))
    case Str(_) => Err(AttributeError("lines"))
  }

  /** `stats.add(x)` for every operand in order, into the counters `acc`. */
  function AddAll(acc: Counts, operands: seq<Operand>): Result<Counts>
    decreases |operands|
  {
    if |operands| == 0 then Ok(acc)
    else
      match AddOperand(acc, operands[0])
      case Err(e) => Err(e)
      case Ok(next) => AddAll(next, operands[1..])
  }

  /** What line 138 hands to `add`: the last element of each pair, its directory. */
  function DirectoryOperands(pairs: seq<Category>): (ops: seq<Operand>)
    ensures |ops| == |pairs|
    ensures forall i :: 0 <= i < |pairs| ==> ops[i] == Str(pairs[i].directory)
  {
    if |pairs| == 0 then [] else [Str(pairs[0].directory)] + DirectoryOperands(pairs[1..])
  }

  /** `_calculate_total` as written: `stats.add(pair[-1])` for every pair. */
  function TotalAsWritten(pairs: seq<Category>): Result<Counts> {
    AddAll(Zero, DirectoryOperands(pairs))
  }

  // ---- Code lines and test lines ----

  /** `TEST_TYPES`: the category names whose code lines count as tests. */
  const TestTypes: seq<string> := [
    "Controller tests",
    "Helper tests",
    "Model tests",
    "Mailer tests",
    "Integration tests",
    "Functional tests (old)",
    "Unit tests (old)"
  ]

  /** The sum of `codeLines` over some names of the map, in no particular order. */
  ghost function CodeLinesOver(m: map<string, Counts>, keys: set<string>): nat
    requires keys <= m.Keys
    decreases keys
  {
    if keys == {} then 0
    else
      var k :| k in keys;
      m[k].codeLines + CodeLinesOver(m, keys - {k})
  }

  /** The names that are not test categories, and those that are. */
  function CodeKeys(keys: set<string>): set<string> {
    set k | k in keys && k !in TestTypes
  }

  function TestKeys(keys: set<string>): set<string> {
    set k | k in keys && k in TestTypes
  }

  /** `_calculate_code`: the code lines of every category not named in `TEST_TYPES`,
      visiting the dictionary's keys in whatever order it yields them. */
  method CalculateCode(statistics: map<string, Counts>) returns (codeLoc: nat)
    ensures codeLoc == CodeLinesOver(statistics, CodeKeys(statistics.Keys))
  {
    codeLoc := 0;
    var remaining := statistics.Keys;
    while remaining != {}
      invariant remaining <= statistics.Keys
      invariant codeLoc + CodeLinesOver(statistics, CodeKeys(remaining))
        == CodeLinesOver(statistics, CodeKeys(statistics.Keys))
      decreases remaining
    {
      var statsKey :| statsKey in remaining;
      if statsKey !in TestTypes {
        CodeLinesOverRemove(statistics, CodeKeys(remaining), statsKey);
        codeLoc := codeLoc + statistics[statsKey].codeLines;
        assert CodeKeys(remaining - {statsKey}) == CodeKeys(remaining) - {statsKey};
      } else {
        assert CodeKeys(remaining - {statsKey}) == CodeKeys(remaining);
      }
      remaining := remaining - {statsKey};
    }
  }

  /** `_calculate_tests`: the code lines of every category named in `TEST_TYPES`. */
  method CalculateTests(statistics: map<string, Counts>) returns (testLoc: nat)
    ensures testLoc == CodeLinesOver(statistics, TestKeys(statistics.Keys))
  {
    testLoc := 0;
    var remaining := statistics.Keys;
    while remaining != {}
      invariant remaining <= statistics.Keys
      invariant testLoc + CodeLinesOver(statistics, TestKeys(remaining))
        == CodeLinesOver(statistics, TestKeys(statistics.Keys))
      decreases remaining
    {
      var statsKey :| statsKey in remaining;
      if statsKey in TestTypes {
        CodeLinesOverRemove(statistics, TestKeys(remaining), statsKey);
        testLoc := testLoc + statistics[statsKey].codeLines;
        assert TestKeys(remaining - {statsKey}) == TestKeys(remaining) - {statsKey};
      } else {
        assert TestKeys(remaining - {statsKey}) == TestKeys(remaining);
      }
      remaining := remaining - {statsKey};
    }
  }

  /** The sum does not depend on which name is taken out first. */
  lemma {:induction false} CodeLinesOverRemove(m: map<string, Counts>, keys: set<string>, k: string)
    requires keys <= m.Keys && k in keys
    ensures CodeLinesOver(m, keys) == m[k].codeLines + CodeLinesOver(m, keys - {k})
    decreases keys
  {
    var j :| j in keys && CodeLinesOver(m, keys) == m[j].codeLines + CodeLinesOver(m, keys - {j});
    if j != k {
      CodeLinesOverRemove(m, keys - {j}, k);
      CodeLinesOverRemove(m, keys - {k}, j);
      assert keys - {j} - {k} == keys - {k} - {j};
    }
  }
}
