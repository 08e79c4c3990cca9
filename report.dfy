/** The report presenter of `CodeStats`: construction from the category pairs,
    the fixed-width table and the code-to-test summary line. */
module Report {
  import opened Text
  import opened Exceptions
  import opened CodeStatistics
  import opened Aggregation

  /** A constructed `CodeStats`: the pairs in display order, each name's record,
      and the total (`None` where the source stores `0`). */
  datatype CodeStats = CodeStats(pairs: seq<Category>, statistics: map<string, Counts>, total: Option<Counts>)

  /** `__init__`, with the total computed as intended. The statistics are computed
      first, so an exception in any directory ends construction; a total exists
      exactly when there is more than one pair, and it merges every pair's record. */
  method Init(pairs: seq<Category>) returns (r: Result<CodeStats>)
    ensures r.Ok? <==> Statistics(pairs).Ok?
    ensures Statistics(pairs).Err? ==> r == Err(Statistics(pairs).error)
    ensures r.Ok? ==> r.value.pairs == pairs && r.value.statistics == Statistics(pairs).value
    ensures r.Ok? ==> (r.value.total.Some? <==> |pairs| > 1)
    ensures r.Ok? && r.value.total.Some? ==> r.value.total.value == TotalOf(pairs, r.value.statistics)
  {
    var statistics := Statistics(pairs);
    if statistics.Err? {
      return Err(statistics.error);
    }
    var total := None;
    if |pairs| > 1 {
      var stats := CalculateTotal(pairs, statistics.value);
      total := Some(stats.Value());
    }
    r := Ok(CodeStats(pairs, statistics.value, total));
  }

  /** `__init__` exactly as written, with line 138 handing `add` each directory string. */
  function InitAsWritten(pairs: seq<Category>): Result<CodeStats> {
    match Statistics(pairs)
    case Err(e) => Err(e)
    case Ok(m) =>
      if |pairs| > 1 then
        match TotalAsWritten(pairs)
        case Err(e) => Err(e)
        case Ok(t) => Ok(CodeStats(pairs, m, Some(t)))
      else Ok(CodeStats(pairs, m, None))
  }

  // ---- The table ----

  /** `_header`, written in pieces of two columns each. */
  const Header: string := "| Name                 |" + " Lines |   LOC |" + " Classes | Methods |" + " M/C | LOC/M |"

  /** `_splitter`, written in pieces of two columns each. */
  const Splitter: string := "+----------------------+" + "-------+-------+" + "---------+---------+" + "-----+-------+"

  /** The format `"| {a} | {b} ... | {z} |"`: each cell between `"| "` and `" "`,
      and a closing bar. */
  function Row(cells: seq<string>): string {
    if |cells| == 0 then "|" else "| " + cells[0] + " " + Row(cells[1..])
  }

  /** `m_over_c`: methods per class, `0.0` when there is no class. */
  function MethodsPerClass(c: Counts): (r: real)
    ensures c.classes == 0 ==> r == 0.0
    ensures c.classes != 0 ==> r * c.classes as real == c.methods as real
    ensures r >= 0.0
  {
    if c.classes != 0 then c.methods as real / c.classes as real else 0.0
  }

  /** `loc_over_m`: code lines per method less two, `0.0` when there is no method.
      It is negative when there are fewer than two code lines per method. */
  function LocPerMethod(c: Counts): (r: real)
    ensures c.methods == 0 ==> r == 0.0
    ensures c.methods != 0 ==> (r + 2.0) * c.methods as real == c.codeLines as real
  {
    if c.methods != 0 then c.codeLines as real / c.methods as real - 2.0 else 0.0
  }

  /** The cells of one row of `_line`. `str` is Python's `str` on a float. */
  function LineCells(name: string, c: Counts, str: real -> string): (cells: seq<string>)
    ensures |cells| == 7
  {
    [LJust(name, 20),
     RJust(Decimal(c.lines), 5), RJust(Decimal(c.codeLines), 5),
     RJust(Decimal(c.classes), 7), RJust(Decimal(c.methods), 7),
     RJust(str(MethodsPerClass(c)), 3), RJust(str(LocPerMethod(c)), 5)]
  }

  /** `_line`. */
  function Line(name: string, c: Counts, str: real -> string): string {
    Row(LineCells(name, c, str))
  }

  /** The records `__str__` looks up for the pairs, in the order of the pairs; the
      first name without a record raises `KeyError`. */
  function PairRecords(pairs: seq<Category>, statistics: map<string, Counts>): (r: Result<seq<Counts>>)
    ensures r.Ok? ==> |r.value| == |pairs|
    decreases |pairs|
  {
    if |pairs| == 0 then Ok([])
    else
      match PairRecords(pairs[..|pairs| - 1], statistics)
      case Err(e) => Err(e)
      case Ok(records) =>
        var name := pairs[|pairs| - 1].name;
        if name !in statistics then Err(KeyError(name))
        else Ok(records + [statistics[name]])
  }

  /** The line of each pair's name with its record. */
  function Rendered(pairs: seq<Category>, records: seq<Counts>, str: real -> string): (rows: seq<string>)
    requires |records| == |pairs|
  {
    seq(|pairs|, i requires 0 <= i < |pairs| => Line(pairs[i].name, records[i], str))
  }

  /** One row per pair, in the order of the pairs. */
  function CategoryRows(pairs: seq<Category>, statistics: map<string, Counts>, str: real -> string)
    : (r: Result<seq<string>>)
    ensures r.Ok? ==> |r.value| == |pairs|
  {
    match PairRecords(pairs, statistics)
    case Err(e) => Err(e)
    case Ok(records) => Ok(Rendered(pairs, records, str))
  }

  /** The rows `__str__` collects before the summary line. */
  function Table(cs: CodeStats, str: real -> string): (r: Result<seq<string>>)
    ensures r.Ok? <==> CategoryRows(cs.pairs, cs.statistics, str).Ok?
  {
    match CategoryRows(cs.pairs, cs.statistics, str)
    case Err(e) => Err(e)
    case Ok(rows) =>
      var totalRows := if cs.total.Some? then [Line("Total", cs.total.value, str), Splitter] else [];
      Ok([Splitter, Header, Splitter] + rows + [Splitter] + totalRows)
  }

  /** `_code_test_stats` once the two sums are known. `tests / code` is evaluated
      first, as the first argument of `format`, so no code lines raise
      `ZeroDivisionError`; `fixed1` is the `{:.1f}` conversion. */
  function CodeTestLine(code: nat, tests: nat, fixed1: real -> string): (r: Result<string>)
    ensures r.Err? <==> code == 0
    ensures r.Err? ==> r.error == ZeroDivisionError
    ensures r.Ok? ==> StartsWith(r.value, "  Code LOC: " + Decimal(code) + "     Test LOC: " + Decimal(tests))
  {
    if code == 0 then Err(ZeroDivisionError)
    else
      var head := "  Code LOC: " + Decimal(code) + "     Test LOC: " + Decimal(tests);
      var r := head + "     Code to Test Ratio: 1:" + fixed1(tests as real / code as real);
      assert r[..|head|] == head;
      Ok(r)
  }

  /** After "1:" the summary line shows the `{:.1f}` form of the quotient of the test
      lines by the code lines. */
  lemma CodeTestLineRatio(code: nat, tests: nat, fixed1: real -> string, q: real)
    requires code != 0 && q * code as real == tests as real
    ensures CodeTestLine(code, tests, fixed1).Ok?
    ensures EndsWith(CodeTestLine(code, tests, fixed1).value, "     Code to Test Ratio: 1:" + fixed1(q))
  {
    assert q == tests as real / code as real;
    var head := "  Code LOC: " + Decimal(code) + "     Test LOC: " + Decimal(tests);
    var tail := "     Code to Test Ratio: 1:" + fixed1(q);
    var r := CodeTestLine(code, tests, fixed1).value;
    assert r == head + tail;
    assert r[|r| - |tail|..] == tail;
  }

  /** `_code_test_stats`. */
  method CodeTestStats(statistics: map<string, Counts>, fixed1: real -> string) returns (r: Result<string>)
    ensures r == CodeTestLine(CodeLinesOver(statistics, CodeKeys(statistics.Keys)),
                              CodeLinesOver(statistics, TestKeys(statistics.Keys)), fixed1)
  {
    var code := CalculateCode(statistics);
    var tests := CalculateTests(statistics);
    r := CodeTestLine(code, tests, fixed1);
  }

  /** `__str__`: the table rows, then the summary line, joined by newlines. */
  method ToString(cs: CodeStats, str: real -> string, fixed1: real -> string) returns (r: Result<string>)
    ensures Table(cs, str).Err? ==> r == Err(Table(cs, str).error)
    ensures Table(cs, str).Ok? ==>
      r == match CodeTestLine(CodeLinesOver(cs.statistics, CodeKeys(cs.statistics.Keys)),
                              CodeLinesOver(cs.statistics, TestKeys(cs.statistics.Keys)), fixed1)
        case Err(e) => Err(e)
        case Ok(summary) => Ok(JoinLines(Table(cs, str).value + [summary]))
  {
    var represents := CollectRows(cs, str);
    if represents.Err? {
      return Err(represents.error);
    }
    var summary := CodeTestStats(cs.statistics, fixed1);
    if summary.Err? {
      return Err(summary.error);
    }
    r := Ok(JoinLines(represents.value + [summary.value]));
  }

  /** The part of `__str__` that appends to `represents`, up to the summary line. */
  method CollectRows(cs: CodeStats, str: real -> string) returns (r: Result<seq<string>>)
    ensures r == Table(cs, str)
  {
    var head := [Splitter, Header, Splitter];
    var represents := head;
    for i := 0 to |cs.pairs|
      invariant PairRecords(cs.pairs[..i], cs.statistics).Ok?
      invariant represents == head + Rendered(cs.pairs[..i], PairRecords(cs.pairs[..i], cs.statistics).value, str)
    {
      PairRecordsStep(cs.pairs, cs.statistics, i);
      var name := cs.pairs[i].name;
      if name !in cs.statistics {
        ErrorPersists(cs.pairs, cs.statistics, i + 1);
        return Err(KeyError(name));
      }
      var row := Line(name, cs.statistics[name], str);
      ghost var records := PairRecords(cs.pairs[..i], cs.statistics).value;
      RenderedStep(cs.pairs, records, cs.statistics[name], str, i);
      AppendOne(head, Rendered(cs.pairs[..i], records, str), row);
      represents := represents + [row];
    }
    assert cs.pairs[..|cs.pairs|] == cs.pairs;
    represents := represents + [Splitter];
    var totalRows := [];
    if cs.total.Some? {
      totalRows := [Line("Total", cs.total.value, str), Splitter];
    }
    represents := represents + totalRows;
    r := Ok(represents);
  }

  lemma AppendOne<T>(head: seq<T>, rows: seq<T>, row: T)
    ensures head + (rows + [row]) == head + rows + [row]
  {
  }

  /** One more pair: its record is appended, or its missing name raises. */
  lemma PairRecordsStep(pairs: seq<Category>, statistics: map<string, Counts>, i: nat)
    requires i < |pairs|
    ensures var before := PairRecords(pairs[..i], statistics);
      var n := pairs[i].name;
      PairRecords(pairs[..i + 1], statistics)
        == if before.Err? then before
           else if n !in statistics then Err(KeyError(n))
           else Ok(before.value + [statistics[n]])
  {
    assert pairs[..i + 1][..i] == pairs[..i] && pairs[..i + 1][i] == pairs[i];
  }

  /** One more pair: its line is appended to the rows. */
  lemma RenderedStep(pairs: seq<Category>, records: seq<Counts>, record: Counts, str: real -> string, i: nat)
    requires i < |pairs| && |records| == i
    ensures Rendered(pairs[..i + 1], records + [record], str)
      == Rendered(pairs[..i], records, str) + [Line(pairs[i].name, record, str)]
  {
    var left := Rendered(pairs[..i + 1], records + [record], str);
    var right := Rendered(pairs[..i], records, str) + [Line(pairs[i].name, record, str)];
    forall j | 0 <= j <= i ensures left[j] == right[j] {
      if j < i {
        assert pairs[..i + 1][j] == pairs[..i][j];
      }
    }
  }

  /** Once some pair's name has no record, no later pair changes the error. */
  lemma {:induction false} ErrorPersists(pairs: seq<Category>, statistics: map<string, Counts>, k: nat)
    requires k <= |pairs| && PairRecords(pairs[..k], statistics).Err?
    ensures PairRecords(pairs, statistics) == PairRecords(pairs[..k], statistics)
    decreases |pairs| - k
  {
    if k < |pairs| {
      assert pairs[..k + 1][..k] == pairs[..k];
      ErrorPersists(pairs, statistics, k + 1);
    } else {
      assert pairs[..k] == pairs;
    }
  }
}
