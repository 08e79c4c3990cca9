/** What the report guarantees: the columns of every row line up with the
    header and the splitter, each counter can be read back from its cell, the
    rows come in the order of the pairs with the Total row only for several
    categories, and the summary line agrees with the total. */
module ReportProperties {
  import opened Text
  import opened Exceptions
  import opened CodeStatistics
  import opened Aggregation
  import opened AggregationProperties
  import opened Report
  import ScanProperties

  // ---- Rows of cells ----

  /** Where the bar before cell `k` stands in `Row(cells)`. */
  function Offset(cells: seq<string>, k: nat): nat
    requires k <= |cells|
  {
    if k == 0 then 0 else |cells[0]| + 3 + Offset(cells[1..], k - 1)
  }

  lemma {:induction false} RowLength(cells: seq<string>)
    ensures |Row(cells)| == Offset(cells, |cells|) + 1
    decreases |cells|
  {
    if |cells| > 0 {
      RowLength(cells[1..]);
    }
  }

  /** A bar stands before every cell and at the end, and each cell sits two
      characters after its bar. */
  lemma {:induction false} RowLayout(cells: seq<string>, k: nat)
    requires k <= |cells|
    ensures Offset(cells, k) < |Row(cells)| && Row(cells)[Offset(cells, k)] == '|'
    ensures k < |cells| ==>
      (Offset(cells, k) + 2 + |cells[k]| <= |Row(cells)|
       && Row(cells)[Offset(cells, k) + 2..Offset(cells, k) + 2 + |cells[k]|] == cells[k])
    decreases k
  {
    RowLength(cells);
    if k > 0 {
      var head := "| " + cells[0] + " ";
      assert Row(cells) == head + Row(cells[1..]);
      RowLayout(cells[1..], k - 1);
      var o := Offset(cells[1..], k - 1);
      assert Row(cells)[|head| + o] == Row(cells[1..])[o];
      if k < |cells| {
        assert cells[1..][k - 1] == cells[k];
        assert Row(cells)[|head| + o + 2..|head| + o + 2 + |cells[k]|]
          == Row(cells[1..])[o + 2..o + 2 + |cells[k]|];
      }
    } else if |cells| > 0 {
      var head := "| " + cells[0] + " ";
      assert Row(cells) == head + Row(cells[1..]);
      assert Row(cells)[2..2 + |cells[0]|] == head[2..2 + |cells[0]|] == cells[0];
    }
  }

  // ---- The line of one category ----

  /** The column widths of `_line`: name 20, lines 5, LOC 5, classes 7, methods 7,
      M/C 3, LOC/M 5. */
  const Widths: seq<nat> := [20, 5, 5, 7, 7, 3, 5]

  /** The positions of the column bars of a row whose cells have exactly those widths. */
  const Bars: seq<nat> := [0, 23, 31, 39, 49, 59, 65, 73]

  /** The header has its bars where a row of the table's widths has them. */
  lemma HeaderShape()
    ensures |Header| == 74
    ensures forall k :: 0 <= k < |Bars| ==> Header[Bars[k]] == '|'
  {
  }

  /** The splitter has a plus sign wherever a row of the table's widths has a bar. */
  lemma SplitterShape()
    ensures |Splitter| == 74
    ensures forall k :: 0 <= k < |Bars| ==> Splitter[Bars[k]] == '+'
  {
  }

  /** A row whose cells have exactly the widths of `_line` is as wide as the splitter,
      with its bars where the splitter has plus signs. */
  lemma {:induction false} FittingRowLayout(cells: seq<string>)
    requires |cells| == 7 && forall k :: 0 <= k < 7 ==> |cells[k]| == Widths[k]
    ensures |Row(cells)| == |Splitter|
    ensures forall k :: 0 <= k < |Bars| ==> Row(cells)[Bars[k]] == '|'
  {
    SplitterShape();
    OffsetsAreBars(cells, 7);
    RowLength(cells);
    forall k | 0 <= k < |Bars| ensures Row(cells)[Bars[k]] == '|' {
      OffsetsAreBars(cells, k);
      RowLayout(cells, k);
    }
  }

  /** The bars up to bar `k` stand where `Bars` says once the cells before it have
      their columns' widths; the later cells do not matter. */
  lemma {:induction false} OffsetsAreBars(cells: seq<string>, k: nat)
    requires |cells| == 7 && k < |Bars|
    requires forall j :: 0 <= j < k ==> |cells[j]| == Widths[j]
    ensures Offset(cells, k) == Bars[k]
    decreases k
  {
    if k > 0 {
      OffsetsAreBars(cells, k - 1);
      OffsetStep(cells, k - 1);
    }
  }

  /** Each cell moves the next bar by its width and three. */
  lemma {:induction false} OffsetStep(cells: seq<string>, k: nat)
    requires k < |cells|
    ensures Offset(cells, k + 1) == Offset(cells, k) + |cells[k]| + 3
    decreases k
  {
    if k > 0 {
      OffsetStep(cells[1..], k - 1);
    }
  }

  /** The bounds under which the name and the counters fit their columns: a name of
      at most 20 characters and counters of at most 5, 5, 7 and 7 digits. */
  predicate CountersFit(name: string, c: Counts) {
    |name| <= 20 && c.lines < Pow10(5) && c.codeLines < Pow10(5)
    && c.classes < Pow10(7) && c.methods < Pow10(7)
  }

  /** The bounds under which a whole line fits the table: the counters fit, and the
      ratios print in at most 3 and 5 characters. */
  predicate FitsTable(name: string, c: Counts, str: real -> string) {
    CountersFit(name, c)
    && |str(MethodsPerClass(c))| <= 3 && |str(LocPerMethod(c))| <= 5
  }

  /** The name and counter cells of a line whose counters fit are exactly as wide as
      their columns. */
  lemma CounterCells(name: string, c: Counts, str: real -> string)
    requires CountersFit(name, c)
    ensures forall k :: 0 <= k < 5 ==> |LineCells(name, c, str)[k]| == Widths[k]
  {
    DecimalLength(c.lines, 5);
    DecimalLength(c.codeLines, 5);
    DecimalLength(c.classes, 7);
    DecimalLength(c.methods, 7);
    LJustProperties(name, 20);
    RJustProperties(Decimal(c.lines), 5);
    RJustProperties(Decimal(c.codeLines), 5);
    RJustProperties(Decimal(c.classes), 7);
    RJustProperties(Decimal(c.methods), 7);
  }

  /** Every cell of a fitting line is exactly as wide as its column. */
  lemma FittingCells(name: string, c: Counts, str: real -> string)
    requires FitsTable(name, c, str)
    ensures forall k :: 0 <= k < 7 ==> |LineCells(name, c, str)[k]| == Widths[k]
  {
    CounterCells(name, c, str);
    RJustProperties(str(MethodsPerClass(c)), 3);
    RJustProperties(str(LocPerMethod(c)), 5);
  }

  /** A fitting line lines up with the header and the splitter. */
  lemma LineLayout(name: string, c: Counts, str: real -> string)
    requires FitsTable(name, c, str)
    ensures |Line(name, c, str)| == |Header| == |Splitter| == 74
    ensures forall k :: 0 <= k < |Bars| ==> Line(name, c, str)[Bars[k]] == '|' && Header[Bars[k]] == '|'
  {
    FittingCells(name, c, str);
    FittingRowLayout(LineCells(name, c, str));
    HeaderShape();
  }

  /** A name longer than 20 characters is not cut: it pushes the rest of the line right. */
  lemma LongNameWidensLine(name: string, c: Counts, str: real -> string)
    requires |name| > 20
    ensures Line(name, c, str)[2..2 + |name|] == name
  {
    LJustProperties(name, 20);
    RowLayout(LineCells(name, c, str), 0);
  }

  /** The name and the four counters can be read back from a line whose counters fit,
      however long the ratios print: the name padded with spaces, each counter
      right-aligned as its decimal digits, and the bar after the methods column. */
  lemma LineShowsCounts(name: string, c: Counts, str: real -> string)
    requires CountersFit(name, c)
    ensures |Line(name, c, str)| >= 60 && Line(name, c, str)[59] == '|'
    ensures Line(name, c, str)[2..22] == LJust(name, 20)
    ensures Line(name, c, str)[25..30] == RJust(Decimal(c.lines), 5)
    ensures Line(name, c, str)[33..38] == RJust(Decimal(c.codeLines), 5)
    ensures Line(name, c, str)[41..48] == RJust(Decimal(c.classes), 7)
    ensures Line(name, c, str)[51..58] == RJust(Decimal(c.methods), 7)
  {
    var cells := LineCells(name, c, str);
    CounterCells(name, c, str);
    OffsetsAreBars(cells, 5);
    RowLayout(cells, 5);
    LineCellAt(name, c, str, 0);
    LineCellAt(name, c, str, 1);
    LineCellAt(name, c, str, 2);
    LineCellAt(name, c, str, 3);
    LineCellAt(name, c, str, 4);
  }

  /** Cell `k` of a line sits two characters after bar `k`, once the cells before it
      fit their columns: the counters for cells up to the methods, the whole line for
      the ratio cells. */
  lemma LineCellAt(name: string, c: Counts, str: real -> string, k: nat)
    requires k < 7 && CountersFit(name, c) && (k >= 5 ==> FitsTable(name, c, str))
    ensures Bars[k] + 2 + Widths[k] <= |Line(name, c, str)|
    ensures Line(name, c, str)[Bars[k] + 2..Bars[k] + 2 + Widths[k]] == LineCells(name, c, str)[k]
  {
    var cells := LineCells(name, c, str);
    CounterCells(name, c, str);
    if k >= 5 {
      FittingCells(name, c, str);
    }
    OffsetsAreBars(cells, k);
    RowLayout(cells, k);
  }

  /** A right-aligned counter: spaces, then digits that denote the counter. */
  lemma CounterCellReadsBack(n: nat, width: nat)
    ensures var cell := RJust(Decimal(n), width);
      var k := |cell| - |Decimal(n)|;
      && Blank(cell[..k]) && cell[k..] == Decimal(n)
      && (forall i :: 0 <= i < |cell[k..]| ==> IsDigit(cell[k..][i]))
      && DecimalValue(cell[k..]) == n
  {
    RJustProperties(Decimal(n), width);
    DecimalRoundTrip(n);
  }

  // ---- The table ----

  /** The records are found exactly when every name has one. */
  lemma {:induction false} PairRecordsOk(pairs: seq<Category>, statistics: map<string, Counts>)
    ensures PairRecords(pairs, statistics).Ok? <==> forall i :: 0 <= i < |pairs| ==> pairs[i].name in statistics
    decreases |pairs|
  {
    if |pairs| > 0 {
      var init := pairs[..|pairs| - 1];
      PairRecordsOk(init, statistics);
      assert forall i :: 0 <= i < |init| ==> init[i] == pairs[i];
    }
  }

  /** When they are found, each is the record its pair's name is bound to. */
  lemma {:induction false} PairRecordsValues(pairs: seq<Category>, statistics: map<string, Counts>)
    requires PairRecords(pairs, statistics).Ok?
    ensures forall i :: 0 <= i < |pairs| ==> pairs[i].name in statistics
    ensures forall i :: 0 <= i < |pairs| ==> PairRecords(pairs, statistics).value[i] == statistics[pairs[i].name]
    decreases |pairs|
  {
    PairRecordsOk(pairs, statistics);
    if |pairs| > 0 {
      var init := pairs[..|pairs| - 1];
      PairRecordsValues(init, statistics);
      assert forall i :: 0 <= i < |init| ==> init[i] == pairs[i];
    }
  }

  /** When one is missing, the error names the first pair whose name has no record. */
  lemma {:induction false} PairRecordsError(pairs: seq<Category>, statistics: map<string, Counts>, k: nat)
    requires k < |pairs| && pairs[k].name !in statistics
    requires forall i :: 0 <= i < k ==> pairs[i].name in statistics
    ensures PairRecords(pairs, statistics) == Err(KeyError(pairs[k].name))
  {
    var prefix := pairs[..k + 1];
    PairRecordsOk(pairs[..k], statistics);
    assert forall i :: 0 <= i < k ==> pairs[..k][i] == pairs[i];
    PairRecordsStep(pairs, statistics, k);
    ErrorPersists(pairs, statistics, k + 1);
  }

  /** The rows of the pairs are built exactly when every name has a record. */
  lemma CategoryRowsOk(pairs: seq<Category>, statistics: map<string, Counts>, str: real -> string)
    ensures CategoryRows(pairs, statistics, str).Ok? <==> forall i :: 0 <= i < |pairs| ==> pairs[i].name in statistics
  {
    PairRecordsOk(pairs, statistics);
  }

  /** Each row is the line of the record its pair's name is bound to. */
  lemma CategoryRowsLines(pairs: seq<Category>, statistics: map<string, Counts>, str: real -> string)
    requires CategoryRows(pairs, statistics, str).Ok?
    ensures forall i :: 0 <= i < |pairs| ==> pairs[i].name in statistics
    ensures forall i :: 0 <= i < |pairs| ==>
      CategoryRows(pairs, statistics, str).value[i] == Line(pairs[i].name, statistics[pairs[i].name], str)
  {
    PairRecordsValues(pairs, statistics);
  }

  /** `__str__` puts a splitter, the header and a splitter first, then one row per pair
      in order, a splitter, and the Total row and a splitter only when there is a total. */
  lemma TableShape(cs: CodeStats, str: real -> string)
    requires Table(cs, str).Ok?
    ensures forall i :: 0 <= i < |cs.pairs| ==> cs.pairs[i].name in cs.statistics
    ensures var rows := Table(cs, str).value; var n := |cs.pairs|;
      && |rows| == n + 4 + (if cs.total.Some? then 2 else 0)
      && rows[0] == Splitter && rows[1] == Header && rows[2] == Splitter
      && (forall i :: 0 <= i < n ==> rows[3 + i] == Line(cs.pairs[i].name, cs.statistics[cs.pairs[i].name], str))
      && rows[3 + n] == Splitter
      && (cs.total.Some? ==> rows[4 + n] == Line("Total", cs.total.value, str) && rows[5 + n] == Splitter)
  {
    CategoryRowsLines(cs.pairs, cs.statistics, str);
    var rows := CategoryRows(cs.pairs, cs.statistics, str).value;
    var totalRows := if cs.total.Some? then [Line("Total", cs.total.value, str), Splitter] else [];
    Framed(Splitter, Header, rows, totalRows, Table(cs, str).value);
  }

  /** Where the pieces of a framed table end up. */
  lemma Framed(splitter: string, header: string, rows: seq<string>, tail: seq<string>, t: seq<string>)
    requires t == [splitter, header, splitter] + rows + [splitter] + tail
    ensures |t| == |rows| + 4 + |tail|
    ensures t[0] == splitter && t[1] == header && t[2] == splitter && t[3 + |rows|] == splitter
    ensures forall i :: 0 <= i < |rows| ==> t[3 + i] == rows[i]
    ensures forall j :: 0 <= j < |tail| ==> t[4 + |rows| + j] == tail[j]
  {
  }

  /** The table fails exactly when some pair's name has no record. */
  lemma TableFailsOnMissingName(cs: CodeStats, str: real -> string)
    ensures Table(cs, str).Ok? <==> forall i :: 0 <= i < |cs.pairs| ==> cs.pairs[i].name in cs.statistics
  {
    CategoryRowsOk(cs.pairs, cs.statistics, str);
  }

  /** A constructed `CodeStats` always has a record for every pair, so its table is
      always built; it has a Total row exactly when there are several categories. */
  lemma ConstructedTable(pairs: seq<Category>, total: Option<Counts>, str: real -> string)
    requires Statistics(pairs).Ok?
    requires total.Some? <==> |pairs| > 1
    ensures var cs := CodeStats(pairs, Statistics(pairs).value, total);
      Table(cs, str).Ok? && (|Table(cs, str).value| == |pairs| + 6 <==> |pairs| > 1)
  {
    var cs := CodeStats(pairs, Statistics(pairs).value, total);
    TableFailsOnMissingName(cs, str);
    TableShape(cs, str);
  }

  /** With distinct names, the code and test lines of the summary add up to the code
      lines of the Total row. */
  lemma SummaryAgreesWithTotal(pairs: seq<Category>)
    requires Statistics(pairs).Ok?
    requires forall i, j :: 0 <= i < j < |pairs| ==> pairs[i].name != pairs[j].name
    ensures var m := Statistics(pairs).value;
      CodeLinesOver(m, CodeKeys(m.Keys)) + CodeLinesOver(m, TestKeys(m.Keys)) == TotalOf(pairs, m).codeLines
  {
    var m := Statistics(pairs).value;
    CodePlusTests(m);
    TotalCodeLines(pairs, m);
  }

  // ---- `_calculate_total` as written ----

  /** As written, constructing `CodeStats` from several categories always raises
      `AttributeError` once the statistics are computed. */
  lemma InitAsWrittenFails(pairs: seq<Category>)
    requires Statistics(pairs).Ok? && |pairs| > 1
    ensures InitAsWritten(pairs) == Err(AttributeError("lines"))
  {
    TotalAsWrittenRaises(pairs);
  }

  /** For one category (or none) the code as written never reaches the total and
      agrees with the intended construction. */
  lemma InitAsWrittenWithOneCategory(pairs: seq<Category>)
    requires |pairs| <= 1
    ensures Statistics(pairs).Ok? ==> InitAsWritten(pairs) == Ok(CodeStats(pairs, Statistics(pairs).value, None))
    ensures Statistics(pairs).Err? ==> InitAsWritten(pairs) == Err(Statistics(pairs).error)
  {
  }

  /** The total as intended merges the records the constructor computed: the sum of
      everything `add` is handed. */
  lemma IntendedTotalIsMergeOfRecords(pairs: seq<Category>)
    requires Statistics(pairs).Ok?
    ensures var m := Statistics(pairs).value;
      AddAll(Zero, RecordOperands(pairs, m)) == Ok(TotalOf(pairs, m))
  {
    var m := Statistics(pairs).value;
    AddAllRecords(Zero, pairs, m);
    ScanProperties.MergeZero(TotalOf(pairs, m));
  }
}
