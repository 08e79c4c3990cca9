# Code statistics engine of django-matome

A Dafny model of the code-statistics engine behind the `matome` management
command (`matome/management/commands/_code_stats.py`). The engine walks the
directory of each `(category name, directory)` pair and scans every file whose
name ends in `.py`, `.js` or `.coffee`. The scan is a single pass per file, and
it knows about comments: it counts lines, code lines, class declarations and
method declarations, using a small per-language pattern table. The per-directory
records are gathered into a name-to-record map and, when there are several
categories, a grand total. A fixed-width text table and a summary line report
them.

Modules, following the structure of the program:

- `Text` (`text.dfy`): the Python string and `re` behaviour the engine relies on.
  That is `\s`, greedy `\s*`, `str.lower`, `str.ljust`/`str.rjust`, `str(int)`,
  `'\n'.join`, and `str.rfind`.
- `Exceptions` (`exceptions.dfy`): the Python exceptions the engine can raise,
  plus `Result`, `Option` and `Outcome`.
- `Patterns` (`patterns.dfy`): the `PATTERNS` table. Each regular expression is a
  matcher with `re.match` semantics: anchored at the start, and it need not
  reach the end.
- `CodeStatistics` (`calculator.dfy`): `CodeStatisticsCalculator` as a class with
  four counters. `add_by_io` is a `for` loop whose body is `ReadLine`, proved
  against the specification functions `Step` and `Run`. Also `_file_type` and
  `os.path.splitext`.
- `ScanProperties`, `FileTypeProperties`: what the classifier and the file type
  guarantee.
- `Aggregation` (`aggregation.dfy`): the filter, `_calculate_directory_statistics`,
  `_calculate_statistics`, `_calculate_total` (as written and as intended),
  `TEST_TYPES`, `_calculate_code` and `_calculate_tests`.
- `AggregationProperties`: facts about the filter, the walk, the map, the total
  and the code/test split.
- `Report` (`report.dfy`): `CodeStats.__init__`, `__str__`, `_header`, `_splitter`,
  `_line` and `_code_test_stats`.
- `ReportProperties`: the column layout, the cell readback, the row order, the
  Total row, and the `_calculate_total` finding.

Where the code does something other than its own comments or a reader would
expect, the model follows the code:

- **Blank lines count as code.** Line 73 parses as
  `(not blank and 'line_comment' not in patterns) or not patterns['line_comment'].match(line)`.
  In a registered language, a blank line therefore counts as code, although the
  comment under that line (line 74) describes a counted line as one that is not
  blank and either has no line-comment rule or is not a line comment
  (`ScanProperties.BlankLineCountsAsCode`).
- **A blank line can raise.** With an unregistered extension, such as a file
  named `.py`, the first blank line raises `KeyError('line_comment')`. By then
  the line has been counted in `lines`, and every earlier line counted as code
  (`ScanProperties.UnregisteredRaisesAtFirstBlankLine`).
- **No code lines raises.** The summary line divides the test-line count by the
  code-line count, so it raises `ZeroDivisionError` when the code-line count is 0
  (`Report.CodeTestLine`).
- **Ratios are printed in full.** The M/C and LOC/M cells are the whole
  `str(float)` of the ratio padded to 3 and 5 characters; only the summary's
  ratio uses `{:.1f}`. A long name or a long ratio widens its row
  (`ReportProperties.LongNameWidensLine`).
- **Repeated names are accepted.** Nothing checks that category names are
  unique; the last pair with a name wins
  (`AggregationProperties.StatisticsFromValues`).
- **Each pair names a directory.** The engine walks that directory itself and
  picks the files by name.

## Model

| member | source | states |
|---|---|---|
| Text.DropSpaceProperties | matome/management/commands/_code_stats.py:11 | a greedy `\s*` removes a prefix made only of whitespace, and leaves either nothing or a non-space character first |
| Text.BlankDropsToEmpty | matome/management/commands/_code_stats.py:54 | a line matching `^\s*$` leaves nothing after its leading whitespace |
| Text.Lower | matome/management/commands/_code_stats.py:79 | `lower()` keeps the length and lowers each character on its own |
| Text.LowerProperties | matome/management/commands/_code_stats.py:79 | `lower()` leaves no capital letter, keeps every character that is not a letter, and applying it twice is applying it once |
| Text.LastIndexOf | matome/management/commands/_code_stats.py:79 | the index of the last occurrence of a character, or -1 when there is none |
| Text.LastIndexOfUnique | matome/management/commands/_code_stats.py:79 | any index with those properties is the one `LastIndexOf` gives |
| Text.LJustProperties | matome/management/commands/_code_stats.py:179 | `ljust(20)` gives at least 20 characters: the name first, then spaces only |
| Text.RJustProperties | matome/management/commands/_code_stats.py:180-185 | `rjust(w)` gives at least `w` characters: spaces only, then the text last |
| Text.DecimalDigits | matome/management/commands/_code_stats.py:180-183 | `str(n)` writes only digits, with no leading zero |
| Text.DecimalLength | matome/management/commands/_code_stats.py:180-183 | a number below `10^k` takes at most `k` digits, so the counter columns fit below 100000 and 10000000 |
| Text.DecimalRoundTrip | matome/management/commands/_code_stats.py:180-183 | the digits `str(n)` writes read back to `n` |
| Text.JoinLines | matome/management/commands/_code_stats.py:115 | `'\n'.join` of no rows is empty; otherwise it starts with the first row |
| Text.JoinLinesFirstRow | matome/management/commands/_code_stats.py:115 | a first row without a newline is followed by exactly one newline and then the join of the rest |
| Patterns.PatternsFor | matome/management/commands/_code_stats.py:47-50 | the selected patterns hold a line-comment rule exactly when the type is registered, and an unregistered type selects no pattern at all |
| Patterns.RegistryShape | matome/management/commands/_code_stats.py:9-28 | exactly `py`, `js` and `coffee` are registered; each defines a line comment; each defines both block-comment ends or neither; Python defines none |
| Patterns.BlankMatchesNothing | matome/management/commands/_code_stats.py:9-28 | no rule of a registered language matches a blank line |
| Patterns.JsEndMarkerIsAnchored | matome/management/commands/_code_stats.py:18 | `\*/` under `re.match` closes a comment exactly when the line begins with `*/` |
| Patterns.CoffeeArrowIsAnchored | matome/management/commands/_code_stats.py:26 | `[-=]>` matches exactly the lines that begin with `->` or `=>` |
| Patterns.JsFunctionIsAnchored | matome/management/commands/_code_stats.py:19 | an indented `function` is never counted as a JavaScript method |
| Patterns.PyDeclarationsMayBeIndented | matome/management/commands/_code_stats.py:12-13 | leading whitespace does not change whether a Python `class` or `def` is recognised |
| Patterns.DeclarationIgnoresIndent | matome/management/commands/_code_stats.py:12-13 | the same for every `\s*keyword\s+initial` pattern |
| CodeStatistics.Calculator.constructor | matome/management/commands/_code_stats.py:30-34 | the four counters are the arguments, which default to zero |
| CodeStatistics.Calculator.Add | matome/management/commands/_code_stats.py:36-40 | each counter becomes the sum of its old value and the other calculator's; the other may be the same object |
| CodeStatistics.Calculator.AddByFilePath | matome/management/commands/_code_stats.py:42-44 | the counters and the outcome are those of a pass over the file's lines, with the patterns of the path's type, from the old counters |
| CodeStatistics.Calculator.AddByIo | matome/management/commands/_code_stats.py:46-75 | the loop leaves the counters and the outcome of `Run`: the patterns of the type, or none, starting outside a comment; it stops at the first exception with the counters as far as they got |
| CodeStatistics.Calculator.ReadLine | matome/management/commands/_code_stats.py:57-75 | one loop iteration changes the counters and the comment state exactly as `Step` says, or raises what `Step` raises |
| CodeStatistics.CodeLineTest | matome/management/commands/_code_stats.py:73-75 | with a line-comment rule, a line is code exactly when that rule does not match, blank or not; without one, a non-blank line is code and a blank line raises `KeyError('line_comment')` |
| CodeStatistics.JoinPath | matome/management/commands/_code_stats.py:127 | the joined path ends with the file name |
| CodeStatistics.Calculator.SplitExt | matome/management/commands/_code_stats.py:79 | the extension is empty, or it is a suffix of the path that starts with its only dot and holds no slash |
| CodeStatistics.Calculator.FileType | matome/management/commands/_code_stats.py:77-79 | the type holds no dot and no slash; a path without a dot has the empty type |
| ScanProperties.MergeCommutative | matome/management/commands/_code_stats.py:36-40 | the order of two `add`s does not matter |
| ScanProperties.MergeAssociative | matome/management/commands/_code_stats.py:36-40 | the grouping of `add`s does not matter |
| ScanProperties.MergeZero | matome/management/commands/_code_stats.py:36-40 | adding a zero calculator, on either side, changes nothing |
| ScanProperties.MergeWithinLines | matome/management/commands/_code_stats.py:36-40 | if neither record has a counter above its line count, the sum has none either |
| ScanProperties.CommentLineCountsOnlyAsRead | matome/management/commands/_code_stats.py:57-61 | inside a block comment a line only counts as read, and the comment ends exactly when the end marker fires |
| ScanProperties.OpeningLineCountsOnlyAsRead | matome/management/commands/_code_stats.py:62-65 | a line that opens a block comment only counts as read, and starts the comment |
| ScanProperties.RegisteredCodeLine | matome/management/commands/_code_stats.py:67-75 | in a registered language, a code-state line adds one line, one code line unless it is a line comment, and one class or method when those patterns fire |
| ScanProperties.BlankLineCountsAsCode | matome/management/commands/_code_stats.py:73-75 | in a registered language, a blank line outside a comment counts as a line and as a code line, and as nothing else |
| ScanProperties.RunReadsEveryLine | matome/management/commands/_code_stats.py:56-57 | a pass that ends normally adds exactly one line per line read; one that raises adds at least one and at most that many |
| ScanProperties.RunGrowthBounded | matome/management/commands/_code_stats.py:56-75 | no counter shrinks, and code lines, classes and methods each grow by at most as much as lines |
| ScanProperties.RunKeepsWithinLines | matome/management/commands/_code_stats.py:56-75 | a record with no counter above its line count stays that way through any pass |
| ScanProperties.RegisteredNeverRaises | matome/management/commands/_code_stats.py:73 | a pass with a registered language's patterns always ends normally |
| ScanProperties.UnterminatedCommentSkipsRest | matome/management/commands/_code_stats.py:58-61 | inside a comment that is never closed, every remaining line counts only as read |
| ScanProperties.UnregisteredWithoutBlankLines | matome/management/commands/_code_stats.py:46-75 | with no patterns and no blank line, every line is code and no declaration is counted |
| ScanProperties.UnregisteredRaisesAtFirstBlankLine | matome/management/commands/_code_stats.py:73 | with no patterns, the first blank line raises `KeyError('line_comment')`; it has been counted as read, and the lines before it as code |
| ScanProperties.LineCommentIsNoDeclaration | matome/management/commands/_code_stats.py:9-28 | in each registered language a line comment is neither a class nor a method declaration |
| ScanProperties.HashCommentIsNoDeclaration | matome/management/commands/_code_stats.py:11-13 | a `#` comment in Python or CoffeeScript matches no declaration pattern |
| ScanProperties.SlashCommentIsNoDeclaration | matome/management/commands/_code_stats.py:16-19 | a `//` comment in JavaScript matches no method pattern |
| ScanProperties.LineCommentOnlyFile | matome/management/commands/_code_stats.py:56-75 | a one-line file holding only a line comment gives one line, no code and no declaration, also when the line opens a block comment (CoffeeScript `###`) |
| ScanProperties.StepFromAnyStart | matome/management/commands/_code_stats.py:56-75 | one line adds the same to the counters whatever they held before |
| ScanProperties.RunFromAnyStart | matome/management/commands/_code_stats.py:56-75 | a pass adds the same to the counters, and ends the same way, whatever they held before |
| ScanProperties.RunFromZero | matome/management/commands/_code_stats.py:56-75 | scanning into a used calculator is scanning into a fresh one and then adding the old counters |
| FileTypeProperties.SplitExtUnderDirectory | matome/management/commands/_code_stats.py:79 | a directory prefix does not change the extension of a name without a slash |
| FileTypeProperties.FileTypeIgnoresDirectory | matome/management/commands/_code_stats.py:127-131 | the directory a file is found in does not change its type |
| FileTypeProperties.FileTypeOfExtension | matome/management/commands/_code_stats.py:77-79 | `stem.ext`, with a stem that is not all dots, has the lower-cased `ext` as its type |
| FileTypeProperties.FileTypeOfDotfile | matome/management/commands/_code_stats.py:77-79 | a name made of dots and then `.ext`, such as `.bashrc`, has the empty type |
| FileTypeProperties.FileTypeOfWalkedFile | matome/management/commands/_code_stats.py:125-131 | a walked file `stem.ext` has the lower-cased `ext` as its type, in any directory |
| Aggregation.WithoutFinalNewline | matome/management/commands/_code_stats.py:122 | `$` also matches before one final newline: the name with or without it |
| Aggregation.CalculateDirectoryStatistics | matome/management/commands/_code_stats.py:122-133 | a fresh calculator ends with the record of scanning every admitted walked file in order, stopping at the first exception |
| Aggregation.Names | matome/management/commands/_code_stats.py:117-120 | the set of pair names holds exactly the names of the pairs |
| Aggregation.StatisticsFrom | matome/management/commands/_code_stats.py:117-120 | a successful comprehension has exactly the names of the pairs as keys, plus those it started with |
| Aggregation.Statistics | matome/management/commands/_code_stats.py:117-120 | a successful comprehension has exactly the names of the pairs as keys |
| Aggregation.CalculateTotal | matome/management/commands/_code_stats.py:135-139 | (corrected) a fresh calculator ends with the merge of every pair's record, looked up by the pair's name |
| Aggregation.DirectoryOperands | matome/management/commands/_code_stats.py:137-138 | line 138 hands `add` each pair's directory string, in order |
| Aggregation.CalculateCode | matome/management/commands/_code_stats.py:141-146 | the result is the sum of code lines over exactly the names not in `TEST_TYPES`, in any iteration order |
| Aggregation.CalculateTests | matome/management/commands/_code_stats.py:148-153 | the result is the sum of code lines over exactly the names in `TEST_TYPES`, in any iteration order |
| Aggregation.CodeLinesOverRemove | matome/management/commands/_code_stats.py:143-145 | the sum does not depend on which name the dictionary yields first |
| AggregationProperties.FilterAdmits | matome/management/commands/_code_stats.py:122 | `prefix.ext`, with or without one final newline, passes the filter exactly when the prefix has no newline |
| AggregationProperties.FilterAdmitsOnly | matome/management/commands/_code_stats.py:122 | every admitted name has that shape |
| AggregationProperties.FilterIsCaseSensitive | matome/management/commands/_code_stats.py:122-131 | a name `stem.ext` whose extension lowers to a registered type but is not written in lower case (`A.PY`, `app.Js`) is typed as that language, yet the filter never admits it |
| AggregationProperties.DotNamedFileIsUnregistered | matome/management/commands/_code_stats.py:122-131 | a file named `.py` passes the filter but gets the empty type, which is not registered |
| AggregationProperties.AdmittedFileIsRegistered | matome/management/commands/_code_stats.py:125-131 | an admitted `stem.py`, `stem.js` or `stem.coffee` with a stem that is not all dots is scanned with its language's patterns |
| AggregationProperties.ScanWalkReadsAdmittedLines | matome/management/commands/_code_stats.py:125-133 | a directory that ends normally has read exactly the lines of its admitted files |
| AggregationProperties.ScanWalkKeepsWithinLines | matome/management/commands/_code_stats.py:122-133 | no counter of a directory's record exceeds its line count |
| AggregationProperties.RegisteredWalkNeverRaises | matome/management/commands/_code_stats.py:125-131 | a directory whose admitted files all have a registered type never raises |
| AggregationProperties.ScanWalkFromAnyStart | matome/management/commands/_code_stats.py:123-133 | a directory's record does not depend on what the calculator held before |
| AggregationProperties.ScanWalkAppend | matome/management/commands/_code_stats.py:125-133 | walking two lists of files in turn merges their records, or stops with the first list's exception |
| AggregationProperties.StatisticsFromOk | matome/management/commands/_code_stats.py:117-120 | the comprehension succeeds exactly when no directory raises |
| AggregationProperties.StatisticsFromValues | matome/management/commands/_code_stats.py:117-120 | a name is bound to the record of the last pair that carries it |
| AggregationProperties.StatisticsFromKeeps | matome/management/commands/_code_stats.py:117-120 | a name no later pair carries keeps its value |
| AggregationProperties.StatisticsValue | matome/management/commands/_code_stats.py:117-120 | in the map, the last pair with a given name is bound to its own directory's record |
| AggregationProperties.RecordOperands | matome/management/commands/_code_stats.py:137-138 | the intended operands are the records of the pairs, in order |
| AggregationProperties.AddAllRecords | matome/management/commands/_code_stats.py:135-139 | handing `add` every record merges the total into the starting counters, and never raises |
| AggregationProperties.TotalAsWrittenRaises | matome/management/commands/_code_stats.py:135-139 | the total as written raises `AttributeError('lines')` for any non-empty list of pairs |
| AggregationProperties.TotalCodeLines | matome/management/commands/_code_stats.py:135-146 | with distinct names, the total's code lines are the sum over every category |
| AggregationProperties.CodeLinesOverSplit | matome/management/commands/_code_stats.py:141-153 | splitting the names in two splits the sum |
| AggregationProperties.CodePlusTests | matome/management/commands/_code_stats.py:141-153 | code and test names partition the keys, so code plus tests is the sum over every category |
| AggregationProperties.TestKeysAreTestTypes | matome/management/commands/_code_stats.py:83-89 | a category counts as tests exactly when its name is one of the seven `TEST_TYPES` |
| Report.Init | matome/management/commands/_code_stats.py:91-98 | (corrected total) construction fails exactly when the statistics fail, and with the same exception; otherwise it keeps the pairs and the map; a total exists exactly when there are several pairs, and it is the merge of their records |
| Report.MethodsPerClass | matome/management/commands/_code_stats.py:165 | `0.0` without classes; otherwise the ratio times the classes is the methods |
| Report.LocPerMethod | matome/management/commands/_code_stats.py:166 | `0.0` without methods; otherwise the ratio plus two, times the methods, is the code lines |
| Report.LineCells | matome/management/commands/_code_stats.py:178-186 | a line has seven cells |
| Report.PairRecords | matome/management/commands/_code_stats.py:105-106 | one record per pair when all are found |
| Report.CategoryRows | matome/management/commands/_code_stats.py:105-106 | one row per pair when all records are found |
| Report.Table | matome/management/commands/_code_stats.py:100-111 | the rows before the summary are built exactly when the category rows are |
| Report.CodeTestLine | matome/management/commands/_code_stats.py:188-192 | it raises `ZeroDivisionError` exactly when there are no code lines; otherwise it starts with both sums in decimal |
| Report.CodeTestLineRatio | matome/management/commands/_code_stats.py:191-192 | with code lines present, the summary line ends with "Code to Test Ratio: 1:" and the `{:.1f}` form of tests divided by code |
| Report.CodeTestStats | matome/management/commands/_code_stats.py:188-192 | the summary line uses the code-line sums over the non-test and the test names |
| Report.ToString | matome/management/commands/_code_stats.py:100-115 | a missing record raises first; then a summary exception propagates; otherwise the result is the table rows and the summary line, joined by newlines |
| Report.CollectRows | matome/management/commands/_code_stats.py:101-111 | the appending loop builds exactly the table: splitter, header, splitter, the rows of the pairs, a splitter, and the Total row and a splitter when there is a total |
| Report.ErrorPersists | matome/management/commands/_code_stats.py:105-106 | once a name has no record, later pairs do not change the `KeyError` |
| ReportProperties.RowLength | matome/management/commands/_code_stats.py:168-176 | a row is one character longer than the offset of its closing bar |
| ReportProperties.RowLayout | matome/management/commands/_code_stats.py:168-176 | a bar stands before every cell and at the end, and each cell sits two characters after its bar |
| ReportProperties.HeaderShape | matome/management/commands/_code_stats.py:155-157 | the header is 74 characters long, with bars at columns 0, 23, 31, 39, 49, 59, 65 and 73 |
| ReportProperties.SplitterShape | matome/management/commands/_code_stats.py:159-161 | the splitter is 74 characters long, with a plus sign at each of those columns |
| ReportProperties.FittingRowLayout | matome/management/commands/_code_stats.py:168-176 | a row whose cells have the column widths is as long as the splitter, with a bar at each of those columns |
| ReportProperties.OffsetStep | matome/management/commands/_code_stats.py:168-176 | each cell moves the next bar by its width plus three |
| ReportProperties.CounterCells | matome/management/commands/_code_stats.py:178-183 | a name of at most 20 characters and counters of at most 5, 5, 7 and 7 digits fill their cells exactly, whatever the ratios print as |
| ReportProperties.FittingCells | matome/management/commands/_code_stats.py:178-186 | when the ratios also print within 3 and 5 characters, each of the seven cells is exactly its column's width |
| ReportProperties.LineLayout | matome/management/commands/_code_stats.py:155-186 | when every cell fits, a category line is 74 characters, as long as the header and the splitter, and has its bars where they do |
| ReportProperties.LongNameWidensLine | matome/management/commands/_code_stats.py:179 | a name longer than 20 characters is shown whole, not cut |
| ReportProperties.LineShowsCounts | matome/management/commands/_code_stats.py:178-183 | when the name and the counters fit, they sit in columns 2-22, 25-30, 33-38, 41-48 and 51-58, followed by the bar at column 59, however long the ratios print |
| ReportProperties.LineCellAt | matome/management/commands/_code_stats.py:168-186 | cell `k` starts two characters after bar `k` once the cells before it fit: the counter bounds suffice for the name and counter cells, the ratio cells need the ratio bounds too |
| ReportProperties.CounterCellReadsBack | matome/management/commands/_code_stats.py:180-183 | a counter cell is spaces followed by digits that read back to the counter |
| ReportProperties.PairRecordsOk | matome/management/commands/_code_stats.py:105-106 | the records are found exactly when every name has one |
| ReportProperties.PairRecordsValues | matome/management/commands/_code_stats.py:105-106 | each record found is the one the pair's name is bound to |
| ReportProperties.PairRecordsError | matome/management/commands/_code_stats.py:105-106 | the `KeyError` names the first pair whose name has no record |
| ReportProperties.CategoryRowsOk | matome/management/commands/_code_stats.py:105-106 | the rows are built exactly when every name has a record |
| ReportProperties.CategoryRowsLines | matome/management/commands/_code_stats.py:105-106 | row `i` is the line of pair `i`'s name and record |
| ReportProperties.TableShape | matome/management/commands/_code_stats.py:100-111 | splitter, header, splitter, one line per pair in order, a splitter, then the Total line and a splitter exactly when there is a total |
| ReportProperties.TableFailsOnMissingName | matome/management/commands/_code_stats.py:105-106 | the table fails exactly when some pair's name has no record |
| ReportProperties.ConstructedTable | matome/management/commands/_code_stats.py:91-111 | a constructed report always builds its table, and has a Total row exactly when there are several categories |
| ReportProperties.SummaryAgreesWithTotal | matome/management/commands/_code_stats.py:135-153 | with distinct names, code plus test lines in the summary equals the code lines of the Total row |
| ReportProperties.InitAsWrittenFails | matome/management/commands/_code_stats.py:135-139 | as written, construction with several categories raises `AttributeError('lines')` once the statistics are computed |
| ReportProperties.InitAsWrittenWithOneCategory | matome/management/commands/_code_stats.py:94-97 | with at most one category, construction as written never computes a total, and agrees with the corrected construction |
| ReportProperties.IntendedTotalIsMergeOfRecords | matome/management/commands/_code_stats.py:135-139 | the intended total is what `add` gives when handed each category's record |

## Left out

- File I/O: `open` and `readlines` are not modelled. Each walked file carries the lines `readlines()` would return; errors from opening a file are not modelled.
- `os.walk`: the walk is given as data, the files of each directory in the order the walk yields them.
- The `os.path.isdir(path) and fname.startswith('.')` branch (lines 128-129) is not modelled. `os.walk` lists directories in `subdirs`, never in `fnames`, so the branch cannot run.
- Paths are POSIX paths with `/` as the only separator. Windows separators and drives are not modelled.
- `\s`, `[a-zA-Z]`, `\d` and `lower()` are taken as ASCII. Unicode whitespace, digits and case mappings are not modelled.
- Floating point is not modelled. `str(float)` and the `{:.1f}` format are parameters (`real -> string`), and the ratios are exact reals.
- The summary ratio uses Python 3 true division. Python 2 integer division is not modelled.
- Counters are non-negative integers. Negative constructor arguments are not modelled; integers are unbounded, as in Python.
- `_print_stack` (line 98) is not modelled: it is set to an empty list and never read.
- `self.total = 0` for a single category is modelled as `None`. A calculator object is always truthy, so `if self.total:` shows the Total row exactly when a total exists.
- The map stores counter values, not the calculator objects, so aliasing between them is not modelled.
- The pair is modelled as `(name, directory)` plus the directory's walk. `pair[-1]` is the directory.
- `matome/management/commands/matome.py` (the command entry point) is not part of this model.
- ReportProperties.SplitterShape: states the plus signs, not the dashes between them.

## Findings

| source | as written | input that shows it | evidently intended | confidence | as-written member | corrected member |
|---|---|---|---|---|---|---|
| matome/management/commands/_code_stats.py:135-139 | `_calculate_total` calls `stats.add(pair[-1])`, handing `add` the directory string of each pair; `add` then reads `.lines` of a string and raises `AttributeError` | any two pairs whose directories scan without error, e.g. `("Models", "app/models")` and `("Model tests", "tests")` | `stats.add(self.statistics[pair[0]])`: merge each category's computed record into the total | not executed | Report.InitAsWritten, Aggregation.TotalAsWritten, ReportProperties.InitAsWrittenFails | Report.Init, Aggregation.CalculateTotal, ReportProperties.IntendedTotalIsMergeOfRecords |
