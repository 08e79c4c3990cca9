/** What the aggregator guarantees: which names the filter admits, how a
    directory's record is built from its files, what the statistics map holds,
    and how code and test lines split the total. */
module AggregationProperties {
  import opened Text
  import opened Patterns
  import opened Exceptions
  import opened CodeStatistics
  import opened ScanProperties
  import opened FileTypeProperties
  import opened Aggregation

  // ---- The file-name filter ----

  /** `fname` is a newline-free part, the dot at index `k`, one of the three
      extensions, and at most one newline. */
  predicate SourceNameAt(fname: string, k: int) {
    0 <= k < |fname| && fname[k] == '.' && '\n' !in fname[..k]
    && var rest := fname[k + 1..];
    (rest == "py" || rest == "js" || rest == "coffee" || rest == "py\n" || rest == "js\n" || rest == "coffee\n")
  }

  /** Such a name passes the filter exactly when the part before the dot has no newline. */
  lemma FilterAdmits(prefix: string, ext: string, tail: string)
    requires ext == "py" || ext == "js" || ext == "coffee"
    requires tail == "" || tail == "\n"
    ensures IsSourceFileName(prefix + "." + ext + tail) <==> '\n' !in prefix
  {
    var body := prefix + "." + ext;
    BodyOfSourceName(prefix, ext, tail);
    NewlineInBody(prefix, ext);
    assert EndsWith(body, "." + ext) by {
      assert body[|body| - |"." + ext|..] == "." + ext;
    }
    assert EndsWith(body, ".py") || EndsWith(body, ".js") || EndsWith(body, ".coffee") by {
      if ext == "py" {
        assert "." + ext == ".py";
      } else if ext == "js" {
        assert "." + ext == ".js";
      } else {
        assert "." + ext == ".coffee";
      }
    }
  }

  lemma BodyOfSourceName(prefix: string, ext: string, tail: string)
    requires ext == "py" || ext == "js" || ext == "coffee"
    requires tail == "" || tail == "\n"
    ensures WithoutFinalNewline(prefix + "." + ext + tail) == prefix + "." + ext
  {
    var body := prefix + "." + ext;
    var fname := body + tail;
    assert prefix + "." + ext + tail == fname;
    assert body[|body| - 1] == ext[|ext| - 1];
    if tail == "\n" {
      assert fname[..|fname| - 1] == body;
    } else {
      assert fname == body;
    }
  }

  lemma NewlineInBody(prefix: string, ext: string)
    requires '\n' !in ext
    ensures '\n' in prefix + "." + ext <==> '\n' in prefix
  {
    var body := prefix + "." + ext;
    if '\n' in prefix {
      var i :| 0 <= i < |prefix| && prefix[i] == '\n';
      assert body[i] == '\n';
    }
    assert forall j :: |prefix| < j < |body| ==> body[j] == ext[j - |prefix| - 1];
  }

  /** Every admitted name has that shape. */
  lemma FilterAdmitsOnly(fname: string)
    requires IsSourceFileName(fname)
    ensures exists k :: SourceNameAt(fname, k)
  {
    var body := WithoutFinalNewline(fname);
    var e := if EndsWith(body, ".py") then "py" else if EndsWith(body, ".js") then "js" else "coffee";
    var k := |body| - |e| - 1;
    assert body == body[..k] + "." + e by {
      assert body[k..] == "." + e;
    }
    var tail := if body == fname then "" else "\n";
    assert fname == body[..k] + "." + e + tail;
    SourceNameOf(body[..k], e, tail);
  }

  lemma SourceNameOf(prefix: string, ext: string, tail: string)
    requires ext == "py" || ext == "js" || ext == "coffee"
    requires tail == "" || tail == "\n"
    requires '\n' !in prefix
    ensures SourceNameAt(prefix + "." + ext + tail, |prefix|)
  {
    var fname := prefix + "." + ext + tail;
    assert fname[..|prefix|] == prefix;
    assert fname[|prefix| + 1..] == ext + tail;
  }

  /** The filter is case-sensitive while the file type is lower-cased: a name whose
      extension lowers to a registered type but is not written in lower case
      (`A.PY`, `app.Js`) would be read in that language, yet is never admitted. */
  lemma FilterIsCaseSensitive(stem: string, ext: string)
    requires '/' !in stem && !AllDots(stem) && '/' !in ext && '.' !in ext
    requires Lower(ext) in Registry && Lower(ext) != ext
    ensures Calculator.FileType(stem + "." + ext) == Lower(ext)
    ensures !IsSourceFileName(stem + "." + ext)
  {
    FileTypeOfExtension(stem, ext);
    RegisteredType(Lower(ext));
    CaseShiftedExtension(ext);
    RegisteredExtensionEnd(ext);
    CaseShiftedNameRejected(stem, ext);
  }

  /** A name whose dot-free extension is none of the three, and does not end the
      name with a newline, is not admitted. */
  lemma CaseShiftedNameRejected(stem: string, ext: string)
    requires '.' !in ext && |ext| > 0 && ext[|ext| - 1] != '\n'
    requires ext != "py" && ext != "js" && ext != "coffee"
    ensures !IsSourceFileName(stem + "." + ext)
  {
    var name := stem + "." + ext;
    assert name[|name| - 1] == ext[|ext| - 1];
    assert WithoutFinalNewline(name) == name;
    OtherExtensionSuffix(stem, ext, "py");
    OtherExtensionSuffix(stem, ext, "js");
    OtherExtensionSuffix(stem, ext, "coffee");
    assert "." + "py" == ".py" && "." + "js" == ".js" && "." + "coffee" == ".coffee";
    assert !EndsWith(name, ".py") && !EndsWith(name, ".js") && !EndsWith(name, ".coffee");
  }

  /** A name ends in `.e` only when `e` is its extension. */
  lemma OtherExtensionSuffix(stem: string, ext: string, e: string)
    requires '.' !in ext && '.' !in e && ext != e
    ensures !EndsWith(stem + "." + ext, "." + e)
  {
    if EndsWith(stem + "." + ext, "." + e) {
      DotExtensionSuffix(stem, ext, e);
    }
  }

  /** An extension that is not written in lower case is none of the three spellings. */
  lemma CaseShiftedExtension(ext: string)
    requires Lower(ext) != ext
    ensures ext != "py" && ext != "js" && ext != "coffee"
  {
    if ext == "py" || ext == "js" || ext == "coffee" {
      LowerOfRegisteredType(ext);
    }
  }

  /** An extension that lowers to a registered type does not end in a newline. */
  lemma RegisteredExtensionEnd(ext: string)
    requires Lower(ext) == "py" || Lower(ext) == "js" || Lower(ext) == "coffee"
    ensures |ext| > 0 && ext[|ext| - 1] != '\n'
  {
    assert Lower(ext)[|ext| - 1] == LowerChar(ext[|ext| - 1]);
  }

  lemma RegisteredType(t: string)
    requires t in Registry
    ensures t == "py" || t == "js" || t == "coffee"
  {
    RegistryKeys();
    assert t in Registry.Keys;
  }

  /** A dot-free extension is the only dot-free suffix that can follow the name's
      last dot. */
  lemma DotExtensionSuffix(stem: string, ext: string, e: string)
    requires '.' !in ext && '.' !in e
    requires EndsWith(stem + "." + ext, "." + e)
    ensures ext == e
  {
    var name := stem + "." + ext;
    var start := |name| - |e| - 1;
    assert name[start..] == "." + e;
    forall i | |stem| < i < |name| ensures name[i] != '.' {
      assert name[i] == ext[i - |stem| - 1];
    }
    forall i | start < i < |name| ensures name[i] != '.' {
      assert name[i] == name[start..][i - start] == e[i - start - 1];
    }
    LastIndexOfUnique(name, '.', |stem|);
    LastIndexOfUnique(name, '.', start);
    assert name[|stem| + 1..] == ext;
  }

  /** A file named `.py` passes the filter, but has no extension and so is scanned
      with no patterns at all. */
  lemma DotNamedFileIsUnregistered()
    ensures IsSourceFileName(".py")
    ensures Calculator.FileType(".py") == [] && [] !in Registry
  {
    DotNamedFilePasses();
    DotNamedFileHasNoType();
    RegistryShape();
  }

  lemma DotNamedFilePasses()
    ensures IsSourceFileName(".py")
  {
    assert WithoutFinalNewline(".py") == ".py";
    assert ".py"[3 - |".py"|..] == ".py";
  }

  lemma DotNamedFileHasNoType()
    ensures Calculator.FileType(".py") == []
  {
    FileTypeOfDotfile("", "py");
    assert "" + "." + "py" == ".py";
  }

  /** An admitted name without a final newline, whose part before the extension is
      not only dots, is scanned with its language's patterns wherever it was found. */
  lemma AdmittedFileIsRegistered(directory: string, stem: string, ext: string)
    requires ext == "py" || ext == "js" || ext == "coffee"
    requires '/' !in stem && !AllDots(stem)
    ensures Calculator.FileType(JoinPath(directory, stem + "." + ext)) == ext && ext in Registry
  {
    FileTypeOfWalkedFile(directory, stem, ext);
    LowerOfRegisteredType(ext);
    RegistryKeys();
  }

  /** The three registered extensions are written in lower case. */
  lemma LowerOfRegisteredType(ext: string)
    requires ext == "py" || ext == "js" || ext == "coffee"
    ensures Lower(ext) == ext
  {
    if ext == "py" {
      LowerOfLowerCase("py");
    } else if ext == "js" {
      LowerOfLowerCase("js");
    } else {
      LowerOfLowerCase("coffee");
    }
  }

  lemma LowerOfLowerCase(s: string)
    requires forall i :: 0 <= i < |s| ==> 'a' <= s[i] <= 'z'
    ensures Lower(s) == s
  {
  }

  // ---- The record of one directory ----

  /** The lines of the files the filter admits. */
  function AdmittedLines(walk: seq<WalkedFile>): nat
    decreases |walk|
  {
    if |walk| == 0 then 0
    else (if IsSourceFileName(walk[0].name) then |walk[0].contents| else 0) + AdmittedLines(walk[1..])
  }

  /** A directory whose walk ends normally has read exactly the lines of the admitted files. */
  lemma {:induction false} ScanWalkReadsAdmittedLines(acc: Counts, walk: seq<WalkedFile>)
    ensures var r := ScanWalk(acc, walk);
      r.outcome == Normal ==> r.counts.lines == acc.lines + AdmittedLines(walk)
    decreases |walk|
  {
    if |walk| > 0 {
      var f := walk[0];
      if IsSourceFileName(f.name) {
        var ps := PatternsFor(Calculator.FileType(JoinPath(f.directory, f.name)));
        RunReadsEveryLine(ps, Scanner(acc, false), f.contents);
        var r := Run(ps, Scanner(acc, false), f.contents);
        if r.outcome == Normal {
          ScanWalkReadsAdmittedLines(r.counts, walk[1..]);
        }
      } else {
        ScanWalkReadsAdmittedLines(acc, walk[1..]);
      }
    }
  }

  /** No counter of a directory's record exceeds its line count. */
  lemma {:induction false} ScanWalkKeepsWithinLines(acc: Counts, walk: seq<WalkedFile>)
    requires WithinLines(acc)
    ensures WithinLines(ScanWalk(acc, walk).counts)
    decreases |walk|
  {
    if |walk| > 0 {
      var f := walk[0];
      if IsSourceFileName(f.name) {
        var ps := PatternsFor(Calculator.FileType(JoinPath(f.directory, f.name)));
        RunKeepsWithinLines(ps, Scanner(acc, false), f.contents);
        ScanWalkKeepsWithinLines(Run(ps, Scanner(acc, false), f.contents).counts, walk[1..]);
      } else {
        ScanWalkKeepsWithinLines(acc, walk[1..]);
      }
    }
  }

  /** A directory whose admitted files all have a registered type never raises. */
  lemma {:induction false} RegisteredWalkNeverRaises(acc: Counts, walk: seq<WalkedFile>)
    requires forall i :: 0 <= i < |walk| && IsSourceFileName(walk[i].name) ==>
      Calculator.FileType(JoinPath(walk[i].directory, walk[i].name)) in Registry
    ensures ScanWalk(acc, walk).outcome == Normal
    decreases |walk|
  {
    if |walk| > 0 {
      var f := walk[0];
      assert forall i :: 0 <= i < |walk[1..]| ==> walk[1..][i] == walk[i + 1];
      if IsSourceFileName(f.name) {
        var ft := Calculator.FileType(JoinPath(f.directory, f.name));
        RegisteredNeverRaises(ft, Scanner(acc, false), f.contents);
        RegisteredWalkNeverRaises(Run(Registry[ft], Scanner(acc, false), f.contents).counts, walk[1..]);
      } else {
        RegisteredWalkNeverRaises(acc, walk[1..]);
      }
    }
  }

  /** The record of a walk does not depend on what the calculator held before. */
  lemma {:induction false} ScanWalkFromAnyStart(acc: Counts, c: Counts, walk: seq<WalkedFile>)
    ensures ScanWalk(Merge(acc, c), walk) == Shifted(acc, ScanWalk(c, walk))
    decreases |walk|
  {
    if |walk| > 0 {
      var f := walk[0];
      if IsSourceFileName(f.name) {
        var ps := PatternsFor(Calculator.FileType(JoinPath(f.directory, f.name)));
        RunFromAnyStart(ps, acc, c, false, f.contents);
        var r := Run(ps, Scanner(c, false), f.contents);
        if r.outcome == Normal {
          ScanWalkFromAnyStart(acc, r.counts, walk[1..]);
        }
      } else {
        ScanWalkFromAnyStart(acc, c, walk[1..]);
      }
    }
  }

  /** Walking two parts one after the other: the record is the merge of the two parts'
      records when the first part ends normally, and the first part's result otherwise. */
  lemma {:induction false} ScanWalkAppend(acc: Counts, first: seq<WalkedFile>, second: seq<WalkedFile>)
    ensures var r := ScanWalk(acc, first);
      ScanWalk(acc, first + second)
        == if r.outcome == Normal then Shifted(r.counts, ScanWalk(Zero, second)) else r
    decreases |first|
  {
    var r := ScanWalk(acc, first);
    if |first| == 0 {
      assert first + second == second;
      MergeZero(acc);
      ScanWalkFromAnyStart(acc, Zero, second);
    } else {
      var f := first[0];
      assert (first + second)[0] == f && (first + second)[1..] == first[1..] + second;
      if IsSourceFileName(f.name) {
        var ps := PatternsFor(Calculator.FileType(JoinPath(f.directory, f.name)));
        var run := Run(ps, Scanner(acc, false), f.contents);
        if run.outcome == Normal {
          ScanWalkAppend(run.counts, first[1..], second);
        }
      } else {
        ScanWalkAppend(acc, first[1..], second);
      }
    }
  }

  // ---- The statistics map ----

  /** The comprehension succeeds exactly when no directory's walk raises. */
  lemma {:induction false} StatisticsFromOk(m: map<string, Counts>, pairs: seq<Category>)
    ensures StatisticsFrom(m, pairs).Ok?
      <==> forall i :: 0 <= i < |pairs| ==> ScanWalk(Zero, pairs[i].walk).outcome == Normal
    decreases |pairs|
  {
    if |pairs| > 0 {
      var s := ScanWalk(Zero, pairs[0].walk);
      assert forall i :: 0 <= i < |pairs[1..]| ==> pairs[1..][i] == pairs[i + 1];
      if s.outcome == Normal {
        StatisticsFromOk(m[pairs[0].name := s.counts], pairs[1..]);
      }
    }
  }

  /** Every name is bound to the record of the last pair carrying it; with distinct
      names, each pair's own record. Names not among the pairs keep their value. */
  lemma {:induction false} StatisticsFromValues(m: map<string, Counts>, pairs: seq<Category>, i: nat)
    requires StatisticsFrom(m, pairs).Ok?
    requires i < |pairs|
    requires forall j :: i < j < |pairs| ==> pairs[j].name != pairs[i].name
    ensures pairs[i].name in StatisticsFrom(m, pairs).value
    ensures StatisticsFrom(m, pairs).value[pairs[i].name] == ScanWalk(Zero, pairs[i].walk).counts
    decreases |pairs|
  {
    var s := ScanWalk(Zero, pairs[0].walk);
    var m' := m[pairs[0].name := s.counts];
    assert StatisticsFrom(m, pairs) == StatisticsFrom(m', pairs[1..]);
    assert forall j :: 0 <= j < |pairs| - 1 ==> pairs[1..][j] == pairs[j + 1];
    if i == 0 {
      StatisticsFromKeeps(m', pairs[1..], pairs[0].name);
    } else {
      StatisticsFromValues(m', pairs[1..], i - 1);
    }
  }

  /** A name no later pair carries keeps the value it had before. */
  lemma {:induction false} StatisticsFromKeeps(m: map<string, Counts>, pairs: seq<Category>, n: string)
    requires StatisticsFrom(m, pairs).Ok? && n in m
    requires forall j :: 0 <= j < |pairs| ==> pairs[j].name != n
    ensures n in StatisticsFrom(m, pairs).value && StatisticsFrom(m, pairs).value[n] == m[n]
    decreases |pairs|
  {
    if |pairs| > 0 {
      var s := ScanWalk(Zero, pairs[0].walk);
      StatisticsFromKeeps(m[pairs[0].name := s.counts], pairs[1..], n);
    }
  }

  lemma StatisticsValue(pairs: seq<Category>, i: nat)
    requires Statistics(pairs).Ok? && i < |pairs|
    requires forall j :: i < j < |pairs| ==> pairs[j].name != pairs[i].name
    ensures Statistics(pairs).value[pairs[i].name] == ScanWalk(Zero, pairs[i].walk).counts
  {
    StatisticsFromValues(map[], pairs, i);
  }

  // ---- The total ----

  /** The records of the pairs, as `add` would be handed them by the intended line 138. */
  function RecordOperands(pairs: seq<Category>, statistics: map<string, Counts>): (ops: seq<Operand>)
    requires Names(pairs) <= statistics.Keys
    ensures |ops| == |pairs|
    ensures forall i :: 0 <= i < |pairs| ==> ops[i] == Record(statistics[pairs[i].name])
    decreases |pairs|
  {
    if |pairs| == 0 then []
    else
      assert pairs[0].name in Names(pairs);
      [Record(statistics[pairs[0].name])] + RecordOperands(pairs[1..], statistics)
  }

  /** Handing `add` the records merges them all into the counters it started from. */
  lemma {:induction false} AddAllRecords(acc: Counts, pairs: seq<Category>, statistics: map<string, Counts>)
    requires Names(pairs) <= statistics.Keys
    ensures AddAll(acc, RecordOperands(pairs, statistics)) == Ok(Merge(acc, TotalOf(pairs, statistics)))
    decreases |pairs|
  {
    var ops := RecordOperands(pairs, statistics);
    if |pairs| == 0 {
      MergeZero(acc);
    } else {
      assert ops[1..] == RecordOperands(pairs[1..], statistics);
      assert pairs[0].name in Names(pairs);
      var v := statistics[pairs[0].name];
      AddAllRecords(Merge(acc, v), pairs[1..], statistics);
      MergeAssociative(acc, v, TotalOf(pairs[1..], statistics));
    }
  }

  /** Handing `add` a directory string raises at once, whatever came before. */
  lemma TotalAsWrittenRaises(pairs: seq<Category>)
    requires |pairs| > 0
    ensures TotalAsWritten(pairs) == Err(AttributeError("lines"))
  {
    assert DirectoryOperands(pairs)[0] == Str(pairs[0].directory);
  }

  /** The code lines of the total are those of every category, when names are distinct. */
  lemma {:induction false} TotalCodeLines(pairs: seq<Category>, statistics: map<string, Counts>)
    requires Names(pairs) <= statistics.Keys
    requires forall i, j :: 0 <= i < j < |pairs| ==> pairs[i].name != pairs[j].name
    ensures TotalOf(pairs, statistics).codeLines == CodeLinesOver(statistics, Names(pairs))
    decreases |pairs|
  {
    if |pairs| > 0 {
      var n := pairs[0].name;
      var rest := pairs[1..];
      assert forall i, j :: 0 <= i < j < |rest| ==> rest[i].name != rest[j].name by {
        forall i, j | 0 <= i < j < |rest| ensures rest[i].name != rest[j].name {
          assert rest[i] == pairs[i + 1] && rest[j] == pairs[j + 1];
        }
      }
      assert n !in Names(rest) by {
        forall j | 0 <= j < |rest| ensures rest[j].name != n {
          assert rest[j] == pairs[j + 1];
        }
      }
      assert Names(pairs) - {n} == Names(rest);
      TotalCodeLines(rest, statistics);
      CodeLinesOverRemove(statistics, Names(pairs), n);
    }
  }

  // ---- Code and tests ----

  /** Splitting a set of names in two splits the sum. */
  lemma {:induction false} CodeLinesOverSplit(m: map<string, Counts>, a: set<string>, b: set<string>)
    requires a <= m.Keys && b <= m.Keys && a !! b
    ensures CodeLinesOver(m, a + b) == CodeLinesOver(m, a) + CodeLinesOver(m, b)
    decreases a
  {
    if a != {} {
      var k :| k in a;
      CodeLinesOverRemove(m, a, k);
      CodeLinesOverRemove(m, a + b, k);
      assert (a + b) - {k} == (a - {k}) + b;
      CodeLinesOverSplit(m, a - {k}, b);
    } else {
      assert a + b == b;
    }
  }

  /** `_calculate_code() + _calculate_tests()` is the sum of the code lines of all
      categories: every category feeds exactly one side. */
  lemma CodePlusTests(m: map<string, Counts>)
    ensures CodeLinesOver(m, CodeKeys(m.Keys)) + CodeLinesOver(m, TestKeys(m.Keys)) == CodeLinesOver(m, m.Keys)
    ensures CodeKeys(m.Keys) !! TestKeys(m.Keys)
    ensures CodeKeys(m.Keys) + TestKeys(m.Keys) == m.Keys
  {
    assert CodeKeys(m.Keys) + TestKeys(m.Keys) == m.Keys;
    CodeLinesOverSplit(m, CodeKeys(m.Keys), TestKeys(m.Keys));
  }

  /** A category counts as a test exactly when its name is one of the seven test types. */
  lemma TestKeysAreTestTypes(keys: set<string>, n: string)
    requires n in keys
    ensures n in TestKeys(keys) <==> n in TestTypes
    ensures n in CodeKeys(keys) <==> n !in TestTypes
  {
  }
}
