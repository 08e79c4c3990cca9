/** The per-language pattern table of the code-statistics calculator.

    Each regular expression of the table is written out as a matcher with the
    semantics of Python's `re.match`: the match is anchored at the start of the
    line (whether or not the pattern says `^`) and need not reach its end. */
module Patterns {
  import opened Text

  /** The keys of one language's pattern dictionary. */
  datatype Rule = LineComment | BeginBlockComment | EndBlockComment | ClassDecl | MethodDecl

  /** The dictionary key under which the rule is stored (what a `KeyError` names). */
  function KeyName(rule: Rule): string {
    match rule
    case LineComment => "line_comment"
    case BeginBlockComment => "begin_block_comment"
    case EndBlockComment => "end_block_comment"
    case ClassDecl => "class"
    case MethodDecl => "method"
  }

  /** The first character a declared name may have: `[_A-Z]` or `[_a-z]`. */
  datatype Initial = UpperOrUnderscore | LowerOrUnderscore

  predicate IsInitial(initial: Initial, c: char) {
    c == '_' ||
    match initial
    case UpperOrUnderscore => 'A' <= c <= 'Z'
    case LowerOrUnderscore => 'a' <= c <= 'z'
  }

  /** The shapes of the patterns the table uses. */
  datatype Pattern =
    | SpacesThen(marker: string)
      // `^\s*marker`; the markers used all begin with a non-space character
    | Literal(marker: string)
      // `marker` with no leading whitespace allowed
    | Declaration(keyword: string, initial: Initial)
      // `\s*keyword\s+[_A-Z]` or `\s*keyword\s+[_a-z]`
    | FunctionKeyword
      // `function(\s+[_a-zA-Z][\da-zA-Z]*)?\s*\(`
    | Arrow
      // `[-=]>`

  /** `\s+<initial>` at the start of `s`. */
  predicate SpacesThenInitial(s: string, initial: Initial) {
    |s| > 0 && IsSpace(s[0]) &&
    var t := DropSpace(s);
    |t| > 0 && IsInitial(initial, t[0])
  }

  /** `(\s+[_a-zA-Z][\da-zA-Z]*)?\s*\(` at the start of `s`. Since neither a letter
      nor `(` is whitespace, the greedy `\s*` and `\s+` have only one way to succeed,
      and since `(` is not alphanumeric neither has `[\da-zA-Z]*`. */
  predicate OptionalNameThenParen(s: string) {
    StartsWith(DropSpace(s), "(") ||
    (|s| > 0 && IsSpace(s[0]) &&
     var t := DropSpace(s);
     |t| > 0 && (t[0] == '_' || IsLetter(t[0])) &&
     StartsWith(DropSpace(DropAlnum(t[1..])), "("))
  }

  /** `pattern.match(line)` is not `None`. */
  predicate Matches(p: Pattern, line: string) {
    match p
    case SpacesThen(marker) => StartsWith(DropSpace(line), marker)
    case Literal(marker) => StartsWith(line, marker)
    case Declaration(keyword, initial) =>
      var t := DropSpace(line);
      StartsWith(t, keyword) && SpacesThenInitial(t[|keyword|..], initial)
    case FunctionKeyword =>
      StartsWith(line, "function") && OptionalNameThenParen(line[8..])
    case Arrow => StartsWith(line, "->") || StartsWith(line, "=>")
  }

  /** One language's patterns; a missing key means the language has no such rule. */
  type PatternSet = map<Rule, Pattern>

  /** The Python entry of the table. */
  const PyPatterns: PatternSet := map[
    LineComment := SpacesThen("#"),
    ClassDecl := Declaration("class", UpperOrUnderscore),
    MethodDecl := Declaration("def", LowerOrUnderscore)
  ]

  /** The JavaScript entry of the table. */
  const JsPatterns: PatternSet := map[
    LineComment := SpacesThen("//"),
    BeginBlockComment := SpacesThen("/*"),
    EndBlockComment := Literal("*/"),
    MethodDecl := FunctionKeyword
  ]

  /** The CoffeeScript entry of the table. */
  const CoffeePatterns: PatternSet := map[
    LineComment := SpacesThen("#"),
    BeginBlockComment := SpacesThen("###"),
    EndBlockComment := SpacesThen("###"),
    ClassDecl := Declaration("class", UpperOrUnderscore),
    MethodDecl := Arrow
  ]

  /** The table, keyed by normalised file extension. */
  const Registry: map<string, PatternSet> := map["py" := PyPatterns, "js" := JsPatterns, "coffee" := CoffeePatterns]

  /** The pattern set a file type selects: its table entry, or the empty set. A
      line-comment rule is there exactly for the registered types, so only an
      unregistered type can reach the `KeyError` of line 73. */
  function PatternsFor(fileType: string): (ps: PatternSet)
    ensures LineComment in ps <==> fileType in Registry
    ensures fileType !in Registry ==> |ps| == 0
  {
    RegistryShape();
    if fileType in Registry then Registry[fileType] else map[]
  }

  /** Exactly the three extensions are registered. */
  lemma RegistryKeys()
    ensures Registry.Keys == {"py", "js", "coffee"}
  {
  }

  /** Every registered language defines a line comment; only JavaScript and
      CoffeeScript define block comments, and they define both ends. */
  lemma RegistryShape()
    ensures Registry.Keys == {"py", "js", "coffee"}
    ensures forall ft :: ft in Registry ==> LineComment in Registry[ft]
    ensures forall ft :: ft in Registry ==>
      (BeginBlockComment in Registry[ft] <==> EndBlockComment in Registry[ft])
    ensures BeginBlockComment !in PyPatterns
    ensures Registry["py"] == PyPatterns && Registry["js"] == JsPatterns && Registry["coffee"] == CoffeePatterns
  {
  }

  /** No rule of a registered language matches a blank line. */
  lemma {:induction false} BlankMatchesNothing(ft: string, rule: Rule, line: string)
    requires ft in Registry && rule in Registry[ft]
    requires Blank(line)
    ensures !Matches(Registry[ft][rule], line)
  {
    BlankDropsToEmpty(line);
    var p := Registry[ft][rule];
    if p.Literal? || p.FunctionKeyword? || p.Arrow? {
      if |line| > 0 {
        assert IsSpace(line[0]);
      }
    }
  }

  // The JavaScript end marker closes a comment exactly on the lines that begin with
  // the two characters star and slash: indentation or text before it defeats it.
  lemma JsEndMarkerIsAnchored(line: string)
    ensures Matches(JsPatterns[EndBlockComment], line) <==> StartsWith(line, "*/")
  {
    assert JsPatterns[EndBlockComment] == Literal("*/");
  }

  /** The CoffeeScript arrow counts exactly at the very start of a line. */
  lemma CoffeeArrowIsAnchored(line: string)
    ensures Matches(CoffeePatterns[MethodDecl], line)
      <==> StartsWith(line, "->") || StartsWith(line, "=>")
  {
    assert CoffeePatterns[MethodDecl] == Arrow;
  }

  /** The JavaScript `function` pattern allows no indentation before the keyword. */
  lemma JsFunctionIsAnchored(line: string)
    requires |line| > 0 && IsSpace(line[0])
    ensures !Matches(JsPatterns[MethodDecl], line)
  {
    assert JsPatterns[MethodDecl] == FunctionKeyword;
    assert |line| >= 8 ==> line[..8][0] == line[0];
    assert !StartsWith(line, "function");
  }

  /** Python declarations may be indented: whitespace before `class` or `def` is skipped. */
  lemma PyDeclarationsMayBeIndented(indent: string, line: string, rule: Rule)
    requires Blank(indent)
    requires rule == ClassDecl || rule == MethodDecl
    ensures Matches(PyPatterns[rule], indent + line) <==> Matches(PyPatterns[rule], line)
  {
    var p := PyPatterns[rule];
    assert p.Declaration?;
    DeclarationIgnoresIndent(p, indent, line);
  }

  lemma DeclarationIgnoresIndent(p: Pattern, indent: string, line: string)
    requires p.Declaration? && Blank(indent)
    ensures Matches(p, indent + line) <==> Matches(p, line)
  {
    DropSpaceSkipsIndent(indent, line);
  }

  /** Leading whitespace makes no difference to what `\s*` leaves. */
  lemma {:induction false} DropSpaceSkipsIndent(indent: string, line: string)
    requires Blank(indent)
    ensures DropSpace(indent + line) == DropSpace(line)
  {
    if |indent| > 0 {
      assert (indent + line)[1..] == indent[1..] + line;
      assert Blank(indent[1..]) by {
        forall i | 0 <= i < |indent[1..]| ensures IsSpace(indent[1..][i]) {
          assert indent[1..][i] == indent[i + 1];
        }
      }
      DropSpaceSkipsIndent(indent[1..], line);
    } else {
      assert indent + line == line;
    }
  }
}
