/** Character- and string-level building blocks: the pieces of Python's `re`
    and `str` behaviour that the statistics engine relies on. Whitespace,
    digits and case are the ASCII ones, which Python 2 and Python 3 agree on. */
module Text {

  /** `\s` in a pattern: space, tab, newline, carriage return, vertical tab, form feed. */
  predicate IsSpace(c: char) {
    c == ' ' || c == '\t' || c == '\n' || c == '\r' || c == '\U{000B}' || c == '\U{000C}'
  }

  /** `\d` in a pattern. */
  predicate IsDigit(c: char) {
    '0' <= c <= '9'
  }

  /** `[a-zA-Z]` in a pattern. */
  predicate IsLetter(c: char) {
    'a' <= c <= 'z' || 'A' <= c <= 'Z'
  }

  /** A line matched by `^\s*$`: nothing but whitespace (the trailing newline included). */
  predicate Blank(s: string) {
    forall i :: 0 <= i < |s| ==> IsSpace(s[i])
  }

  /** Every character of `s` from index `lo` up to (not including) `hi` is a dot. */
  predicate DotsBetween(s: string, lo: nat, hi: nat)
    requires lo <= hi <= |s|
  {
    forall i :: lo <= i < hi ==> s[i] == '.'
  }

  /** Nothing but dots (so also the empty string). */
  predicate AllDots(s: string) {
    DotsBetween(s, 0, |s|)
  }

  predicate StartsWith(s: string, prefix: string) {
    |prefix| <= |s| && s[..|prefix|] == prefix
  }

  predicate EndsWith(s: string, suffix: string) {
    |suffix| <= |s| && s[|s| - |suffix|..] == suffix
  }

  /** What is left once a greedy `\s*` has consumed the leading whitespace. */
  function DropSpace(s: string): (r: string)
    ensures |r| <= |s|
  {
    if |s| > 0 && IsSpace(s[0]) then DropSpace(s[1..]) else s
  }

  /** `DropSpace` removes a prefix made only of whitespace, and all of it. */
  lemma {:induction false} DropSpaceProperties(s: string)
    ensures DropSpace(s) == s[|s| - |DropSpace(s)|..]
    ensures forall i :: 0 <= i < |s| - |DropSpace(s)| ==> IsSpace(s[i])
    ensures DropSpace(s) == [] || !IsSpace(DropSpace(s)[0])
    decreases |s|
  {
    if |s| > 0 && IsSpace(s[0]) {
      DropSpaceProperties(s[1..]);
      assert s[1..][|s| - 1 - |DropSpace(s)|..] == s[|s| - |DropSpace(s)|..];
      forall i | 0 <= i < |s| - |DropSpace(s)| ensures IsSpace(s[i]) {
        if i > 0 {
          assert s[1..][i - 1] == s[i];
        }
      }
    }
  }

  /** What is left once a greedy `[\da-zA-Z]*` has consumed the leading letters and digits. */
  function DropAlnum(s: string): (r: string)
    ensures |r| <= |s|
  {
    if |s| > 0 && (IsDigit(s[0]) || IsLetter(s[0])) then DropAlnum(s[1..]) else s
  }

  /** A blank line offers nothing after its leading whitespace. */
  lemma {:induction false} BlankDropsToEmpty(s: string)
    requires Blank(s)
    ensures DropSpace(s) == []
  {
    if |s| > 0 {
      assert Blank(s[1..]) by {
        forall i | 0 <= i < |s[1..]| ensures IsSpace(s[1..][i]) {
          assert s[1..][i] == s[i + 1];
        }
      }
      BlankDropsToEmpty(s[1..]);
    }
  }

  /** `str.lower()` on one character (ASCII letters only). */
  function LowerChar(c: char): char {
    if 'A' <= c <= 'Z' then (c as int - 'A' as int + 'a' as int) as char else c
  }

  /** `str.lower()`: every character lowered, nothing added or removed. */
  function Lower(s: string): (r: string)
    ensures |r| == |s|
    ensures forall i :: 0 <= i < |s| ==> r[i] == LowerChar(s[i])
  {
    if |s| == 0 then [] else [LowerChar(s[0])] + Lower(s[1..])
  }

  /** Lower-casing leaves no upper-case letter, keeps every non-letter, and is idempotent. */
  lemma LowerProperties(s: string)
    ensures forall i :: 0 <= i < |Lower(s)| ==> !('A' <= Lower(s)[i] <= 'Z')
    ensures forall c :: !('A' <= c <= 'Z') && !('a' <= c <= 'z') ==> (c in Lower(s) <==> c in s)
    ensures Lower(Lower(s)) == Lower(s)
  {
    forall c | !('A' <= c <= 'Z') && !('a' <= c <= 'z') ensures c in Lower(s) <==> c in s {
      if c in Lower(s) {
        var i :| 0 <= i < |Lower(s)| && Lower(s)[i] == c;
        assert s[i] == c;
      }
      if c in s {
        var i :| 0 <= i < |s| && s[i] == c;
        assert Lower(s)[i] == c;
      }
    }
  }

  /** `str.rfind(c)`: the index of the last occurrence of `c`, or -1. */
  function LastIndexOf(s: string, c: char): (r: int)
    ensures -1 <= r < |s|
    ensures r >= 0 ==> s[r] == c
    ensures forall i :: r < i < |s| ==> s[i] != c
  {
    if |s| == 0 then -1
    else if s[|s| - 1] == c then |s| - 1
    else LastIndexOf(s[..|s| - 1], c)
  }

  /** The three facts above pin the index down: any index with them is the one `LastIndexOf` gives. */
  lemma LastIndexOfUnique(s: string, c: char, k: int)
    requires -1 <= k < |s|
    requires k >= 0 ==> s[k] == c
    requires forall i :: k < i < |s| ==> s[i] != c
    ensures LastIndexOf(s, c) == k
  {
  }

  /** A string of `n` spaces. */
  function Spaces(n: nat): (r: string)
    ensures |r| == n && forall i :: 0 <= i < n ==> r[i] == ' '
  {
    if n == 0 then [] else [' '] + Spaces(n - 1)
  }

  function Max(a: int, b: int): int {
    if a < b then b else a
  }

  /** `str.ljust(width)`. */
  function LJust(s: string, width: nat): string {
    if |s| < width then s + Spaces(width - |s|) else s
  }

  /** `str.rjust(width)`. */
  function RJust(s: string, width: nat): string {
    if |s| < width then Spaces(width - |s|) + s else s
  }

  /** `ljust` puts `s` first and pads with spaces up to `width`; it never truncates. */
  lemma LJustProperties(s: string, width: nat)
    ensures |LJust(s, width)| == Max(|s|, width)
    ensures LJust(s, width)[..|s|] == s
    ensures forall i :: |s| <= i < |LJust(s, width)| ==> LJust(s, width)[i] == ' '
  {
  }

  /** `rjust` puts `s` last and pads with spaces up to `width`; it never truncates. */
  lemma RJustProperties(s: string, width: nat)
    ensures |RJust(s, width)| == Max(|s|, width)
    ensures RJust(s, width)[|RJust(s, width)| - |s|..] == s
    ensures forall i :: 0 <= i < |RJust(s, width)| - |s| ==> RJust(s, width)[i] == ' '
  {
  }

  function DigitChar(d: nat): (c: char)
    requires d < 10
    ensures IsDigit(c)
  {
    ('0' as int + d) as char
  }

  /** `str(n)` for a non-negative integer: its decimal digits, most significant first. */
  function Decimal(n: nat): (s: string)
    ensures |s| >= 1
    decreases n
  {
    if n < 10 then [DigitChar(n)] else Decimal(n / 10) + [DigitChar(n % 10)]
  }

  /** `Decimal` writes only digits, and no leading zero. */
  lemma {:induction false} DecimalDigits(n: nat)
    ensures forall i :: 0 <= i < |Decimal(n)| ==> IsDigit(Decimal(n)[i])
    ensures |Decimal(n)| > 1 ==> Decimal(n)[0] != '0'
    decreases n
  {
    if n >= 10 {
      DecimalDigits(n / 10);
      var s := Decimal(n);
      assert forall i :: 0 <= i < |s| - 1 ==> s[i] == Decimal(n / 10)[i];
    }
  }

  function Pow10(k: nat): (r: nat)
    ensures r >= 1
  {
    if k == 0 then 1 else 10 * Pow10(k - 1)
  }

  /** A number below `10^k` takes at most `k` digits (and always one). */
  lemma {:induction false} DecimalLength(n: nat, k: nat)
    requires k >= 1 && n < Pow10(k)
    ensures |Decimal(n)| <= k
    decreases k
  {
    if n >= 10 {
      assert k >= 2;
      assert n / 10 < Pow10(k - 1);
      DecimalLength(n / 10, k - 1);
    }
  }

  /** The number a string of decimal digits denotes. */
  function DecimalValue(s: string): nat
    requires forall i :: 0 <= i < |s| ==> IsDigit(s[i])
  {
    if |s| == 0 then 0
    else
      assert IsDigit(s[|s| - 1]);
      10 * DecimalValue(s[..|s| - 1]) + (s[|s| - 1] as int - '0' as int)
  }

  /** Reading back what `Decimal` writes gives the number again. */
  lemma {:induction false} DecimalRoundTrip(n: nat)
    ensures (forall i :: 0 <= i < |Decimal(n)| ==> IsDigit(Decimal(n)[i])) && DecimalValue(Decimal(n)) == n
    decreases n
  {
    DecimalDigits(n);
    var s := Decimal(n);
    if n >= 10 {
      DecimalRoundTrip(n / 10);
      assert s[..|s| - 1] == Decimal(n / 10);
    }
  }

  /** `"\n".join(rows)`. */
  function JoinLines(rows: seq<string>): (r: string)
    ensures |rows| == 0 ==> r == []
    ensures |rows| >= 1 ==> StartsWith(r, rows[0])
    ensures |rows| >= 1 ==> |r| >= |rows| - 1
  {
    if |rows| == 0 then []
    else if |rows| == 1 then rows[0]
    else rows[0] + "\n" + JoinLines(rows[1..])
  }

  /** In the join of two or more rows whose first row holds no newline, the first
      newline ends the first row, and the join of the other rows follows it. */
  lemma {:induction false} JoinLinesFirstRow(rows: seq<string>)
    requires |rows| >= 2
    requires '\n' !in rows[0]
    ensures var r := JoinLines(rows);
      |rows[0]| < |r| && r[|rows[0]|] == '\n' && r[..|rows[0]|] == rows[0]
      && r[|rows[0]| + 1..] == JoinLines(rows[1..])
  {
  }
}
