/** The Python `str` operations the core relies on: `strip`, `startswith`, `in`,
    `replace`, `upper`, `lower`, `capitalize`, `title`, `join`, `str(int)` and the
    literal syntax accepted by `float()`. Case mapping covers ASCII letters only. */
module Text {
  import opened Wrappers

  /** The characters Python's `str.isspace()` accepts, which `str.strip()` removes. */
  predicate IsSpace(c: char) {
    var k := c as int;
    (9 <= k <= 13) || (28 <= k <= 32) || k == 0x85 || k == 0xA0 || k == 0x1680
    || (0x2000 <= k <= 0x200A) || k == 0x2028 || k == 0x2029 || k == 0x202F
    || k == 0x205F || k == 0x3000
  }

  function StripStart(s: string): (r: string)
    ensures |r| <= |s|
    ensures r == [] || !IsSpace(r[0])
  {
    if |s| > 0 && IsSpace(s[0]) then StripStart(s[1..]) else s
  }

  function StripEnd(s: string): (r: string)
    ensures |r| <= |s|
    ensures r == [] || !IsSpace(r[|r| - 1])
  {
    if |s| > 0 && IsSpace(s[|s| - 1]) then StripEnd(s[..|s| - 1]) else s
  }

  /** Python's `s.strip()`: leading and trailing whitespace removed. */
  function Strip(s: string): (r: string)
    ensures |r| <= |s|
  {
    StripEnd(StripStart(s))
  }

  /** Python's `s.startswith(p)`. */
  predicate StartsWith(s: string, p: string) {
    |p| <= |s| && s[..|p|] == p
  }

  /** Python's `p in s` for strings: `p` occurs as a contiguous piece of `s`. */
  predicate Contains(s: string, p: string)
    decreases |s|
  {
    StartsWith(s, p) || (|s| > 0 && Contains(s[1..], p))
  }

  /** Python's `s.replace(a, b)` for single characters. */
  function ReplaceChar(s: string, a: char, b: char): (r: string)
    ensures |r| == |s|
    ensures forall i :: 0 <= i < |s| ==> r[i] == if s[i] == a then b else s[i]
  {
    if |s| == 0 then [] else [if s[0] == a then b else s[0]] + ReplaceChar(s[1..], a, b)
  }

  /** Python's `s.replace(pat, rep)` for a non-empty `pat`: occurrences are
      found left to right and do not overlap. */
  function ReplaceAll(s: string, pat: string, rep: string): string
    requires pat != []
    decreases |s|
  {
    if |s| < |pat| then s
    else if s[..|pat|] == pat then rep + ReplaceAll(s[|pat|..], pat, rep)
    else [s[0]] + ReplaceAll(s[1..], pat, rep)
  }

  predicate IsUpperLetter(c: char) { 'A' <= c <= 'Z' }
  predicate IsLowerLetter(c: char) { 'a' <= c <= 'z' }
  predicate IsLetter(c: char) { IsUpperLetter(c) || IsLowerLetter(c) }
  predicate IsDigit(c: char) { '0' <= c <= '9' }

  function UpperChar(c: char): char {
    if IsLowerLetter(c) then (c as int - 32) as char else c
  }

  function LowerChar(c: char): char {
    if IsUpperLetter(c) then (c as int + 32) as char else c
  }

  /** Python's `s.upper()`. */
  function Upper(s: string): (r: string)
    ensures |r| == |s|
    ensures forall i :: 0 <= i < |s| ==> r[i] == UpperChar(s[i])
  {
    if |s| == 0 then [] else [UpperChar(s[0])] + Upper(s[1..])
  }

  /** Python's `s.lower()`. */
  function Lower(s: string): (r: string)
    ensures |r| == |s|
    ensures forall i :: 0 <= i < |s| ==> r[i] == LowerChar(s[i])
  {
    if |s| == 0 then [] else [LowerChar(s[0])] + Lower(s[1..])
  }

  /** Python's `s.capitalize()`: the first character upper-cased, the rest lower-cased. */
  function Capitalize(s: string): (r: string)
    ensures |r| == |s|
    ensures |s| > 0 ==> r[0] == UpperChar(s[0])
    ensures forall i :: 0 < i < |s| ==> r[i] == LowerChar(s[i])
  {
    if |s| == 0 then [] else [UpperChar(s[0])] + Lower(s[1..])
  }

  /** How `s.title()` maps one character: a letter is lower-cased right after
      another letter and upper-cased otherwise; other characters are kept. */
  function TitleChar(c: char, afterLetter: bool): char {
    if !IsLetter(c) then c else if afterLetter then LowerChar(c) else UpperChar(c)
  }

  /** Python's `s.title()`. */
  function Title(s: string): (r: string)
    ensures |r| == |s|
    ensures forall i :: 0 <= i < |s| ==> r[i] == TitleChar(s[i], i > 0 && IsLetter(s[i - 1]))
  {
    TitleFrom(s, false)
  }

  function TitleFrom(s: string, afterLetter: bool): (r: string)
    ensures |r| == |s|
    ensures |s| > 0 ==> r[0] == TitleChar(s[0], afterLetter)
    ensures forall i :: 0 < i < |s| ==> r[i] == TitleChar(s[i], IsLetter(s[i - 1]))
  {
    if |s| == 0 then []
    else
      var rest := TitleFrom(s[1..], IsLetter(s[0]));
      var r := [TitleChar(s[0], afterLetter)] + rest;
      r
  }

  /** Python's `sep.join(xs)`. */
  function Join(sep: string, xs: seq<string>): string {
    if |xs| == 0 then ""
    else if |xs| == 1 then xs[0]
    else xs[0] + sep + Join(sep, xs[1..])
  }

  function DigitChar(d: nat): char
    requires d < 10
  {
    "0123456789"[d]
  }

  /** Index of the first occurrence of `c` in `s`, or `|s|`. */
  function IndexOf(s: string, c: char): (i: nat)
    ensures i <= |s|
    ensures forall j :: 0 <= j < i ==> s[j] != c
    ensures i < |s| ==> s[i] == c
  {
    if |s| == 0 then 0 else if s[0] == c then 0 else 1 + IndexOf(s[1..], c)
  }

  /** Index of the last occurrence of `c` in `s`, or -1. */
  function LastIndexOf(s: string, c: char): (i: int)
    ensures -1 <= i < |s|
    ensures i >= 0 ==> s[i] == c
    ensures forall j :: i < j < |s| ==> s[j] != c
  {
    if |s| == 0 then -1
    else if s[|s| - 1] == c then |s| - 1
    else LastIndexOf(s[..|s| - 1], c)
  }

  /** Trailing whitespace is removed only after the last non-space character. */
  lemma {:induction false} StripEndKeepsPrefix(s: string, p: string)
    requires StartsWith(s, p) && |p| > 0 && !IsSpace(p[|p| - 1])
    ensures StartsWith(StripEnd(s), p)
    decreases |s|
  {
    if IsSpace(s[|s| - 1]) {
      assert |s| > |p|;
      assert s[..|s| - 1][..|p|] == s[..|p|];
      StripEndKeepsPrefix(s[..|s| - 1], p);
    }
  }

  /** A line that starts with a prefix beginning and ending in non-space
      characters still starts with it once stripped. */
  lemma StripKeepsPrefix(s: string, p: string)
    requires StartsWith(s, p) && |p| > 0 && !IsSpace(p[0]) && !IsSpace(p[|p| - 1])
    ensures StartsWith(Strip(s), p)
  {
    assert s[0] == p[0];
    assert StripStart(s) == s;
    StripEndKeepsPrefix(s, p);
  }

  /** Replacing one non-space character by another commutes with stripping
      leading whitespace. */
  lemma {:induction false} StripStartReplace(s: string, a: char, b: char)
    requires !IsSpace(a) && !IsSpace(b)
    ensures StripStart(ReplaceChar(s, a, b)) == ReplaceChar(StripStart(s), a, b)
    decreases |s|
  {
    if |s| > 0 && IsSpace(s[0]) {
      assert ReplaceChar(s, a, b)[1..] == ReplaceChar(s[1..], a, b);
      StripStartReplace(s[1..], a, b);
    }
  }

  /** The same for trailing whitespace. */
  lemma {:induction false} StripEndReplace(s: string, a: char, b: char)
    requires !IsSpace(a) && !IsSpace(b)
    ensures StripEnd(ReplaceChar(s, a, b)) == ReplaceChar(StripEnd(s), a, b)
    decreases |s|
  {
    if |s| > 0 && IsSpace(s[|s| - 1]) {
      assert ReplaceChar(s, a, b)[..|s| - 1] == ReplaceChar(s[..|s| - 1], a, b);
      StripEndReplace(s[..|s| - 1], a, b);
    }
  }

  /** Python's `s.replace(a, b).strip() == s.strip().replace(a, b)` when
      neither character is whitespace. */
  lemma StripReplace(s: string, a: char, b: char)
    requires !IsSpace(a) && !IsSpace(b)
    ensures Strip(ReplaceChar(s, a, b)) == ReplaceChar(Strip(s), a, b)
  {
    StripStartReplace(s, a, b);
    StripEndReplace(StripStart(s), a, b);
  }

  // ---------------------------------------------------------------------------
  // Python's repr() of a string, as embedded in exception messages

  /** The quote repr() uses: single, unless the text holds a single quote
      and no double quote. */
  function ReprQuote(s: string): char {
    if '\'' in s && '"' !in s then '"' else '\''
  }

  function HexDigit(d: nat): char
    requires d < 16
  {
    if d < 10 then DigitChar(d) else "abcdef"[d - 10]
  }

  /** Characters up to U+00FF that `str.isprintable()` rejects. */
  predicate IsUnprintableLatin1(c: char) {
    var k := c as int;
    k < 0x20 || (0x7F <= k <= 0xA0) || k == 0xAD
  }

  /** How repr() writes one character inside quotes `q`. */
  function ReprChar(c: char, q: char): string {
    if c == q || c == '\\' then ['\\', c]
    else if c == '\t' then "\\t"
    else if c == '\n' then "\\n"
    else if c == '\r' then "\\r"
    else if IsUnprintableLatin1(c) then "\\x" + [HexDigit(c as int / 16), HexDigit(c as int % 16)]
    else [c]
  }

  function ReprBody(s: string, q: char): string
    decreases |s|
  {
    if |s| == 0 then [] else ReprChar(s[0], q) + ReprBody(s[1..], q)
  }

  /** Python's `repr(s)` for a string. */
  function PyRepr(s: string): (r: string)
    ensures |r| >= |s| + 2
    ensures r[0] == r[|r| - 1] == ReprQuote(s)
  {
    ReprBodyLength(s, ReprQuote(s));
    [ReprQuote(s)] + ReprBody(s, ReprQuote(s)) + [ReprQuote(s)]
  }

  lemma {:induction false} ReprBodyLength(s: string, q: char)
    ensures |ReprBody(s, q)| >= |s|
    decreases |s|
  {
    if |s| > 0 {
      ReprBodyLength(s[1..], q);
    }
  }

  /** A character repr() writes as itself. */
  predicate IsPlainReprChar(c: char) {
    c != '\'' && c != '"' && c != '\\' && !IsUnprintableLatin1(c)
  }

  /** Text without quotes, backslashes or unprintable characters is written
      between single quotes, unchanged. */
  lemma {:induction false} PlainRepr(s: string)
    requires forall i :: 0 <= i < |s| ==> IsPlainReprChar(s[i])
    ensures PyRepr(s) == "'" + s + "'"
  {
    PlainReprBody(s);
  }

  lemma {:induction false} PlainReprBody(s: string)
    requires forall i :: 0 <= i < |s| ==> IsPlainReprChar(s[i])
    ensures ReprBody(s, '\'') == s
    decreases |s|
  {
    if |s| > 0 {
      PlainReprBody(s[1..]);
      assert s == [s[0]] + s[1..];
    }
  }

  /** Python writes `repr("4'5")` as `"4'5"` and `repr("4\t5")` as `'4\\t5'`. */
  lemma ReprExamples()
    ensures PyRepr("4'5") == "\"4'5\""
    ensures PyRepr("4\t5") == "'4\\t5'"
  {
    assert '\'' in "4'5" && '"' !in "4'5";
    assert "4'5"[1..] == "'5" && "'5"[1..] == "5" && "5"[1..] == "";
    assert "4\t5"[1..] == "\t5" && "\t5"[1..] == "5";
    assert !('\'' in "4\t5");
  }

  /** Python's `str(n)` for a natural number. */
  function NatToString(n: nat): (r: string)
    ensures |r| > 0
    decreases n
  {
    if n < 10 then [DigitChar(n)] else NatToString(n / 10) + [DigitChar(n % 10)]
  }

  // ---------------------------------------------------------------------------
  // The strings Python's float() accepts (ASCII digits only), read one character
  // at a time:
  //   whitespace* [sign] (number | "inf" | "infinity" | "nan") whitespace*
  //   number    = digitpart ["." [digitpart]] [exponent] | "." digitpart [exponent]
  //   digitpart = digit (["_"] digit)*      exponent = ("e" | "E") [sign] digitpart
  // The words are matched in any letter case.

  datatype FloatScan =
    | Lead          // leading whitespace
    | Signed        // after the sign
    | Int           // in the integer digits
    | IntSep        // after an underscore in the integer digits
    | PointAfterInt // "1."
    | PointAlone    // "." with no integer digits yet
    | Frac          // in the fraction digits
    | FracSep       // after an underscore in the fraction digits
    | Exp           // after "e" or "E"
    | ExpSigned     // after the exponent's sign
    | ExpInt        // in the exponent digits
    | ExpSep        // after an underscore in the exponent digits
    | Word(w: string) // a lower-cased prefix of "inf", "infinity" or "nan"
    | Trail         // trailing whitespace after a complete literal

  predicate IsWordPrefix(w: string) {
    StartsWith("infinity", w) || StartsWith("nan", w)
  }

  predicate IsWord(w: string) {
    w == "inf" || w == "infinity" || w == "nan"
  }

  /** Whether the input may end in state `st`. */
  predicate Complete(st: FloatScan) {
    match st
    case Int | PointAfterInt | Frac | ExpInt | Trail => true
    case Word(w) => IsWord(w)
    case _ => false
  }

  /** The state after reading `c` in state `st`, if `c` may come next. */
  function Step(st: FloatScan, c: char): Option<FloatScan> {
    var sign := c == '+' || c == '-';
    var exp := c == 'e' || c == 'E';
    var word := [LowerChar(c)];
    match st
    case Lead =>
      if IsSpace(c) then Some(Lead) else if sign then Some(Signed) else Number(c)
    case Signed => Number(c)
    case Int =>
      if IsDigit(c) then Some(Int) else if c == '_' then Some(IntSep) else if c == '.' then Some(PointAfterInt)
      else if exp then Some(Exp) else Finish(st, c)
    case IntSep => if IsDigit(c) then Some(Int) else None
    case PointAfterInt => if IsDigit(c) then Some(Frac) else if exp then Some(Exp) else Finish(st, c)
    case PointAlone => if IsDigit(c) then Some(Frac) else None
    case Frac =>
      if IsDigit(c) then Some(Frac) else if c == '_' then Some(FracSep) else if exp then Some(Exp) else Finish(st, c)
    case FracSep => if IsDigit(c) then Some(Frac) else None
    case Exp => if sign then Some(ExpSigned) else if IsDigit(c) then Some(ExpInt) else None
    case ExpSigned => if IsDigit(c) then Some(ExpInt) else None
    case ExpInt => if IsDigit(c) then Some(ExpInt) else if c == '_' then Some(ExpSep) else Finish(st, c)
    case ExpSep => if IsDigit(c) then Some(ExpInt) else None
    case Word(w) => if IsWordPrefix(w + word) then Some(Word(w + word)) else Finish(st, c)
    case Trail => Finish(st, c)
  }

  /** The first character of a number or a word. */
  function Number(c: char): Option<FloatScan> {
    if IsDigit(c) then Some(Int)
    else if c == '.' then Some(PointAlone)
    else if IsWordPrefix([LowerChar(c)]) then Some(Word([LowerChar(c)]))
    else None
  }

  /** Trailing whitespace, allowed once the literal is complete. */
  function Finish(st: FloatScan, c: char): Option<FloatScan> {
    if Complete(st) && IsSpace(c) then Some(Trail) else None
  }

  predicate Scan(s: string, st: FloatScan)
    decreases |s|
  {
    if |s| == 0 then Complete(st)
    else match Step(st, s[0])
      case None => false
      case Some(next) => Scan(s[1..], next)
  }

  /** Whether Python's `float(s)` returns instead of raising ValueError. */
  predicate ParsesAsFloat(s: string) {
    Scan(s, Lead)
  }
}
