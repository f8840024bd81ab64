/** The regular expressions the translation scripts apply to `.po` lines,
    written out as scanners that follow Python's `re` semantics: alternatives
    are tried left to right at each position, `findall` resumes after each
    match, and `search` returns the leftmost match. */
module PoPatterns {
  import opened Wrappers
  import opened Text

  /** `%\([^)]+\)[sd]` at position `p`: where the match ends, if it matches. */
  function NamedAt(s: string, p: nat): (e: Option<nat>)
    requires p <= |s|
    ensures e.Some? ==> p + 5 <= e.value <= |s| && s[p] == '%' && s[p + 1] == '('
                        && s[e.value - 2] == ')' && s[e.value - 1] in "sd"
  {
    if p + 1 < |s| && s[p] == '%' && s[p + 1] == '(' then
      var close := p + 2 + IndexOf(s[p + 2..], ')');
      if close > p + 2 && close + 1 < |s| && s[close + 1] in "sd" then
        assert s[close] == s[p + 2..][close - (p + 2)];
        Some(close + 2)
      else None
    else None
  }

  /** `%[sd]` at position `p`. */
  function PositionalAt(s: string, p: nat): (e: Option<nat>)
    requires p <= |s|
    ensures e.Some? ==> e.value == p + 2 <= |s| && s[p] == '%' && s[p + 1] in "sd"
  {
    if p + 1 < |s| && s[p] == '%' && s[p + 1] in "sd" then Some(p + 2) else None
  }

  /** `\{[^}]+\}` at position `p`. */
  function BracedAt(s: string, p: nat): (e: Option<nat>)
    requires p <= |s|
    ensures e.Some? ==> p + 3 <= e.value <= |s| && s[p] == '{' && s[e.value - 1] == '}'
  {
    if p < |s| && s[p] == '{' then
      var close := p + 1 + IndexOf(s[p + 1..], '}');
      if close > p + 1 && close < |s| then
        assert s[close] == s[p + 1..][close - (p + 1)];
        Some(close + 1)
      else None
    else None
  }

  /** The two placeholder patterns: the validator's
      `%\([^)]+\)[sd]|%[sd]|\{[^}]+\}` and the fixer's `%\([^)]+\)[sd]`. */
  datatype Pattern = AnyPlaceholder | NamedPlaceholder

  /** Where a match of `pattern` starting at `p` ends, if one does. */
  function MatchAt(pattern: Pattern, s: string, p: nat): (e: Option<nat>)
    requires p <= |s|
    ensures e.Some? ==> p + 2 <= e.value <= |s| && s[p] in "%{"
    ensures e.Some? && pattern == NamedPlaceholder ==>
              p + 5 <= e.value && s[p] == '%' && s[p + 1] == '(' && s[e.value - 2] == ')' && s[e.value - 1] in "sd"
  {
    match pattern
    case NamedPlaceholder => NamedAt(s, p)
    case AnyPlaceholder =>
      match NamedAt(s, p)
      case Some(e) => Some(e)
      case None =>
        match PositionalAt(s, p)
        case Some(e) => Some(e)
        case None => BracedAt(s, p)
  }

  /** `re.findall(pattern, s)` from position `p` on. */
  function FindAllFrom(pattern: Pattern, s: string, p: nat): (r: seq<string>)
    requires p <= |s|
    ensures forall x :: x in r ==> |x| >= 2 && x[0] in "%{"
    ensures pattern == NamedPlaceholder ==>
              forall x :: x in r ==> |x| >= 5 && x[..2] == "%(" && x[|x| - 2] == ')' && x[|x| - 1] in "sd"
    decreases |s| - p
  {
    if p == |s| then []
    else match MatchAt(pattern, s, p)
      case Some(e) => [s[p..e]] + FindAllFrom(pattern, s, e)
      case None => FindAllFrom(pattern, s, p + 1)
  }

  /** `set(re.findall(pattern, s))` */
  function Placeholders(pattern: Pattern, s: string): set<string> {
    set x | x in FindAllFrom(pattern, s, 0)
  }

  /** A text without '%' and '{' has no placeholder. */
  lemma {:induction false} NoMarkerNoMatch(pattern: Pattern, s: string, p: nat)
    requires p <= |s|
    requires forall k :: p <= k < |s| ==> s[k] != '%' && s[k] != '{'
    ensures FindAllFrom(pattern, s, p) == []
    decreases |s| - p
  {
    if p < |s| {
      NoMarkerNoMatch(pattern, s, p + 1);
    }
  }

  /** Only '%' and '{' start a placeholder, so a plain text has none. */
  lemma PlainTextHasNoPlaceholders(pattern: Pattern, s: string)
    requires '%' !in s && '{' !in s
    ensures Placeholders(pattern, s) == {}
  {
    NoMarkerNoMatch(pattern, s, 0);
  }

  /** The length of the run of whitespace starting at `k`. */
  function SpaceRun(s: string, k: nat): (n: nat)
    requires k <= |s|
    ensures k + n <= |s|
    ensures forall j :: k <= j < k + n ==> IsSpace(s[j])
    ensures k + n < |s| ==> !IsSpace(s[k + n])
    decreases |s| - k
  {
    if k < |s| && IsSpace(s[k]) then 1 + SpaceRun(s, k + 1) else 0
  }

  /** `msgid\s+"(.+)"` at position `p`: the captured group, if it matches.
      `.+` is greedy and stops at a newline, so the group ends at the last
      quote before the first newline after the opening quote. */
  function MsgidTextAt(line: string, p: nat): (r: Option<string>)
    requires p <= |line|
    ensures r.Some? ==> |r.value| > 0 && '\n' !in r.value
  {
    if StartsWith(line[p..], "msgid") then
      var k := p + 5;
      var q := k + SpaceRun(line, k);
      if q > k && q < |line| && line[q] == '"' then
        var nl := q + 1 + IndexOf(line[q + 1..], '\n');
        var last := LastIndexOf(line[..nl], '"');
        if last >= q + 2 then
          assert forall j :: q + 1 <= j < last ==> line[j] == line[q + 1..][j - (q + 1)];
          Some(line[q + 1..last])
        else None
      else None
    else None
  }

  function MsgidTextFrom(line: string, p: nat): (r: Option<string>)
    requires p <= |line|
    ensures r.Some? ==> |r.value| > 0 && '\n' !in r.value
    decreases |line| - p
  {
    if p == |line| then None
    else match MsgidTextAt(line, p)
      case Some(t) => Some(t)
      case None => MsgidTextFrom(line, p + 1)
  }

  /** `re.search(r'msgid\s+"(.+)"', line).group(1)`, or None when the search fails. */
  function MsgidText(line: string): (r: Option<string>)
    ensures r.Some? ==> |r.value| > 0 && '\n' !in r.value
  {
    MsgidTextFrom(line, 0)
  }

  /** On a well-formed one-line `msgid "text"` the pattern captures exactly
      the text between the outer quotes. */
  lemma MsgidTextOfPlainLine(line: string)
    requires StartsWith(line, "msgid \"") && |line| >= 9 && line[|line| - 1] == '"' && '\n' !in line
    ensures MsgidText(line) == Some(line[7..|line| - 1])
  {
    assert line[0..][..5] == "msgid";
    assert line[5] == ' ' && line[6] == '"';
    assert SpaceRun(line, 6) == 0;
    assert SpaceRun(line, 5) == 1;
    assert IndexOf(line[7..], '\n') == |line| - 7;
    assert line[..|line|] == line;
  }
}
