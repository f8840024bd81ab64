/** The critical-error fixer for translation files: it removes `#, fuzzy`
    markers (replacing the fuzzy translation that follows with the message
    text), fills empty translations with the message text, and counts
    message/translation pairs whose named placeholders differ. A file is its
    list of lines (its text split at '\n'); writing it back joins them again. */
module CriticalFixes {
  import opened Wrappers
  import opened Text
  import opened Sequences
  import opened PoPatterns

  /** The locales processed, in order. */
  const Locales: seq<string> := ["es_CO", "es_GT", "en_US"]

  /** A translation file: its lines, and how many times it has been written. */
  class PoFile {
    var lines: seq<string>
    var writes: nat

    constructor (lines: seq<string>)
      ensures this.lines == lines && writes == 0
    {
      this.lines := lines;
      writes := 0;
    }
  }

  // ---------------------------------------------------------------------------
  // Removing fuzzy markers

  predicate IsFuzzyMarker(line: string) {
    Strip(line) == "#, fuzzy"
  }

  function FuzzyFixedLine(text: string): string {
    "msgstr \"" + text + "\"  # AUTO-FIXED: was fuzzy"
  }

  /** Line `k` starts with "msgid" and no later line does. */
  predicate LastMsgidAt(before: seq<string>, k: int) {
    0 <= k < |before| && StartsWith(before[k], "msgid")
    && forall j :: k < j < |before| ==> !StartsWith(before[j], "msgid")
  }

  /** The nearest line before the current one that starts with "msgid". */
  function NearestMsgid(before: seq<string>): (r: Option<string>)
    ensures r.None? <==> forall k :: 0 <= k < |before| ==> !StartsWith(before[k], "msgid")
    ensures r.Some? ==> exists k :: LastMsgidAt(before, k) && r.value == before[k]
    decreases |before|
  {
    if |before| == 0 then None
    else if StartsWith(before[|before| - 1], "msgid") then
      assert LastMsgidAt(before, |before| - 1);
      Some(before[|before| - 1])
    else
      var r := NearestMsgid(before[..|before| - 1]);
      assert forall k :: 0 <= k < |before| - 1 ==> before[k] == before[..|before| - 1][k];
      if r.Some? then
        var k :| LastMsgidAt(before[..|before| - 1], k) && r.value == before[..|before| - 1][k];
        assert LastMsgidAt(before, k);
        r
      else r
  }

  /** The text a fuzzy translation is replaced with: that of the nearest
      `msgid` line, unless it is the empty `msgid ""` or the pattern finds no text. */
  function FuzzyReplacement(before: seq<string>): Option<string> {
    match NearestMsgid(before)
    case None => None
    case Some(m) => if Contains(m, "msgid \"\"") then None else MsgidText(m)
  }

  /** The loop's state: whether a fuzzy marker awaits its translation, and the
      lines written so far. */
  datatype FuzzyState = FuzzyState(pending: bool, output: seq<string>)

  function FuzzyStep(st: FuzzyState, before: seq<string>, line: string): FuzzyState {
    if IsFuzzyMarker(line) then FuzzyState(true, st.output)
    else if st.pending && StartsWith(line, "msgstr") then
      match FuzzyReplacement(before)
      case Some(text) => FuzzyState(false, st.output + [FuzzyFixedLine(text)])
      case None => FuzzyState(false, st.output + [line])
    else st.(output := st.output + [line])
  }

  function FuzzyRun(lines: seq<string>): FuzzyState
    decreases |lines|
  {
    if |lines| == 0 then FuzzyState(false, [])
    else
      var before := lines[..|lines| - 1];
      FuzzyStep(FuzzyRun(before), before, lines[|lines| - 1])
  }

  /** The lines `remove_fuzzy_markers` writes. */
  function RemoveFuzzy(lines: seq<string>): seq<string> {
    FuzzyRun(lines).output
  }

  /** `remove_fuzzy_markers`: rewrites the file (always). */
  method RemoveFuzzyMarkers(file: PoFile)
    modifies file
    ensures file.lines == RemoveFuzzy(old(file.lines))
    ensures file.writes == old(file.writes) + 1
  {
    var lines := file.lines;
    var newLines: seq<string> := [];
    var skipNextEntry := false;
    var i := 0;
    while i < |lines|
      invariant 0 <= i <= |lines|
      invariant FuzzyState(skipNextEntry, newLines) == FuzzyRun(lines[..i])
      invariant file.writes == old(file.writes)
    {
      assert lines[..i + 1][..i] == lines[..i];
      var line := lines[i];
      if Strip(line) == "#, fuzzy" {
        skipNextEntry := true;
      } else {
        var replaced := false;
        if skipNextEntry && StartsWith(line, "msgstr") {
          var nextMsgid := FindNearestMsgid(lines, i);
          if nextMsgid.Some? && !Contains(nextMsgid.value, "msgid \"\"") {
            var msgidText := MsgidText(nextMsgid.value);
            if msgidText.Some? {
              newLines := newLines + [FuzzyFixedLine(msgidText.value)];
              replaced := true;
            }
          }
          skipNextEntry := false;
        }
        if !replaced {
          newLines := newLines + [line];
        }
      }
      i := i + 1;
    }
    assert lines[..i] == lines;
    file.lines := newLines;
    file.writes := file.writes + 1;
  }

  /** The backward search `for j in range(i-1, -1, -1)` for a `msgid` line. */
  method FindNearestMsgid(lines: seq<string>, i: nat) returns (found: Option<string>)
    requires i <= |lines|
    ensures found == NearestMsgid(lines[..i])
  {
    var j := i;
    while j > 0
      invariant 0 <= j <= i
      invariant NearestMsgid(lines[..i]) == NearestMsgid(lines[..j])
    {
      assert lines[..j][..j - 1] == lines[..j - 1];
      if StartsWith(lines[j - 1], "msgid") {
        return Some(lines[j - 1]);
      }
      j := j - 1;
    }
    return None;
  }

  // ---------------------------------------------------------------------------
  // Filling empty translations

  function EmptyFixedLine(text: string): string {
    "msgstr \"" + text + "\"  # AUTO-FIXED: was empty"
  }

  /** A `msgid` line whose text can fill the translation after it. */
  predicate CanFillNext(line: string) {
    StartsWith(line, "msgid \"") && !Contains(line, "msgid \"\"") && MsgidText(line).Some?
  }

  predicate IsEmptyMsgstr(line: string) {
    Strip(line) == "msgstr \"\"" || Strip(line) == "msgstr"
  }

  /** Line `k` is an empty translation directly after a fillable `msgid` line. */
  predicate FilledAt(lines: seq<string>, k: int) {
    0 < k < |lines| && CanFillNext(lines[k - 1]) && IsEmptyMsgstr(lines[k])
  }

  /** The lines with every empty translation after a `msgid` filled in. */
  function Filled(lines: seq<string>): (r: seq<string>)
    ensures |r| == |lines|
  {
    seq(|lines|, k requires 0 <= k < |lines| =>
      if FilledAt(lines, k) then EmptyFixedLine(MsgidText(lines[k - 1]).value) else lines[k])
  }

  /** How many of the first `n` lines are filled. */
  function FilledCount(lines: seq<string>, n: nat): nat
    requires n <= |lines|
  {
    CountWhere(n, FilledFlag(lines))
  }

  function FilledFlag(lines: seq<string>): nat -> bool {
    (k: nat) => FilledAt(lines, k)
  }

  /** A `msgid` line is never itself an empty translation. */
  lemma MsgidLineIsNotEmptyMsgstr(line: string)
    ensures StartsWith(line, "msgid") ==> !IsEmptyMsgstr(line)
    ensures CanFillNext(line) ==> !IsEmptyMsgstr(line)
  {
    if StartsWith(line, "msgid \"") {
      assert line[..5] == line[..7][..5];
    }
    if StartsWith(line, "msgid") {
      StripKeepsPrefix(line, "msgid");
      assert Strip(line)[3] == 'i';
    }
  }

  /** The loop copies line `i` when the line after it is not filled. */
  lemma FilledCopyStep(lines: seq<string>, i: nat)
    requires i < |lines| && !FilledAt(lines, i) && !FilledAt(lines, i + 1)
    ensures Filled(lines)[..i + 1] == Filled(lines)[..i] + [lines[i]]
    ensures FilledCount(lines, i + 1) == FilledCount(lines, i)
  {
    PrefixExtend(Filled(lines), i);
  }

  lemma FilledPairPrefix(lines: seq<string>, i: nat)
    requires !FilledAt(lines, i) && FilledAt(lines, i + 1)
    ensures Filled(lines)[..i + 2] == Filled(lines)[..i] + [lines[i], EmptyFixedLine(MsgidText(lines[i]).value)]
  {
    var f := Filled(lines);
    PrefixExtend(f, i);
    PrefixExtend(f, i + 1);
    assert f[i] == lines[i];
    assert f[i + 1] == EmptyFixedLine(MsgidText(lines[i]).value);
  }

  lemma FilledPairCount(lines: seq<string>, i: nat)
    requires !FilledAt(lines, i) && FilledAt(lines, i + 1)
    ensures FilledCount(lines, i + 2) == FilledCount(lines, i) + 1
  {
    assert FilledCount(lines, i + 1) == FilledCount(lines, i);
    assert FilledCount(lines, i + 2) == FilledCount(lines, i + 1) + 1;
  }

  /** The loop copies line `i` and fills line `i + 1`, then resumes at `i + 2`. */
  lemma FilledFillStep(lines: seq<string>, i: nat)
    requires !FilledAt(lines, i) && FilledAt(lines, i + 1)
    ensures Filled(lines)[..i + 2] == Filled(lines)[..i] + [lines[i], EmptyFixedLine(MsgidText(lines[i]).value)]
    ensures FilledCount(lines, i + 2) == FilledCount(lines, i) + 1
    ensures !FilledAt(lines, i + 2)
  {
    FilledPairPrefix(lines, i);
    FilledPairCount(lines, i);
    MsgidLineIsNotEmptyMsgstr(lines[i + 1]);
  }

  /** `fill_empty_translations`: returns the number of translations filled,
      and writes the file only when there was at least one. */
  method FillEmptyTranslations(file: PoFile) returns (corrections: nat)
    modifies file
    ensures corrections == FilledCount(old(file.lines), |old(file.lines)|)
    ensures file.lines == if corrections > 0 then Filled(old(file.lines)) else old(file.lines)
    ensures file.writes == old(file.writes) + (if corrections > 0 then 1 else 0)
  {
    var lines := file.lines;
    var newLines: seq<string> := [];
    corrections := 0;
    var i := 0;
    while i < |lines|
      invariant 0 <= i <= |lines|
      invariant newLines == Filled(lines)[..i]
      invariant corrections == FilledCount(lines, i)
      invariant !FilledAt(lines, i)
      invariant file.lines == lines && file.writes == old(file.writes)
    {
      var line := lines[i];
      if StartsWith(line, "msgid \"") && !Contains(line, "msgid \"\"") {
        var msgidText := MsgidText(line);
        if i + 1 < |lines| {
          var nextLine := lines[i + 1];
          if Strip(nextLine) == "msgstr \"\"" || Strip(nextLine) == "msgstr" {
            if msgidText.Some? {
              FilledFillStep(lines, i);
              newLines := newLines + [line, EmptyFixedLine(msgidText.value)];
              corrections := corrections + 1;
              i := i + 2;
              continue;
            }
          }
        }
      }
      FilledCopyStep(lines, i);
      newLines := newLines + [line];
      i := i + 1;
    }
    assert Filled(lines)[..i] == Filled(lines);
    if corrections > 0 {
      file.lines := newLines;
      file.writes := file.writes + 1;
    }
  }

  // ---------------------------------------------------------------------------
  // Placeholder consistency

  /** Line `i` is a `msgid` line with a named placeholder, followed by a
      `msgstr` line whose set of named placeholders differs. */
  predicate MismatchAt(lines: seq<string>, i: nat) {
    i + 1 < |lines| && StartsWith(lines[i], "msgid \"") && Contains(lines[i], "%(")
    && StartsWith(lines[i + 1], "msgstr \"")
    && Placeholders(NamedPlaceholder, lines[i]) != Placeholders(NamedPlaceholder, lines[i + 1])
  }

  function MismatchCount(lines: seq<string>, n: nat): nat
    requires n <= |lines|
  {
    CountWhere(n, MismatchFlag(lines))
  }

  function MismatchFlag(lines: seq<string>): nat -> bool {
    (i: nat) => MismatchAt(lines, i)
  }

  /** `fix_placeholder_consistency`: counts the mismatched pairs and changes
      nothing (it never writes the file). */
  lemma MismatchCountStep(lines: seq<string>, i: nat)
    requires i < |lines|
    ensures MismatchCount(lines, i + 1) == MismatchCount(lines, i) + (if MismatchAt(lines, i) then 1 else 0)
  {
  }

  method FixPlaceholderConsistency(file: PoFile) returns (corrections: nat)
    ensures corrections == MismatchCount(file.lines, |file.lines|)
  {
    var lines := file.lines;
    corrections := 0;
    var i := 0;
    while i < |lines|
      invariant 0 <= i <= |lines|
      invariant corrections == MismatchCount(lines, i)
    {
      MismatchCountStep(lines, i);
      var line := lines[i];
      if StartsWith(line, "msgid \"") && Contains(line, "%(") {
        var msgidPlaceholders := Placeholders(NamedPlaceholder, line);
        if i + 1 < |lines| {
          var nextLine := lines[i + 1];
          if StartsWith(nextLine, "msgstr \"") {
            var msgstrPlaceholders := Placeholders(NamedPlaceholder, nextLine);
            if msgidPlaceholders != msgstrPlaceholders {
              corrections := corrections + 1;
            }
          }
        }
      }
      i := i + 1;
    }
  }

  // ---------------------------------------------------------------------------
  // The whole run

  /** The lines a file holds after the fixer has run on it. */
  function FixedLines(lines: seq<string>): seq<string> {
    var cleaned := RemoveFuzzy(lines);
    if FilledCount(cleaned, |cleaned|) > 0 then Filled(cleaned) else cleaned
  }

  /** How many empty translations the fixer fills in a file with these lines. */
  function EmptyFixes(lines: seq<string>): nat {
    var cleaned := RemoveFuzzy(lines);
    FilledCount(cleaned, |cleaned|)
  }

  /** One iteration of `main`'s loop, on a file that exists. */
  method FixFile(f: PoFile) returns (emptyFixes: nat)
    modifies f
    ensures f.lines == FixedLines(old(f.lines))
    ensures emptyFixes == EmptyFixes(old(f.lines))
  {
    RemoveFuzzyMarkers(f);
    emptyFixes := FillEmptyTranslations(f);
    var placeholderIssues := FixPlaceholderConsistency(f);
  }

  /** `main`: one entry per locale of `Locales`, in order, holding the
      locale's translation file or `None` when the file does not exist (that
      locale is skipped). The exit status is 0 when no empty translation was
      filled, 1 otherwise. */
  method FixAllLocales(files: seq<Option<PoFile>>) returns (exitCode: int)
    requires |files| == |Locales|
    requires forall i, j :: 0 <= i < |files| && 0 <= j < |files| && i != j && files[i].Some? && files[j].Some?
               ==> files[i].value != files[j].value
    modifies set k | 0 <= k < |files| && files[k].Some? :: files[k].value
    ensures forall k :: 0 <= k < |files| && files[k].Some? ==> files[k].value.lines == FixedLines(old(files[k].value.lines))
    ensures exitCode == 0 <==> forall k :: 0 <= k < |files| && files[k].Some? ==> EmptyFixes(old(files[k].value.lines)) == 0
    ensures exitCode == 0 || exitCode == 1
  {
    ghost var before := seq(|files|, k requires 0 <= k < |files| reads set j | 0 <= j < |files| && files[j].Some? :: files[j].value =>
      if files[k].Some? then files[k].value.lines else []);
    var totalFixes := 0;
    var i := 0;
    while i < |files|
      invariant 0 <= i <= |files|
      invariant forall k :: 0 <= k < i && files[k].Some? ==> files[k].value.lines == FixedLines(before[k])
      invariant forall k :: i <= k < |files| && files[k].Some? ==> files[k].value.lines == before[k]
      invariant totalFixes == 0 <==> forall k :: 0 <= k < i && files[k].Some? ==> EmptyFixes(before[k]) == 0
    {
      if files[i].Some? {
        var f := files[i].value;
        assert forall k :: 0 <= k < |files| && k != i && files[k].Some? ==> files[k].value != f;
        var emptyFixes := FixFile(f);
        totalFixes := totalFixes + emptyFixes;
      }
      i := i + 1;
    }
    exitCode := if totalFixes == 0 then 0 else 1;
  }
}
