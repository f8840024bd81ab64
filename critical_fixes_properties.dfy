/** What the critical-error fixer guarantees about the lines it writes. */
module CriticalFixesProperties {
  import opened Wrappers
  import opened Text
  import opened Sequences
  import opened PoPatterns
  import opened CriticalFixes

  // ---------------------------------------------------------------------------
  // Line facts

  /** A line without leading or trailing whitespace is its own `strip()`. */
  lemma StripUnpadded(s: string)
    requires |s| > 0 && !IsSpace(s[0]) && !IsSpace(s[|s| - 1])
    ensures Strip(s) == s
  {
    assert StripStart(s) == s;
  }

  /** The fixed lines start with `msgstr` and end in `y`. */
  lemma AutoFixedShape(line: string, text: string)
    requires line == FuzzyFixedLine(text) || line == EmptyFixedLine(text)
    ensures |line| > 7 && line[..6] == "msgstr" && line[3] == 's' && line[|line| - 1] == 'y'
  {
  }

  lemma AutoFixedNotMsgid(line: string, text: string)
    requires line == FuzzyFixedLine(text) || line == EmptyFixedLine(text)
    ensures !StartsWith(line, "msgid") && !CanFillNext(line)
  {
    AutoFixedShape(line, text);
    assert line[..7][3] == 's';
    assert line[..5][3] == 's';
  }

  lemma AutoFixedStripped(line: string, text: string)
    requires line == FuzzyFixedLine(text) || line == EmptyFixedLine(text)
    ensures Strip(line) == line
  {
    AutoFixedShape(line, text);
    StripUnpadded(line);
  }

  /** A line written by the fixer is neither a fuzzy marker, nor an empty
      translation, nor a `msgid` line. */
  lemma AutoFixedLine(line: string, text: string)
    requires line == FuzzyFixedLine(text) || line == EmptyFixedLine(text)
    ensures !IsFuzzyMarker(line) && !IsEmptyMsgstr(line) && !StartsWith(line, "msgid")
    ensures !CanFillNext(line)
  {
    AutoFixedShape(line, text);
    AutoFixedStripped(line, text);
    AutoFixedNotMsgid(line, text);
  }

  // ---------------------------------------------------------------------------
  // remove_fuzzy_markers

  /** Some fuzzy marker has not yet been followed by a `msgstr` line. */
  predicate PendingMarker(before: seq<string>) {
    exists j :: 0 <= j < |before| && IsFuzzyMarker(before[j])
      && forall k :: j < k < |before| ==> !StartsWith(before[k], "msgstr")
  }

  lemma PendingMarkerStep(before: seq<string>, line: string)
    ensures PendingMarker(before + [line]) <==>
              IsFuzzyMarker(line) || (PendingMarker(before) && !StartsWith(line, "msgstr"))
  {
    var after := before + [line];
    if IsFuzzyMarker(line) {
      assert after[|before|] == line;
    } else if PendingMarker(before) && !StartsWith(line, "msgstr") {
      var j :| 0 <= j < |before| && IsFuzzyMarker(before[j])
                && forall k :: j < k < |before| ==> !StartsWith(before[k], "msgstr");
      assert after[j] == before[j];
      assert forall k :: j < k < |after| ==> !StartsWith(after[k], "msgstr");
    }
    if PendingMarker(after) {
      var j :| 0 <= j < |after| && IsFuzzyMarker(after[j])
                && forall k :: j < k < |after| ==> !StartsWith(after[k], "msgstr");
      if j < |before| {
        assert after[|before|] == line;
        assert forall k :: j < k < |before| ==> before[k] == after[k];
        assert IsFuzzyMarker(before[j]);
      }
    }
  }

  /** What becomes of line `i`: a marker is dropped, a `msgstr` line that a
      pending marker flags is replaced when the nearest `msgid` has usable text,
      and everything else is copied. */
  function LineOutcome(lines: seq<string>, i: nat): seq<string>
    requires i < |lines|
  {
    var before := lines[..i];
    if IsFuzzyMarker(lines[i]) then []
    else if StartsWith(lines[i], "msgstr") && PendingMarker(before) && FuzzyReplacement(before).Some? then
      [FuzzyFixedLine(FuzzyReplacement(before).value)]
    else [lines[i]]
  }

  /** The outcomes of the first `n` lines, in order. */
  function Outcomes(lines: seq<string>, n: nat): seq<string>
    requires n <= |lines|
  {
    if n == 0 then [] else Outcomes(lines, n - 1) + LineOutcome(lines, n - 1)
  }

  /** One step of the pass, described by `LineOutcome`. */
  lemma FuzzyStepOutcome(st: FuzzyState, lines: seq<string>, n: nat)
    requires n < |lines| && st.pending == PendingMarker(lines[..n])
    ensures FuzzyStep(st, lines[..n], lines[n]).output == st.output + LineOutcome(lines, n)
    ensures FuzzyStep(st, lines[..n], lines[n]).pending == PendingMarker(lines[..n + 1])
  {
    assert lines[..n + 1] == lines[..n] + [lines[n]];
    PendingMarkerStep(lines[..n], lines[n]);
  }

  lemma {:induction false} FuzzyRunPrefix(lines: seq<string>, n: nat)
    requires n <= |lines|
    ensures FuzzyRun(lines[..n]).output == Outcomes(lines, n)
    ensures FuzzyRun(lines[..n]).pending == PendingMarker(lines[..n])
  {
    if n > 0 {
      FuzzyRunPrefix(lines, n - 1);
      assert lines[..n][..n - 1] == lines[..n - 1];
      assert lines[..n][n - 1] == lines[n - 1];
      FuzzyStepOutcome(FuzzyRun(lines[..n - 1]), lines, n - 1);
    }
  }

  /** The fuzzy pass, line by line: each line is dropped, replaced or copied
      as `LineOutcome` says, and the results stay in order. */
  lemma RemoveFuzzyLineByLine(lines: seq<string>)
    ensures RemoveFuzzy(lines) == Outcomes(lines, |lines|)
  {
    FuzzyRunPrefix(lines, |lines|);
    assert lines[..|lines|] == lines;
  }

  /** No fuzzy marker survives the pass. */
  lemma {:induction false} NoFuzzyMarkersLeft(lines: seq<string>)
    ensures forall line :: line in RemoveFuzzy(lines) ==> !IsFuzzyMarker(line)
    decreases |lines|
  {
    if |lines| > 0 {
      var before := lines[..|lines| - 1];
      NoFuzzyMarkersLeft(before);
      var r := FuzzyReplacement(before);
      if r.Some? {
        AutoFixedLine(FuzzyFixedLine(r.value), r.value);
      }
    }
  }

  predicate IsOrdinaryLine(line: string) {
    !IsFuzzyMarker(line)
  }

  /** A step writes one line unless the line is a marker. */
  lemma FuzzyStepLength(st: FuzzyState, before: seq<string>, line: string)
    ensures |FuzzyStep(st, before, line).output| == |st.output| + (if IsOrdinaryLine(line) then 1 else 0)
  {
  }

  lemma RemoveFuzzyLengthStep(lines: seq<string>)
    requires |lines| > 0
    ensures |RemoveFuzzy(lines)|
              == |RemoveFuzzy(lines[..|lines| - 1])| + (if IsOrdinaryLine(lines[|lines| - 1]) then 1 else 0)
  {
    var before := lines[..|lines| - 1];
    FuzzyStepLength(FuzzyRun(before), before, lines[|lines| - 1]);
  }

  lemma OrdinaryCountStep(lines: seq<string>)
    requires |lines| > 0
    ensures |Filter(lines, IsOrdinaryLine)|
              == |Filter(lines[..|lines| - 1], IsOrdinaryLine)| + (if IsOrdinaryLine(lines[|lines| - 1]) then 1 else 0)
  {
    assert lines == lines[..|lines| - 1] + [lines[|lines| - 1]];
    FilterAppend(lines[..|lines| - 1], lines[|lines| - 1], IsOrdinaryLine);
  }

  /** The pass writes exactly one line for every line that is not a marker. */
  lemma {:induction false} RemoveFuzzyLength(lines: seq<string>)
    ensures |RemoveFuzzy(lines)| == |Filter(lines, IsOrdinaryLine)|
    decreases |lines|
  {
    if |lines| > 0 {
      RemoveFuzzyLength(lines[..|lines| - 1]);
      RemoveFuzzyLengthStep(lines);
      OrdinaryCountStep(lines);
    }
  }

  /** With no marker pending, an ordinary last line is copied and none becomes pending. */
  lemma FuzzyRunCopies(lines: seq<string>)
    requires |lines| > 0 && !FuzzyRun(lines[..|lines| - 1]).pending && !IsFuzzyMarker(lines[|lines| - 1])
    ensures FuzzyRun(lines) == FuzzyState(false, FuzzyRun(lines[..|lines| - 1]).output + [lines[|lines| - 1]])
  {
  }

  /** A file without markers is written back unchanged. */
  lemma {:induction false} RemoveFuzzyWithoutMarkers(lines: seq<string>)
    requires forall line :: line in lines ==> !IsFuzzyMarker(line)
    ensures RemoveFuzzy(lines) == lines
    ensures !FuzzyRun(lines).pending
    decreases |lines|
  {
    if |lines| > 0 {
      var before := lines[..|lines| - 1];
      var last := lines[|lines| - 1];
      assert forall line :: line in before ==> line in lines;
      RemoveFuzzyWithoutMarkers(before);
      assert last in lines;
      FuzzyRunCopies(lines);
      PrefixExtend(lines, |lines| - 1);
    }
  }

  /** Running the pass twice writes the same lines as running it once. */
  lemma RemoveFuzzyIdempotent(lines: seq<string>)
    ensures RemoveFuzzy(RemoveFuzzy(lines)) == RemoveFuzzy(lines)
  {
    NoFuzzyMarkersLeft(lines);
    RemoveFuzzyWithoutMarkers(RemoveFuzzy(lines));
  }

  // ---------------------------------------------------------------------------
  // fill_empty_translations

  /** A filled line was an empty translation after a fillable `msgid` line,
      and now holds that line's text; `msgid` lines are never altered. */
  lemma FillChangesOnlyEmptyTranslations(lines: seq<string>)
    ensures forall k :: 0 <= k < |lines| && Filled(lines)[k] != lines[k] ==>
              0 < k && CanFillNext(lines[k - 1]) && IsEmptyMsgstr(lines[k])
              && Filled(lines)[k] == EmptyFixedLine(MsgidText(lines[k - 1]).value)
    ensures forall k :: 0 <= k < |lines| && StartsWith(lines[k], "msgid") ==> Filled(lines)[k] == lines[k]
  {
    forall k | 0 <= k < |lines| && StartsWith(lines[k], "msgid")
      ensures Filled(lines)[k] == lines[k]
    {
      MsgidLineIsNotEmptyMsgstr(lines[k]);
    }
  }

  lemma FilledCountZero(lines: seq<string>, n: nat)
    requires n <= |lines|
    ensures FilledCount(lines, n) == 0 <==> forall k :: 0 <= k < n ==> !FilledAt(lines, k)
  {
    CountWhereZero(n, FilledFlag(lines));
    assert forall k: nat :: FilledFlag(lines)(k) == FilledAt(lines, k);
  }

  /** The count is zero exactly when filling changes nothing. */
  lemma FillUnchangedIffNoCorrections(lines: seq<string>)
    ensures Filled(lines) == lines <==> FilledCount(lines, |lines|) == 0
  {
    FilledCountZero(lines, |lines|);
    forall k | 0 <= k < |lines| && FilledAt(lines, k)
      ensures Filled(lines)[k] != lines[k]
    {
      var t := MsgidText(lines[k - 1]).value;
      AutoFixedLine(EmptyFixedLine(t), t);
    }
  }

  /** Filling a second time finds nothing left to fill. */
  lemma FillIdempotent(lines: seq<string>)
    ensures FilledCount(Filled(lines), |lines|) == 0
    ensures Filled(Filled(lines)) == Filled(lines)
  {
    var f := Filled(lines);
    forall k | 0 <= k < |f|
      ensures !FilledAt(f, k)
    {
      if FilledAt(lines, k) {
        var t := MsgidText(lines[k - 1]).value;
        AutoFixedLine(f[k], t);
      } else if 0 < k && FilledAt(lines, k - 1) {
        var t := MsgidText(lines[k - 2]).value;
        AutoFixedLine(f[k - 1], t);
      }
    }
    FilledCountZero(f, |f|);
    FillUnchangedIffNoCorrections(f);
  }

  // ---------------------------------------------------------------------------
  // fix_placeholder_consistency and main

  lemma MismatchCountZero(lines: seq<string>, n: nat)
    requires n <= |lines|
    ensures MismatchCount(lines, n) == 0 <==> forall i :: 0 <= i < n ==> !MismatchAt(lines, i)
  {
    CountWhereZero(n, MismatchFlag(lines));
    assert forall i: nat :: MismatchFlag(lines)(i) == MismatchAt(lines, i);
  }

  /** Only a `msgid` line containing `%(` can start a mismatched pair. */
  lemma NoNamedPlaceholderNoMismatch(lines: seq<string>)
    requires forall i :: 0 <= i < |lines| ==> !Contains(lines[i], "%(")
    ensures MismatchCount(lines, |lines|) == 0
  {
    MismatchCountZero(lines, |lines|);
  }

  /** A file in which no translation was filled keeps exactly the lines of the
      fuzzy pass; that is the case in which `main` exits with 0. */
  lemma NothingFilledKeepsFuzzyPass(lines: seq<string>)
    ensures EmptyFixes(lines) == 0 <==> FixedLines(lines) == RemoveFuzzy(lines)
  {
    FillUnchangedIffNoCorrections(RemoveFuzzy(lines));
  }
}
