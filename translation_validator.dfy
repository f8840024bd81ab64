/** The translation-file validator (`TranslationValidator`): a line-by-line
    parser that pairs each `msgid` with the `msgstr` that follows it, and a
    series of checks that append warnings and errors about the pairs. The file
    is given as its list of lines; the report printed to the console is not
    modelled. */
module TranslationValidation {
  import opened Wrappers
  import opened Text
  import opened Sequences
  import opened PoPatterns

  /** A parsed entry: the message, its translation, and the `#:` location
      comment in force (with its line number, 0 when there was none). */
  datatype Translation = Translation(msgid: string, msgstr: string, location: Option<string>, line: nat)

  datatype Severity = High | Medium | Low

  datatype IssueKind =
    | IdenticalTranslation
    | TooLong
    | TooShort
    | MissingTranslation
    | MissingPlaceholders(missing: set<string>)
    | ExtraPlaceholders(extra: set<string>)
    | SuspiciousPattern(pattern: string)
  {
    function Severity(): Severity {
      match this
      case IdenticalTranslation => Medium
      case TooLong => Low
      case TooShort => Low
      case _ => High
    }
  }

  /** A warning or an error. Issues about one entry carry the entry; a
      duplicate-translation warning carries the shared translation, the
      messages and locations using it, and how many distinct messages those are. */
  datatype Issue =
    | EntryIssue(kind: IssueKind, entry: Translation)
    | DuplicateTranslation(msgstr: string, msgids: seq<string>, locations: seq<Option<string>>, distinct: nat)

  // ---------------------------------------------------------------------------
  // Parsing

  /** The parser's variables between lines. An absent msgid or msgstr (`None`)
      is the empty string here: the parser only ever tests their truth value,
      for which the two agree. */
  datatype ParserState = ParserState(
    msgid: string,
    msgstr: string,
    location: Option<string>,
    lineNumber: nat,
    translations: seq<Translation>)

  const Initial := ParserState("", "", None, 0, [])

  /** Python's `line[k:-1]`: what lies between the first `k` characters and
      the last one, or nothing when the line is too short. */
  function Inner(line: string, k: nat): (r: string)
    ensures |line| > k + 1 ==> line == line[..k] + r + [line[|line| - 1]]
    ensures |line| <= k + 1 ==> r == ""
  {
    if |line| > k + 1 then line[k..|line| - 1] else ""
  }

  predicate IsCommentLine(raw: string) {
    StartsWith(Strip(raw), "#:")
  }

  predicate IsMsgidLine(raw: string) {
    StartsWith(Strip(raw), "msgid \"")
  }

  predicate IsMsgstrLine(raw: string) {
    StartsWith(Strip(raw), "msgstr \"")
  }

  /** The location text of a `#:` line. */
  function LocationOf(raw: string): string
    requires IsCommentLine(raw)
  {
    Strip(Strip(raw)[2..])
  }

  /** One line (numbered from 1) through the parser. */
  function ParseLine(st: ParserState, raw: string, i: nat): ParserState {
    var line := Strip(raw);
    if StartsWith(line, "#:") then
      st.(location := Some(Strip(line[2..])), lineNumber := i)
    else if StartsWith(line, "msgid \"") then
      st.(msgid := Inner(line, 7))
    else if StartsWith(line, "msgstr \"") then
      var msgstr := Inner(line, 8);
      if st.msgid != "" && msgstr != "" then
        ParserState("", "", st.location, st.lineNumber,
                    st.translations + [Translation(st.msgid, msgstr, st.location, st.lineNumber)])
      else st.(msgstr := msgstr)
    else st
  }

  /** The parser state after the given lines. */
  function Parse(lines: seq<string>): ParserState
    decreases |lines|
  {
    if |lines| == 0 then Initial
    else ParseLine(Parse(lines[..|lines| - 1]), lines[|lines| - 1], |lines|)
  }

  // ---------------------------------------------------------------------------
  // The checks, one entry at a time

  const TechnicalTerms: seq<string> := ["ID", "GPS", "CSV", "API", "URL", "HTTP", "HTTPS", "JSON",
                                        "OK", "Email", "Admin", "ext_id"]

  /** `check_identical_translations` on one entry. */
  function IdenticalIssues(t: Translation): seq<Issue> {
    if t.msgid == "" || t.msgstr == "" then []
    else if t.msgid == t.msgstr && t.msgid !in TechnicalTerms && |t.msgid| > 3 then [EntryIssue(IdenticalTranslation, t)]
    else []
  }

  /** `len_msgstr > len_msgid * 2.5 and len_msgid > 10` */
  predicate IsTooLong(t: Translation) {
    (|t.msgstr| as real) > (|t.msgid| as real) * 2.5 && |t.msgid| > 10
  }

  /** `len_msgstr < len_msgid * 0.4 and len_msgid > 15 and len_msgstr > 5` */
  predicate IsTooShort(t: Translation) {
    (|t.msgstr| as real) < (|t.msgid| as real) * 0.4 && |t.msgid| > 15 && |t.msgstr| > 5
  }

  /** `check_length_discrepancies` on one entry. */
  function LengthIssues(t: Translation): seq<Issue> {
    if t.msgid == "" || t.msgstr == "" then []
    else if IsTooLong(t) then [EntryIssue(TooLong, t)]
    else if IsTooShort(t) then [EntryIssue(TooShort, t)]
    else []
  }

  /** `check_missing_translations` on one entry. */
  function MissingIssues(t: Translation): seq<Issue> {
    if t.msgid != "" && t.msgstr == "" then [EntryIssue(MissingTranslation, t)] else []
  }

  /** `check_placeholder_consistency` on one entry. */
  function PlaceholderIssues(t: Translation): seq<Issue> {
    if t.msgid == "" || t.msgstr == "" then []
    else PlaceholderDiffIssues(t, Placeholders(AnyPlaceholder, t.msgid), Placeholders(AnyPlaceholder, t.msgstr))
  }

  /** The errors for an entry whose message and translation hold the given
      placeholder sets: the missing ones, then the extra ones. */
  function PlaceholderDiffIssues(t: Translation, inMsgid: set<string>, inMsgstr: set<string>): seq<Issue> {
    var missing, extra := inMsgid - inMsgstr, inMsgstr - inMsgid;
    (if missing != {} then [EntryIssue(MissingPlaceholders(missing), t)] else [])
    + (if extra != {} then [EntryIssue(ExtraPlaceholders(extra), t)] else [])
  }

  /** The suspicious patterns per language: a pattern looked for in the
      translation, and the words whose presence in the message excuses it. */
  const SuspiciousPatterns: map<string, seq<(string, string)>> := map[
    "es_CO" := [("\\bno hay\\b.*\\bregistrad", "Importar|Upload|Create"),
                ("\\bAcciones\\b", "Instructions|Instrucciones"),
                ("\\bUbicaciones\\b$", "Back|Volver"),
                ("\\bInformación del usuario\\b", "Format|CSV")],
    "es_GT" := [("\\bno hay\\b.*\\bregistrad", "Importar|Upload|Create"),
                ("\\bAcciones\\b", "Instructions|Instrucciones")]
  ]

  /** `re.search(pattern, text, re.IGNORECASE)` succeeds. Regular-expression
      search is a parameter of the model. */
  type Search = (string, string) -> bool

  function PatternIssues(patterns: seq<(string, string)>, search: Search, t: Translation): seq<Issue>
    decreases |patterns|
  {
    if |patterns| == 0 then []
    else
      var (pattern, conflicting) := patterns[|patterns| - 1];
      PatternIssues(patterns[..|patterns| - 1], search, t)
      + (if search(pattern, t.msgstr) && !search(conflicting, t.msgid) then [EntryIssue(SuspiciousPattern(pattern), t)] else [])
  }

  /** `check_common_mistakes` on one entry. */
  function MistakeIssues(language: string, search: Search, t: Translation): seq<Issue> {
    if language !in SuspiciousPatterns || t.msgid == "" || t.msgstr == "" then []
    else PatternIssues(SuspiciousPatterns[language], search, t)
  }

  /** `check_common_mistakes` as a check on entries, for a fixed language. */
  function MistakeCheck(language: string, search: Search): Translation -> seq<Issue> {
    t => MistakeIssues(language, search, t)
  }

  // ---------------------------------------------------------------------------
  // Duplicate translations

  /** Only entries whose translation is longer than 5 characters take part. */
  predicate Shares(t: Translation) {
    t.msgid != "" && t.msgstr != "" && |t.msgstr| > 5
  }

  /** `msgstr_to_msgids`: the entries grouped by translation, with the
      translations in order of first appearance (dict insertion order). */
  datatype Grouping = Grouping(keys: seq<string>, members: map<string, seq<Translation>>)

  function AddToGroups(g: Grouping, t: Translation): Grouping {
    if !Shares(t) then g
    else if t.msgstr in g.members then g.(members := g.members[t.msgstr := g.members[t.msgstr] + [t]])
    else Grouping(g.keys + [t.msgstr], g.members[t.msgstr := [t]])
  }

  function Group(ts: seq<Translation>): Grouping
    decreases |ts|
  {
    if |ts| == 0 then Grouping([], map[]) else AddToGroups(Group(ts[..|ts| - 1]), ts[|ts| - 1])
  }

  function Msgids(entries: seq<Translation>): (r: seq<string>)
    ensures |r| == |entries|
    ensures forall i :: 0 <= i < |r| ==> r[i] == entries[i].msgid
  {
    seq(|entries|, i requires 0 <= i < |entries| => entries[i].msgid)
  }

  function Locations(entries: seq<Translation>): (r: seq<Option<string>>)
    ensures |r| == |entries|
    ensures forall i :: 0 <= i < |r| ==> r[i] == entries[i].location
  {
    seq(|entries|, i requires 0 <= i < |entries| => entries[i].location)
  }

  function DistinctCount(xs: seq<string>): nat {
    |set x | x in xs|
  }

  /** The warning for one group, if its entries have at least two distinct messages. */
  function DuplicateIssue(msgstr: string, entries: seq<Translation>): seq<Issue> {
    var msgids := Msgids(entries);
    if |entries| > 1 && DistinctCount(msgids) > 1 then
      [DuplicateTranslation(msgstr, msgids, Locations(entries), DistinctCount(msgids))]
    else []
  }

  function GroupIssues(keys: seq<string>, members: map<string, seq<Translation>>): seq<Issue>
    decreases |keys|
  {
    if |keys| == 0 then []
    else
      var k := keys[|keys| - 1];
      GroupIssues(keys[..|keys| - 1], members) + (if k in members then DuplicateIssue(k, members[k]) else [])
  }

  /** `check_duplicate_translations` */
  function DuplicateIssues(ts: seq<Translation>): seq<Issue> {
    var g := Group(ts);
    GroupIssues(g.keys, g.members)
  }

  // ---------------------------------------------------------------------------
  // The whole run

  /** The counts `validate` returns. */
  datatype Counts = Counts(errors: nat, warnings: nat, total: nat)

  /** The errors a run adds, in the order the checks run. */
  function RunErrors(ts: seq<Translation>): seq<Issue> {
    FlatMap(ts, MissingIssues) + FlatMap(ts, PlaceholderIssues)
  }

  /** The warnings a run adds, in the order the checks run. */
  function RunWarnings(language: string, search: Search, ts: seq<Translation>): seq<Issue> {
    FlatMap(ts, IdenticalIssues) + FlatMap(ts, LengthIssues)
    + FlatMap(ts, MistakeCheck(language, search)) + DuplicateIssues(ts)
  }

  class TranslationValidator {
    var language: string
    var warnings: seq<Issue>
    var errors: seq<Issue>

    constructor (language: string)
      ensures this.language == language && warnings == [] && errors == []
    {
      this.language := language;
      warnings := [];
      errors := [];
    }

    /** `parse_po_file` over the file's lines. */
    method ParsePoFile(lines: seq<string>) returns (translations: seq<Translation>)
      ensures translations == Parse(lines).translations
    {
      translations := [];
      var currentMsgid, currentMsgstr, currentLocation, lineNumber := "", "", None, 0;
      var i := 0;
      while i < |lines|
        invariant 0 <= i <= |lines|
        invariant ParserState(currentMsgid, currentMsgstr, currentLocation, lineNumber, translations) == Parse(lines[..i])
      {
        assert lines[..i + 1][..i] == lines[..i];
        var line := Strip(lines[i]);
        if StartsWith(line, "#:") {
          currentLocation := Some(Strip(line[2..]));
          lineNumber := i + 1;
        } else if StartsWith(line, "msgid \"") {
          currentMsgid := Inner(line, 7);
        } else if StartsWith(line, "msgstr \"") {
          currentMsgstr := Inner(line, 8);
          if currentMsgid != "" && currentMsgstr != "" {
            translations := translations + [Translation(currentMsgid, currentMsgstr, currentLocation, lineNumber)];
            currentMsgid := "";
            currentMsgstr := "";
          }
        }
        i := i + 1;
      }
      assert lines[..i] == lines;
    }

    /** Appends `f`'s issues for every entry to the warnings. */
    method AddWarnings(translations: seq<Translation>, f: Translation -> seq<Issue>)
      modifies this
      ensures warnings == old(warnings) + FlatMap(translations, f)
      ensures errors == old(errors) && language == old(language)
    {
      var i := 0;
      while i < |translations|
        invariant 0 <= i <= |translations|
        invariant warnings == old(warnings) + FlatMap(translations[..i], f)
        invariant errors == old(errors) && language == old(language)
      {
        assert translations[..i + 1][..i] == translations[..i];
        warnings := warnings + f(translations[i]);
        i := i + 1;
      }
      assert translations[..i] == translations;
    }

    /** Appends `f`'s issues for every entry to the errors. */
    method AddErrors(translations: seq<Translation>, f: Translation -> seq<Issue>)
      modifies this
      ensures errors == old(errors) + FlatMap(translations, f)
      ensures warnings == old(warnings) && language == old(language)
    {
      var i := 0;
      while i < |translations|
        invariant 0 <= i <= |translations|
        invariant errors == old(errors) + FlatMap(translations[..i], f)
        invariant warnings == old(warnings) && language == old(language)
      {
        assert translations[..i + 1][..i] == translations[..i];
        errors := errors + f(translations[i]);
        i := i + 1;
      }
      assert translations[..i] == translations;
    }

    /** `check_identical_translations` */
    method CheckIdenticalTranslations(translations: seq<Translation>)
      modifies this
      ensures warnings == old(warnings) + FlatMap(translations, IdenticalIssues)
      ensures errors == old(errors) && language == old(language)
    {
      AddWarnings(translations, IdenticalIssues);
    }

    /** `check_length_discrepancies` */
    method CheckLengthDiscrepancies(translations: seq<Translation>)
      modifies this
      ensures warnings == old(warnings) + FlatMap(translations, LengthIssues)
      ensures errors == old(errors) && language == old(language)
    {
      AddWarnings(translations, LengthIssues);
    }

    /** `check_missing_translations` */
    method CheckMissingTranslations(translations: seq<Translation>)
      modifies this
      ensures errors == old(errors) + FlatMap(translations, MissingIssues)
      ensures warnings == old(warnings) && language == old(language)
    {
      AddErrors(translations, MissingIssues);
    }

    /** `check_placeholder_consistency` */
    method CheckPlaceholderConsistency(translations: seq<Translation>)
      modifies this
      ensures errors == old(errors) + FlatMap(translations, PlaceholderIssues)
      ensures warnings == old(warnings) && language == old(language)
    {
      AddErrors(translations, PlaceholderIssues);
    }

    /** `check_common_mistakes`: returns at once for a language without patterns. */
    method CheckCommonMistakes(translations: seq<Translation>, search: Search)
      modifies this
      ensures warnings == old(warnings) + FlatMap(translations, MistakeCheck(old(language), search))
      ensures errors == old(errors) && language == old(language)
    {
      var lang := language;
      if lang !in SuspiciousPatterns {
        FlatMapNothing(translations, MistakeCheck(lang, search));
        return;
      }
      AddWarnings(translations, MistakeCheck(lang, search));
    }

    /** `check_duplicate_translations`: groups the entries by translation, then
        warns once per group with more than one distinct message. */
    method CheckDuplicateTranslations(translations: seq<Translation>)
      modifies this
      ensures warnings == old(warnings) + DuplicateIssues(translations)
      ensures errors == old(errors) && language == old(language)
    {
      var keys: seq<string> := [];
      var members: map<string, seq<Translation>> := map[];
      var i := 0;
      while i < |translations|
        invariant 0 <= i <= |translations|
        invariant Grouping(keys, members) == Group(translations[..i])
      {
        assert translations[..i + 1][..i] == translations[..i];
        var t := translations[i];
        if t.msgid != "" && t.msgstr != "" && |t.msgstr| > 5 {
          if t.msgstr in members {
            members := members[t.msgstr := members[t.msgstr] + [t]];
          } else {
            keys := keys + [t.msgstr];
            members := members[t.msgstr := [t]];
          }
        }
        i := i + 1;
      }
      assert translations[..i] == translations;
      var j := 0;
      while j < |keys|
        invariant 0 <= j <= |keys|
        invariant warnings == old(warnings) + GroupIssues(keys[..j], members)
        invariant errors == old(errors) && language == old(language)
      {
        assert keys[..j + 1][..j] == keys[..j];
        if keys[j] in members {
          warnings := warnings + DuplicateIssue(keys[j], members[keys[j]]);
        }
        j := j + 1;
      }
      assert keys[..j] == keys;
    }

    /** `validate`: parse, run the six checks in order, and count. */
    method Validate(lines: seq<string>, search: Search) returns (counts: Counts)
      modifies this
      ensures errors == old(errors) + RunErrors(Parse(lines).translations)
      ensures warnings == old(warnings) + RunWarnings(old(language), search, Parse(lines).translations)
      ensures counts == Counts(|errors|, |warnings|, |Parse(lines).translations|)
    {
      var translations := ParsePoFile(lines);
      ghost var e0, w0 := errors, warnings;
      CheckMissingTranslations(translations);
      CheckIdenticalTranslations(translations);
      CheckLengthDiscrepancies(translations);
      CheckPlaceholderConsistency(translations);
      CheckCommonMistakes(translations, search);
      CheckDuplicateTranslations(translations);
      JoinSteps(e0, FlatMap(translations, MissingIssues), FlatMap(translations, PlaceholderIssues));
      JoinSteps4(w0, FlatMap(translations, IdenticalIssues), FlatMap(translations, LengthIssues),
                 FlatMap(translations, MistakeCheck(old(language), search)), DuplicateIssues(translations));
      counts := Counts(|errors|, |warnings|, |translations|);
    }
  }

  lemma JoinSteps(x: seq<Issue>, a: seq<Issue>, b: seq<Issue>)
    ensures x + a + b == x + (a + b)
  {
  }

  lemma JoinSteps4(x: seq<Issue>, a: seq<Issue>, b: seq<Issue>, c: seq<Issue>, d: seq<Issue>)
    ensures x + a + b + c + d == x + (a + b + c + d)
  {
  }
}
