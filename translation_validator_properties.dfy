/** What the validator's parser and checks guarantee. */
module TranslationValidationProperties {
  import opened Wrappers
  import opened Text
  import opened Sequences
  import opened PoPatterns
  import opened TranslationValidation

  // ---------------------------------------------------------------------------
  // The parser

  /** A line changes the recorded entries only when it is a `msgstr` line with
      a non-empty text following a non-empty `msgid`; the entry then takes the
      pending message and location, and both texts are reset. In particular a
      `msgstr` after an empty (or absent) `msgid` records nothing. */
  lemma ParseLineRecords(st: ParserState, raw: string, i: nat)
    ensures var r := ParseLine(st, raw, i);
            r.translations != st.translations <==> IsMsgstrLine(raw) && st.msgid != "" && Inner(Strip(raw), 8) != ""
    ensures var r := ParseLine(st, raw, i);
            r.translations != st.translations ==>
              && r.translations == st.translations + [Translation(st.msgid, Inner(Strip(raw), 8), st.location, st.lineNumber)]
              && r.msgid == "" && r.msgstr == ""
    ensures ParseLine(st, raw, i).translations[..|st.translations|] == st.translations
  {
    var line := Strip(raw);
    if StartsWith(line, "msgstr \"") {
      assert line[0] == 'm' && line[3] == 's';
    }
  }

  /** A line that neither starts nor ends with whitespace is its own strip. */
  lemma StripUnchanged(s: string)
    requires |s| > 0 && !IsSpace(s[0]) && !IsSpace(s[|s| - 1])
    ensures Strip(s) == s
  {
    assert StripStart(s) == s;
  }

  /** A `msgid "t"` line followed by a `msgstr "u"` line, both texts
      non-empty, records the entry (t, u) under the current location. */
  lemma MsgidThenMsgstr(st: ParserState, t: string, u: string, i: nat, j: nat)
    requires t != "" && u != ""
    ensures var idLine := "msgid \"" + t + "\"";
            var strLine := "msgstr \"" + u + "\"";
            ParseLine(ParseLine(st, idLine, i), strLine, j).translations
              == st.translations + [Translation(t, u, st.location, st.lineNumber)]
  {
    var idLine := "msgid \"" + t + "\"";
    var strLine := "msgstr \"" + u + "\"";
    StripUnchanged(idLine);
    StripUnchanged(strLine);
    assert idLine[..7] == "msgid \"" && idLine[0] == 'm';
    assert Inner(idLine, 7) == t by {
      assert idLine[7..|idLine| - 1] == t;
    }
    var mid := ParseLine(st, idLine, i);
    assert mid == st.(msgid := t);
    assert strLine[..8] == "msgstr \"" && strLine[0] == 'm' && strLine[4] == 't';
    assert Inner(strLine, 8) == u by {
      assert strLine[8..|strLine| - 1] == u;
    }
  }

  /** Every recorded entry has a non-empty message and translation. */
  lemma {:induction false} ParsedEntriesComplete(lines: seq<string>)
    ensures forall t :: t in Parse(lines).translations ==> t.msgid != "" && t.msgstr != ""
    decreases |lines|
  {
    if |lines| > 0 {
      var prefix := lines[..|lines| - 1];
      ParsedEntriesComplete(prefix);
      ParseLineRecords(Parse(prefix), lines[|lines| - 1], |lines|);
    }
  }

  /** Since the parser records no empty translation, `check_missing_translations`
      never reports anything about the parser's output. */
  lemma MissingCheckSilentOnParsed(lines: seq<string>)
    ensures FlatMap(Parse(lines).translations, MissingIssues) == []
  {
    ParsedEntriesComplete(lines);
    FlatMapNothing(Parse(lines).translations, MissingIssues);
  }

  /** The number (from 1) of the last `#:` line among `lines`, or 0. */
  function LastCommentLine(lines: seq<string>): (n: nat)
    ensures n <= |lines|
    decreases |lines|
  {
    if |lines| == 0 then 0
    else if IsCommentLine(lines[|lines| - 1]) then |lines|
    else LastCommentLine(lines[..|lines| - 1])
  }

  /** Line `LastCommentLine(lines)` is a `#:` line and none follows it. */
  lemma {:induction false} LastCommentLineIsLatest(lines: seq<string>)
    ensures var n := LastCommentLine(lines);
            (n > 0 ==> IsCommentLine(lines[n - 1]))
            && forall j :: n <= j < |lines| ==> !IsCommentLine(lines[j])
    decreases |lines|
  {
    if |lines| > 0 && !IsCommentLine(lines[|lines| - 1]) {
      var earlier := lines[..|lines| - 1];
      LastCommentLineIsLatest(earlier);
      assert forall j :: 0 <= j < |earlier| ==> earlier[j] == lines[j];
    }
  }

  /** The location written on line `n` (from 1), none for `n == 0`. */
  function CommentAt(lines: seq<string>, n: nat): Option<string>
    requires n <= |lines|
  {
    if n > 0 && IsCommentLine(lines[n - 1]) then Some(LocationOf(lines[n - 1])) else None
  }

  /** Only a `#:` line moves the parser's location and line number. */
  lemma ParseLineComment(st: ParserState, raw: string, i: nat)
    ensures IsCommentLine(raw) ==> ParseLine(st, raw, i).location == Some(LocationOf(raw)) && ParseLine(st, raw, i).lineNumber == i
    ensures !IsCommentLine(raw) ==> ParseLine(st, raw, i).location == st.location && ParseLine(st, raw, i).lineNumber == st.lineNumber
  {
  }

  /** A last line that is not a `#:` line leaves the latest location where it was. */
  lemma LastCommentKept(lines: seq<string>)
    requires |lines| > 0 && !IsCommentLine(lines[|lines| - 1])
    ensures LastCommentLine(lines) == LastCommentLine(lines[..|lines| - 1])
    ensures CommentAt(lines, LastCommentLine(lines)) == CommentAt(lines[..|lines| - 1], LastCommentLine(lines))
  {
    CommentAtPrefix(lines, |lines| - 1, LastCommentLine(lines[..|lines| - 1]));
  }

  /** The parser's location and line number are those of the latest `#:` line. */
  lemma {:induction false} ParserTracksLatestComment(lines: seq<string>)
    ensures Parse(lines).lineNumber == LastCommentLine(lines)
    ensures Parse(lines).location == CommentAt(lines, LastCommentLine(lines))
    decreases |lines|
  {
    if |lines| > 0 {
      var prefix, last := lines[..|lines| - 1], lines[|lines| - 1];
      ParserTracksLatestComment(prefix);
      ParseLineComment(Parse(prefix), last, |lines|);
      if !IsCommentLine(last) {
        LastCommentKept(lines);
      }
    }
  }

  /** The entry was recorded at `msgstr` line `k` (from 1) and carries the
      latest `#:` location before that line. */
  predicate CarriesAt(lines: seq<string>, t: Translation, k: nat) {
    1 <= k <= |lines| && IsMsgstrLine(lines[k - 1])
    && t.line == LastCommentLine(lines[..k]) && t.line <= k
    && t.location == CommentAt(lines, t.line)
  }

  /** The entry was recorded at some `msgstr` line with the latest location before it. */
  predicate CarriesLatestComment(lines: seq<string>, t: Translation) {
    exists k :: 1 <= k <= |lines| && CarriesAt(lines, t, k)
  }

  lemma MsgstrLineIsNoComment(raw: string)
    requires IsMsgstrLine(raw)
    ensures !IsCommentLine(raw)
  {
    assert Strip(raw)[0] == 'm';
  }

  /** The location on line `m` is the same in a longer file. */
  lemma CommentAtPrefix(lines: seq<string>, n: nat, m: nat)
    requires m <= n <= |lines|
    ensures CommentAt(lines[..n], m) == CommentAt(lines, m)
  {
    if m > 0 {
      assert lines[..n][m - 1] == lines[m - 1];
    }
  }

  /** Reading more lines keeps what an entry was recorded with. */
  lemma CarriesExtend(lines: seq<string>, n: nat, t: Translation)
    requires n <= |lines| && CarriesLatestComment(lines[..n], t)
    ensures CarriesLatestComment(lines, t)
  {
    var k :| 1 <= k <= n && CarriesAt(lines[..n], t, k);
    PrefixOfPrefix(lines, n, k);
    CommentAtPrefix(lines, n, t.line);
    assert lines[..n][k - 1] == lines[k - 1];
    assert CarriesAt(lines, t, k);
  }

  /** The entry a `msgstr` line records carries the latest location before it. */
  lemma NewEntryCarries(lines: seq<string>)
    requires |lines| > 0
    requires Parse(lines).translations != Parse(lines[..|lines| - 1]).translations
    ensures CarriesLatestComment(lines, Parse(lines).translations[|Parse(lines).translations| - 1])
  {
    var n := |lines|;
    var prefix, last := lines[..n - 1], lines[n - 1];
    ParserTracksLatestComment(prefix);
    ParseLineRecords(Parse(prefix), last, n);
    var t := Parse(lines).translations[|Parse(lines).translations| - 1];
    assert Parse(lines) == ParseLine(Parse(prefix), last, n);
    assert IsMsgstrLine(last);
    MsgstrLineIsNoComment(last);
    assert lines[..n] == lines;
    var m := LastCommentLine(prefix);
    assert t.line == m && t.location == Parse(prefix).location;
    assert LastCommentLine(lines) == m;
    assert m > 0 ==> lines[m - 1] == prefix[m - 1];
    assert CommentAt(lines, m) == CommentAt(prefix, m);
    assert CarriesAt(lines, t, n);
  }

  /** Every recorded entry carries the location and line number of the most
      recent `#:` line before the `msgstr` that completed it. */
  lemma {:induction false} EntriesCarryLatestComment(lines: seq<string>)
    ensures forall t :: t in Parse(lines).translations ==> CarriesLatestComment(lines, t)
    decreases |lines|
  {
    if |lines| > 0 {
      var n := |lines|;
      var prefix := lines[..n - 1];
      EntriesCarryLatestComment(prefix);
      ParseLineRecords(Parse(prefix), lines[n - 1], n);
      var before := Parse(prefix).translations;
      forall t | t in Parse(lines).translations
        ensures CarriesLatestComment(lines, t)
      {
        if t in before {
          CarriesExtend(lines, n - 1, t);
        } else {
          NewEntryCarries(lines);
        }
      }
    }
  }

  // ---------------------------------------------------------------------------
  // The checks

  /** `check_identical_translations` warns about exactly the entries whose
      translation equals a message of more than 3 characters that is not a
      listed technical term. */
  lemma IdenticalWarningsExact(ts: seq<Translation>, w: Issue)
    ensures w in FlatMap(ts, IdenticalIssues) <==>
            exists t :: t in ts && w == EntryIssue(IdenticalTranslation, t) && t.msgid != ""
                        && t.msgid == t.msgstr && t.msgid !in TechnicalTerms && |t.msgid| > 3
  {
    FlatMapMembers(ts, IdenticalIssues, w);
  }

  /** The float thresholds of `check_length_discrepancies` in integers. An
      entry short enough for TOO_SHORT can never be long enough for TOO_LONG,
      so no entry ever gets both. */
  lemma LengthThresholds(t: Translation)
    ensures IsTooLong(t) <==> 2 * |t.msgstr| > 5 * |t.msgid| && |t.msgid| > 10
    ensures IsTooShort(t) <==> 5 * |t.msgstr| < 2 * |t.msgid| && |t.msgid| > 15 && |t.msgstr| > 5
    ensures IsTooShort(t) ==> !IsTooLong(t)
  {
  }

  /** `check_length_discrepancies` reports TOO_LONG exactly when the
      translation is more than 2.5 times a message longer than 10 characters,
      TOO_SHORT exactly when it is under 0.4 times a message longer than 15 and
      is itself longer than 5, and never both for one entry. */
  lemma LengthWarningsExact(ts: seq<Translation>, t: Translation)
    requires t in ts && t.msgid != "" && t.msgstr != ""
    ensures EntryIssue(TooLong, t) in FlatMap(ts, LengthIssues) <==>
            2 * |t.msgstr| > 5 * |t.msgid| && |t.msgid| > 10
    ensures EntryIssue(TooShort, t) in FlatMap(ts, LengthIssues) <==>
            5 * |t.msgstr| < 2 * |t.msgid| && |t.msgid| > 15 && |t.msgstr| > 5
    ensures !(EntryIssue(TooLong, t) in FlatMap(ts, LengthIssues) && EntryIssue(TooShort, t) in FlatMap(ts, LengthIssues))
  {
    LengthThresholds(t);
    FlatMapMembers(ts, LengthIssues, EntryIssue(TooLong, t));
    FlatMapMembers(ts, LengthIssues, EntryIssue(TooShort, t));
  }

  /** The placeholder errors about one entry, for any two placeholder sets. */
  lemma PlaceholderDiffShape(t: Translation, a: set<string>, b: set<string>)
    ensures forall w :: w in PlaceholderDiffIssues(t, a, b) ==> w.EntryIssue? && w.entry == t
    ensures EntryIssue(MissingPlaceholders(a - b), t) in PlaceholderDiffIssues(t, a, b) <==> a - b != {}
    ensures EntryIssue(ExtraPlaceholders(b - a), t) in PlaceholderDiffIssues(t, a, b) <==> b - a != {}
    ensures PlaceholderDiffIssues(t, a, b) == [] <==> a == b
  {
    SetsDiffer(a, b);
  }

  /** Every placeholder error is about the entry it was raised for. */
  lemma PlaceholderIssuesAbout(ts: seq<Translation>, w: Issue)
    requires w in FlatMap(ts, PlaceholderIssues)
    ensures w.EntryIssue? && w.entry in ts && w.entry.msgid != "" && w.entry.msgstr != ""
    ensures w in PlaceholderIssues(w.entry)
  {
    FlatMapMembers(ts, PlaceholderIssues, w);
    var x :| x in ts && w in PlaceholderIssues(x);
    PlaceholderDiffShape(x, Placeholders(AnyPlaceholder, x.msgid), Placeholders(AnyPlaceholder, x.msgstr));
  }

  /** `check_placeholder_consistency` reports missing placeholders exactly when
      the message has one the translation lacks, extra ones exactly when the
      translation has one the message lacks, and nothing about an entry whose
      two placeholder sets are equal. */
  lemma PlaceholderErrorsExact(ts: seq<Translation>, t: Translation)
    requires t in ts && t.msgid != "" && t.msgstr != ""
    ensures var inMsgid, inMsgstr := Placeholders(AnyPlaceholder, t.msgid), Placeholders(AnyPlaceholder, t.msgstr);
            && (EntryIssue(MissingPlaceholders(inMsgid - inMsgstr), t) in FlatMap(ts, PlaceholderIssues) <==> inMsgid - inMsgstr != {})
            && (EntryIssue(ExtraPlaceholders(inMsgstr - inMsgid), t) in FlatMap(ts, PlaceholderIssues) <==> inMsgstr - inMsgid != {})
            && ((exists w :: w in FlatMap(ts, PlaceholderIssues) && w.EntryIssue? && w.entry == t) <==> inMsgid != inMsgstr)
  {
    var inMsgid, inMsgstr := Placeholders(AnyPlaceholder, t.msgid), Placeholders(AnyPlaceholder, t.msgstr);
    var errors := FlatMap(ts, PlaceholderIssues);
    PlaceholderDiffShape(t, inMsgid, inMsgstr);
    assert PlaceholderIssues(t) == PlaceholderDiffIssues(t, inMsgid, inMsgstr);
    var missing := EntryIssue(MissingPlaceholders(inMsgid - inMsgstr), t);
    var extra := EntryIssue(ExtraPlaceholders(inMsgstr - inMsgid), t);
    FlatMapMembers(ts, PlaceholderIssues, missing);
    FlatMapMembers(ts, PlaceholderIssues, extra);
    if missing in errors {
      PlaceholderIssuesAbout(ts, missing);
    }
    if extra in errors {
      PlaceholderIssuesAbout(ts, extra);
    }
    if exists w :: w in errors && w.EntryIssue? && w.entry == t {
      var w :| w in errors && w.EntryIssue? && w.entry == t;
      PlaceholderIssuesAbout(ts, w);
    }
    if inMsgid != inMsgstr {
      var w := PlaceholderIssues(t)[0];
      FlatMapMembers(ts, PlaceholderIssues, w);
    }
  }

  /** Two sets differ exactly when one has an element the other lacks. */
  lemma SetsDiffer<T>(a: set<T>, b: set<T>)
    ensures a != b <==> a - b != {} || b - a != {}
  {
    if a - b == {} && b - a == {} {
      assert a <= b && b <= a;
    }
  }

  /** `check_common_mistakes` reports nothing for a language other than
      `es_CO` and `es_GT`. */
  lemma MistakesOnlyForSpanish(language: string, search: Search, ts: seq<Translation>)
    requires language != "es_CO" && language != "es_GT"
    ensures FlatMap(ts, MistakeCheck(language, search)) == []
  {
    assert language !in SuspiciousPatterns;
    FlatMapNothing(ts, MistakeCheck(language, search));
  }

  // ---------------------------------------------------------------------------
  // Duplicate translations

  /** The entries of `ts` that take part in the duplicate check with translation `k`. */
  function SharedWith(ts: seq<Translation>, k: string): (r: seq<Translation>)
    ensures forall x :: x in r <==> x in ts && Shares(x) && x.msgstr == k
    decreases |ts|
  {
    if |ts| == 0 then []
    else
      var last := ts[|ts| - 1];
      var earlier := SharedWith(ts[..|ts| - 1], k);
      assert forall x :: x in ts <==> x in ts[..|ts| - 1] || x == last;
      if Shares(last) && last.msgstr == k then earlier + [last] else earlier
  }

  /** No entry shares the translation `k`: nothing is grouped under it. */
  lemma SharedWithNone(ts: seq<Translation>, k: string)
    requires forall x :: x in ts && Shares(x) ==> x.msgstr != k
    ensures SharedWith(ts, k) == []
  {
    var r := SharedWith(ts, k);
    assert forall i :: 0 <= i < |r| ==> r[i] in r;
  }

  /** `g` groups the shareable entries of `ts` by translation: each translation
      once, in order of first appearance, with exactly its entries, in order. */
  ghost predicate GroupedCorrectly(g: Grouping, ts: seq<Translation>) {
    && NoDuplicates(g.keys)
    && (forall k :: k in g.keys <==> k in g.members)
    && (forall k :: k in g.members ==> g.members[k] == SharedWith(ts, k))
    && (forall t :: t in ts && Shares(t) ==> t.msgstr in g.members)
  }

  lemma SharedWithStep(ts: seq<Translation>, k: string)
    requires |ts| > 0
    ensures SharedWith(ts, k) == SharedWith(ts[..|ts| - 1], k)
              + (if Shares(ts[|ts| - 1]) && ts[|ts| - 1].msgstr == k then [ts[|ts| - 1]] else [])
  {
  }

  /** An entry that takes no part in the check changes neither the grouping nor any group. */
  lemma AddSkipped(g: Grouping, ts: seq<Translation>)
    requires |ts| > 0 && GroupedCorrectly(g, ts[..|ts| - 1]) && !Shares(ts[|ts| - 1])
    ensures GroupedCorrectly(AddToGroups(g, ts[|ts| - 1]), ts)
  {
    forall k | k in g.members
      ensures g.members[k] == SharedWith(ts, k)
    {
      SharedWithStep(ts, k);
    }
    forall x | x in ts && Shares(x)
      ensures x.msgstr in g.members
    {
      assert x in ts[..|ts| - 1];
    }
  }

  /** An entry with a translation already seen joins the end of its group. */
  lemma AddToExisting(g: Grouping, ts: seq<Translation>)
    requires |ts| > 0 && GroupedCorrectly(g, ts[..|ts| - 1])
    requires Shares(ts[|ts| - 1]) && ts[|ts| - 1].msgstr in g.members
    ensures GroupedCorrectly(AddToGroups(g, ts[|ts| - 1]), ts)
  {
    var t := ts[|ts| - 1];
    var g' := AddToGroups(g, t);
    assert g'.keys == g.keys && g'.members.Keys == g.members.Keys;
    forall k | k in g'.members
      ensures g'.members[k] == SharedWith(ts, k)
    {
      SharedWithStep(ts, k);
    }
    forall x | x in ts && Shares(x)
      ensures x.msgstr in g'.members
    {
      if x != t {
        assert x in ts[..|ts| - 1];
      }
    }
  }

  /** A new translation is appended to the keys and gets a group of its own. */
  lemma AddNewKeyKeys(g: Grouping, t: Translation)
    requires NoDuplicates(g.keys) && (forall k :: k in g.keys <==> k in g.members)
    requires Shares(t) && t.msgstr !in g.members
    ensures NoDuplicates(AddToGroups(g, t).keys)
    ensures forall k :: k in AddToGroups(g, t).keys <==> k in AddToGroups(g, t).members
  {
    NoDuplicatesAppend(g.keys, t.msgstr);
  }

  /** The new group holds just the new entry, and the other groups are unchanged. */
  lemma AddNewKeyMembers(g: Grouping, ts: seq<Translation>)
    requires |ts| > 0 && (forall k :: k in g.members ==> g.members[k] == SharedWith(ts[..|ts| - 1], k))
    requires forall x :: x in ts[..|ts| - 1] && Shares(x) ==> x.msgstr in g.members
    requires Shares(ts[|ts| - 1]) && ts[|ts| - 1].msgstr !in g.members
    ensures var g' := AddToGroups(g, ts[|ts| - 1]);
            forall k :: k in g'.members ==> g'.members[k] == SharedWith(ts, k)
  {
    var prefix, t := ts[..|ts| - 1], ts[|ts| - 1];
    var g' := AddToGroups(g, t);
    forall k | k in g'.members
      ensures g'.members[k] == SharedWith(ts, k)
    {
      SharedWithStep(ts, k);
      if k == t.msgstr {
        SharedWithNone(prefix, k);
      }
    }
  }

  /** An entry with a new translation opens a group of its own, after the others. */
  lemma AddNewKey(g: Grouping, ts: seq<Translation>)
    requires |ts| > 0 && GroupedCorrectly(g, ts[..|ts| - 1])
    requires Shares(ts[|ts| - 1]) && ts[|ts| - 1].msgstr !in g.members
    ensures GroupedCorrectly(AddToGroups(g, ts[|ts| - 1]), ts)
  {
    var prefix, t := ts[..|ts| - 1], ts[|ts| - 1];
    AddNewKeyKeys(g, t);
    AddNewKeyMembers(g, ts);
    forall x | x in ts && Shares(x)
      ensures x.msgstr in AddToGroups(g, t).members
    {
      if x != t {
        assert x in prefix;
      }
    }
  }

  /** Adding one entry keeps the grouping correct. */
  lemma AddToGroupsCorrect(g: Grouping, ts: seq<Translation>)
    requires |ts| > 0 && GroupedCorrectly(g, ts[..|ts| - 1])
    ensures GroupedCorrectly(AddToGroups(g, ts[|ts| - 1]), ts)
  {
    var t := ts[|ts| - 1];
    if !Shares(t) {
      AddSkipped(g, ts);
    } else if t.msgstr in g.members {
      AddToExisting(g, ts);
    } else {
      AddNewKey(g, ts);
    }
  }

  /** The grouping keeps each translation once, in order of first appearance,
      and holds exactly the entries sharing it, in order. */
  lemma {:induction false} GroupContents(ts: seq<Translation>)
    ensures GroupedCorrectly(Group(ts), ts)
    decreases |ts|
  {
    if |ts| > 0 {
      GroupContents(ts[..|ts| - 1]);
      AddToGroupsCorrect(Group(ts[..|ts| - 1]), ts);
    }
  }

  /** Two different values at known positions make more than one distinct value. */
  lemma TwoDistinctAt(xs: seq<string>, i: nat, j: nat)
    requires i < |xs| && j < |xs| && xs[i] != xs[j]
    ensures DistinctCount(xs) > 1
  {
    var s := set x | x in xs;
    assert xs[j] in s - {xs[i]};
    assert s == (s - {xs[i]}) + {xs[i]};
  }

  /** The duplicate warnings follow the keys, one per key at most. */
  lemma {:induction false} GroupIssuesKeys(keys: seq<string>, members: map<string, seq<Translation>>)
    ensures forall w :: w in GroupIssues(keys, members) ==>
              w.DuplicateTranslation? && w.msgstr in keys && w.msgstr in members
              && DuplicateIssue(w.msgstr, members[w.msgstr]) == [w]
    ensures NoDuplicates(keys) ==>
              forall i, j :: 0 <= i < j < |GroupIssues(keys, members)| ==>
                GroupIssues(keys, members)[i].msgstr != GroupIssues(keys, members)[j].msgstr
    ensures forall k :: k in keys && k in members ==>
              forall w :: w in DuplicateIssue(k, members[k]) ==> w in GroupIssues(keys, members)
    decreases |keys|
  {
    if |keys| > 0 {
      var prefix, k := keys[..|keys| - 1], keys[|keys| - 1];
      GroupIssuesKeys(prefix, members);
      assert forall x :: x in keys <==> x in prefix || x == k;
      if NoDuplicates(keys) {
        assert NoDuplicates(prefix);
        assert k !in prefix;
      }
    }
  }

  /** A group with two distinct messages yields exactly one warning, for its translation. */
  lemma DuplicateIssueFires(k: string, entries: seq<Translation>)
    requires |entries| > 1 && DistinctCount(Msgids(entries)) > 1
    ensures |DuplicateIssue(k, entries)| == 1 && DuplicateIssue(k, entries)[0].msgstr == k
  {
  }

  /** Two entries sharing a translation but not a message make its group
      hold at least two distinct messages. */
  lemma SharedByTwoMessages(ts: seq<Translation>, t1: Translation, t2: Translation)
    requires t1 in ts && t2 in ts && Shares(t1) && Shares(t2)
    requires t1.msgstr == t2.msgstr && t1.msgid != t2.msgid
    ensures |SharedWith(ts, t1.msgstr)| > 1 && DistinctCount(Msgids(SharedWith(ts, t1.msgstr))) > 1
  {
    var shared := SharedWith(ts, t1.msgstr);
    assert t1 in shared && t2 in shared;
    var msgids := Msgids(shared);
    var i :| 0 <= i < |shared| && shared[i] == t1;
    var j :| 0 <= j < |shared| && shared[j] == t2;
    assert msgids[i] != msgids[j];
    TwoDistinctAt(msgids, i, j);
  }

  /** The warning for a group that holds a shared translation is emitted. */
  lemma GroupWarningEmitted(ts: seq<Translation>, t: Translation)
    requires t in ts && Shares(t)
    ensures forall w :: w in DuplicateIssue(t.msgstr, SharedWith(ts, t.msgstr)) ==> w in DuplicateIssues(ts)
  {
    var g := Group(ts);
    GroupContents(ts);
    GroupIssuesKeys(g.keys, g.members);
    assert t.msgstr in g.keys && t.msgstr in g.members;
  }

  /** Two entries sharing a translation but not a message cause a warning for it. */
  lemma DuplicateWarningFor(ts: seq<Translation>, t1: Translation, t2: Translation)
    requires t1 in ts && t2 in ts && Shares(t1) && Shares(t2)
    requires t1.msgstr == t2.msgstr && t1.msgid != t2.msgid
    ensures exists w :: w in DuplicateIssues(ts) && w.DuplicateTranslation? && w.msgstr == t1.msgstr
  {
    var shared := SharedWith(ts, t1.msgstr);
    SharedByTwoMessages(ts, t1, t2);
    DuplicateIssueFires(t1.msgstr, shared);
    GroupWarningEmitted(ts, t1);
    var w := DuplicateIssue(t1.msgstr, shared)[0];
    assert w in DuplicateIssue(t1.msgstr, shared);
    assert w in DuplicateIssues(ts);
  }

  /** `check_duplicate_translations` emits one warning per translation longer
      than 5 characters that two different messages share; the warning lists
      every message using it, in order. */
  lemma DuplicateWarningsExact(ts: seq<Translation>)
    ensures forall w :: w in DuplicateIssues(ts) ==>
              && w.DuplicateTranslation?
              && |w.msgstr| > 5
              && w.msgids == Msgids(SharedWith(ts, w.msgstr))
              && w.distinct == DistinctCount(w.msgids) > 1
    ensures forall t1, t2 :: t1 in ts && t2 in ts && Shares(t1) && Shares(t2)
                             && t1.msgstr == t2.msgstr && t1.msgid != t2.msgid ==>
              exists w :: w in DuplicateIssues(ts) && w.DuplicateTranslation? && w.msgstr == t1.msgstr
    ensures var ws := DuplicateIssues(ts);
            forall i, j :: 0 <= i < j < |ws| ==> ws[i].msgstr != ws[j].msgstr
  {
    var g := Group(ts);
    GroupContents(ts);
    GroupIssuesKeys(g.keys, g.members);
    forall w | w in DuplicateIssues(ts)
      ensures |w.msgstr| > 5
    {
      var shared := SharedWith(ts, w.msgstr);
      assert shared[0] in shared;
    }
    forall t1, t2 | t1 in ts && t2 in ts && Shares(t1) && Shares(t2) && t1.msgstr == t2.msgstr && t1.msgid != t2.msgid
      ensures exists w :: w in DuplicateIssues(ts) && w.DuplicateTranslation? && w.msgstr == t1.msgstr
    {
      DuplicateWarningFor(ts, t1, t2);
    }
  }
}
