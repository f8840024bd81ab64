/** What import_from_csv guarantees about one call: every row is counted once,
    each error names the row that caused it, the counters match what was added
    to the directory, nothing already in the directory is touched, and no two
    locations end up sharing an ext_id through the import. */
module LocationImportProperties {
  import opened Wrappers
  import opened Sequences
  import opened Text
  import opened LocationImport

  // ---------------------------------------------------------------------------
  // Relations between the run before and after a step

  /** The locations added after `before` have ext_ids found nowhere earlier. */
  predicate FreshExtIds(before: seq<Location>, after: seq<Location>) {
    forall i, j :: |before| <= i < |after| && 0 <= j < i ==> after[i].extId != after[j].extId
  }

  /** `b` is `a` after some steps: the directory and the error list only grew at
      the end, every counter of created records equals the number of records
      added, and the added locations have fresh ext_ids. */
  predicate Tracks(a: Run, b: Run) {
    a.dir.adm1s <= b.dir.adm1s && a.dir.adm2s <= b.dir.adm2s
    && a.dir.sources <= b.dir.sources && a.dir.locations <= b.dir.locations
    && a.stats.errors <= b.stats.errors
    && b.stats.adm1Created - a.stats.adm1Created == |b.dir.adm1s| - |a.dir.adm1s|
    && b.stats.adm2Created - a.stats.adm2Created == |b.dir.adm2s| - |a.dir.adm2s|
    && b.stats.sourcesCreated - a.stats.sourcesCreated == |b.dir.sources| - |a.dir.sources|
    && b.stats.locationsCreated - a.stats.locationsCreated == |b.dir.locations| - |a.dir.locations|
    && FreshExtIds(a.dir.locations, b.dir.locations)
  }

  /** A resolution step: no location, no error and no row count changes. */
  predicate Quiet(a: Run, b: Run) {
    b.dir.locations == a.dir.locations && b.stats.errors == a.stats.errors
    && b.stats.locationsCreated == a.stats.locationsCreated
    && b.stats.locationsSkipped == a.stats.locationsSkipped
  }

  /** The row numbered `n` was counted exactly once: either created, adding
      no error, or skipped, adding at most one error, which starts with its
      row tag. */
  predicate Counted(a: Run, b: Run, n: nat) {
    var s, t := a.stats, b.stats;
    (t.locationsCreated == s.locationsCreated + 1 && t.locationsSkipped == s.locationsSkipped
     && t.errors == s.errors)
    || (t.locationsCreated == s.locationsCreated && t.locationsSkipped == s.locationsSkipped + 1
        && (t.errors == s.errors
            || (|t.errors| == |s.errors| + 1 && StartsWith(t.errors[|s.errors|], RowTag(n)))))
  }

  // ---------------------------------------------------------------------------
  // The search order of the ADM1 and ADM2 lookups

  /** `_get_or_create_adm1` looks in this order: by ext_id among enabled, then
      disabled records, then by name among enabled, then disabled records. So an
      ext_id match beats a name match, and an enabled record beats a disabled
      one at each stage. */
  lemma Adm1SearchOrder(d: Directory, name: string, extId: string)
    ensures extId != "" && (exists a :: a in d.adm1s && a.extId == extId) ==>
              ExistingAdm1(d, name, extId).Some? && ExistingAdm1(d, name, extId).value.extId == extId
    ensures extId != "" && (exists a :: a in d.adm1s && a.extId == extId && a.enabled) ==>
              ExistingAdm1(d, name, extId).Some? && ExistingAdm1(d, name, extId).value.extId == extId
              && ExistingAdm1(d, name, extId).value.enabled
    ensures (extId == "" || forall a :: a in d.adm1s ==> a.extId != extId)
            && (exists a :: a in d.adm1s && a.name == name && a.enabled) ==>
              ExistingAdm1(d, name, extId).Some? && ExistingAdm1(d, name, extId).value.name == name
              && ExistingAdm1(d, name, extId).value.enabled
  {
  }

  /** The same order for `_get_or_create_adm2`, where a name match counts only
      under the given ADM1. */
  lemma Adm2SearchOrder(d: Directory, name: string, extId: string, adm1Id: nat)
    ensures extId != "" && (exists a :: a in d.adm2s && a.extId == extId) ==>
              ExistingAdm2(d, name, extId, adm1Id).Some? && ExistingAdm2(d, name, extId, adm1Id).value.extId == extId
    ensures extId != "" && (exists a :: a in d.adm2s && a.extId == extId && a.enabled) ==>
              ExistingAdm2(d, name, extId, adm1Id).Some? && ExistingAdm2(d, name, extId, adm1Id).value.extId == extId
              && ExistingAdm2(d, name, extId, adm1Id).value.enabled
    ensures (extId == "" || forall a :: a in d.adm2s ==> a.extId != extId)
            && (exists a :: a in d.adm2s && a.name == name && a.adm1Id == adm1Id && a.enabled) ==>
              ExistingAdm2(d, name, extId, adm1Id).Some? && ExistingAdm2(d, name, extId, adm1Id).value.name == name
              && ExistingAdm2(d, name, extId, adm1Id).value.adm1Id == adm1Id
              && ExistingAdm2(d, name, extId, adm1Id).value.enabled
  {
  }


  lemma {:induction false} TracksTransitive(a: Run, b: Run, c: Run)
    requires Tracks(a, b) && Tracks(b, c)
    ensures Tracks(a, c)
  {
    var la, lb, lc := a.dir.locations, b.dir.locations, c.dir.locations;
    forall i, j | |la| <= i < |lc| && 0 <= j < i
      ensures lc[i].extId != lc[j].extId
    {
      if i < |lb| {
        assert lc[i] == lb[i] && lc[j] == lb[j];
      }
    }
  }

  lemma FailTracks(r: Run, n: nat, message: string)
    ensures Tracks(r, Fail(r, n, message)) && Counted(r, Fail(r, n, message), n)
  {
    assert Fail(r, n, message).stats.errors[|r.stats.errors|] == RowTag(n) + message;
  }

  // ---------------------------------------------------------------------------
  // The three resolvers

  lemma ResolveAdm1Tracks(r: Run, name: string, extId: string, countryId: int)
    ensures Tracks(r, ResolveAdm1(r, name, extId, countryId).run)
    ensures Quiet(r, ResolveAdm1(r, name, extId, countryId).run)
  {
    if (name, extId) !in r.adm1Cache && ExistingAdm1(r.dir, name, extId).None? {
      var created := CreateAdm1(r.dir, name, extId, countryId);
      assert created.0.locations == r.dir.locations;
    }
  }

  lemma ResolveAdm2Tracks(r: Run, name: string, extId: string, adm1Id: nat)
    ensures Tracks(r, ResolveAdm2(r, name, extId, adm1Id).run)
    ensures Quiet(r, ResolveAdm2(r, name, extId, adm1Id).run)
  {
    if (name, extId, adm1Id) !in r.adm2Cache && ExistingAdm2(r.dir, name, extId, adm1Id).None? {
      var created := CreateAdm2(r.dir, name, extId, adm1Id);
      assert created.0.locations == r.dir.locations;
    }
  }

  lemma ResolveSourceTracks(r: Run, name: string, sourceType: string)
    ensures Tracks(r, ResolveSource(r, name, sourceType).run)
    ensures Quiet(r, ResolveSource(r, name, sourceType).run)
  {
    var res := ResolveSource(r, name, sourceType);
    if (name, sourceType) in r.sourceCache {
      assert res.run == r;
    } else if ExistingSource(r.dir, name).Some? {
      assert res.run.dir == r.dir && res.run.stats == r.stats;
    } else if Upper(sourceType) !in SourceTypeValues {
      assert res.run == r;
    } else {
      var created := CreateSource(r.dir, name, Upper(sourceType));
      assert created.0.locations == r.dir.locations;
      assert res.run.dir == created.0;
    }
  }

  /** A second lookup of the same ADM1 is answered from the cache: nothing
      changes and the same id comes back. */
  lemma ResolveAdm1Settles(r: Run, name: string, extId: string, countryId: int)
    ensures var a := ResolveAdm1(r, name, extId, countryId);
            a.id.Some? ==> ResolveAdm1(a.run, name, extId, countryId) == a
  {
  }

  /** An ADM1 is created only on a cache miss with no directory match, and the
      record added is the one asked for, enabled, with a fresh id. */
  lemma ResolveAdm1Creates(r: Run, name: string, extId: string, countryId: int)
    ensures var a := ResolveAdm1(r, name, extId, countryId);
            (|a.run.dir.adm1s| > |r.dir.adm1s|
             <==> (name, extId) !in r.adm1Cache && ExistingAdm1(r.dir, name, extId).None? && NextOutcome(r.dir).Accepted?)
            && (|a.run.dir.adm1s| > |r.dir.adm1s| ==>
                  a.id == Some(r.dir.lastId + 1)
                  && a.run.dir.adm1s == r.dir.adm1s + [Adm1(r.dir.lastId + 1, name, extId, countryId, true)])
  {
  }

  lemma ResolveAdm2Settles(r: Run, name: string, extId: string, adm1Id: nat)
    ensures var a := ResolveAdm2(r, name, extId, adm1Id);
            a.id.Some? ==> ResolveAdm2(a.run, name, extId, adm1Id) == a
  {
  }

  /** An ADM2 is created only when no ADM2 matches, where a match by name
      counts only under the same ADM1; the new record hangs under that ADM1. */
  lemma ResolveAdm2Creates(r: Run, name: string, extId: string, adm1Id: nat)
    ensures var a := ResolveAdm2(r, name, extId, adm1Id);
            (|a.run.dir.adm2s| > |r.dir.adm2s|
             <==> (name, extId, adm1Id) !in r.adm2Cache && ExistingAdm2(r.dir, name, extId, adm1Id).None?
                  && NextOutcome(r.dir).Accepted?)
            && (|a.run.dir.adm2s| > |r.dir.adm2s| ==>
                  a.id == Some(r.dir.lastId + 1)
                  && a.run.dir.adm2s == r.dir.adm2s + [Adm2(r.dir.lastId + 1, name, extId, adm1Id, true, true)])
  {
  }

  lemma ResolveSourceSettles(r: Run, name: string, sourceType: string)
    ensures var s := ResolveSource(r, name, sourceType);
            s.id.Some? ==> ResolveSource(s.run, name, sourceType) == s
  {
  }

  /** A source is created only when no source has the same upper-cased name and
      the upper-cased type is a valid `SourceType`; it is stored with that type. */
  lemma ResolveSourceCreates(r: Run, name: string, sourceType: string)
    ensures var s := ResolveSource(r, name, sourceType);
            (|s.run.dir.sources| > |r.dir.sources|
             <==> (name, sourceType) !in r.sourceCache && ExistingSource(r.dir, name).None?
                  && Upper(sourceType) in SourceTypeValues && NextOutcome(r.dir).Accepted?)
            && (|s.run.dir.sources| > |r.dir.sources| ==>
                  s.id == Some(r.dir.lastId + 1)
                  && s.run.dir.sources == r.dir.sources + [Source(r.dir.lastId + 1, name, Upper(sourceType), true)])
  {
  }

  /** An unknown type for a new source is reported and nothing is recorded, not
      even in the cache, so a later row naming a valid type can still create it. */
  lemma InvalidSourceType(r: Run, name: string, sourceType: string)
    requires (name, sourceType) !in r.sourceCache && ExistingSource(r.dir, name).None?
    requires Upper(sourceType) !in SourceTypeValues
    ensures ResolveSource(r, name, sourceType) == SourceResolved(r, None, Some(InvalidTypeMessage(sourceType)))
    ensures InvalidTypeMessage(sourceType)
            == "Tipo de fuente inválido '" + sourceType + "'. Valores válidos: MANUAL, AUTOMATIC"
  {
    InvalidTypeMessageText(sourceType);
  }

  lemma InvalidTypeMessageText(sourceType: string)
    ensures InvalidTypeMessage(sourceType)
            == "Tipo de fuente inválido '" + sourceType + "'. Valores válidos: MANUAL, AUTOMATIC"
  {
    assert Join(", ", SourceTypeValues) == "MANUAL, AUTOMATIC";
  }

  // ---------------------------------------------------------------------------
  // One row

  lemma InsertTracks(r: Run, n: nat, loc: Location)
    requires forall l :: l in r.dir.locations ==> l.extId != loc.extId
    ensures Tracks(r, Insert(r, n, loc)) && Counted(r, Insert(r, n, loc), n)
  {
    var created := CreateLocation(r.dir, loc);
    var s := r.(dir := created.0);
    if created.1.Raised? {
      FailTracks(s, n, created.1.reason);
    } else {
      var ls := created.0.locations;
      assert ls == r.dir.locations + [loc.(id := created.1.id)];
      forall i, j | |r.dir.locations| <= i < |ls| && 0 <= j < i
        ensures ls[i].extId != ls[j].extId
      {
        assert ls[j] in r.dir.locations;
      }
    }
  }

  /** A location that does not exist yet under either enabled value is absent. */
  lemma AbsentLocation(d: Directory, extId: string)
    requires !LocationExists(d, extId)
    ensures forall l :: l in d.locations ==> l.extId != extId
  {
    forall l | l in d.locations
      ensures l.extId != extId
    {
      var j :| 0 <= j < |d.locations| && d.locations[j] == l;
    }
  }

  lemma StoreRowTracks(r: Run, row: Row, n: nat, adm2Id: nat, sourceId: nat)
    requires forall l :: l in r.dir.locations ==> l.extId != Strip(Field(row, "ext_id"))
    ensures Tracks(r, StoreRow(r, row, n, adm2Id, sourceId)) && Counted(r, StoreRow(r, row, n, adm2Id, sourceId), n)
  {
    var problem := FormatProblem(row);
    if problem.Some? {
      FailTracks(r, n, problem.value);
    } else {
      InsertTracks(r, n, NewLocation(row, adm2Id, sourceId));
    }
  }

  lemma ResolveRowTracks(r: Run, row: Row, n: nat, countryId: int)
    requires !LocationExists(r.dir, Strip(Field(row, "ext_id")))
    ensures Tracks(r, ResolveRow(r, row, n, countryId)) && Counted(r, ResolveRow(r, row, n, countryId), n)
  {
    AbsentLocation(r.dir, Strip(Field(row, "ext_id")));
    var adm1Name := Strip(Field(row, "admin_level_1"));
    var a1 := ResolveAdm1(r, adm1Name, Strip(Field(row, "ext_id_level_1")), countryId);
    ResolveAdm1Tracks(r, adm1Name, Strip(Field(row, "ext_id_level_1")), countryId);
    if !Truthy(a1.id) {
      FailTracks(a1.run, n, "No se pudo obtener/crear ADM1 '" + adm1Name + "'");
      TracksTransitive(r, a1.run, ResolveRow(r, row, n, countryId));
      return;
    }
    var adm2Name := Strip(Field(row, "admin_level_2"));
    var a2 := ResolveAdm2(a1.run, adm2Name, Strip(Field(row, "ext_id_level_2")), a1.id.value);
    ResolveAdm2Tracks(a1.run, adm2Name, Strip(Field(row, "ext_id_level_2")), a1.id.value);
    TracksTransitive(r, a1.run, a2.run);
    if !Truthy(a2.id) {
      FailTracks(a2.run, n, "No se pudo obtener/crear ADM2 '" + adm2Name + "'");
      TracksTransitive(r, a2.run, ResolveRow(r, row, n, countryId));
      return;
    }
    var sourceName := Strip(Field(row, "source_name"));
    var src := ResolveSource(a2.run, sourceName, Strip(Field(row, "type_of_source")));
    ResolveSourceTracks(a2.run, sourceName, Strip(Field(row, "type_of_source")));
    TracksTransitive(r, a2.run, src.run);
    if src.error.Some? && src.error.value != "" {
      FailTracks(src.run, n, src.error.value);
    } else if !Truthy(src.id) {
      FailTracks(src.run, n, "No se pudo obtener/crear fuente '" + sourceName + "'");
    } else {
      StoreRowTracks(src.run, row, n, a2.id.value, src.id.value);
    }
    TracksTransitive(r, src.run, ResolveRow(r, row, n, countryId));
  }

  /** Every row is counted once and adds at most one error, tagged with its number. */
  lemma AfterRowTracks(r: Run, row: Row, n: nat, countryId: int)
    ensures Tracks(r, AfterRow(r, row, n, countryId)) && Counted(r, AfterRow(r, row, n, countryId), n)
  {
    var missing := MissingFields(row);
    if missing != [] {
      FailTracks(r, n, "Campos faltantes: " + Join(", ", missing));
    } else if !LocationExists(r.dir, Strip(Field(row, "ext_id"))) {
      ResolveRowTracks(r, row, n, countryId);
    }
  }

  /** A row with a blank or absent required field reports exactly the blank
      fields, in the order of the required-field list, and changes nothing else. */
  lemma MissingFieldsRow(r: Run, row: Row, n: nat, countryId: int)
    requires MissingFields(row) != []
    ensures AfterRow(r, row, n, countryId)
            == Fail(r, n, "Campos faltantes: " + Join(", ", MissingFields(row)))
    ensures forall f :: f in MissingFields(row) <==> f in RequiredFields && Strip(Field(row, f)) == ""
    ensures IsSubsequence(MissingFields(row), RequiredFields)
  {
  }

  /** A complete row whose ext_id is already taken, by an enabled or a disabled
      location, is skipped silently: only the skipped counter moves. */
  lemma ExistingLocationRow(r: Run, row: Row, n: nat, countryId: int)
    requires MissingFields(row) == []
    requires exists l :: l in r.dir.locations && l.extId == Strip(Field(row, "ext_id"))
    ensures AfterRow(r, row, n, countryId)
            == r.(stats := r.stats.(locationsSkipped := r.stats.locationsSkipped + 1))
  {
    var l :| l in r.dir.locations && l.extId == Strip(Field(row, "ext_id"));
    assert l in LocationsByExtId(r.dir, l.extId, l.enabled);
    assert LocationExists(r.dir, Strip(Field(row, "ext_id")));
    assert CompleteRow(r, row, n, countryId) == Skip(r);
  }

  // ---------------------------------------------------------------------------
  // The whole file

  /** For each row, whether it added an error. */
  function RowFailures(r: Run, rows: seq<Row>, countryId: int): (flags: seq<bool>)
    ensures |flags| == |rows|
    decreases |rows|
  {
    if |rows| == 0 then []
    else
      var prefix := rows[..|rows| - 1];
      var before := ImportRows(r, prefix, countryId);
      var after := AfterRow(before, rows[|rows| - 1], |rows| + 1, countryId);
      RowFailures(r, prefix, countryId) + [after.stats.errors != before.stats.errors]
  }

  /** The row numbers of the set flags; the first data row is row 2. */
  function Positions(flags: seq<bool>): (rows: seq<nat>)
    ensures forall i :: 0 <= i < |rows| ==> 2 <= rows[i] <= |flags| + 1
    ensures forall i, j :: 0 <= i < j < |rows| ==> rows[i] < rows[j]
  {
    if |flags| == 0 then []
    else
      var earlier := Positions(flags[..|flags| - 1]);
      if flags[|flags| - 1] then earlier + [|flags| + 1] else earlier
  }

  /** The numbers of the rows that reported an error, in row order. */
  function FailedRows(r: Run, rows: seq<Row>, countryId: int): (failed: seq<nat>)
    ensures forall i :: 0 <= i < |failed| ==> 2 <= failed[i] <= |rows| + 1
    ensures forall i, j :: 0 <= i < j < |failed| ==> failed[i] < failed[j]
  {
    Positions(RowFailures(r, rows, countryId))
  }

  lemma {:induction false} ImportRowsTracks(r: Run, rows: seq<Row>, countryId: int)
    ensures Tracks(r, ImportRows(r, rows, countryId))
    ensures ImportRows(r, rows, countryId).stats.locationsCreated + ImportRows(r, rows, countryId).stats.locationsSkipped
            == r.stats.locationsCreated + r.stats.locationsSkipped + |rows|
    decreases |rows|
  {
    if |rows| > 0 {
      var prefix := rows[..|rows| - 1];
      var before := ImportRows(r, prefix, countryId);
      ImportRowsTracks(r, prefix, countryId);
      AfterRowTracks(before, rows[|rows| - 1], |rows| + 1, countryId);
      TracksTransitive(r, before, ImportRows(r, rows, countryId));
    }
  }

  /** One more row adds its number to the failed rows exactly when it added an error. */
  lemma FailedRowsStep(r: Run, rows: seq<Row>, countryId: int)
    requires |rows| > 0
    ensures var before := ImportRows(r, rows[..|rows| - 1], countryId);
            var after := AfterRow(before, rows[|rows| - 1], |rows| + 1, countryId);
            FailedRows(r, rows, countryId)
            == FailedRows(r, rows[..|rows| - 1], countryId)
               + (if after.stats.errors != before.stats.errors then [|rows| + 1] else [])
  {
    var flags := RowFailures(r, rows, countryId);
    assert flags[..|flags| - 1] == RowFailures(r, rows[..|rows| - 1], countryId);
  }

  /** The errors added by the rows are one per failing row, tagged with its number. */
  lemma {:induction false} ImportRowsErrors(r: Run, rows: seq<Row>, countryId: int)
    ensures TaggedErrors(r.stats.errors, ImportRows(r, rows, countryId).stats.errors, FailedRows(r, rows, countryId))
    decreases |rows|
  {
    if |rows| > 0 {
      var prefix := rows[..|rows| - 1];
      var before := ImportRows(r, prefix, countryId);
      ImportRowsErrors(r, prefix, countryId);
      AfterRowTracks(before, rows[|rows| - 1], |rows| + 1, countryId);
      var after := AfterRow(before, rows[|rows| - 1], |rows| + 1, countryId);
      FailedRowsStep(r, rows, countryId);
      TaggedErrorsStep(r.stats.errors, before.stats.errors, after.stats.errors,
                       FailedRows(r, prefix, countryId), FailedRows(r, rows, countryId), |rows| + 1);
    }
  }

  /** Errors `errors[|base| + i]` tagged with row `rows[i]`. */
  predicate TaggedErrors(base: seq<string>, errors: seq<string>, rows: seq<nat>) {
    base <= errors && |errors| == |base| + |rows|
    && forall i :: 0 <= i < |rows| ==> StartsWith(errors[|base| + i], RowTag(rows[i]))
  }

  lemma TaggedErrorsStep(base: seq<string>, before: seq<string>, after: seq<string>,
                         earlier: seq<nat>, failed: seq<nat>, n: nat)
    requires TaggedErrors(base, before, earlier)
    requires (after == before && failed == earlier)
             || (|after| == |before| + 1 && before <= after && StartsWith(after[|before|], RowTag(n))
                 && failed == earlier + [n])
    ensures TaggedErrors(base, after, failed)
  {
    if after != before {
      forall i | 0 <= i < |failed|
        ensures StartsWith(after[|base| + i], RowTag(failed[i]))
      {
        if i < |earlier| {
          assert after[|base| + i] == before[|base| + i];
        }
      }
    }
  }

  /** import_from_csv's accounting: each row read is created or skipped, the
      counters equal the records added, the directory only grows, no location is
      created for an ext_id that already had one or twice for the same ext_id,
      and the errors are one per failing row, tagged with its number and in row
      order, followed by the general error when reading stopped early. */
  lemma ImportAccounting(d: Directory, countryId: int, rows: seq<Row>, readError: Option<string>)
    ensures var (stats, after) := ImportResult(d, countryId, rows, readError);
            var failed := FailedRows(Start(d), rows, countryId);
            stats.locationsCreated + stats.locationsSkipped == |rows|
            && stats.adm1Created == |after.adm1s| - |d.adm1s| && d.adm1s <= after.adm1s
            && stats.adm2Created == |after.adm2s| - |d.adm2s| && d.adm2s <= after.adm2s
            && stats.sourcesCreated == |after.sources| - |d.sources| && d.sources <= after.sources
            && stats.locationsCreated == |after.locations| - |d.locations| && d.locations <= after.locations
            && FreshExtIds(d.locations, after.locations)
            && |stats.errors| == |failed| + (if readError.Some? then 1 else 0)
            && (forall i :: 0 <= i < |failed| ==> StartsWith(stats.errors[i], RowTag(failed[i])))
            && (readError.Some? ==> stats.errors[|failed|] == "Error general: " + readError.value)
  {
    ImportRowsTracks(Start(d), rows, countryId);
    ImportErrorList(d, countryId, rows, readError);
  }

  lemma ImportErrorList(d: Directory, countryId: int, rows: seq<Row>, readError: Option<string>)
    ensures var stats := ImportResult(d, countryId, rows, readError).0;
            var failed := FailedRows(Start(d), rows, countryId);
            |stats.errors| == |failed| + (if readError.Some? then 1 else 0)
            && (forall i :: 0 <= i < |failed| ==> StartsWith(stats.errors[i], RowTag(failed[i])))
            && (readError.Some? ==> stats.errors[|failed|] == "Error general: " + readError.value)
  {
    var r := ImportRows(Start(d), rows, countryId);
    ImportRowsErrors(Start(d), rows, countryId);
    TaggedThenGeneral(r.stats.errors, FailedRows(Start(d), rows, countryId), readError);
  }

  /** Row errors tagged in order, then the general error if reading stopped early. */
  lemma TaggedThenGeneral(errors: seq<string>, failed: seq<nat>, readError: Option<string>)
    requires TaggedErrors([], errors, failed)
    ensures var all := match readError
              case None => errors
              case Some(e) => errors + ["Error general: " + e];
            |all| == |failed| + (if readError.Some? then 1 else 0)
            && (forall i :: 0 <= i < |failed| ==> StartsWith(all[i], RowTag(failed[i])))
            && (readError.Some? ==> all[|failed|] == "Error general: " + readError.value)
  {
  }

  // ---------------------------------------------------------------------------
  // Coordinates

  /** A comma decimal separator is read as a point: "4,65" is stored as "4.65",
      which float() accepts, while float() itself would refuse "4,65". */
  lemma CommaDecimal()
    ensures Normalize(" 4,65") == "4.65" && ParsesAsFloat("4.65") && !ParsesAsFloat("4,65")
  {
    assert " 4,65"[1..] == "4,65";
    assert StripStart("4,65") == "4,65";
    assert Strip(" 4,65") == "4,65";
    assert ReplaceChar("4,65", ',', '.') == "4.65";
    assert "4.65"[1..] == ".65" && ".65"[1..] == "65" && "65"[1..] == "5" && "5"[1..] == "";
    assert Scan("5", Frac) && Scan("65", PointAfterInt) && Scan(".65", Int);
    assert "4,65"[1..] == ",65";
    assert !Scan(",65", Int);
  }

  /** The decimal separator does not matter: a coordinate written with ','
      is normalised exactly like the same coordinate written with '.'. */
  lemma NormalizeSeparator(text: string)
    ensures Normalize(ReplaceChar(text, ',', '.')) == Normalize(text)
  {
    StripReplace(text, ',', '.');
  }

  /** Two rows that differ only in the decimal separator of their coordinates
      report the same format problem and, when valid, ask for the same location,
      so storing either has the same effect. */
  lemma SeparatorIrrelevant(r: Run, row1: Row, row2: Row, n: nat, adm2Id: nat, sourceId: nat)
    requires forall key :: key in CoordinateFields ==> Field(row2, key) == ReplaceChar(Field(row1, key), ',', '.')
    requires Field(row2, "name") == Field(row1, "name") && Field(row2, "ext_id") == Field(row1, "ext_id")
    ensures FormatProblem(row2) == FormatProblem(row1)
    ensures NewLocation(row2, adm2Id, sourceId) == NewLocation(row1, adm2Id, sourceId)
    ensures StoreRow(r, row2, n, adm2Id, sourceId) == StoreRow(r, row1, n, adm2Id, sourceId)
  {
    SameCoordinates(row1, row2);
  }

  lemma SameCoordinates(row1: Row, row2: Row)
    requires forall key :: key in CoordinateFields ==> Field(row2, key) == ReplaceChar(Field(row1, key), ',', '.')
    ensures Normalize(Field(row2, "latitude")) == Normalize(Field(row1, "latitude"))
    ensures Normalize(Field(row2, "longitude")) == Normalize(Field(row1, "longitude"))
    ensures Normalize(Field(row2, "altitude")) == Normalize(Field(row1, "altitude"))
  {
    assert "latitude" in CoordinateFields && "longitude" in CoordinateFields && "altitude" in CoordinateFields;
    NormalizeSeparator(Field(row1, "latitude"));
    NormalizeSeparator(Field(row1, "longitude"));
    NormalizeSeparator(Field(row1, "altitude"));
  }

  /** No normalised coordinate contains a comma. */
  lemma NormalizeHasNoComma(text: string)
    ensures ',' !in Normalize(text)
  {
  }
  /** A coordinate that float() rejects after normalisation fails its own row
      only: the row gets one "Error de formato" error, is counted as skipped,
      and nothing is created. */
  lemma FormatErrorRow(r: Run, row: Row, n: nat, adm2Id: nat, sourceId: nat)
    requires exists key :: key in CoordinateFields && !ParsesAsFloat(Normalize(Field(row, key)))
    ensures FormatProblem(row).Some?
    ensures StartsWith(FormatProblem(row).value, "Error de formato - ")
    ensures StoreRow(r, row, n, adm2Id, sourceId) == Fail(r, n, FormatProblem(row).value)
  {
    FormatProblemPrefix(row);
  }

  /** Every format problem is reported as "Error de formato - " and float()'s message. */
  lemma FormatProblemPrefix(row: Row)
    ensures FormatProblem(row).Some? ==> StartsWith(FormatProblem(row).value, "Error de formato - ")
  {
    if FormatProblem(row).Some? {
      var tail := FormatProblem(row).value[19..];
      assert FormatProblem(row).value == "Error de formato - " + tail;
    }
  }
}
