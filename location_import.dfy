/** The bulk location importer (`LocationImportService`): rows of an uploaded CSV
    are processed in order; each is validated, skipped when its location already
    exists, and otherwise resolved against the geographic directory (ADM1, then
    ADM2 under that ADM1, then the data source, each found or created on demand)
    before the location itself is created. Outcomes accumulate in a statistics
    record: counters plus an ordered list of error strings.

    The ORM behind the importer is modelled as a `Directory` value: lookups are
    functions over it, and every create call consumes the next scripted
    `CreateOutcome`, so a run is deterministic for a given directory. */
module LocationImport {
  import opened Wrappers
  import opened Sequences
  import opened Text

  // ---------------------------------------------------------------------------
  // Rows and the constants of the CSV contract

  /** A CSV data row, already split into header-named fields. */
  type Row = map<string, string>

  const RequiredFields: seq<string> :=
    ["ext_id", "name", "latitude", "longitude", "altitude", "admin_level_1", "admin_level_2", "source_name"]

  /** The values of the `SourceType` enumeration, in declaration order. */
  const SourceTypeValues: seq<string> := ["MANUAL", "AUTOMATIC"]

  /** `row.get(key, '')` */
  function Field(row: Row, key: string): string {
    if key in row then row[key] else ""
  }

  predicate Blank(row: Row, key: string) {
    Strip(Field(row, key)) == ""
  }

  function BlankIn(row: Row): string -> bool {
    (f: string) => Blank(row, f)
  }

  /** The fields of `fields` that are absent or whitespace-only in `row`, in order. */
  function MissingAmong(fields: seq<string>, row: Row): (r: seq<string>)
    ensures forall f :: f in r <==> f in fields && BlankIn(row)(f)
    ensures IsSubsequence(r, fields)
  {
    FilterMembership(fields, BlankIn(row));
    Filter(fields, BlankIn(row))
  }

  /** The required fields that are absent or whitespace-only, in required-field order. */
  function MissingFields(row: Row): seq<string> {
    MissingAmong(RequiredFields, row)
  }

  /** A coordinate as handed to float(): trimmed, with ',' as decimal separator turned into '.'. */
  function Normalize(text: string): string {
    ReplaceChar(Strip(text), ',', '.')
  }

  /** The message of the ValueError float() raises for `text`: the text is
      shown as its repr(). */
  function FloatErrorText(text: string): string {
    "could not convert string to float: " + PyRepr(text)
  }

  // ---------------------------------------------------------------------------
  // The geographic directory (the ORM services)

  datatype Adm1 = Adm1(id: nat, name: string, extId: string, countryId: int, enabled: bool)
  datatype Adm2 = Adm2(id: nat, name: string, extId: string, adm1Id: nat, enabled: bool, visible: bool)
  datatype Source = Source(id: nat, name: string, sourceType: string, enabled: bool)
  datatype Location = Location(id: nat, adm2Id: nat, sourceId: nat, name: string, extId: string,
                               latitude: string, longitude: string, altitude: string,
                               enabled: bool, visible: bool)

  /** What the service does with the next create call: store the record, or raise. */
  datatype CreateOutcome = Accepted | Rejected(reason: string)

  /** Result of a create call: the new record's id, or the text of the exception. */
  datatype Attempt = Done(id: nat) | Raised(reason: string)

  datatype Directory = Directory(
    adm1s: seq<Adm1>, adm2s: seq<Adm2>, sources: seq<Source>, locations: seq<Location>,
    lastId: nat,                  // ids handed out so far; a new record gets lastId + 1
    outcomes: seq<CreateOutcome>) // outcomes of the coming create calls; none left means Accepted

  function NextOutcome(d: Directory): CreateOutcome {
    if |d.outcomes| == 0 then Accepted else d.outcomes[0]
  }

  function Consume(d: Directory): Directory {
    d.(outcomes := if |d.outcomes| == 0 then [] else d.outcomes[1..])
  }

  function Adm1ByExtId(d: Directory, extId: string, enabled: bool): Option<Adm1> {
    FirstWhere(d.adm1s, (a: Adm1) => a.extId == extId && a.enabled == enabled)
  }

  function Adm1sByName(d: Directory, name: string, enabled: bool): seq<Adm1> {
    Filter(d.adm1s, (a: Adm1) => a.name == name && a.enabled == enabled)
  }

  function Adm2ByExtId(d: Directory, extId: string, enabled: bool): Option<Adm2> {
    FirstWhere(d.adm2s, (a: Adm2) => a.extId == extId && a.enabled == enabled)
  }

  function Adm2sByName(d: Directory, name: string, enabled: bool): seq<Adm2> {
    Filter(d.adm2s, (a: Adm2) => a.name == name && a.enabled == enabled)
  }

  function LocationsByExtId(d: Directory, extId: string, enabled: bool): seq<Location> {
    Filter(d.locations, (l: Location) => l.extId == extId && l.enabled == enabled)
  }

  function CreateAdm1(d: Directory, name: string, extId: string, countryId: int): (Directory, Attempt) {
    match NextOutcome(d)
    case Accepted =>
      var id := d.lastId + 1;
      (Consume(d).(adm1s := d.adm1s + [Adm1(id, name, extId, countryId, true)], lastId := id), Done(id))
    case Rejected(reason) => (Consume(d), Raised(reason))
  }

  function CreateAdm2(d: Directory, name: string, extId: string, adm1Id: nat): (Directory, Attempt) {
    match NextOutcome(d)
    case Accepted =>
      var id := d.lastId + 1;
      (Consume(d).(adm2s := d.adm2s + [Adm2(id, name, extId, adm1Id, true, true)], lastId := id), Done(id))
    case Rejected(reason) => (Consume(d), Raised(reason))
  }

  function CreateSource(d: Directory, name: string, sourceType: string): (Directory, Attempt) {
    match NextOutcome(d)
    case Accepted =>
      var id := d.lastId + 1;
      (Consume(d).(sources := d.sources + [Source(id, name, sourceType, true)], lastId := id), Done(id))
    case Rejected(reason) => (Consume(d), Raised(reason))
  }

  function CreateLocation(d: Directory, loc: Location): (Directory, Attempt) {
    match NextOutcome(d)
    case Accepted =>
      var id := d.lastId + 1;
      (Consume(d).(locations := d.locations + [loc.(id := id)], lastId := id), Done(id))
    case Rejected(reason) => (Consume(d), Raised(reason))
  }

  // ---------------------------------------------------------------------------
  // The state of one import call and its specification

  datatype Stats = Stats(locationsCreated: nat, locationsSkipped: nat, adm1Created: nat,
                         adm2Created: nat, sourcesCreated: nat, errors: seq<string>)

  /** Everything one call of import_from_csv reads and writes: the directory,
      the three per-call caches and the statistics. */
  datatype Run = Run(dir: Directory,
                     adm1Cache: map<(string, string), nat>,
                     adm2Cache: map<(string, string, nat), nat>,
                     sourceCache: map<(string, string), nat>,
                     stats: Stats)

  function Start(d: Directory): Run {
    Run(d, map[], map[], map[], Stats(0, 0, 0, 0, 0, []))
  }

  /** Python's truth value of a returned id: `None` and `0` are false. */
  predicate Truthy(id: Option<nat>) {
    id.Some? && id.value != 0
  }

  datatype Resolved = Resolved(run: Run, id: Option<nat>)

  /** The existing ADM1 `_get_or_create_adm1` settles on, in its search order:
      by ext_id among enabled, then disabled records (only for a non-empty
      ext_id), then by name among enabled, then disabled records. */
  function ExistingAdm1(d: Directory, name: string, extId: string): (r: Option<Adm1>)
    ensures r.Some? ==> r.value in d.adm1s && ((extId != "" && r.value.extId == extId) || r.value.name == name)
    ensures r.None? <==> (extId == "" || forall a :: a in d.adm1s ==> a.extId != extId)
                         && forall a :: a in d.adm1s ==> a.name != name
  {
    if extId != "" && Adm1ByExtId(d, extId, true).Some? then Adm1ByExtId(d, extId, true)
    else if extId != "" && Adm1ByExtId(d, extId, false).Some? then Adm1ByExtId(d, extId, false)
    else if |Adm1sByName(d, name, true)| > 0 then Some(Adm1sByName(d, name, true)[0])
    else if |Adm1sByName(d, name, false)| > 0 then Some(Adm1sByName(d, name, false)[0])
    else None
  }

  /** `_get_or_create_adm1`: cache, then the directory, then a create. */
  function ResolveAdm1(r: Run, name: string, extId: string, countryId: int): Resolved {
    var key := (name, extId);
    if key in r.adm1Cache then Resolved(r, Some(r.adm1Cache[key]))
    else match ExistingAdm1(r.dir, name, extId)
      case Some(a) => Resolved(r.(adm1Cache := r.adm1Cache[key := a.id]), Some(a.id))
      case None =>
        var created := CreateAdm1(r.dir, name, extId, countryId);
        match created.1
        case Done(id) =>
          Resolved(r.(dir := created.0, adm1Cache := r.adm1Cache[key := id],
                      stats := r.stats.(adm1Created := r.stats.adm1Created + 1)), Some(id))
        case Raised(_) => Resolved(r.(dir := created.0), None)
  }

  function UnderParent(adm1Id: nat): Adm2 -> bool {
    (a: Adm2) => a.adm1Id == adm1Id
  }

  /** The existing ADM2 `_get_or_create_adm2` settles on: as for ADM1, except
      that a match by name counts only under the given ADM1. */
  function ExistingAdm2(d: Directory, name: string, extId: string, adm1Id: nat): (r: Option<Adm2>)
    ensures r.Some? ==> r.value in d.adm2s
                        && ((extId != "" && r.value.extId == extId) || (r.value.name == name && r.value.adm1Id == adm1Id))
    ensures r.None? <==> (extId == "" || forall a :: a in d.adm2s ==> a.extId != extId)
                         && forall a :: a in d.adm2s ==> !(a.name == name && a.adm1Id == adm1Id)
  {
    if extId != "" && Adm2ByExtId(d, extId, true).Some? then Adm2ByExtId(d, extId, true)
    else if extId != "" && Adm2ByExtId(d, extId, false).Some? then Adm2ByExtId(d, extId, false)
    else if FirstWhere(Adm2sByName(d, name, true), UnderParent(adm1Id)).Some? then
      FirstWhere(Adm2sByName(d, name, true), UnderParent(adm1Id))
    else FirstWhere(Adm2sByName(d, name, false), UnderParent(adm1Id))
  }

  /** `_get_or_create_adm2` */
  function ResolveAdm2(r: Run, name: string, extId: string, adm1Id: nat): Resolved {
    var key := (name, extId, adm1Id);
    if key in r.adm2Cache then Resolved(r, Some(r.adm2Cache[key]))
    else match ExistingAdm2(r.dir, name, extId, adm1Id)
      case Some(a) => Resolved(r.(adm2Cache := r.adm2Cache[key := a.id]), Some(a.id))
      case None =>
        var created := CreateAdm2(r.dir, name, extId, adm1Id);
        match created.1
        case Done(id) =>
          Resolved(r.(dir := created.0, adm2Cache := r.adm2Cache[key := id],
                      stats := r.stats.(adm2Created := r.stats.adm2Created + 1)), Some(id))
        case Raised(_) => Resolved(r.(dir := created.0), None)
  }

  datatype SourceResolved = SourceResolved(run: Run, id: Option<nat>, error: Option<string>)

  function InvalidTypeMessage(sourceType: string): string {
    "Tipo de fuente inválido '" + sourceType + "'. Valores válidos: " + Join(", ", SourceTypeValues)
  }

  function SameNameAs(name: string): Source -> bool {
    (s: Source) => Upper(s.name) == Upper(name)
  }

  /** The first source whose name equals `name` once both are upper-cased. */
  function ExistingSource(d: Directory, name: string): (r: Option<Source>)
    ensures r.Some? ==> r.value in d.sources && Upper(r.value.name) == Upper(name)
    ensures r.None? <==> forall s :: s in d.sources ==> Upper(s.name) != Upper(name)
  {
    FirstWhere(d.sources, SameNameAs(name))
  }

  /** `_get_or_create_source`: the type is checked only when a new source has
      to be created. */
  function ResolveSource(r: Run, name: string, sourceType: string): SourceResolved {
    var key := (name, sourceType);
    if key in r.sourceCache then SourceResolved(r, Some(r.sourceCache[key]), None)
    else match ExistingSource(r.dir, name)
      case Some(s) => SourceResolved(r.(sourceCache := r.sourceCache[key := s.id]), Some(s.id), None)
      case None =>
        if Upper(sourceType) !in SourceTypeValues then
          SourceResolved(r, None, Some(InvalidTypeMessage(sourceType)))
        else
          var created := CreateSource(r.dir, name, Upper(sourceType));
          match created.1
          case Done(id) =>
            SourceResolved(r.(dir := created.0, sourceCache := r.sourceCache[key := id],
                              stats := r.stats.(sourcesCreated := r.stats.sourcesCreated + 1)), Some(id), None)
          case Raised(reason) =>
            SourceResolved(r.(dir := created.0), None, Some("Error creando fuente '" + name + "': " + reason))
  }

  /** The prefix of every error a data row produces. */
  function RowTag(n: nat): string {
    "Fila " + NatToString(n) + ": "
  }

  /** The row is counted as skipped and `message` is reported for it. */
  function Fail(r: Run, n: nat, message: string): Run {
    r.(stats := r.stats.(errors := r.stats.errors + [RowTag(n) + message],
                         locationsSkipped := r.stats.locationsSkipped + 1))
  }

  function Skip(r: Run): Run {
    r.(stats := r.stats.(locationsSkipped := r.stats.locationsSkipped + 1))
  }

  predicate LocationExists(d: Directory, extId: string) {
    |LocationsByExtId(d, extId, true)| > 0 || |LocationsByExtId(d, extId, false)| > 0
  }

  /** The body of the row loop for the data row numbered `n`. */
  function AfterRow(r: Run, row: Row, n: nat, countryId: int): Run {
    var missing := MissingFields(row);
    if missing != [] then Fail(r, n, "Campos faltantes: " + Join(", ", missing))
    else CompleteRow(r, row, n, countryId)
  }

  /** A row with every required field: skipped when its location exists. */
  function CompleteRow(r: Run, row: Row, n: nat, countryId: int): Run {
    if LocationExists(r.dir, Strip(Field(row, "ext_id"))) then Skip(r)
    else ResolveRow(r, row, n, countryId)
  }

  /** A complete row whose location is new: its ADM1, ADM2 and source are
      found or created, in that order, stopping at the first failure. */
  function ResolveRow(r: Run, row: Row, n: nat, countryId: int): Run {
    var adm1Name := Strip(Field(row, "admin_level_1"));
    var a1 := ResolveAdm1(r, adm1Name, Strip(Field(row, "ext_id_level_1")), countryId);
    if !Truthy(a1.id) then Fail(a1.run, n, "No se pudo obtener/crear ADM1 '" + adm1Name + "'")
    else
      var adm2Name := Strip(Field(row, "admin_level_2"));
      var a2 := ResolveAdm2(a1.run, adm2Name, Strip(Field(row, "ext_id_level_2")), a1.id.value);
      if !Truthy(a2.id) then Fail(a2.run, n, "No se pudo obtener/crear ADM2 '" + adm2Name + "'")
      else
        var sourceName := Strip(Field(row, "source_name"));
        var src := ResolveSource(a2.run, sourceName, Strip(Field(row, "type_of_source")));
        if src.error.Some? && src.error.value != "" then Fail(src.run, n, src.error.value)
        else if !Truthy(src.id) then Fail(src.run, n, "No se pudo obtener/crear fuente '" + sourceName + "'")
        else StoreRow(src.run, row, n, a2.id.value, src.id.value)
  }

  /** The message for the first coordinate, in the order latitude, longitude,
      altitude, that float() rejects after normalisation. */
  function FormatProblem(row: Row): (problem: Option<string>)
    ensures problem.None? <==> forall key :: key in CoordinateFields ==> ParsesAsFloat(Normalize(Field(row, key)))
  {
    var lat, lon, alt := Normalize(Field(row, "latitude")), Normalize(Field(row, "longitude")),
                         Normalize(Field(row, "altitude"));
    if !ParsesAsFloat(lat) then Some("Error de formato - " + FloatErrorText(lat))
    else if !ParsesAsFloat(lon) then Some("Error de formato - " + FloatErrorText(lon))
    else if !ParsesAsFloat(alt) then Some("Error de formato - " + FloatErrorText(alt))
    else None
  }

  /** The record a valid row asks to create (its id is assigned on creation). */
  function NewLocation(row: Row, adm2Id: nat, sourceId: nat): Location {
    Location(0, adm2Id, sourceId, Strip(Field(row, "name")), Strip(Field(row, "ext_id")),
             Normalize(Field(row, "latitude")), Normalize(Field(row, "longitude")),
             Normalize(Field(row, "altitude")), true, true)
  }

  const CoordinateFields: seq<string> := ["latitude", "longitude", "altitude"]

  /** The coordinates are normalised and checked, then the location is created
      under ADM2 `adm2Id` with source `sourceId`. */
  function StoreRow(r: Run, row: Row, n: nat, adm2Id: nat, sourceId: nat): Run {
    var problem := FormatProblem(row);
    if problem.Some? then Fail(r, n, problem.value)
    else Insert(r, n, NewLocation(row, adm2Id, sourceId))
  }

  /** The location is created; when creation raises, its message is the row's error. */
  function Insert(r: Run, n: nat, loc: Location): Run {
    var created := CreateLocation(r.dir, loc);
    var s := r.(dir := created.0);
    match created.1
    case Done(_) => s.(stats := s.stats.(locationsCreated := s.stats.locationsCreated + 1))
    case Raised(reason) => Fail(s, n, reason)
  }

  /** The rows processed in order; the data row at index i is row number i + 2
      (the header is row 1). */
  function ImportRows(r: Run, rows: seq<Row>, countryId: int): Run
    decreases |rows|
  {
    if |rows| == 0 then r
    else AfterRow(ImportRows(r, rows[..|rows| - 1], countryId), rows[|rows| - 1], |rows| + 1, countryId)
  }

  /** The statistics import_from_csv returns. `readError` is the text of an
      exception raised while decoding or reading the file after `rows` were read. */
  function ImportResult(d: Directory, countryId: int, rows: seq<Row>, readError: Option<string>): (Stats, Directory) {
    var r := ImportRows(Start(d), rows, countryId);
    match readError
    case None => (r.stats, r.dir)
    case Some(e) => (r.stats.(errors := r.stats.errors + ["Error general: " + e]), r.dir)
  }

  // ---------------------------------------------------------------------------
  // The importer as the source runs it: caches and counters updated in place

  /** The per-call context of import_from_csv: the dictionaries it mutates. */
  class ImportRun {
    var dir: Directory
    var adm1Cache: map<(string, string), nat>
    var adm2Cache: map<(string, string, nat), nat>
    var sourceCache: map<(string, string), nat>
    var locationsCreated: nat
    var locationsSkipped: nat
    var adm1Created: nat
    var adm2Created: nat
    var sourcesCreated: nat
    var errors: seq<string>

    function State(): Run
      reads this
    {
      Run(dir, adm1Cache, adm2Cache, sourceCache,
          Stats(locationsCreated, locationsSkipped, adm1Created, adm2Created, sourcesCreated, errors))
    }

    constructor (d: Directory)
      ensures State() == Start(d)
    {
      dir := d;
      adm1Cache, adm2Cache, sourceCache := map[], map[], map[];
      locationsCreated, locationsSkipped, adm1Created, adm2Created, sourcesCreated := 0, 0, 0, 0, 0;
      errors := [];
    }

    /** The directory lookups of `_get_or_create_adm1`, in its order. */
    method FindAdm1(name: string, extId: string) returns (found: Option<Adm1>)
      ensures found == ExistingAdm1(dir, name, extId)
    {
      if extId != "" {
        found := Adm1ByExtId(dir, extId, true);
        if found.Some? {
          return;
        }
        found := Adm1ByExtId(dir, extId, false);
        if found.Some? {
          return;
        }
      }
      var byName := Adm1sByName(dir, name, true);
      if |byName| > 0 {
        return Some(byName[0]);
      }
      byName := Adm1sByName(dir, name, false);
      if |byName| > 0 {
        return Some(byName[0]);
      }
      return None;
    }

    method GetOrCreateAdm1(name: string, extId: string, countryId: int) returns (id: Option<nat>)
      modifies this
      ensures State() == ResolveAdm1(old(State()), name, extId, countryId).run
      ensures id == ResolveAdm1(old(State()), name, extId, countryId).id
    {
      var key := (name, extId);
      if key in adm1Cache {
        return Some(adm1Cache[key]);
      }
      var existing := FindAdm1(name, extId);
      if existing.Some? {
        adm1Cache := adm1Cache[key := existing.value.id];
        return Some(existing.value.id);
      }
      var created := CreateAdm1(dir, name, extId, countryId);
      dir := created.0;
      match created.1
      case Done(newId) =>
        adm1Created := adm1Created + 1;
        adm1Cache := adm1Cache[key := newId];
        id := Some(newId);
      case Raised(_) =>
        id := None;
    }

    /** The first record of `candidates` under the ADM1 `adm1Id` (the inner
        loops of `_get_or_create_adm2`). */
    static method FirstUnderParent(candidates: seq<Adm2>, adm1Id: nat) returns (found: Option<Adm2>)
      ensures found == FirstWhere(candidates, UnderParent(adm1Id))
    {
      var i := 0;
      while i < |candidates|
        invariant 0 <= i <= |candidates|
        invariant forall j :: 0 <= j < i ==> !UnderParent(adm1Id)(candidates[j])
      {
        if candidates[i].adm1Id == adm1Id {
          FirstWhereAt(candidates, UnderParent(adm1Id), i);
          return Some(candidates[i]);
        }
        i := i + 1;
      }
      return None;
    }

    /** The directory lookups of `_get_or_create_adm2`, in its order. */
    method FindAdm2(name: string, extId: string, adm1Id: nat) returns (found: Option<Adm2>)
      ensures found == ExistingAdm2(dir, name, extId, adm1Id)
    {
      if extId != "" {
        found := Adm2ByExtId(dir, extId, true);
        if found.Some? {
          return;
        }
        found := Adm2ByExtId(dir, extId, false);
        if found.Some? {
          return;
        }
      }
      found := FirstUnderParent(Adm2sByName(dir, name, true), adm1Id);
      if found.Some? {
        return;
      }
      found := FirstUnderParent(Adm2sByName(dir, name, false), adm1Id);
    }

    method GetOrCreateAdm2(name: string, extId: string, adm1Id: nat) returns (id: Option<nat>)
      modifies this
      ensures State() == ResolveAdm2(old(State()), name, extId, adm1Id).run
      ensures id == ResolveAdm2(old(State()), name, extId, adm1Id).id
    {
      var key := (name, extId, adm1Id);
      if key in adm2Cache {
        return Some(adm2Cache[key]);
      }
      var existing := FindAdm2(name, extId, adm1Id);
      if existing.Some? {
        adm2Cache := adm2Cache[key := existing.value.id];
        return Some(existing.value.id);
      }
      var created := CreateAdm2(dir, name, extId, adm1Id);
      dir := created.0;
      match created.1
      case Done(newId) =>
        adm2Created := adm2Created + 1;
        adm2Cache := adm2Cache[key := newId];
        id := Some(newId);
      case Raised(_) =>
        id := None;
    }

    /** The scan over all sources in `_get_or_create_source`. */
    method FindSource(name: string) returns (found: Option<Source>)
      ensures found == ExistingSource(dir, name)
    {
      var sources := dir.sources;
      var i := 0;
      while i < |sources|
        invariant 0 <= i <= |sources|
        invariant forall j :: 0 <= j < i ==> !SameNameAs(name)(sources[j])
      {
        if Upper(sources[i].name) == Upper(name) {
          FirstWhereAt(sources, SameNameAs(name), i);
          return Some(sources[i]);
        }
        i := i + 1;
      }
      return None;
    }

    method GetOrCreateSource(name: string, sourceType: string) returns (id: Option<nat>, error: Option<string>)
      modifies this
      ensures State() == ResolveSource(old(State()), name, sourceType).run
      ensures id == ResolveSource(old(State()), name, sourceType).id
      ensures error == ResolveSource(old(State()), name, sourceType).error
    {
      var key := (name, sourceType);
      if key in sourceCache {
        return Some(sourceCache[key]), None;
      }
      var existing := FindSource(name);
      if existing.Some? {
        sourceCache := sourceCache[key := existing.value.id];
        return Some(existing.value.id), None;
      }
      if Upper(sourceType) !in SourceTypeValues {
        return None, Some(InvalidTypeMessage(sourceType));
      }
      var created := CreateSource(dir, name, Upper(sourceType));
      dir := created.0;
      match created.1
      case Done(newId) =>
        sourcesCreated := sourcesCreated + 1;
        sourceCache := sourceCache[key := newId];
        id, error := Some(newId), None;
      case Raised(reason) =>
        id, error := None, Some("Error creando fuente '" + name + "': " + reason);
    }

    method Reject(n: nat, message: string)
      modifies this
      ensures State() == Fail(old(State()), n, message)
    {
      errors := errors + [RowTag(n) + message];
      locationsSkipped := locationsSkipped + 1;
    }

    /** One pass of the row loop of import_from_csv. */
    method ProcessRow(row: Row, n: nat, countryId: int)
      modifies this
      ensures State() == AfterRow(old(State()), row, n, countryId)
    {
      var missing := MissingFields(row);
      if missing != [] {
        Reject(n, "Campos faltantes: " + Join(", ", missing));
      } else {
        ProcessCompleteRow(row, n, countryId);
      }
    }

    method ProcessCompleteRow(row: Row, n: nat, countryId: int)
      modifies this
      ensures State() == CompleteRow(old(State()), row, n, countryId)
    {
      var extId := Strip(Field(row, "ext_id"));
      var existing := LocationsByExtId(dir, extId, true);
      if |existing| == 0 {
        existing := LocationsByExtId(dir, extId, false);
      }
      if |existing| > 0 {
        locationsSkipped := locationsSkipped + 1;
        return;
      }
      ResolveAndStore(row, n, countryId);
    }

    method ResolveAndStore(row: Row, n: nat, countryId: int)
      modifies this
      ensures State() == ResolveRow(old(State()), row, n, countryId)
    {
      var adm1Name := Strip(Field(row, "admin_level_1"));
      var adm1Id := GetOrCreateAdm1(adm1Name, Strip(Field(row, "ext_id_level_1")), countryId);
      if !Truthy(adm1Id) {
        Reject(n, "No se pudo obtener/crear ADM1 '" + adm1Name + "'");
        return;
      }
      var adm2Name := Strip(Field(row, "admin_level_2"));
      var adm2Id := GetOrCreateAdm2(adm2Name, Strip(Field(row, "ext_id_level_2")), adm1Id.value);
      if !Truthy(adm2Id) {
        Reject(n, "No se pudo obtener/crear ADM2 '" + adm2Name + "'");
        return;
      }
      var sourceName := Strip(Field(row, "source_name"));
      var sourceId, error := GetOrCreateSource(sourceName, Strip(Field(row, "type_of_source")));
      if error.Some? && error.value != "" {
        Reject(n, error.value);
        return;
      }
      if !Truthy(sourceId) {
        Reject(n, "No se pudo obtener/crear fuente '" + sourceName + "'");
        return;
      }
      Store(row, n, adm2Id.value, sourceId.value);
    }

    method Store(row: Row, n: nat, adm2Id: nat, sourceId: nat)
      modifies this
      ensures State() == StoreRow(old(State()), row, n, adm2Id, sourceId)
    {
      var problem := FormatProblem(row);
      if problem.Some? {
        Reject(n, problem.value);
      } else {
        Create(n, NewLocation(row, adm2Id, sourceId));
      }
    }

    method Create(n: nat, loc: Location)
      modifies this
      ensures State() == Insert(old(State()), n, loc)
    {
      var created := CreateLocation(dir, loc);
      dir := created.0;
      match created.1
      case Done(_) =>
        locationsCreated := locationsCreated + 1;
      case Raised(reason) =>
        Reject(n, reason);
    }
  }

  /** import_from_csv over the rows read before the reader stopped (`readError`
      is the exception that stopped it, if any). Returns the statistics and the
      directory afterwards. */
  method ImportFromCsv(d: Directory, countryId: int, rows: seq<Row>, readError: Option<string>)
    returns (stats: Stats, after: Directory)
    ensures (stats, after) == ImportResult(d, countryId, rows, readError)
  {
    var run := new ImportRun(d);
    var i := 0;
    while i < |rows|
      invariant 0 <= i <= |rows|
      invariant run.State() == ImportRows(Start(d), rows[..i], countryId)
    {
      assert rows[..i + 1][..i] == rows[..i];
      run.ProcessRow(rows[i], i + 2, countryId);
      i := i + 1;
    }
    assert rows[..i] == rows;
    stats, after := run.State().stats, run.dir;
    if readError.Some? {
      stats := stats.(errors := stats.errors + ["Error general: " + readError.value]);
    }
  }
}
