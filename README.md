# aclimate_v3_admin core, modelled in Dafny

This project models the logic at the heart of the AClimate v3 administration
back office and proves properties of it. There is one Dafny module per source
file, plus three shared modules: `Wrappers` for `Option`, `Sequences` for
filters, subsequences, flat maps and counts, and `Text` for the Python string
operations the code uses. `Text` covers strip, case mapping, replace, join and
a recogniser for the strings `float()` accepts.

- **Bulk location import** (`LocationImport`, `LocationImportProperties`):
  `LocationImportService.import_from_csv` reads CSV rows in order.
  - It rejects rows with missing required fields.
  - It skips locations whose `ext_id` already exists.
  - It finds or creates, in order, the ADM1, the ADM2 under it and the data
    source.
  - It normalises the coordinates and creates the location.
  - It counts everything in a statistics record that ends with the list of
    error strings.
  - The ORM services are replaced by a `Directory` value. Its lookups are
    functions, and each create call consumes the next scripted outcome (accepted
    or raised).
  - The class `ImportRun` holds the per-call caches, the counters and the
    directory as fields. Its methods update them in place, and each method is
    proved equal to a pure step function (`ResolveAdm1`, `AfterRow`, …).
  - The lemmas about those functions state what one row and one whole import
    do.
- **Role → module permissions** (`Permissions`): the `ROLE_MODULES` table of
  `RolePermissionMapper` as a `map` field. It covers the union of a user's
  modules, the in-place add/update/remove of roles, and the report that
  compares the table with the Keycloak roles.
- **User model** (`UserModel`): the `id`/`username` fallbacks of `User`, role
  extraction from the token claims, and the `role`, `is_admin` and
  `is_super_admin` accessors. JSON values are a `Json` datatype with Python
  truthiness and Python equality, where `1 == True`.
- **Translation validator** (`PoPatterns`, `TranslationValidation`,
  `TranslationValidationProperties`): `TranslationValidator` as a class with
  `warnings` and `errors` fields.
  - The `.po` parser is a line-by-line state machine.
  - Each `check_*` method appends to those fields, and each is proved equal to a
    flat map of a per-entry issue function.
  - `validate` runs the checks in the source's order and returns the counts.
  - Placeholder extraction (`%(name)s`, `%s`, `%d`, `{name}`) and `msgid` text
    extraction are written out as scanners.
- **Critical-error fixer** (`CriticalFixes`, `CriticalFixesProperties`): a
  `.po` file is a `PoFile` object holding its lines and a count of writes.
  - The three passes are loops over line indices, each proved against a pure
    definition: fuzzy-marker removal, empty-translation filling, and counting
    placeholder mismatches.
  - `main` runs the passes over every locale file and returns an exit code.
- **Group helpers** (`Groups`): deriving a country name from a group name, the
  add/remove diff of `update_user_groups` with its remove and assign calls, and
  `get_groups_by_names`.

Where the code and the design description disagree, the model follows the code:

- The design describes ADM1/ADM2 lookups as scoped to the import's country. The
  code looks them up by `ext_id` and by name across all countries, and the model
  does the same.
- The code only checks that an ADM2 found by name belongs to the ADM1 just
  resolved (location_import_service.py:264, 273). An ADM2 found by `ext_id` is
  taken whatever its parent.

## Model

| member | source | states |
|---|---|---|
| LocationImport.MissingAmong | src/app/services/location_import_service.py:71-76 | the missing fields are exactly the required fields that are absent or blank after strip, kept in required-field order (a subsequence) |
| LocationImport.ExistingAdm1 | src/app/services/location_import_service.py:193-218 | the record found by the lookup chain matches the ext_id (only when ext_id is non-empty) or the name; nothing is found iff no ADM1 has that ext_id or that name; the search order is stated by Adm1SearchOrder |
| LocationImport.ExistingAdm2 | src/app/services/location_import_service.py:246-275 | the ADM2 found matches the ext_id, or has the name and belongs to the requested ADM1; nothing is found iff no such ADM2 exists; the search order is stated by Adm2SearchOrder |
| LocationImport.ExistingSource | src/app/services/location_import_service.py:308-313 | a source is found iff one has the same upper-cased name, and the one found does |
| LocationImport.FormatProblem | src/app/services/location_import_service.py:159-161 | no format problem iff latitude, longitude and altitude all parse as floats after strip and comma→dot |
| LocationImport.ImportRun.constructor | src/app/services/location_import_service.py:47-59 | a run starts with the given directory, empty caches, zero counters and no errors |
| LocationImport.ImportRun.FindAdm1 | src/app/services/location_import_service.py:193-218 | the enabled/disabled ext_id and name queries, in the source's order, return the record ExistingAdm1 specifies |
| LocationImport.ImportRun.GetOrCreateAdm1 | src/app/services/location_import_service.py:184-235 | the caches, counters and directory after the call, and the id returned, are those of ResolveAdm1 (cache hit, lookups, then create; cached on success) |
| LocationImport.ImportRun.FindAdm2 | src/app/services/location_import_service.py:246-275 | the lookup loops return the record ExistingAdm2 specifies (a name match counts only under the same ADM1) |
| LocationImport.ImportRun.GetOrCreateAdm2 | src/app/services/location_import_service.py:237-293 | state and id as ResolveAdm2, with the cache keyed by (name, ext_id, adm1_id) |
| LocationImport.ImportRun.FindSource | src/app/services/location_import_service.py:309-313 | the scan over all sources returns the first with the same upper-cased name |
| LocationImport.ImportRun.GetOrCreateSource | src/app/services/location_import_service.py:295-340 | state, id and error message as ResolveSource: invalid type → error and nothing created or cached; create failure → error message |
| LocationImport.ImportRun.Reject | src/app/services/location_import_service.py:77-80 | a rejected row adds one error tagged with its row number and counts as skipped |
| LocationImport.ImportRun.ProcessRow | src/app/services/location_import_service.py:69-176 | one pass of the row loop leaves the state AfterRow specifies |
| LocationImport.ImportRun.ProcessCompleteRow | src/app/services/location_import_service.py:82-98 | a complete row whose location exists, enabled or disabled, is only counted as skipped |
| LocationImport.ImportRun.ResolveAndStore | src/app/services/location_import_service.py:100-151 | ADM1, then ADM2, then source are resolved, and the row stops at the first failure with its error |
| LocationImport.ImportRun.Store | src/app/services/location_import_service.py:153-172 | coordinates are normalised and checked, then the location is created; a format problem fails this row only |
| LocationImport.ImportRun.Create | src/app/services/location_import_service.py:154-176 | a created location counts as created; an exception's text becomes the row's error |
| LocationImport.ImportFromCsv | src/app/services/location_import_service.py:29-182 | the statistics and final directory of the loop over rows numbered from 2, plus the general error, equal ImportResult |
| LocationImportProperties.Adm1SearchOrder | src/app/services/location_import_service.py:193-218 | an ext_id match beats a name match, and an enabled record beats a disabled one: a non-empty ext_id held by some ADM1 yields a record with that ext_id, an enabled one when one is enabled; otherwise an enabled ADM1 with the name yields an enabled record with that name |
| LocationImportProperties.Adm2SearchOrder | src/app/services/location_import_service.py:246-275 | the same order for ADM2, where a name match counts only under the requested ADM1 |
| LocationImportProperties.TracksTransitive | src/app/services/location_import_service.py:29-182 | the "directory and errors only grow, counters match the additions" relation composes across steps |
| LocationImportProperties.FailTracks | src/app/services/location_import_service.py:77-80 | a failed row counts once and adds one error starting with its row tag |
| LocationImportProperties.ResolveAdm1Tracks | src/app/services/location_import_service.py:184-235 | ADM1 resolution only appends to the directory, adm1_created grows exactly by the records added, and no location, error or row count changes |
| LocationImportProperties.ResolveAdm2Tracks | src/app/services/location_import_service.py:237-293 | the same for ADM2 resolution |
| LocationImportProperties.ResolveSourceTracks | src/app/services/location_import_service.py:295-340 | the same for source resolution |
| LocationImportProperties.ResolveAdm1Settles | src/app/services/location_import_service.py:190-191 | after a successful resolution, the same key resolves again to the same id and changes nothing (never created twice) |
| LocationImportProperties.ResolveAdm1Creates | src/app/services/location_import_service.py:220-232 | an ADM1 is created iff the key is not cached, no record matches and the create succeeds; then it gets the new id and adm1_created grows |
| LocationImportProperties.ResolveAdm2Settles | src/app/services/location_import_service.py:243-244 | a resolved (name, ext_id, adm1_id) key never creates again |
| LocationImportProperties.ResolveAdm2Creates | src/app/services/location_import_service.py:277-290 | an ADM2 is created iff uncached, unmatched under that ADM1, and the create succeeds; so when `ext_id_level_2` is empty or matches no ADM2, the same name under two ADM1s is created twice |
| LocationImportProperties.ResolveSourceSettles | src/app/services/location_import_service.py:305-306 | a resolved source key never creates again |
| LocationImportProperties.ResolveSourceCreates | src/app/services/location_import_service.py:315-336 | a source is created iff uncached, no name matches, the upper-cased type is a SourceType value and the create succeeds |
| LocationImportProperties.InvalidSourceType | src/app/services/location_import_service.py:316-323 | an unknown type gives (None, message naming the bad value and every valid value) and leaves the run unchanged: nothing created, nothing cached |
| LocationImportProperties.InvalidTypeMessageText | src/app/services/location_import_service.py:320-321 | the exact text of the invalid-type message |
| LocationImportProperties.InsertTracks | src/app/services/location_import_service.py:153-168 | creating a location with a fresh ext_id counts the row once and keeps ext_ids unique |
| LocationImportProperties.AbsentLocation | src/app/services/location_import_service.py:83-98 | when neither the enabled nor the disabled query finds the ext_id, no location has it |
| LocationImportProperties.StoreRowTracks | src/app/services/location_import_service.py:153-172 | storing a row counts it once, with at most one error tagged with its number |
| LocationImportProperties.ResolveRowTracks | src/app/services/location_import_service.py:100-172 | resolving and storing a new row counts it once, with at most one tagged error |
| LocationImportProperties.AfterRowTracks | src/app/services/location_import_service.py:69-176 | every row is either created, incrementing locations_created and adding no error, or skipped, incrementing locations_skipped and adding at most one error, tagged with its row |
| LocationImportProperties.MissingFieldsRow | src/app/services/location_import_service.py:71-80 | a row with missing fields gets exactly one "Campos faltantes" error listing them in required order, counts as skipped, and causes no lookup or create |
| LocationImportProperties.ExistingLocationRow | src/app/services/location_import_service.py:83-98 | a row whose ext_id exists only increments locations_skipped: no error, nothing created |
| Text.PyRepr | src/app/services/location_import_service.py:170-171 | the ValueError text shows the coordinate as Python's repr: between matching quotes, at least two characters longer than the text |
| Text.PlainRepr | src/app/services/location_import_service.py:170-171 | a text without quotes, backslashes or unprintable characters is shown unchanged between single quotes |
| Text.ReprExamples | src/app/services/location_import_service.py:170-171 | repr picks double quotes for `4'5` and escapes a tab as `\t` |
| LocationImportProperties.FormatErrorRow | src/app/services/location_import_service.py:159-172 | an unparsable coordinate gives one "Error de formato" error for that row, counts it as skipped and creates nothing |
| LocationImportProperties.FormatProblemPrefix | src/app/services/location_import_service.py:170-172 | every format error starts with "Error de formato - " |
| LocationImportProperties.RowFailures | src/app/services/location_import_service.py:66-68 | one failure flag per row read |
| LocationImportProperties.Positions | src/app/services/location_import_service.py:66-68 | failing row numbers lie between 2 and the last row number and increase strictly |
| LocationImportProperties.FailedRows | src/app/services/location_import_service.py:66-68 | the row numbers that produced an error, from 2 upward and in order |
| LocationImportProperties.ImportRowsTracks | src/app/services/location_import_service.py:66-176 | after the loop, created + skipped grew by exactly the number of rows, and the directory only grew as the counters say |
| LocationImportProperties.FailedRowsStep | src/app/services/location_import_service.py:66-68 | one more row adds its number to the failed rows iff it produced an error |
| LocationImportProperties.ImportRowsErrors | src/app/services/location_import_service.py:66-176 | the i-th row error starts with "Fila n: " for the i-th failing row n |
| LocationImportProperties.TaggedErrorsStep | src/app/services/location_import_service.py:66-176 | appending one tagged error for row n keeps the error list in step with the failing rows |
| LocationImportProperties.ImportAccounting | src/app/services/location_import_service.py:29-182 | for a whole import: created + skipped equals the rows read; each *_created counter equals the records added; existing records are untouched; new locations have fresh ext_ids; errors are the tagged row errors then the general error |
| LocationImportProperties.ImportErrorList | src/app/services/location_import_service.py:173-180 | the error list is the tagged row errors followed by "Error general: …" when reading fails |
| LocationImportProperties.TaggedThenGeneral | src/app/services/location_import_service.py:178-180 | the general error comes after all row errors |
| LocationImportProperties.CommaDecimal | src/app/services/location_import_service.py:159-161 | " 4,65" is normalised to "4.65", which float() accepts, while "4,65" itself is refused |
| LocationImportProperties.NormalizeSeparator | src/app/services/location_import_service.py:159-161 | a coordinate written with ',' as decimal separator normalises exactly like the same coordinate written with '.' |
| LocationImportProperties.SeparatorIrrelevant | src/app/services/location_import_service.py:155-172 | two rows that differ only in the decimal separator of their coordinates get the same format problem, the same new location and the same outcome |
| LocationImportProperties.NormalizeHasNoComma | src/app/services/location_import_service.py:159-161 | no normalised coordinate contains a comma |
| Permissions.UserModulesMembers | src/app/config/permissions.py:43-53 | a module is in the user's set iff some configured role of the user maps to it |
| Permissions.UserModulesGrow | src/app/config/permissions.py:56-61 | adding roles never removes access |
| Permissions.UnconfiguredRolesAddNothing | src/app/config/permissions.py:49-52 | roles absent from the table add no module |
| Permissions.DefaultTableAccess | src/app/config/permissions.py:18-40 | with the shipped table, webadminsimple reaches only Geographic, admin reaches every module, and guest adds nothing |
| Permissions.RolePermissionMapper.constructor | src/app/config/permissions.py:18-40 | the mapper starts with the shipped ROLE_MODULES table |
| Permissions.RolePermissionMapper.GetUserModules | src/app/config/permissions.py:43-53 | the loop returns exactly the union of the modules of the configured roles |
| Permissions.RolePermissionMapper.UserHasModuleAccess | src/app/config/permissions.py:56-61 | access iff some configured role of the user maps to the module |
| Permissions.RolePermissionMapper.GetRoleModules | src/app/config/permissions.py:71-75 | the role's modules, or [] for an unconfigured role |
| Permissions.RolePermissionMapper.AddRole | src/app/config/permissions.py:78-89 | inserts or overwrites the entry, returns True, and leaves the other entries alone |
| Permissions.RolePermissionMapper.UpdateRole | src/app/config/permissions.py:91-106 | True iff the role existed; then only its entry changes, otherwise the table is unchanged |
| Permissions.RolePermissionMapper.RemoveRole | src/app/config/permissions.py:108-123 | True iff the role existed; then only its entry is deleted, otherwise the table is unchanged |
| Permissions.RolePermissionMapper.SyncWithKeycloakRoles | src/app/config/permissions.py:125-142 | synced = K∩C, missing_in_config = K\C, missing_in_keycloak = C\K, totals \|K\| and \|C\|; the three sets are disjoint and cover K∪C |
| Permissions.SomeKeysCount | src/app/config/permissions.py:137 | total_config counts each configured role once |
| UserModel.Get | src/app/models/User.py:41-46 | dict.get finds the value last written for the key (no later entry has that key), or None when the key is absent |
| UserModel.Keys | src/app/models/User.py:89 | extending a list with a dict adds its keys, in order |
| UserModel.PyEqSymmetric | src/app/models/User.py:54 | Python equality of JSON values is symmetric |
| UserModel.OrChain | src/app/models/User.py:13-19 | an `or` chain yields the first truthy value, or the last value when none is truthy (the id and username fallbacks) |
| UserModel.EmailPrefix | src/app/models/User.py:19 | the username fallback is the part of the email before the first '@' |
| UserModel.WithoutSystemRoles | src/app/models/User.py:59-68 | the filter keeps exactly the roles that are not one of the six system roles |
| UserModel.WithoutSystemRolesDistinct | src/app/models/User.py:59-69 | filtering keeps the roles distinct |
| UserModel.CollectProperties | src/app/models/User.py:49-56 | merging keeps each truthy candidate once and nothing else |
| UserModel.FilteredRolesDistinct | src/app/models/User.py:49-69 | the extracted roles have no duplicates |
| UserModel.FilteredRolesMembers | src/app/models/User.py:40-69 | every extracted role is a truthy, non-system candidate taken from one of the sources |
| UserModel.FilteredRolesComplete | src/app/models/User.py:40-69 | every truthy, non-system candidate is extracted |
| UserModel.RolesOfProperties | src/app/models/User.py:30-72 | the extracted roles are distinct, non-system, truthy and taken from the six sources |
| UserModel.ReturnedRolesClean | src/app/models/User.py:59-69 | no system role and no duplicate survives extraction |
| UserModel.OnlyListedClients | src/app/models/User.py:82-90 | only the four listed clients of resource_access contribute roles |
| UserModel.ClientRoleNamesMembers | src/app/models/User.py:100-109 | client_roles gives the truthy name of dict entries and string entries as they are, and ignores other entries |
| UserModel.ClientRolesRaisedStays | src/app/models/User.py:82-90 | a client whose roles cannot be iterated makes the whole extraction raise |
| UserModel.ExtractFromResourceAccess | src/app/models/User.py:74-91 | the loop concatenates the roles of account, realm-management, aclimate_admin and admin-cli, in that order |
| UserModel.ExtractFromClientRoles | src/app/models/User.py:93-111 | the loop gives FromClientRoles: names of dict entries, strings as they are, [] when client_roles is not a list |
| UserModel.ExtractRoles | src/app/models/User.py:30-72 | the method computes RolesOf, and its result is distinct, free of system roles and truthy |
| UserModel.MergeSources | src/app/models/User.py:49-56 | the merge loop adds each truthy role not already present, in source order |
| UserModel.MergeItems | src/app/models/User.py:53-55 | merging one more list extends the merge of the earlier lists |
| UserModel.FilterSystemRoles | src/app/models/User.py:59-68 | the filter raises iff a role is unhashable (a list or dict); otherwise it drops exactly the system roles |
| UserModel.User.Role | src/app/models/User.py:186-189 | roles[0] when there are roles, else 'guest' |
| UserModel.SuperAdminIsAdmin | src/app/models/User.py:126-133 | is_super_admin implies is_admin |
| UserModel.NewUserFrom | src/app/models/User.py:8-28 | the constructed user has the fallback id and username and distinct roles |
| PoPatterns.NamedAt | src/validate_translations.py:152-153 | a `%(name)` match starts with "%(" and lies within the text |
| PoPatterns.PositionalAt | src/validate_translations.py:152-153 | a `%s`/`%d` match is those two characters |
| PoPatterns.BracedAt | src/validate_translations.py:152-153 | a `{name}` match is braced |
| PoPatterns.MatchAt | src/validate_translations.py:152-153 | a placeholder match starts with '%' or '{'; the named pattern matches only `%(name)s` / `%(name)d` |
| PoPatterns.FindAllFrom | src/validate_translations.py:152-153 | every placeholder found starts with '%' or '{' |
| PoPatterns.NoMarkerNoMatch | src/validate_translations.py:152-153 | text without '%' or '{' yields no match |
| PoPatterns.PlainTextHasNoPlaceholders | src/validate_translations.py:152-153 | text without '%' or '{' has no placeholders |
| PoPatterns.SpaceRun | src/fix_critical_errors.py:43 | the run of whitespace after `msgid` is maximal |
| PoPatterns.MsgidText | src/fix_critical_errors.py:43-45 | the captured msgid text is non-empty and holds no newline |
| PoPatterns.MsgidTextOfPlainLine | src/fix_critical_errors.py:43-45 | for `msgid "text"` the captured text is `text` |
| TranslationValidation.Inner | src/validate_translations.py:39-43 | `line[k:-1]`: the line is its first k characters, the result and its last character; the result is empty when the line has at most k+1 characters |
| TranslationValidation.Locations | src/validate_translations.py:248 | one location per entry of a group, position by position the entry's own location |
| TranslationValidation.TranslationValidator.constructor | src/validate_translations.py:11-15 | a validator starts with its language and no warnings or errors |
| TranslationValidation.TranslationValidator.ParsePoFile | src/validate_translations.py:17-55 | the parsing loop returns the entries of the Parse state machine |
| TranslationValidation.TranslationValidator.CheckIdenticalTranslations | src/validate_translations.py:57-84 | appends exactly the identical-translation warnings of each entry, in order |
| TranslationValidation.TranslationValidator.CheckLengthDiscrepancies | src/validate_translations.py:86-121 | appends exactly the too-long / too-short warnings of each entry |
| TranslationValidation.TranslationValidator.CheckMissingTranslations | src/validate_translations.py:123-139 | appends an error for each entry with an empty msgstr |
| TranslationValidation.TranslationValidator.CheckPlaceholderConsistency | src/validate_translations.py:141-179 | appends the missing/extra placeholder errors of each entry |
| TranslationValidation.TranslationValidator.CheckCommonMistakes | src/validate_translations.py:181-220 | appends the pattern warnings, for Spanish locales only |
| TranslationValidation.TranslationValidator.CheckDuplicateTranslations | src/validate_translations.py:222-250 | appends one warning per shared msgstr group with several distinct msgids |
| TranslationValidation.TranslationValidator.Validate | src/validate_translations.py:252-329 | runs the checks in the source's order and returns counts equal to len(errors), len(warnings) and the number of parsed entries |
| TranslationValidationProperties.MsgidThenMsgstr | src/validate_translations.py:38-53 | a `msgid "t"` line followed by a `msgstr "u"` line, t and u non-empty, records exactly the entry (t, u) under the current location |
| TranslationValidationProperties.ParseLineRecords | src/validate_translations.py:38-53 | a line records an entry only when both msgid and msgstr are non-empty, then resets both; earlier entries are kept |
| TranslationValidationProperties.ParsedEntriesComplete | src/validate_translations.py:38-53 | every parsed entry has a non-empty msgid and msgstr |
| TranslationValidationProperties.MissingCheckSilentOnParsed | src/validate_translations.py:123-139 | the missing-translation check adds no error on parser output |
| TranslationValidationProperties.LastCommentLineIsLatest | src/validate_translations.py:33-35 | the line number kept is that of a `#:` line, and no `#:` line follows it (0 when there is none) |
| TranslationValidationProperties.ParseLineComment | src/validate_translations.py:33-35 | a `#:` line sets the location and line number; other lines keep them |
| TranslationValidationProperties.LastCommentKept | src/validate_translations.py:33-35 | a non-comment line does not change the latest comment |
| TranslationValidationProperties.ParserTracksLatestComment | src/validate_translations.py:33-35 | the parser's location and line number are those of the latest `#:` line |
| TranslationValidationProperties.MsgstrLineIsNoComment | src/validate_translations.py:33-42 | a msgstr line is not a location comment |
| TranslationValidationProperties.CommentAtPrefix | src/validate_translations.py:33-35 | the comment at a line does not depend on the lines after it |
| TranslationValidationProperties.CarriesExtend | src/validate_translations.py:46-51 | an entry that carried the latest comment of a prefix still carries it when more lines follow |
| TranslationValidationProperties.NewEntryCarries | src/validate_translations.py:46-51 | a newly recorded entry carries the location and line of the latest `#:` line |
| TranslationValidationProperties.EntriesCarryLatestComment | src/validate_translations.py:33-51 | every entry carries the location and line number of the latest `#:` line before it |
| TranslationValidationProperties.IdenticalWarningsExact | src/validate_translations.py:59-75 | a warning is emitted iff msgid == msgstr, the msgid is not a technical term, and it is longer than 3 |
| TranslationValidationProperties.LengthThresholds | src/validate_translations.py:100-121 | TOO_LONG iff 2·ls > 5·li and li > 10; TOO_SHORT iff 5·ls < 2·li, li > 15 and ls > 5; never both |
| TranslationValidationProperties.LengthWarningsExact | src/validate_translations.py:100-121 | the check emits TOO_LONG / TOO_SHORT for an entry iff the thresholds hold, never both |
| TranslationValidationProperties.PlaceholderDiffShape | src/validate_translations.py:155-179 | MISSING iff msgid\msgstr placeholders is non-empty, EXTRA iff the reverse is; no error iff the sets are equal |
| TranslationValidationProperties.PlaceholderIssuesAbout | src/validate_translations.py:141-179 | each placeholder error is about one entry of the input |
| TranslationValidationProperties.PlaceholderErrorsExact | src/validate_translations.py:152-179 | for an entry, MISSING/EXTRA errors appear iff the respective difference of its placeholder sets is non-empty |
| TranslationValidationProperties.SetsDiffer | src/validate_translations.py:155-179 | two placeholder sets differ iff one of the differences is non-empty |
| TranslationValidationProperties.MistakesOnlyForSpanish | src/validate_translations.py:197-198 | no common-mistake warning for languages other than es_CO / es_GT |
| TranslationValidationProperties.SharedWith | src/validate_translations.py:226-235 | the entries grouped under a msgstr are exactly those longer than 5 with that msgstr |
| TranslationValidationProperties.SharedWithNone | src/validate_translations.py:226-235 | a msgstr no entry has groups nothing |
| TranslationValidationProperties.SharedWithStep | src/validate_translations.py:226-235 | grouping one more entry adds it only to its msgstr's group |
| TranslationValidationProperties.AddSkipped | src/validate_translations.py:230 | an entry with a short msgstr joins no group |
| TranslationValidationProperties.AddToExisting | src/validate_translations.py:232-233 | an entry with a known msgstr joins that group |
| TranslationValidationProperties.AddNewKeyKeys | src/validate_translations.py:232-233 | a new msgstr opens one new group key, once |
| TranslationValidationProperties.AddNewKeyMembers | src/validate_translations.py:232-233 | the new group holds exactly the entries with that msgstr |
| TranslationValidationProperties.AddNewKey | src/validate_translations.py:232-233 | opening a new group keeps the grouping correct |
| TranslationValidationProperties.AddToGroupsCorrect | src/validate_translations.py:226-235 | each grouping step keeps every group equal to the entries sharing its msgstr |
| TranslationValidationProperties.GroupContents | src/validate_translations.py:224-235 | the grouping dict maps each long msgstr to exactly the entries sharing it, with each key once |
| TranslationValidationProperties.TwoDistinctAt | src/validate_translations.py:241-242 | two different msgids make the set of msgids larger than one |
| TranslationValidationProperties.GroupIssuesKeys | src/validate_translations.py:238-250 | each warning is about one group key; distinct keys give distinct warnings; a key with several distinct msgids is warned about |
| TranslationValidationProperties.DuplicateIssueFires | src/validate_translations.py:239-250 | a group with more than one entry and more than one distinct msgid gives exactly one warning |
| TranslationValidationProperties.SharedByTwoMessages | src/validate_translations.py:226-242 | two entries with the same long msgstr and different msgids make a group with two distinct msgids |
| TranslationValidationProperties.GroupWarningEmitted | src/validate_translations.py:238-250 | a group's warning appears in the check's output |
| TranslationValidationProperties.DuplicateWarningFor | src/validate_translations.py:226-250 | two different msgids sharing a long msgstr produce a warning for that msgstr |
| TranslationValidationProperties.DuplicateWarningsExact | src/validate_translations.py:222-250 | one warning per msgstr longer than 5 shared by at least two distinct msgids, and no other |
| CriticalFixes.PoFile.constructor | src/fix_critical_errors.py:22 | a file holds its lines and has not been written yet |
| CriticalFixes.NearestMsgid | src/fix_critical_errors.py:35-39 | a line starting with `msgid` after which no earlier line starts with `msgid` (the nearest one), or none exactly when no earlier line does |
| CriticalFixes.RemoveFuzzyMarkers | src/fix_critical_errors.py:20-55 | the loop writes the lines RemoveFuzzy specifies, once |
| CriticalFixes.FindNearestMsgid | src/fix_critical_errors.py:35-39 | the backward search returns the nearest preceding msgid line |
| CriticalFixes.Filled | src/fix_critical_errors.py:69-86 | filling keeps the number of lines |
| CriticalFixes.MsgidLineIsNotEmptyMsgstr | src/fix_critical_errors.py:69-79 | a msgid line is never an empty msgstr line |
| CriticalFixes.FilledCopyStep | src/fix_critical_errors.py:85-86 | an unfilled line is copied and counts nothing |
| CriticalFixes.FilledPairPrefix | src/fix_critical_errors.py:76-82 | a fillable pair becomes the msgid line and the filled msgstr |
| CriticalFixes.FilledPairCount | src/fix_critical_errors.py:80-82 | a filled pair counts one correction |
| CriticalFixes.FilledFillStep | src/fix_critical_errors.py:76-82 | a filled pair advances past both lines with one correction, and the next line is not a fill target |
| CriticalFixes.FillEmptyTranslations | src/fix_critical_errors.py:57-92 | returns the number of fills, and writes the filled lines once only when it is positive |
| CriticalFixes.MismatchCountStep | src/fix_critical_errors.py:106-123 | each msgid line adds one to the count iff its pair's named placeholders differ |
| CriticalFixes.FixPlaceholderConsistency | src/fix_critical_errors.py:94-131 | changes no line and returns the number of msgid/msgstr pairs whose named placeholders differ |
| CriticalFixes.FixFile | src/fix_critical_errors.py:152-159 | one locale file is rewritten by the fuzzy pass then the fill pass, and its fill count is returned |
| CriticalFixes.FixAllLocales | src/fix_critical_errors.py:133-182 | for each locale of `LOCALES`, in order, the existing file is fixed and a missing one skipped; the exit code is 0 iff no empty translation was filled, else 1 |
| CriticalFixesProperties.AutoFixedShape | src/fix_critical_errors.py:46 | an auto-fixed line starts with `msgstr` |
| CriticalFixesProperties.AutoFixedNotMsgid | src/fix_critical_errors.py:79 | an auto-fixed line is neither a msgid line nor a fill source |
| CriticalFixesProperties.AutoFixedStripped | src/fix_critical_errors.py:46 | an auto-fixed line has no outer whitespace |
| CriticalFixesProperties.AutoFixedLine | src/fix_critical_errors.py:46-79 | an auto-fixed line is not a fuzzy marker, not an empty msgstr and not a msgid line |
| CriticalFixesProperties.PendingMarkerStep | src/fix_critical_errors.py:27-51 | the fuzzy flag is set by a marker and cleared by the first msgstr line after it |
| CriticalFixesProperties.FuzzyStepOutcome | src/fix_critical_errors.py:27-53 | each loop step emits exactly that line's outcome and keeps the flag in step |
| CriticalFixesProperties.FuzzyRunPrefix | src/fix_critical_errors.py:27-53 | the pass over a prefix emits the outcomes of its lines, in order |
| CriticalFixesProperties.RemoveFuzzyLineByLine | src/fix_critical_errors.py:27-53 | markers are dropped, the msgstr after a marker is replaced when the nearest msgid has text, and every other line is copied, in order |
| CriticalFixesProperties.NoFuzzyMarkersLeft | src/fix_critical_errors.py:27-31 | no `#, fuzzy` line survives |
| CriticalFixesProperties.FuzzyStepLength | src/fix_critical_errors.py:27-53 | a step emits one line unless it reads a marker |
| CriticalFixesProperties.RemoveFuzzyLengthStep | src/fix_critical_errors.py:27-53 | the output grows by one line per non-marker line |
| CriticalFixesProperties.OrdinaryCountStep | src/fix_critical_errors.py:27-31 | counting the non-marker lines one line at a time |
| CriticalFixesProperties.RemoveFuzzyLength | src/fix_critical_errors.py:27-53 | the output has exactly one line per non-marker input line |
| CriticalFixesProperties.FuzzyRunCopies | src/fix_critical_errors.py:53 | with no pending marker, an ordinary line is copied |
| CriticalFixesProperties.RemoveFuzzyWithoutMarkers | src/fix_critical_errors.py:27-53 | a file without markers is left unchanged |
| CriticalFixesProperties.RemoveFuzzyIdempotent | src/fix_critical_errors.py:20-55 | a second fuzzy pass changes nothing |
| CriticalFixesProperties.FillChangesOnlyEmptyTranslations | src/fix_critical_errors.py:69-86 | only empty msgstr lines right after a msgid with text are replaced, by that text; msgid lines are never changed |
| CriticalFixesProperties.FilledCountZero | src/fix_critical_errors.py:80-81 | zero corrections iff no line is a fill target |
| CriticalFixesProperties.FillUnchangedIffNoCorrections | src/fix_critical_errors.py:88-92 | the file changes iff the count is positive |
| CriticalFixesProperties.FillIdempotent | src/fix_critical_errors.py:57-92 | a second fill pass finds nothing to fill |
| CriticalFixesProperties.MismatchCountZero | src/fix_critical_errors.py:106-123 | zero mismatches iff no pair's named placeholders differ |
| CriticalFixesProperties.NoNamedPlaceholderNoMismatch | src/fix_critical_errors.py:107-113 | a file without `%(` has no placeholder mismatch |
| CriticalFixesProperties.NothingFilledKeepsFuzzyPass | src/fix_critical_errors.py:152-159 | when nothing is filled, the file is exactly the output of the fuzzy pass |
| Groups.NormalizeGroup | src/app/services/group_service.py:16-29 | a normalised group keeps id and name, and its display name and country name are the derived country name |
| Groups.ReplaceAllAbsent | src/app/services/group_service.py:35 | replacing a substring that does not occur changes nothing |
| Groups.AdminGroupCountry | src/app/services/group_service.py:34-36 | "aclimate_admin_<country>" gives the capitalised country |
| Groups.PlainGroupCountry | src/app/services/group_service.py:39 | otherwise underscores become spaces and the name is title-cased |
| Groups.Missing | src/app/services/group_service.py:211-212 | the names of one list not in the other, in order |
| Groups.CurrentGroupNames | src/app/services/group_service.py:207-208 | one name per current group, with "" for a group without a name |
| Groups.GroupDiffExact | src/app/services/group_service.py:211-212 | groups to add and to remove are disjoint, and applying them to the current names gives exactly the new names |
| Groups.UpdateUserGroups | src/app/services/group_service.py:189-230 | a call is made only for a non-empty list; the result is True iff the user's groups were read and every call made succeeded |
| Groups.SameGroupsNoCalls | src/app/services/group_service.py:214-226 | unchanged groups make no call |
| Groups.GetGroupsByNames | src/app/services/group_service.py:245-258 | exactly the groups whose name was requested, in get_all order |

## Left out

- File and network I/O, logging, `print` output and the console report of `validate` / `main` are not modelled. File contents are given as lists of lines split at '\n', and writes are counted.
- CSV decoding (BOM handling) and `csv.DictReader` are not modelled: rows arrive already split into fields. A key missing from a row reads as "", as `row.get(key, '')` does. Short rows are not modelled: `csv.DictReader` fills their missing cells with `None`, on which the source's `.strip()` raises, so the source records "Fila n: 'NoneType' object has no attribute 'strip'" where the model reports missing fields or an empty optional field. An exception raised while reading becomes the `readError` parameter.
- The ORM services and their database are replaced by the `Directory` value. Ids of created records are one more than the largest id so far. Whether a create succeeds is scripted, and a raised exception carries a given message.
- LocationImport.Insert: a failed create is reported as "Fila n: " and the exception text. The source also prefixes "Error de formato - " when that exception is a `ValueError`. The model has no exception classes, so it does not make that distinction.
- `SourceType` lives outside the repository. Its values are taken to be MANUAL and AUTOMATIC.
- `float()` is modelled as a recogniser of Python float literals (ASCII only). The converted value is not computed, since the source uses it only as a string.
- `_get_source_id` is left out because nothing calls it.
- Enabled or disabled, an existing location is skipped, as the code does. The model does not decide whether it should be reactivated instead.
- `get_available_roles`, `get_modules_info` and `_get_module_description` are left out: they return constants and display text.
- `refresh_roles`, `validate_token`, `get`, `authenticate_oauth`, `check_password`, `get_id`, `has_module_access` and `get_accessible_modules` of `User` are left out: they handle the session and the network, or only delegate to the permissions mapper. The email and display-name fields are left out too.
- JSON numbers are modelled as integers.
- UserModel.Keys: an object whose JSON text repeats a key lists that key once per repetition, where the dict json.loads builds lists it once. `Get` does keep the last value written, as the dict does.
- Text.PyRepr: characters above U+00FF are written as they are. Python's repr escapes the non-printable ones among them (such as U+2028), which the model does not.
- ExtractRoles: the result keeps the merge order. The source's `list(set(...))` returns the same elements in an unspecified order. Elements, distinctness and the system-role filter are proved; order is not.
- The message and suggestion texts of the translation validator's issues are left out. An issue keeps its kind, its severity and the data it names.
- The regular-expression search of `check_common_mistakes` is a parameter (`Search`), since its patterns need a regex engine. Only the choice of pattern list by language is modelled.
- `lower`, `upper`, `capitalize` and `title` map only ASCII letters. Whitespace, for `strip` and for the `\s` of the msgid pattern, is Python's full Unicode whitespace set.
- A `None` msgid, msgstr or group name is modelled as "".
- In `fix_placeholder_consistency`, the `new_lines` list is not built, since it is never written or returned. Only the count is modelled.
- `main` of fix_critical_errors.py receives one entry per locale, the file or `None` when it does not exist; the path it would build is not modelled.
- The network calls of group_service.py (`get_all`, `get_user_by_id`, `remove_user_from_groups`, `assign_user_to_groups`) are parameters. Their success is given as a function of the list passed. An exception other than a failed call inside `update_user_groups` is not modelled.
- `get_group_by_name` is left out: it is a network fetch followed by a first match.
- A group whose `name` key holds `None` is modelled like a missing name.
