# raw2meta ingestion engine, modelled in Dafny

raw2meta reads the metadata of mass-spectrometry acquisition files (Thermo
`.raw` files) into an SQLite database with two tables: `Metadata_Project` and
`Metadata_Sample`. For every acquisition file, the reconciliation engine
picks one of four outcomes:

- the sample joins an existing project;
- it starts a new project;
- it is held as a JSON unit in a staging folder until its project appears;
- it is recorded as a corrupt file.

This project models that engine and proves what it does. It covers the
current implementation (`src/raw2meta/...`) and the earlier monolithic
variant (`ETL_Functions.py`).

Modules, one per file:

| file | module | models |
|---|---|---|
| basics.dfy | Basics | option and result values, the exception kinds, `str.split`, `in` on strings, digit strings |
| paths.dfy | Paths | posix `os.path.basename`, `splitext`, `join`, and `PurePosixPath.parts[0]` |
| sqllike.dfy | SqlLike | SQLite's `LIKE` with no ESCAPE clause: `_`, `%`, and ASCII case folding |
| entities.dfy | Entities | `SampleEntry` (eleven fields), `ProjectEntry` (eight fields), `astuple`, `asdict`, `zip` |
| common.dfy | Common | project-ID derivation, the family regex and LIKE pattern, the closest-date choice, the directory window, `MakePathNice`, `GetFilePath` |
| staging.dfy | Staging | `SaveToJson` naming and `ReadJson` decoding of dict- and list-shaped units |
| store.dfy | Store | the database and staging folder as a value (`World`) and as a class (`Site`) whose methods change it in place; the `WriteEntries` statements, `Database_writeNewEntry`, `MissingFilesFromDatabase` and `GetMonthsInDB` |
| engine.dfy | Engine | `Execute_CreateSQLdbCode` of `FillDatabase_Fun.py` |
| retry.dfy | Retry | the open-and-wait loop of `SampleReadyToProcess` in `FillDatabase_logic.py` |
| logic.dfy | Logic | `FillDatabase_logic.py`: error classification, age-based promotion, the readiness gate |
| metadata.dfy | Metadata | the device and trailer-label helpers of `GetMetadata.py`, with the reader's answers as inputs |
| legacy.dfy | Legacy | the earlier engine in `ETL_Functions.py` |

Every stateful operation appears twice:

- A specification function `XOn(w, ...)` maps a `World` to a result and
  the next `World`.
- A method over a `Site` performs the same steps in place. Its
  postcondition ties its result and the new state to the function.

The lemmas then state what the source promises about each function.

Tables are sequences of rows in rowid order, which is the order SQLite
scans when a query has no ORDER BY. Only a duplicate primary key makes an
insert fail with IntegrityError. An unreachable database makes every
statement fail with DatabaseError.

The following become parameters:

- the clock (`today`);
- the Julian-date conversion (`julian`);
- the file size;
- the directory listings;
- `os.path.isfile`;
- the outcomes of each open attempt and each stop-event wait, as two sequences of ten answers (the loop makes at most ten opens and nine waits);
- `DaysWaiting` and `MinFileSize`;
- the device dictionaries.

## Model

| member | source | states |
|---|---|---|
| Paths.Basename | src/raw2meta/helper/common.py:22-23 | the basename holds no '/', and a name without '/' is its own basename |
| Paths.SplitExt | src/raw2meta/helper/common.py:22 | stem and extension concatenate to the input; the extension is empty or one '.' followed by no further '.' or '/' |
| Paths.AppendedExt | src/raw2meta/helper/common.py:22 | appending `.e` to a stem without '/' makes `.e` the extension and the stem the rest |
| Paths.PathJoin | src/raw2meta/helper/common.py:161-166 | an absolute second path replaces the first, as `os.path.join` does |
| Paths.FirstPart | src/raw2meta/helper/common.py:164-166 | an absolute path always has a first part; the empty path has none, so indexing `parts` raises |
| SqlLike.LikeSelf | src/raw2meta/db/database_helper.py:160-161 | every string is LIKE itself, so an update by a sample's own name reaches its row |
| SqlLike.LikeAnything | src/raw2meta/helper/common.py:27 | a trailing '%' accepts any continuation |
| SqlLike.LikeWithoutPercent | src/raw2meta/db/database_helper.py:160-161 | without '%', `s LIKE p` holds exactly when both have the same length and every position is '_' or the same letter up to ASCII case |
| Entities.NewSample | src/raw2meta/entity/entities.py:5-16 | the five required fields take the given values, and the four pump and two temperature fields default to None |
| Entities.SampleTupleInFieldOrder | src/raw2meta/entity/entities.py:5-16 | `astuple` has eleven values, and value i is the field named by the i-th insert column |
| Entities.ProjectTupleInFieldOrder | src/raw2meta/entity/entities.py:19-27 | `astuple` of a project has eight values, ProjectID first and ProjectID_Date second, each under its own dataclass field name (the project insert binds them by position, so Instrument, Method and HPLC take the fields named MSInstrument, InstrumentMethod_print and HPLCInstrument) |
| Entities.Zip | src/raw2meta/db/database_helper.py:84-94 | for distinct names, the keys of `dict(zip(names, values))` are exactly the names the shorter sequence pairs |
| Entities.ZipLookup | src/raw2meta/db/database_helper.py:87-88 | with distinct names, value i lands under name i |
| Entities.FieldNamesDistinct | src/raw2meta/entity/entities.py:5-27 | the field names of each record are distinct |
| Entities.SampleDictByName | src/raw2meta/db/database_helper.py:48-49 | `asdict` of a sample maps exactly the eleven field names, each to its own field's value |
| Entities.ProjectDictByName | src/raw2meta/db/database_helper.py:48-49 | `asdict` of a project maps exactly the eight field names, each to its own field's value |
| Common.TwoDigitTail | src/raw2meta/helper/common.py:26-27 | where `[0-9]{2}$` matches: two digits that end the token or stand before a final newline, or no match |
| Common.SplitProjectName | src/raw2meta/helper/common.py:15-30 | the only failure is IndexError |
| Common.SplitProjectNameTokens | src/raw2meta/helper/common.py:22-28 | the split succeeds exactly for stems with at least three '_'-tokens; ProjectID is the first three joined by '_', and the date is the second token |
| Common.SubTailLike | src/raw2meta/helper/common.py:27 | the date token with its last two digits replaced by `__` is LIKE every token that differs only in those digits |
| Common.FamilyPatternAcceptsSiblings | src/raw2meta/helper/common.py:25-27 | every ProjectID is LIKE its own family pattern, and so is every ProjectID whose date differs only in the two opened digits |
| Common.ProjectIdInOwnFamily | src/raw2meta/helper/common.py:25-27 | a name's own ProjectID lies in the family its pattern selects |
| Common.ReSplitKeepsProjectId | src/raw2meta/helper/common.py:22-25 | re-splitting a derived ProjectID, its staging name `ProjectID.json`, or `ProjectID__Sample.json` gives the same ProjectID and date when the tokens hold no '.' |
| Common.FamilyRegexFindsSibling | src/raw2meta/helper/common.py:26 | the family regex finds every name that begins with a family member whose date has digits in the two opened places |
| Common.FirstMinIndex | src/raw2meta/helper/common.py:121 | `Dist.index(min(Dist))` is a minimum with only larger values before it |
| Common.FirstMinUnique | src/raw2meta/helper/common.py:121 | only one index is a minimum preceded only by larger values |
| Common.DateCodes | src/raw2meta/helper/common.py:119-120 | the i-th code is `int()` of the i-th row's ProjectID_Date |
| Common.ClosestProject | src/raw2meta/helper/common.py:110-124 | the only failure is ValueError (an empty family or a date `int()` rejects) |
| Common.ClosestIsEarliest | src/raw2meta/helper/common.py:119-122 | the chosen ProjectID belongs to the first row with the smallest date code, whatever the query date |
| Common.ClosestIgnoresQuery | src/raw2meta/helper/common.py:119-122 | any two parseable query dates pick the same project |
| Common.SignedDifferencePicksEarliest | src/raw2meta/helper/common.py:119-121 | of two family projects, the earlier one is chosen even when the later one is nearer to the query |
| Common.SignedDifferenceExample | src/raw2meta/helper/common.py:119-121 | dates "1" and "9" queried with "8" give the project dated "1" |
| Common.NearestProject | src/raw2meta/helper/common.py:110-124 | the intended choice succeeds exactly for a non-empty family with parseable dates and a parseable query, and fails otherwise with ValueError |
| Common.NearestIsClosest | src/raw2meta/helper/common.py:110-124 | the intended choice is at least as near to the query as every row, in absolute distance, and strictly nearer than every row before it |
| Common.DaysInMonth | src/raw2meta/helper/common.py:136-139 | a month has 28 to 31 days |
| Common.ShiftMonth | src/raw2meta/helper/common.py:136-139 | `relativedelta(months=k)` moves the month index by exactly k and keeps the month in 1..12 |
| Common.DirectoriesToObserve | src/raw2meta/helper/common.py:126-150 | the only failure is ValueError |
| Common.PaddedReadsBack | src/raw2meta/helper/common.py:138 | a number below 10^w is written with exactly w digits that read back as the number |
| Common.MonthNameReadsBack | src/raw2meta/helper/common.py:138 | `strftime("%Y%m")`, with %Y zero-padded to four digits, of a month from year 1 to 9999 is six digits that read back as its year and month |
| Common.WindowFailsOnlyAtCalendarEnds | src/raw2meta/helper/common.py:136-139 | the window fails only when a window month leaves the years 1 to 9999 |
| Common.WindowMonths | src/raw2meta/helper/common.py:136-144 | the window is four directories `root/YYYYMM` for the months two back to one ahead, with year roll-over, each named by six digits that read back as its month |
| Common.WaitReachesNextMonth | src/raw2meta/helper/common.py:146-148 | the wait is 86400 times a day count between 1 and 31, and that many days after today is the first of next month |
| Common.RemoveChar | src/raw2meta/helper/common.py:104-105 | `replace(c, "")` leaves no c and keeps every other character |
| Common.MakePathNiceStripsQuotes | src/raw2meta/helper/common.py:96-108 | the result holds no `'` or `"`, keeps every other character, and a second pass changes nothing |
| Common.MaskKeepsDateTokens | src/raw2meta/helper/common.py:165 | a token without eight non-digits in a row, such as a date, passes the substitution unchanged |
| Common.GetFilePath | src/raw2meta/helper/common.py:152-174 | a returned pair's second component is the input's basename |
| Common.GetFilePathNeverFailsOnMissingFile | src/raw2meta/helper/common.py:152-174 | whatever exists, the lookup fails only for a basename without '_' or a directory without parts, and the first existing candidate (as given, joined, root/date/basename) is returned, the last one otherwise |
| Staging.StagingName | src/raw2meta/db/database_helper.py:52-55 | the unit is named `ProjectID.json` exactly when that name is free, else `ProjectID__SampleName.json` |
| Staging.SampleFromFields | src/raw2meta/db/database_helper.py:96 | `SampleEntry(**m)` fails only with a decode error |
| Staging.ProjectFromFields | src/raw2meta/db/database_helper.py:97 | `ProjectEntry(**m)` fails only with a decode error |
| Staging.ReadJson | src/raw2meta/db/database_helper.py:67-110 | a missing file raises FileNotFound; any other failure is a decode error |
| Staging.SampleDictDecodes | src/raw2meta/db/database_helper.py:48-49 | the dictionary of a sample rebuilds that sample |
| Staging.ProjectDictDecodes | src/raw2meta/db/database_helper.py:48-49 | the dictionary of a project rebuilds that project |
| Staging.SaveThenRead | src/raw2meta/db/database_helper.py:36-110 | reading back a unit SaveToJson wrote gives the same sample and project |
| Staging.LegacySevenValueList | src/raw2meta/db/database_helper.py:84-94 | a seven-value legacy sample list decodes with its two temperatures in InitialPressure_Pump and MinPressure_Pump and the rest None |
| Staging.PositionalSampleDecodes | src/raw2meta/db/database_helper.py:84-94 | a list of a sample's eleven values in field order decodes to that sample |
| Store.FamilyRows | src/raw2meta/db/database_helper.py:139-140 | the family query returns exactly the projects whose ProjectID is LIKE the pattern |
| Store.SqlLessOrder | src/raw2meta/db/database_helper.py:142-144 | ORDER BY's order is irreflexive, transitive and total on distinct values |
| Store.Greatest | src/raw2meta/db/database_helper.py:142-144 | the first row of ORDER BY ... DESC holds a value no other value exceeds |
| Store.FamilyDates | src/raw2meta/db/database_helper.py:142-143 | the dates come from family sample rows, and there are none exactly when no sample row is in the family |
| Store.LatestFamilyDate | src/raw2meta/db/database_helper.py:142-144 | the latest-date query is empty exactly when no sample's ProjectID is LIKE the pattern |
| Store.UpdatedRows | src/raw2meta/db/database_helper.py:149-161 | the update keeps the number of rows, changes the rows whose name is LIKE the pattern by the assignments, and leaves the others alone |
| Store.ExecuteOn | src/raw2meta/db/database_helper.py:262-265 | a statement fails only with DatabaseError or IntegrityError; success changes only the two tables |
| Store.WriteNewEntryOn | src/raw2meta/db/database_helper.py:250-270 | only DatabaseError is raised, and then nothing changes; a duplicate key is swallowed |
| Store.Rotate | src/raw2meta/db/database_helper.py:228-229 | `t[1:] + (t[0],)`: the first element moves to the end and the others move up one |
| Store.RotateUndone | src/raw2meta/db/database_helper.py:228-229 | moving the last element back to the front restores the tuple |
| Store.InsertedSampleRow | src/raw2meta/db/database_helper.py:132-134 | the insert binds each sample field to the column of the same name |
| Store.WriteSampleEntriesEffect | src/raw2meta/db/database_helper.py:190-211 | online, the project is appended unless its ProjectID exists, then the sample unless its name exists, and nothing else changes; offline raises and changes nothing |
| Store.RewriteIsNoOp | src/raw2meta/db/database_helper.py:262-267 | writing the same sample again without a project leaves the world unchanged |
| Store.ReplaceAssignments | src/raw2meta/db/database_helper.py:149-161 | the rotated tuple assigns every field but the name to its own column, and Error to "ErrorUpdated" |
| Store.ReplacedRows | src/raw2meta/db/database_helper.py:213-234 | each matched row takes the sample's fields and "ErrorUpdated" and keeps its name; unmatched rows are unchanged |
| Store.SaveToJsonEffect | src/raw2meta/db/database_helper.py:36-64 | a writable folder gains exactly one unit under StagingName, and nothing else changes; an unwritable one changes nothing |
| Store.CorruptRowCells | src/raw2meta/db/database_helper.py:136-137 | the corrupt row holds the name, the ProjectID and the error, and NULL elsewhere |
| Store.WriteCorruptFileEffect | src/raw2meta/db/database_helper.py:236-247 | the corrupt row is appended unless the name is a key already, and nothing else changes |
| Store.ReplaceErrorRowKeepsFolder | src/raw2meta/db/database_helper.py:213-234 | replacing leaves the staging folder alone, and without a project writes no project row |
| Store.RawExtensionPassesSearch | src/raw2meta/db/database_helper.py:303 | every name with extension ".raw" passes `re.search(".raw", f)` |
| Store.RawListed | src/raw2meta/db/database_helper.py:303 | the names kept are exactly the listed names the search accepts |
| Store.AntiJoin | src/raw2meta/db/database_helper.py:288-292 | the LEFT JOIN ... IS NULL keeps exactly the names that are no sample's key |
| Store.WithRawExtension | src/raw2meta/db/database_helper.py:317-324 | the loop keeps exactly the names whose extension is ".raw" |
| Store.MissingFilesExactly | src/raw2meta/db/database_helper.py:272-330 | the result is exactly the listed ".raw" names that are no sample's key, or empty when the listing or the database fails; the scratch table ends empty, and nothing else changes |
| Store.InsertSorted | src/raw2meta/db/database_helper.py:346 | insertion keeps the list strictly sorted and adds exactly the new element |
| Store.SortedSet | src/raw2meta/db/database_helper.py:346 | `sorted(set(xs))` is strictly increasing and holds exactly the elements of xs |
| Store.ProjectMonths | src/raw2meta/db/database_helper.py:345-346 | each month is the project date with `[0-9]{2}$` removed |
| Store.MonthsSortedAndComplete | src/raw2meta/db/database_helper.py:332-351 | the months are strictly increasing; online they are exactly the months of the project dates, offline the list is empty |
| Store.Site.constructor | src/raw2meta/db/database_helper.py:117-125 | a site starts in the given state |
| Store.Site.Execute | src/raw2meta/db/database_helper.py:262-265 | the tables change exactly as ExecuteOn says, and only when it succeeds |
| Store.Site.WriteNewEntry | src/raw2meta/db/database_helper.py:250-270 | result and new state are WriteNewEntryOn's |
| Store.Site.WriteSampleEntries | src/raw2meta/db/database_helper.py:190-211 | result and new state are WriteSampleEntriesOn's |
| Store.Site.ReplaceErrorFile | src/raw2meta/db/database_helper.py:213-234 | result and new state are ReplaceErrorRow's |
| Store.Site.WriteCorruptFile | src/raw2meta/db/database_helper.py:236-247 | result and new state are WriteCorruptFileOn's |
| Store.Site.SaveToJson | src/raw2meta/db/database_helper.py:36-64 | the new state is SaveToJsonOn's |
| Store.Site.RemoveStaged | src/raw2meta/db/FillDatabase_Fun.py:146 | the named unit leaves the staging folder, and nothing else changes |
| Store.Site.AppendCorruptLog | src/raw2meta/db/FillDatabase_logic.py:49-52 | the corrupt log gains the file, and nothing else changes |
| Store.Site.AppendEmptyLog | src/raw2meta/db/FillDatabase_logic.py:62-68 | the empty log gains the file, and nothing else changes |
| Store.Site.FindMatchingProject | src/raw2meta/db/FillDatabase_Fun.py:54-64 | offline raises DatabaseError; otherwise the ProjectID is returned exactly when that project exists |
| Store.Site.QueryFamily | src/raw2meta/db/database_helper.py:163-188 | the family rows, or DatabaseError offline |
| Store.Site.QueryLatestFamilyDate | src/raw2meta/db/database_helper.py:163-188 | the latest family sample date, or DatabaseError offline |
| Store.Site.MissingFilesFromDatabase | src/raw2meta/db/database_helper.py:272-330 | result and new state are MissingFiles's |
| Store.KeepRawExtension | src/raw2meta/db/database_helper.py:317-324 | the loop returns exactly WithRawExtension of the joined names |
| Engine.StandardSpellings | src/raw2meta/db/FillDatabase_Fun.py:45-52 | a name is a standard exactly when it contains "HSstd", "Standard", "standard", "Standart" or "standart" |
| Engine.StandardIsCaseSensitive | src/raw2meta/db/FillDatabase_Fun.py:52 | neither "STANDARD" nor "hsstd" is a standard: only the first letter of "standard" is matched in either case |
| Engine.WithJsonEffect | src/raw2meta/db/FillDatabase_Fun.py:112-147 | NoFittingProjectFound exactly when the family has no project, and then nothing changes; any failure keeps the unit; a success removes it, writes no project, and stores the unit's sample |
| Engine.WriteStagedOn | src/raw2meta/db/FillDatabase_Fun.py:139-146 | a failed read, date choice or write changes nothing and is never NoFittingProjectFound |
| Engine.WriteStagedEffect | src/raw2meta/db/FillDatabase_Fun.py:139-146 | a successful write of a staged unit adds its sample under the family's chosen ProjectID unless the name is a key already, leaves the name a key, and removes exactly the staged file |
| Engine.WithJsonChoosesFamilyMember | src/raw2meta/db/FillDatabase_Fun.py:133-146 | a staged sample written this way carries the ProjectID of a family project |
| Engine.ClosestInFamily | src/raw2meta/helper/common.py:110-121 | the ProjectID chosen from a family is a project of the table whose ID the pattern matches |
| Engine.PendingEffect | src/raw2meta/db/FillDatabase_Fun.py:264-276 | the pending pass writes no project, only adds sample rows and only removes staged units |
| Engine.PendingKeepsUnfitting | src/raw2meta/db/FillDatabase_Fun.py:264-276 | a unit the family regex does not find, or whose family has no project, stays staged |
| Engine.PendingNeverRemovesOthers | src/raw2meta/db/FillDatabase_Fun.py:264-276 | no unit outside the listing is removed |
| Engine.PendingDrains | src/raw2meta/db/FillDatabase_Fun.py:264-276 | when the pass succeeds, every listed unit the family regex finds and whose family has a project has been written and removed from the folder |
| Engine.ExactMatchWritesSampleOnly | src/raw2meta/db/FillDatabase_Fun.py:231-234 | an exact ProjectID match writes only the sample, under its own ProjectID, and only if its name is new; nothing is staged |
| Engine.ExactMatchRecommitIsNoOp | src/raw2meta/db/FillDatabase_Fun.py:231-234 | committing the same extracted sample again leaves the world as the first commit left it |
| Engine.StandardWithoutFamilyIsStaged | src/raw2meta/db/FillDatabase_Fun.py:236-241 | a standard without a family project is staged, both tables stay unchanged, and the unit reads back as the sample and its project |
| Engine.StandardWithFamily | src/raw2meta/db/FillDatabase_Fun.py:242-258 | with no family sample nothing happens; otherwise the sample is staged exactly when the latest family sample is more than DaysWaiting days newer, and else written without a project row under a family ProjectID |
| Engine.StandardStaged | src/raw2meta/db/FillDatabase_Fun.py:244-252 | a standard sample more than DaysWaiting days behind its family's latest sample is staged, leaves both tables unchanged, and reads back as itself and its project |
| Engine.StandardWritten | src/raw2meta/db/FillDatabase_Fun.py:244-256 | otherwise the sample is written, without a project row and without staging, under a family ProjectID the pattern matches |
| Engine.NonStandardCreatesProject | src/raw2meta/db/FillDatabase_Fun.py:259-262 | a non-standard sample without its project creates the project and the sample; the pending pass keeps both and writes no other project |
| Engine.NewProjectEffect | src/raw2meta/db/FillDatabase_Fun.py:259-262 | writing a new project and its sample, then the pending pass, appends exactly that project, leaves the sample's name a key and only adds rows |
| Engine.FillErrorKeepsOwnProjectId | src/raw2meta/db/FillDatabase_Fun.py:171-192 | the error row holds the path as given, the path's own ProjectID and the error text, whatever projects exist; only the sample table changes |
| Engine.ReplaceNeverStages | src/raw2meta/db/FillDatabase_Fun.py:278-315 | replacing never touches the staging folder, and an exact match writes no project |
| Engine.OfflineChangesNothing | src/raw2meta/db/FillDatabase_Fun.py:54-64 | an unreachable database changes nothing and every entry point fails; HandleOn, and WithJsonOn and KeepProjectOn once the name splits or the unit reads, fail with DatabaseError |
| Engine.FillDatabaseWithJson | src/raw2meta/db/FillDatabase_Fun.py:112-147 | result and new state are WithJsonOn's |
| Engine.KeepProjectEffect | src/raw2meta/db/FillDatabase_Fun.py:149-169 | succeeds exactly when the unit reads and the database is reachable; then the unit's project is added unless its ProjectID exists, its sample row unless the name is a key, and exactly the unit leaves the folder; a failure changes nothing |
| Engine.FillDatabaseWithJsonKeepProject | src/raw2meta/db/FillDatabase_Fun.py:149-169 | result and new state are KeepProjectOn's, characterised by KeepProjectEffect |
| Engine.ProcessPendingTempFiles | src/raw2meta/db/FillDatabase_Fun.py:264-276 | the loop over the listing ends in PendingOn's result and state, characterised by PendingEffect, PendingKeepsUnfitting and PendingDrains |
| Engine.HandleHelaAndProjectMatching | src/raw2meta/db/FillDatabase_Fun.py:220-262 | result and new state are HandleOn's |
| Engine.FillDatabase | src/raw2meta/db/FillDatabase_Fun.py:66-110 | result and new state are FillDatabaseOn's |
| Engine.FillDatabaseError | src/raw2meta/db/FillDatabase_Fun.py:171-192 | result and new state are FillErrorOn's |
| Engine.HandleReplaceError | src/raw2meta/db/FillDatabase_Fun.py:278-315 | result and new state are ReplaceHandleOn's |
| Engine.ReplaceErrorFile | src/raw2meta/db/FillDatabase_Fun.py:194-218 | result and new state are ReplaceErrorFileOn's |
| Logic.CorruptIsOnlyLogged | src/raw2meta/db/FillDatabase_logic.py:49-52 | a corrupt file only adds a corrupt-log line: no row and nothing staged |
| Logic.EmptySmallIsCorrupt | src/raw2meta/db/FillDatabase_logic.py:54-65 | an empty file under MinFileSize kilobytes gets a corrupt-log line and a "CorruptFile" row with its own ProjectID (none when its name is already a sample key); nothing else changes |
| Logic.EmptyLargeIsLogged | src/raw2meta/db/FillDatabase_logic.py:54-68 | an empty file at or over MinFileSize kilobytes only grows the empty log; both tables and the staging folder are unchanged |
| Logic.PrevDayInverse | src/raw2meta/db/FillDatabase_logic.py:79 | the day before is a calendar day of the same or an earlier year, and the next day undoes it |
| Logic.SubDaysInverse | src/raw2meta/db/FillDatabase_logic.py:79 | counting n days back and then n forward returns to the start |
| Logic.DaysAgo | src/raw2meta/db/FillDatabase_logic.py:79-80 | the only failure is OverflowError |
| Logic.StampDigits | src/raw2meta/db/FillDatabase_logic.py:80 | from the year 1000 on, `strftime("%Y%m%d")` is eight digits |
| Logic.FillOldWithoutFile | src/raw2meta/db/FillDatabase_logic.py:88-101 | a name with no staged unit changes nothing |
| Logic.FillOldPromotes | src/raw2meta/db/FillDatabase_logic.py:79-99 | a unit is promoted with its own project exactly when its family has no project and its date sorts before DaysAgo, which for eight-digit dates is numeric order |
| Logic.FillCorruptWritesRow | src/raw2meta/db/FillDatabase_logic.py:103-123 | either extraction fault gives a "CorruptFile" row, whatever the size |
| Retry.AttemptsTrail | src/raw2meta/db/FillDatabase_logic.py:157-179 | the loop opens at least once and at most once per remaining attempt, waits no more often than it opens and fewer times than the attempts left, continues only past permission failures, and answers true only right after an open |
| Retry.AttemptsEnd | src/raw2meta/db/FillDatabase_logic.py:157-179 | after k retries that each waited without a stop, an attempt that opens, finds no file, is the tenth, has no stop event or sees the stop fire fixes the whole result, with k+1 opens and k or k+1 waits |
| Retry.AttemptsAfterRetries | src/raw2meta/db/FillDatabase_logic.py:163-176 | k permission failures that each waited without a stop add k opens and k waits in front of what attempt k does |
| Logic.ReadyBounds | src/raw2meta/db/FillDatabase_logic.py:126-181 | at most ten opens and nine waits; true only after an open that followed permission failures only; a name some sample already matches, or a failed query, gives false without any open |
| Retry.TenFailuresGiveUp | src/raw2meta/db/FillDatabase_logic.py:163-179 | ten permission failures in a row end in false after nine waits |
| Retry.MissingStopEventRaises | src/raw2meta/db/FillDatabase_logic.py:171 | a permission failure without a stop event raises instead of waiting |
| Logic.FillDatabaseFun | src/raw2meta/db/FillDatabase_logic.py:24-68 | result and new state are FillDatabaseFunOn's |
| Logic.FillDatabaseOld | src/raw2meta/db/FillDatabase_logic.py:70-101 | result and new state are FillOldOn's |
| Logic.FillDatabaseCorrupt | src/raw2meta/db/FillDatabase_logic.py:103-123 | result and new state are FillCorruptOn's |
| Retry.WaitUntilReadable | src/raw2meta/db/FillDatabase_logic.py:157-179 | the retry loop's result, opens and waits are Attempts' |
| Logic.SampleReadyToProcess | src/raw2meta/db/FillDatabase_logic.py:126-181 | result, opens and waits are ReadyOn's |
| Metadata.FirstInDict | src/raw2meta/components/GetMetadata.py:238-247 | AttributeError exactly when no name is a key; otherwise the value of a listed name that is a key |
| Metadata.GetFromDict | src/raw2meta/components/GetMetadata.py:238-247 | the first-hit search loop returns FirstInDict's answer |
| Metadata.PadDevices | src/raw2meta/components/GetMetadata.py:180-181 | a single device name is completed with "EvoSep"; other lists are unchanged |
| Metadata.MachineCombination | src/raw2meta/components/GetMetadata.py:183-185 | the combination is empty or has two entries |
| Metadata.CombinationFound | src/raw2meta/components/GetMetadata.py:180-185 | a combination is found exactly when the two padded names are both known and each dictionary has a listed name; its MS entry is the first name's value when that name is an MS |
| Metadata.SingleDeviceIsEvoSep | src/raw2meta/components/GetMetadata.py:180-185 | one MS name alone is paired with the HPLC dictionary's EvoSep entry |
| Metadata.LastMatching | src/raw2meta/components/GetMetadata.py:114-126 | no index exactly when no label contains the key; otherwise an index whose label contains it and after which none does |
| Metadata.ScanTrailer | src/raw2meta/components/GetMetadata.py:114-126 | the scan loop finds the last temperature and the last FAIMS label |
| Metadata.TrailerAccepted | src/raw2meta/components/GetMetadata.py:111-142 | last scan 0 raises HandlingEmptyFileError before any label check; an accepted scan kept exactly the temperature label and at most the FAIMS label; FAIMS is "notRecorded" exactly when no label mentions FAIMS |
| Metadata.TemperatureLabelKept | src/raw2meta/components/GetMetadata.py:114-130 | the scan keeps "Analyzer Temperature:" exactly when some label is that text and no later label mentions the temperature |
| Metadata.GetArrayShape | src/raw2meta/components/GetMetadata.py:147-236 | a read sample is named by the basename and shares the project's ProjectID, the instruments come from the dictionaries, and the pump fields are set exactly when a Neo is present and the chromatogram was read |
| Metadata.RecordsShape | src/raw2meta/components/GetMetadata.py:188-232 | the project takes the ProjectID, date and instruments given; the sample takes the basename and that ProjectID; the pump fields are set exactly when a Neo is present and the chromatogram was read |
| Metadata.CombinationFromDicts | src/raw2meta/components/GetMetadata.py:172-185 | a two-entry combination holds an MS value and an HPLC value of the dictionaries, and needs the device names to have been read |
| Metadata.OffWindowsNeverSucceeds | src/raw2meta/components/GetMetadata.py:167-175 | off Windows no device name is known, so no read succeeds |
| Metadata.AsExtraction | src/raw2meta/db/FillDatabase_Fun.py:99-107 | a read becomes Extracted with its records, and a failed one passes its fault unchanged |
| Metadata.EmptyFileIsEmpty | src/raw2meta/components/GetMetadata.py:111-112 | a file whose last scan number is 0 fails with HandlingEmptyFileError and leaves the store unchanged |
| Legacy.SplitProjectName | ETL_Functions.py:69-78 | the only failure is IndexError |
| Legacy.KeepsExtension | ETL_Functions.py:69-78 | for `t0_t1_t2.raw` the legacy ProjectID keeps ".raw" and its pattern has no '%', while the current split drops the extension and ends its pattern with '%' |
| Legacy.StripJson | ETL_Functions.py:705 | the result is no longer than the name |
| Legacy.StripJsonExtension | ETL_Functions.py:705 | a name in which "json" occurs only at its start, or not at all, loses exactly its ".json" |
| Legacy.StagingNameStripped | ETL_Functions.py:705 | a staging name such as "Proj_20250701_jx.json" loses exactly its extension |
| Legacy.StripJsonEatsInnerMatches | ETL_Functions.py:705 | the pattern's dot is a wildcard: "ajson.json" becomes empty |
| Legacy.SampleList | ETL_Functions.py:659-663 | the sample list has eleven values with a Neo and seven without, name first and ProjectID second |
| Legacy.ProjectList | ETL_Functions.py:638-639 | the project list is the eight fields as texts, in column order |
| Legacy.ProjectOfList | ETL_Functions.py:756-757 | a list that is read back as a project lists that project |
| Legacy.ProjectListRoundTrip | ETL_Functions.py:638-639 | a project's list reads back as the project |
| Legacy.WriteOn | ETL_Functions.py:307-311 | every failure, a duplicate key included, reaches the caller and changes nothing |
| Legacy.ProjectInsertOk | ETL_Functions.py:307-311 | a project under a new ProjectID is appended and nothing else changes |
| Legacy.SampleInsertOk | ETL_Functions.py:307-311 | a sample row that fits its columns and whose name is not a key is appended and nothing else changes |
| Legacy.ReadUnit | ETL_Functions.py:719-722 | a missing unit raises FileNotFound, an unreadable one a decode error |
| Legacy.WithProjectId | ETL_Functions.py:729 | the list with its second value replaced by the chosen ProjectID |
| Legacy.WithJsonEffect | ETL_Functions.py:692-738 | all or nothing: NoFittingProjectFound exactly when the family has no project; a success appends one sample row carrying a family ProjectID, writes no project and removes the unit |
| Legacy.WithJsonSuccess | ETL_Functions.py:725-738 | a successful unit is written under a project of the table, its row carries that ProjectID, no project is written, and exactly the unit is removed |
| Legacy.KeepProjectEffect | ETL_Functions.py:740-766 | a failure keeps the unit; a success adds exactly one project, one that was absent, so a unit whose project exists always fails |
| Legacy.PendingEffect | ETL_Functions.py:674-682 | the pending pass writes no project, only removes staged units and only appends sample rows |
| Legacy.PendingDrains | ETL_Functions.py:674-682 | when the legacy pass succeeds, every listed unit the family regex finds and whose family has a project has been written and removed |
| Legacy.DuplicateSampleRaises | ETL_Functions.py:684-689 | a sample whose name is a key already, under an existing project, raises IntegrityError and changes nothing |
| Legacy.StandardWithoutFamilyStaged | ETL_Functions.py:636-651 | a standard without a family project is staged as lists under the SaveToJson name and reported with SafedAsJsonTempFile; the tables do not change |
| Legacy.StandardWithFamilyWritten | ETL_Functions.py:653-663 | with a family project, and no age check, the sample is written under the family's earliest ProjectID when devices and HPLC name agree on the Neo |
| Legacy.NeoMismatchFails | ETL_Functions.py:659-663 | when the HPLC name and the devices disagree on the Neo, the list does not fit the statement and the write fails with nothing changed |
| Legacy.NewProjectWritten | ETL_Functions.py:665-682 | a new non-standard project is written first, with its sample, before the staged units are tried |
| Legacy.NewProjectEffect | ETL_Functions.py:665-682 | the project and the sample row written first are still the table's new project and the first new row after the staged units are tried |
| Legacy.ErrorProjectId | ETL_Functions.py:787-803 | the only failure is ValueError |
| Legacy.FillErrorProjectId | ETL_Functions.py:769-806 | the row keeps the name's own ProjectID exactly when that project exists or the family is empty, and otherwise names a project of the table; a name that is a key already raises IntegrityError |
| Legacy.ErrorProjectIdChoice | ETL_Functions.py:781-801 | the error row keeps the name's own ProjectID exactly when that project exists or the family is empty, and otherwise names a project of the table |
| Legacy.ErrorRowWrite | ETL_Functions.py:795-806 | the error row is appended with name, ProjectID and error, unless the name is a key already, which raises IntegrityError and changes nothing |
| Legacy.ReplaceKeepsOwnProjectId | ETL_Functions.py:862-892 | for a Neo standard whose family has a project but whose own ProjectID has none, every updated row carries the sample's own ProjectID |
| Legacy.NeoUpdateStoresOwnProjectId | ETL_Functions.py:862-889 | the Neo update built from the rotated copy succeeds, keeps the row count, and sets every matching row's ProjectID to the sample's own |
| Engine.ReplaceStoresFamilyProjectId | src/raw2meta/db/FillDatabase_Fun.py:297-307 | the case of Legacy.ReplaceKeepsOwnProjectId in the current engine, which sets the ID before rotating: the rows store the family's earliest ProjectID and no project is written |
| Legacy.MissingFilesOn | ETL_Functions.py:537-567 | DatabaseError exactly when offline; otherwise exactly the listed names with no sample row, and the scratch table emptied |
| Legacy.MissingFilesSuperset | ETL_Functions.py:537-567 | from one listing, the legacy version reports every name the current version reports |
| Legacy.SampleNotInDatabaseOn | ETL_Functions.py:569-578 | DatabaseError exactly when offline; otherwise true exactly when no sample's name is LIKE the basename |
| Legacy.StoredSampleIsFound | ETL_Functions.py:569-578 | a sample stored under the basename itself makes the answer false |
| Legacy.Write | ETL_Functions.py:307-311 | result and new state are WriteOn's |
| Legacy.FillDatabaseWithJson | ETL_Functions.py:692-738 | result and new state are the legacy WithJsonOn's |
| Legacy.FillDatabaseWithJsonKeepProject | ETL_Functions.py:740-766 | result and new state are the legacy KeepProjectOn's |
| Legacy.ProcessPending | ETL_Functions.py:676-682 | the loop over the listing ends in the legacy PendingOn's result and state, characterised by PendingEffect and PendingDrains |
| Legacy.FillDatabase | ETL_Functions.py:581-689 | result and new state are the legacy FillDatabaseOn's |
| Legacy.FillDatabaseError | ETL_Functions.py:769-806 | result and new state are the legacy FillErrorOn's |
| Legacy.ReplaceErrorFile | ETL_Functions.py:808-907 | result and new state are the legacy ReplaceErrorFileOn's |
| Legacy.MissingFilesFromDatabase | ETL_Functions.py:537-567 | result and new state are MissingFilesOn's |
| Legacy.LeftJoinMissing | ETL_Functions.py:548-564 | the join loop returns exactly AntiJoin of the names |
| Legacy.SampleNotInDatabase | ETL_Functions.py:569-578 | the answer is SampleNotInDatabaseOn's |

## Left out

- Regular-expression metacharacters inside name tokens are taken literally by the family regex and the LIKE pattern. `os.path` is modelled on posix paths with '/' only. `Path(...).as_posix()` normalisation is not modelled.
- Common.DirectoriesToObserve: `date.today()` is a parameter. The use of the window slots by the backlog and the watchers (`src/raw2meta/components/Observer.py`) is not part of this model.
- Logic.StampDigits: stamps are stated for the years 1000 to 9999 only. strftime's padding below the year 1000 differs by platform.
- Common.MonthNameReadsBack: `strftime("%Y")` is modelled as zero-padded to four digits for every year. glibc writes a year below 1000 with fewer digits, so there the six-digit name holds only on platforms that pad.
- Common.WindowMonths: the six-digit directory names below the year 1000 rest on the same four-digit padding as Common.MonthNameReadsBack.
- Common.ParseInt: Python's `int()` also strips surrounding whitespace, accepts `_` between digits and accepts non-ASCII Unicode digits. The model accepts only an optional sign and ASCII digits, so such a date text is a ValueError here.
- Common.DateCodes: the codes are those of Common.ParseInt, so a date text with whitespace, `_` or Unicode digits has no code here.
- Common.ClosestProject: raises ValueError on date texts that Common.ParseInt rejects and `int()` accepts, such as " 20250701".
- Store.SaveToJsonEffect: the staging folder is assumed to exist. When it is missing, `os.listdir(TempFolder)` raises FileNotFoundError before the guarded write (src/raw2meta/db/database_helper.py:54), and the model has no such outcome. `folderWritable` only models a folder that exists but cannot be written, which the source logs. For the same reason Engine.StandardWithoutFamilyIsStaged and Engine.StandardStaged give Ok, the pending pass's listing is a parameter, and the legacy staging reports WriteError where Python raises FileNotFoundError.
- Store.Site.SaveToJson: the same assumption that the staging folder exists. A missing folder's FileNotFoundError is not modelled.
- Logic.DaysAgo: `DaysWaiting` is a `nat`. A negative configuration value is not modelled.
- Engine.StandardWithFamily: pandas' `to_julian_date` is a parameter function `julian` over the CreationDate text. A NULL date counts as NaN, so `TimeDiff > DaysWaiting` is false.
- Staging.ReadJson: JSON values are typed. A value of the wrong type for its field is a decode error, although the dataclass would store it. The JSON text encoding is not modelled.
- Float statistics from the chromatogram (mean, standard deviation, extrema) and the trailer values are inputs. The Thermo reader (`RawFileReaderManager`, the .NET calls, `CreateMetaDataLists`) is not modelled; its answers are inputs.
- Watchers, threads, queues, `time.sleep` and the timing of `stop_event.wait` are not modelled; only each wait's answer is an input. User prompts, driver scripts, configuration loading, logging and the DDL are not modelled either. `DaysWaiting`, `MinFileSize` and the device dictionaries are parameters.
- String order is by code point. `os.listdir` order is the order of the listing parameter.
- Logic.ReadyBounds: exceptions other than permission failures and a vanished file propagate out of the real readiness loop. These are not modelled.
- Legacy.ProjectOfList: a non-text project cell is a decode error, where SQLite would store the value.
- Legacy.ReadUnit: a legacy unit stored as dictionaries is a decode error at the first list index. Python raises a KeyError there.
- Legacy.MissingFilesOn: the legacy function receives its name list from the caller, so the list is a parameter. The rows come back as tuples; the model returns the names.

## Findings

| source | as written | input that shows it | evidently intended | confidence | as-written member | corrected member |
|---|---|---|---|---|---|---|
| src/raw2meta/helper/common.py:119-121 | the distance is the signed difference `int(x) - int(ProjectID_Date)`, so the smallest date code wins whatever the query | family dates "1" and "9", query "8": the project dated "1" is chosen | the project whose date is nearest to the query, in absolute distance | not executed | Common.SignedDifferencePicksEarliest | Common.NearestIsClosest |
| ETL_Functions.py:862-892 | the rotated update copy is made before the standard-with-family branch sets the family's ProjectID, so the update stores the sample's own ProjectID | a Neo standard sample whose own ProjectID has no project but whose family has one | the sample stored under the family's ProjectID, as the current engine does | not executed | Legacy.ReplaceKeepsOwnProjectId | Engine.ReplaceStoresFamilyProjectId |

Both engines keep the signed-difference choice of the first row, since every ingestion outcome above depends on it; `Common.NearestProject` is the reference that row is measured against.
