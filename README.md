# ppv in Dafny

A model of the core of `ppv`, a Python package for looking at SDSS plate runs, fields
and plates and the targets placed on them. The model covers:

- **`simulate_platedesign`**: a greedy estimate of which science targets of a
  five_plates field get a fibre. Priority groups are visited in ascending order, with a
  budget of 300 APOGEE and 500 BOSS fibres.
- **The `Targets` masks and their per-name caches.** Availability is inside the field's
  circle; assignment is membership of the catalogid.
- **The five_plates helpers:**
  - platerun lists;
  - carton program names and priority keys;
  - `plateInput` file lists and what their file names encode;
  - the memo caches of default parameters and carton tables;
  - the full target table of a field.
- **The plate path helpers:** padded plate numbers and batch directories.
- **The summary look-ups** shared by `groups.py`, `field.py` and `platerun.py`.
- **The objects built on those look-ups:**
  - plates with their `plate` column;
  - fields with their target tables and membership masks;
  - plate runs with their lazily loaded fields and the assigned-target table. That table
    tags every row with its plate and its field.
- **`unique_cat` and `unique_cat_w_provenance`.** The second tags the caller's tables in
  place.

There is one Dafny module per source file: `Process`, `TargetsModule`, `FivePlates`,
`Paths`, `Groups`, `Plates`, `PlanFields`, `PlateRuns` and `Util`. The source's tables
become sequences of `TargetRow` records: a catalogid plus a map from column names to
values. A table that the source changes in place is a `Tables.Table` object. The summary
look-ups live once in `PlanSummary`. Generic helpers live in `Seqs`, `Strings`,
`Sorting`, `Tables` and `Wrappers`.

Operations that change state are methods of classes, or methods with `modifies`
clauses:

- the caches of `Targets`, `ParamCache`, `Groups.Field` and `PlateRuns.PlateRun`;
- the in-place tagging loops of `unique_cat_w_provenance` and `assigned_table`;
- the loop of `simulate_platedesign`.

Each such method is proved against a function or predicate over the old state. The
properties the code promises are lemmas about those functions.

Some parts of the source are given to the model as parameters rather than modelled:

- files that are read: the yanny plugHoles reader, the plan summaries, the five_plates
  parameter and carton files, and the plateInput tables;
- angular separation;
- the random draw.

Errors the source raises become `Err` values of a per-module error datatype.

## Model

Paths are relative to the repository root.

| member | source | states |
|---|---|---|
| Process.SimulatePlateDesign | src/ppv/process.py:32-102 | The loop's result is the fold of one step per priority group, sorted by catalogid. It has at most 800 rows, ordered by catalogid. |
| Process.RunKeepsInv | src/ppv/process.py:73-98 | Every state the loop reaches keeps both counts within their goals (300 and 500). Each count equals the number of rows of its instrument taken so far, and nothing else is taken. |
| Process.CapacityBound | src/ppv/process.py:58-96 | The result has at most 300 APOGEE rows and 500 BOSS rows, so at most 800 rows. |
| Process.NonScienceGroupSkipped | src/ppv/process.py:82-85 | A group whose Type is not 0 leaves the state (counts and taken rows) unchanged. |
| Process.WholeGroupTaken | src/ppv/process.py:87-90 | A science group that fits the remaining budget is appended whole. Its instrument's count rises by the group size. |
| Process.RandomDrawFillsGoal | src/ppv/process.py:91-96 | A science group larger than a positive remaining budget contributes exactly that many rows, drawn from the group. Its instrument is then full, and the other count is unchanged. |
| Process.FullInstrumentTakesNothing | src/ppv/process.py:97-98 | A group whose instrument is full leaves the state unchanged. |
| Process.FullStaysFull | src/ppv/process.py:73-98 | Once an instrument is full, it is still full after the whole loop. |
| Process.StepAppends | src/ppv/process.py:84-98 | A step either takes nothing, or appends one non-empty block drawn from the group. |
| Process.Step | src/ppv/process.py:82-98 | One visit of a group fails iff it is a science group of an instrument with no goal, and then with that instrument. Otherwise the counters keep their instruments and the earlier taken blocks are kept as a prefix. |
| Process.Run | src/ppv/process.py:73-98 | The state after the first k groups; every state it reaches counts exactly the two instruments. |
| Process.Simulate | src/ppv/process.py:100-102 | A success comes from a successful loop and holds exactly the taken rows, sorted by catalogid. A loop that took nothing gives the `vstack([])` error. |
| Process.RunGrows | src/ppv/process.py:73-96 | Between two points of the loop, the counters never decrease. The earlier list of taken blocks is a prefix of the later one. |
| Process.TakenInPriorityOrder | src/ppv/process.py:56-77 | After k groups, the taken blocks are in strictly ascending `order_priority`, and each block is of one priority below k. |
| Process.StepTakesFromGroup | src/ppv/process.py:87-96 | One step adds only rows of the group it visits. |
| Process.TakenFromInput | src/ppv/process.py:87-96 | The taken rows are a sub-multiset of the rows of the groups visited. |
| Process.ResultFromInput | src/ppv/process.py:100-102 | A successful result is non-empty, a sub-multiset of the input rows, and sorted by catalogid. |
| Process.UnknownInstrumentFails | src/ppv/process.py:78-87 | A science group whose instrument is neither apogee nor boss makes the whole run fail with that instrument (the `nSCI_needed` KeyError). |
| Process.NoScienceRaises | src/ppv/process.py:84-100 | With no science group, nothing is ever taken, and stacking the empty list fails. |
| Process.ErrorStops | src/ppv/process.py:73-98 | A failure at some group is the result of the whole run. |
| TargetsModule.Targets.constructor | src/ppv/targets.py:40-44 | Both caches start empty. |
| TargetsModule.Targets.RadialSearch | src/ppv/targets.py:65-77 | One flag per target, true exactly when the separation is strictly below the radius. |
| TargetsModule.Targets.RadialSearchMonotone | src/ppv/targets.py:77 | A larger radius keeps every target a smaller one found. |
| TargetsModule.Targets.LookupAvailable | src/ppv/targets.py:87-93 | On a hit, returns the stored mask and leaves the cache unchanged. On a miss, returns the cone search and stores it under the name; other names are untouched. |
| TargetsModule.Targets.AvailableInField | src/ppv/targets.py:79-93 | For a field, the cached-or-computed mask. For a `groups.Platerun`, None with no change to the cache. The five_plates `Platerun` and a `platerun.PlateRun` fail on their missing `center`, and a plate on `name`. |
| TargetsModule.OrAll | src/ppv/targets.py:101 | Elementwise OR of equal-length masks: bit i is set iff some mask has bit i. |
| TargetsModule.Targets.AvailableInPlaterun | src/ppv/targets.py:95-101 | Every field is looked up in order through the cache, and the result is the OR of the masks. A run with no fields fails (the reduce of an empty list). |
| TargetsModule.Targets.Walk | src/ppv/targets.py:100 | One mask per field, each as long as the catalog. The cache stays well-sized and keeps every entry it had. |
| TargetsModule.Targets.WalkIsRadial | src/ppv/targets.py:100 | If every cached entry is the cone search of its name, then each field's mask from the walk is its cone search, and the cache stays that way. |
| TargetsModule.Targets.PlaterunAvailability | src/ppv/targets.py:95-110 | A target is available in a run iff it is strictly inside the circle of at least one of the run's fields. |
| TargetsModule.Targets.AvailableIn | src/ppv/targets.py:103-111 | A platerun of either kind goes to the platerun path. Fields, plates and a `platerun.PlateRun` go to the field path, where the last fails on `center`. The caches change as above. |
| TargetsModule.Targets.Within | src/ppv/targets.py:113-117 | Flag i is true iff catalogid i is among the given ids. |
| TargetsModule.Targets.AssignedIn | src/ppv/targets.py:119-129 | Returns the entry under the object's name. A miss stores the membership mask, and a hit leaves the cache unchanged. A plate fails on `name`, and a `platerun.PlateRun` on `targets`. The availability cache is untouched. |
| TargetsModule.Targets.NotAssignedIn | src/ppv/targets.py:139-149 | For a field, it is the availability AND NOT the assignment. Every result is disjoint from the stored assignment mask. A plate fails, and a `platerun.PlateRun` fails on `targets`. |
| FivePlates.ReplaceSpace | src/ppv/fiveplates.py:54-55 | Same length, no space left, every space replaced by `_`, and every other character kept. |
| FivePlates.AvailablePlateruns | src/ppv/fiveplates.py:59-60 | A sorted permutation of the available runs. |
| FivePlates.CheckPlaterun | src/ppv/fiveplates.py:499-503 | True iff the run is available; otherwise PlateRunMissingError carrying the name (None for an empty name). |
| FivePlates.FpToPrefectName | src/ppv/fiveplates.py:40-42 | The keys are exactly the five_plates names paired by zip. |
| FivePlates.FpToPrefectNameLast | src/ppv/fiveplates.py:40-42 | A key maps to the prefect name of its last pairing. |
| FivePlates.GetProgramNamesAsWritten | src/ppv/fiveplates.py:63-70 | Programs without `(` come through unchanged. Any `(` reaches `re.findall` and raises NameError, because `re` is not imported. |
| FivePlates.ProgramNamesFailOnParenthesis | src/ppv/fiveplates.py:67 | `mwm_rv(long)` makes the function as written raise NameError. |
| FivePlates.ProgramName | src/ppv/fiveplates.py:67-68 | A name without `(` is kept. A name with one yields a non-empty capture without `)`. |
| FivePlates.ProgramNameInParentheses | src/ppv/fiveplates.py:67 | For `a(x)b` with no `(` in a and a non-empty x without `)`, the result is x. |
| FivePlates.EmptyParenthesesFail | src/ppv/fiveplates.py:67 | `bhm()` finds no match, and indexing `[0]` raises IndexError. |
| FivePlates.GetProgramNames | src/ppv/fiveplates.py:63-70 | Either one program name per program, each that program's capture, or the error of some program. |
| FivePlates.ProgramNamesAgreeWithoutParentheses | src/ppv/fiveplates.py:63-70 | Without any `(`, the corrected function and the function as written agree. |
| FivePlates.PriorityKey | src/ppv/fiveplates.py:78 | The key is the instrument, then `_SCI_`, then the program. |
| FivePlates.PriorityKeyInjective | src/ppv/fiveplates.py:78 | For one instrument, different programs give different keys. |
| FivePlates.CartonToProgram | src/ppv/fiveplates.py:72-73 | The carton's program, or KeyError for a carton not listed. |
| FivePlates.CartonToPriority | src/ppv/fiveplates.py:75-79 | Succeeds iff the carton is listed and its priority key is in the order table, and then gives that order. |
| FivePlates.PlateInputKeyInjective | src/ppv/fiveplates.py:94 | `plateInput{m}` and `plateInput{n}` are the same key only when m = n. |
| FivePlates.PlateInputsUpTo | src/ppv/fiveplates.py:94-95 | Succeeds iff keys 1..n are present, and then element k is `plateInput{k+1}`. |
| FivePlates.PlateInputFiles | src/ppv/fiveplates.py:84-95 | A missing `nInput` gives KeyError and a non-integer one TypeError. Otherwise the result has max(nInput, 0) elements, element k being `plateInput{k+1}`. |
| FivePlates.ParseProgramNameFromFile | src/ppv/fiveplates.py:97-103 | The result is never longer than the file name. |
| FivePlates.ParseProgramName | src/ppv/fiveplates.py:97-103 | For `targetlist_{field}_` + X + `_{designID}.txt`, where X contains neither affix, the result is X. |
| FivePlates.ParseInstrumentNameFromFile | src/ppv/fiveplates.py:105-110 | The result contains no `_`. |
| FivePlates.ParseInstrumentName | src/ppv/fiveplates.py:105-110 | After the prefix, the text up to the first `_` is returned. |
| FivePlates.ParamCache.constructor | src/ppv/fiveplates.py:115-116 | Both caches start empty. |
| FivePlates.ParamCache.GetDefaultParams | src/ppv/fiveplates.py:119-125 | The loader runs only on a miss, and its value is stored under the run. The stored entry is returned, other entries are untouched, and the carton cache is untouched. |
| FivePlates.ParamCache.GetCartonsTable | src/ppv/fiveplates.py:127-136 | It first goes through the parameter cache, and a missing `carton_list_version` fails. A hit returns the stored table. A miss loads the cartons with the version, adds the corrected program names (`FivePlates.GetProgramNames`, not the NameError-raising version as written), and stores the table, or fails with their error. |
| FivePlates.KeptInputs | src/ppv/fiveplates.py:258-260 | Exactly the input files not containing `apogee_STA` are kept, in order. It fails iff some file is not a string. |
| FivePlates.ProcessPlateInput | src/ppv/fiveplates.py:238-253 | Succeeds iff the parsed program has a priority and the table has none of the three added columns yet. A missing priority is the KeyError, and an existing `instrument` column the ValueError of `add_column`. Every row keeps its catalogid and gets the instrument, order_priority and order_name parsed from the file name. |
| FivePlates.InputStep | src/ppv/fiveplates.py:258-260 | For one file, a non-string fails the `apogee_STA` test with TypeError. A file containing it is skipped. Any other file is processed, failing iff its processing fails. |
| FivePlates.ProcessAll | src/ppv/fiveplates.py:258-260 | A success holds one processed table per kept file, in order. |
| FivePlates.ProcessAllSucceeds | src/ppv/fiveplates.py:258-260 | The comprehension succeeds iff every file is a string and every kept file processes. |
| FivePlates.ProcessAllFirstError | src/ppv/fiveplates.py:258-260 | A failure is the error of the first file whose step fails, every earlier file having passed. A KeyError of one file therefore comes before a TypeError of a later one. |
| FivePlates.FullPlateInputTable | src/ppv/fiveplates.py:255-268 | Succeeds iff the file list is read, the comprehension succeeds with some table, and the stacked rows have no `field` or `designid` column yet. The table is then sorted by catalogid, and every row has `field` = the field name and `designid` = the design id. |
| FivePlates.FullTableRows | src/ppv/fiveplates.py:255-263 | Some file was kept, and the result has the rows of the stacked tables (same count, same multiset of catalogids). |
| FivePlates.FieldContains | src/ppv/fiveplates.py:371-385 | One flag per queried id, true iff the field's table has a row with that catalogid. A failed table load is passed on. |
| FivePlates.GetTargetsAlwaysRaises | src/ppv/fiveplates.py:349-369 | `get_targets` as written raises KeyError(`Catalog_id`) for every loaded table and every query. |
| FivePlates.FieldGetTargetsAsWritten | src/ppv/fiveplates.py:349-369 | `get_targets` as written never succeeds, and a failed table load is passed on. |
| FivePlates.FieldGetTargets | src/ppv/fiveplates.py:365-369 | The corrected `get_targets` gives the rows whose catalogid is queried, in table order, and only those. |
| Paths.PlatenumAsStr | src/ppv/util/paths.py:16-29 | For n ≥ 0, the decimal of n with just enough leading zeros to reach 6 characters, and no more; it parses back to n. A negative n gives `-` then the decimal of -n padded the same way to 5. |
| Paths.PlatenumAsStrPadding | src/ppv/util/paths.py:29 | The padding is exact: the decimal of n with leading zeros only up to six characters, or `-` then the decimal of -n with zeros up to five, and never more. |
| Paths.PadParses | src/ppv/util/paths.py:29 | Zero-padding a decimal keeps it all digits and keeps its value. |
| Paths.PlateBatch | src/ppv/util/paths.py:32-45 | The plate directory plus one segment. For n ≥ 0 that segment is n div 100 padded to four digits, then `XX`, which is the padded number without its last two characters, then `XX`. |
| Paths.Plate | src/ppv/util/paths.py:48-58 | The batch path plus one segment, the padded plate number; it is all digits and parses back to n for n ≥ 0, and is six long for n < 10^6. |
| Paths.PlateholesFile | src/ppv/util/paths.py:61-69 | `plateHoles-`, then the padded number, then `.par`; the middle parses back to n for n ≥ 0. |
| Paths.Plateholes | src/ppv/util/paths.py:71-80 | The plate's directory plus one segment, the plugHoles file name. |
| Paths.BatchDigits | src/ppv/util/paths.py:44 | The padded number minus its last two characters is n div 100 padded to 4. |
| Paths.SameHundredsSameBatch | src/ppv/util/paths.py:32-45 | Plate numbers with equal n div 100 share a batch directory. |
| Paths.BatchOf15020 | src/ppv/util/paths.py:43-45 | The batch of 15020 is `0150XX`. |
| Paths.PlateholesNamesPlate | src/ppv/util/paths.py:48-80 | `plateholes(n)` is the plate directory, then the batch (`n div 100` padded + `XX`), then the six-digit number, then `plateHoles-` + that same number + `.par`. |
| PlanSummary.IndxInPlateruns | src/ppv/groups.py:10-11 | Ascending indices in range, exactly those whose name is the field name. The same function is at src/ppv/field.py:15-16. |
| PlanSummary.InPlaterun | src/ppv/groups.py:17-18 | Ascending indices exactly those whose platerun is the run name. The same function is at src/ppv/platerun.py:11-12. |
| PlanSummary.PlatesOfField | src/ppv/groups.py:13-15 | The plateids at those indices, in the same order. The same function is at src/ppv/field.py:18-20. |
| PlanSummary.PlatesOfFieldMembers | src/ppv/field.py:18-20 | A plate is listed iff some summary row pairs it with the field name. |
| PlanSummary.PlaterunFields | src/ppv/groups.py:164-167 | Sorted, without repeats, and exactly the names of the run's rows. The same code is at src/ppv/platerun.py:23-26. |
| PlanSummary.FirstRow | src/ppv/field.py:70-79 | None iff no row has the name; otherwise the first row with it. |
| PlanSummary.Center | src/ppv/field.py:70-73 | raCen and decCen of the first row with the name, or None (the IndexError of `[0]`). |
| PlanSummary.Meta | src/ppv/field.py:76-79 | platerun and programname of the first row with the name, or None. |
| PlanSummary.RunFieldsHaveRows | src/ppv/groups.py:174-176 | A field listed for a run has a first row, a center and metadata in the same summary. |
| Plates.LoadTable | src/ppv/plate.py:101-113 | Same rows and catalogids. Every row's `plate` is the plate number, and its other columns are kept. |
| Plates.Contains | src/ppv/plate.py:122-136 | One flag per queried id, true iff the plate has a target with it. |
| Plates.InOperatorAsWritten | src/ppv/plate.py:150-163 | `ids in plate` raises the ambiguous-truth-value error iff more than one id is given. One id gives its membership, and none gives False. |
| Plates.TwoIdsRaise | src/ppv/plate.py:160-161 | Two ids both on the plate still raise. |
| Plates.InOperator | src/ppv/plate.py:150-163 | The corrected operator is true iff every queried id is on the plate. |
| Plates.InOperatorAgrees | src/ppv/plate.py:160-163 | With one id, the corrected and as-written operators agree. |
| Plates.GetTargets | src/ppv/plate.py:138-148 | A mask of the right length selects its true rows. Indices, negative ones counting from the end, select those rows, and anything out of range is an IndexError. |
| Plates.GetTargetsByIds | src/ppv/plate.py:138-148 | Selecting with the mask of queried catalogids gives the rows with those ids, in order. |
| Groups.FieldTag | src/ppv/groups.py:103-105 | The stored field name is the name cut to its first 200 characters, so equal to the name when it is short enough. Field names are ASCII, so 200 bytes are 200 characters. |
| Groups.LoadPlates | src/ppv/groups.py:40 | One plate per plate number, in order, each with that number and the reader's rows. |
| Groups.PlateTargets | src/ppv/groups.py:101 | One table per plate, in plate order, each that plate's targets. |
| Groups.FieldTable | src/ppv/groups.py:94-107 | A field without plates fails (`vstack([])`). Otherwise the table has the total number of the plates' rows and their catalogids in order. Every row has `field` set and its other columns kept. |
| Groups.FieldTableIds | src/ppv/groups.py:101 | The field table's catalogids are the plates' catalogids, concatenated in plate order. |
| Groups.CheckPlaterun | src/ppv/groups.py:244-248 | True iff some summary row has the run; otherwise PlateRunMissingError with the name. |
| Groups.RunSummary | src/ppv/groups.py:170-171 | The summary rows of the run, in summary order and each as often as it occurs: element k is the row at the k-th ascending index of the run. A row is in the result iff it is a summary row of the run. |
| Groups.Field.constructor | src/ppv/groups.py:26-41 | Stores the given name, plates, center and metadata, with an empty target cache. |
| Groups.Field.Open | src/ppv/groups.py:26-41 | Fails with IndexError iff no summary row has the name. Otherwise the field has the summary's plate numbers, the first row's center and metadata, and the loaded plates. |
| Groups.Field.Targets | src/ppv/groups.py:86-92 | Always the field table. The first call builds and stores it (counted as one load), and later calls return the stored table without loading. |
| Groups.Field.MaskIn | src/ppv/groups.py:109-123 | One flag per row of the field table, true iff its catalogid is queried. |
| Groups.Field.GetTargets | src/ppv/groups.py:125-129 | The rows of the field table whose catalogid is queried, in order. |
| Groups.Field.Contains | src/ppv/groups.py:136-150 | One flag per queried id, true iff the field table has it. A field without plates fails. |
| Groups.Platerun.constructor | src/ppv/groups.py:158-162 | Stores the name and field names. |
| Groups.Platerun.Open | src/ppv/groups.py:158-162 | Fails with PlateRunMissingError iff no row has the run. Otherwise it is a fresh run whose fields are the sorted unique names of its rows. |
| Groups.OpenRunHasFields | src/ppv/groups.py:164-167 | An available run has at least one field, and every field has summary rows. |
| Util.UniqueCat | src/ppv/util/__init__.py:17-27 | An empty list fails (`vstack([])`). Otherwise there are no duplicate rows, and a row is in the output iff it is in some input table. |
| Util.ZipLength | src/ppv/util/__init__.py:42 | The zip visits as many groups as the shorter list has. |
| Util.TaggedTables | src/ppv/util/__init__.py:43-46 | The kept tables of a group are exactly its non-empty tables, each tagged with the property. |
| Util.ProvenanceTables | src/ppv/util/__init__.py:42-46 | The kept tables of all groups are exactly the non-empty tables of the first n groups, each tagged with its group's property. |
| Util.ProvenanceSkipsEmpty | src/ppv/util/__init__.py:44 | No empty table is kept. |
| Util.ProvenanceEmpty | src/ppv/util/__init__.py:44-48 | Nothing is kept iff every table of the visited groups is empty. |
| Util.ProvenanceRows | src/ppv/util/__init__.py:42-48 | A row is in a kept table iff it is a tagged row of some visited table. |
| Util.ProvenanceResult | src/ppv/util/__init__.py:29-48 | The result fails iff every visited table is empty. Otherwise it is duplicate-free, and its rows are exactly the tagged rows of the visited tables, each with the column holding some group's property. |
| Util.TagTable | src/ppv/util/__init__.py:44-46 | The table gets the column on every row, in place. It is kept iff it was non-empty. |
| Util.TagGroup | src/ppv/util/__init__.py:43-46 | Every table of the group is tagged in place, and the non-empty ones are kept in order. |
| Util.TagGroups | src/ppv/util/__init__.py:42-46 | The first n groups are tagged in place, and the others are unchanged. The kept list is the provenance of the old rows. |
| Util.UniqueCatWithProvenance | src/ppv/util/__init__.py:29-48 | The result is `unique_cat` of the provenance of the old rows. Each of the caller's visited tables now holds its tagged rows (the shallow copy), and unvisited ones are unchanged. |
| PlanFields.LoadPlugHoles | src/ppv/field.py:41 | One new, distinct table per plate, holding the reader's rows for it. |
| PlanFields.Field.constructor | src/ppv/field.py:28-41 | Stores the name, plates, center, metadata and tables. |
| PlanFields.Field.Open | src/ppv/field.py:28-41 | Fails with IndexError iff no summary row has the name, before any plate is read. Otherwise the field has the summary's plates, the first row's center and metadata, and fresh tables holding what was read. |
| PlateRuns.NumberTable | src/ppv/platerun.py:58 | Table j gets `plate` = its plate number, and the other tables keep their rows. |
| PlateRuns.NumberTables | src/ppv/platerun.py:57-60 | Every table of a field gets its plate number, in place. |
| PlateRuns.NumberField | src/ppv/platerun.py:55-60 | Field i's tables are numbered, and the other fields keep their rows. |
| PlateRuns.NumberFields | src/ppv/platerun.py:55-60 | Every table of every field gets its plate number, in place. |
| PlateRuns.TwiceTagged | src/ppv/platerun.py:58-64 | A row of a table tagged with plate, then field, is a row of the table with exactly those two columns set. |
| PlateRuns.NumberedEmpty | src/ppv/platerun.py:58 | Numbering leaves exactly the empty tables empty. |
| PlateRuns.AssignedRowsTagged | src/ppv/platerun.py:45-64 | The assigned table fails iff every plate table is empty. Otherwise it is duplicate-free, and its rows are exactly the rows of the run's plates, each with `plate` = its plate and `field` = its field's name. |
| PlateRuns.AssignedRowsColumns | src/ppv/platerun.py:55-64 | Every assigned row carries the `plate` of some plate of some field and that field's name. |
| PlateRuns.SameSummaryLoads | src/ppv/platerun.py:33-35 | When the run and field summaries are one table, every field of the run can be opened. |
| PlateRuns.NumberAndTag | src/ppv/platerun.py:50-64 | The result is the assigned table of the old rows. The caller's tables now hold rows numbered with their plates and tagged with their field. |
| PlateRuns.PlateRun.constructor | src/ppv/platerun.py:19-21 | The run's field names are the sorted unique names of its summary rows, with no fields loaded yet. |
| PlateRuns.PlateRun.OpenNext | src/ppv/platerun.py:34 | Opens the next field in name order, or fails iff that name has no summary row. |
| PlateRuns.PlateRun.LoadFields | src/ppv/platerun.py:33-35 | Fails iff some field name has no summary row. Otherwise there is one field per name, in order, each opened from the summary, with fresh tables holding what was read. |
| PlateRuns.PlateRun.Fields | src/ppv/platerun.py:37-43 | On a hit, the stored fields, with no load. On a miss, exactly one load, whose fields are stored on success. |
| PlateRuns.PlateRun.AssignedTable | src/ppv/platerun.py:45-64 | The fields are loaded at most once. Failure to load gives IndexError. Otherwise the result is the assigned table of the rows the tables held (as read on a fresh load), and those tables are now numbered and tagged. |

## Left out

- Sky geometry: `SkyCoord`, `separation`, epochs and degree quantities are floating-point astropy code. Angular separation is a parameter of `Targets`, and centers are opaque pairs.
- `plugged_coords`, `_construct_skycoords` and `plate_data` of fields (src/ppv/field.py), and `Plate._center`: these only build sky coordinates.
- Randomness: `np.random.choice(n, k, replace=False)` is the first k entries of a permutation supplied per group by the caller. No seed is modelled.
- Reading files: these are parameters of the operations that use them:
  - the yanny plugHoles files;
  - the plan summaries;
  - the five_plates description, default-parameter, carton and plateInput files.
- The two summaries: `platerun.py` reads `plansummary.load()` and `field.py` reads `load_plansummary()`. `PlateRuns.PlateRun` takes both, and it fails when a run's field is missing from the field summary.
- astropy tables:
  - `group_by`: `simulate_platedesign` receives the groups already formed.
  - `unique`: modelled as keeping the first copy of each row. astropy's order (sorted by all columns) is not modelled.
  - Column dtypes: inside the model a table has no schema of its own. Adding a column to an empty table changes only its schema, so it is a no-op here.
  - `scalar_column`: it is imported from `ppv.util` (src/ppv/fiveplates.py:14), which does not define it. It is assumed to build a column holding one value on every row, as its uses at lines 248-266 suggest, and it is modelled that way.
- `Util.UniqueCatWithProvenance`: requires the tables to be distinct objects. In the source, a table listed twice would be tagged twice. Every caller passes freshly read tables.
- `Process.SimulatePlateDesign`: the `set(...).pop()` reads and the positional `groups[priority]` require the groups to be homogeneous and numbered 0..k-1. The model requires that of the input.
- `Process.SimulatePlateDesign`: astropy's sort does not say how rows with equal catalogid are ordered. Only the order by catalogid and the permutation are stated.
- `FivePlates.FullPlateInputTable`: the same holds for its `sort('catalogid')` (src/ppv/fiveplates.py:263). The model's sort fixes one order of rows with equal catalogid, but only the order by catalogid and the rows kept are stated.
- `FivePlates.FullPlateInputTable`: the rename of `Catalog_id` to `catalogid` (src/ppv/fiveplates.py:262) is part of the plateInput loader, whose rows carry their catalogid. The KeyError of a plateInput table without a `Catalog_id` column is not modelled.
- `FivePlates.ProcessPlateInput`: a table "has" a column when some row carries it. An empty table that already has `instrument`, `order_priority` or `order_name` in its schema would raise ValueError in the source, but succeeds here. The same holds for `field` and `designid` in `FivePlates.FullPlateInputTable`.
- The `except TypeError` branches for a scalar id in `contains`, `_contains` and `__contains__`: they are not reachable with integer ids, because `np.in1d` accepts scalars. Queries are sequences.
- `TargetsModule.Targets.NotAssignedIn`: for a platerun it states disjointness from the assignment mask. The exact availability part is the one `AvailableIn` states.
- `Targets._input_indx`, `_clean_indx`, `assigned_info` and `_report`: these are not part of this model.
- `groups.Platerun.load_fields`, `fields`, `targets`, `_load_table`, `_contains` and `get_targets`: not modelled. They repeat the lazy cache of `PlateRuns.PlateRun.Fields` and the `in1d` selection of `Groups.Field`.
- The five_plates `Field` and `Platerun` classes: only `_full_plateinput_table`, `contains` and `get_targets` are modelled. Their lazy `targets` property is not: the table, or its load error, is an argument.
- `FivePlates.ParamCache.GetCartonsTable`: on a miss it adds the corrected program names. As written, `get_cartons_table` (src/ppv/fiveplates.py:134) calls `get_program_names`, which raises NameError for any program with `(` (first finding below); the source then has loaded the file but caches nothing. `FivePlates.ProgramNamesAgreeWithoutParentheses` shows the two agree when no program has `(`.
- `FivePlates.CartonToProgram`: the cartons table is a parameter. As written, `carton_to_program` reads `field._cartons_table` (src/ppv/fiveplates.py:73), which only the five_plates `Platerun` sets (line 405). Its one caller, `Field.firstcarton_program_name` (lines 235-236), passes a five_plates `Field`, which has no such attribute, so that call raises AttributeError. The model does not capture that failure.
- `FivePlates.CartonToPriority`: the order table is a parameter. As written, `carton_to_priority` reads `field._priority_order` (src/ppv/fiveplates.py:79), which no class in the source sets (the five_plates `Field` sets `_program_priorities`, line 186), so every call raises AttributeError. The model does not capture that failure.
- `FivePlates.AvailablePlateruns`: the list of available runs is the parameter `fpAvailable`, an assumption. As written, `from . import _fp_available` (src/ppv/fiveplates.py:12) names something src/ppv/__init__.py does not define (it defines `available_plateruns`), and `from .util import scalar_column` (line 14) names something src/ppv/util/__init__.py does not define, so importing `ppv.fiveplates` fails with ImportError. The model of the module's functions assumes both names exist.
- `FivePlates.CartonToPriority`: the `loc` look-ups are maps. A carton or priority key listed twice in a table is not modelled.
- `PlateRunMissingError.__str__`, `__repr__`, `__str__` and `properties()`: display only.
- `Plate.__getattr__` column fall-through and `Plate.property`: reflection over the table. A `Plate` passed where a `name` or `center` is read is the one case modelled, as a KeyError.
- `Paths.PlateBatch`: the batch segment is stated only for n ≥ 0. A plate number is never negative, and for a negative one the function still keeps the source's `[:-2] + 'XX'` of the signed string.
- Integers are unbounded. The numpy column widths do not matter for plate numbers, catalogids or priorities in this model.

## Findings

| source | as written | input that shows it | evidently intended | confidence | as-written member | corrected member |
|---|---|---|---|---|---|---|
| src/ppv/fiveplates.py:67 | `re.findall` is called, but `re` is never imported | a carton program `mwm_rv(long)` raises NameError | the text between the first `(` and the next `)` | not executed | FivePlates.ProgramNamesFailOnParenthesis | FivePlates.ProgramNameInParentheses |
| src/ppv/plate.py:160-161 | for a list, `__contains__` returns the `in1d` array, and `in` then calls `bool` on it | `[a, b] in plate` raises "truth value of an array is ambiguous" | true iff all ids are on the plate, as the docstring says | not executed | Plates.TwoIdsRaise | Plates.InOperator |
| src/ppv/fiveplates.py:361 | `_contains` reads `Catalog_id`, which `_full_plateinput_table` renamed to `catalogid` at line 262 | `get_targets([x])` on any field whose table loads raises KeyError | select on `catalogid`, as `contains` and the platerun's `_contains` do | not executed | FivePlates.GetTargetsAlwaysRaises | FivePlates.FieldGetTargets |
