# Medical intake pipeline: mapper, insertion executor and intake helpers

This project is a Dafny model of the deterministic core of a patient-intake
application. It covers three parts:

- **The insertion executor** (`inserting_JSON_to_DB.py`). It takes a document of
  table operations, a list of `{table, columns}` or `{table, records}` items
  or a single such item. Inside one transaction it:
  - drops `None`-valued fields;
  - sends one `INSERT` per item, and reads `LAST_INSERT_ID()` after each single-row insert;
  - writes one log line per processed item;
  - looks up each single-row insert again by `id`;
  - commits, or rolls back on any exception.

  The database is an in-memory map from table name to rows, with a per-table
  auto-increment key (`Store.State`). The server reads the SQL text the script
  builds (`Sql.Parse`), so the statements are modelled as the text itself.
  MySQL's behaviour on that text follows, modelled in `Store.Executed` and
  `Store.ExecutedMany`:
  - error 1146 for an unknown table;
  - error 1054 for an unknown column;
  - pymysql's argument-count `TypeError`, and its `TypeError` on a dict argument;
  - a list argument, which pymysql renders as a parenthesised tuple: error 1064 when an empty `()` appears at any depth, error 1241 for a tuple of two or more values, while a one-element `('x')` is stored as `x`;
  - a multi-row `INSERT` for `executemany`.

  The connection keeps the session's view, and `Database.tables` holds the
  committed data. `rollback` restores the committed rows but keeps the
  auto-increment counters the session advanced, as InnoDB does. The cursor's
  `rowcount`, result rows and the session's last insert id change only in
  `execute`/`executemany`/`fetchone`.
- **The mapper** (`mapping_collectedinfo_to_schema.py`):
  - `parse_date` tries six fixed `strptime` formats, then a `datetime.date(Y, M, D)` repr, and otherwise returns its argument;
  - `date_serializer`;
  - `get_mapped_output`, which turns the intake document into at most two table operations (`patients`, then `symptoms`).
- **The intake helpers** (`practice.py`):
  - the required-fields check that ends the intake;
  - `migrate_existing_data`;
  - the keyword dispatch and final email check of `confirm_mandatory_fields`, as a function of the bot's question, the answer and `patient_data`.

The modules are:
- `Results`: Option and Result.
- `Text`: digits, `int()`, `split`, `join`, `strip`, `lower`.
- `Calendar`: Gregorian dates.
- `Json`: Python values with truthiness, `in`, `.get`, item assignment, `str()` and `repr()`. Dicts keep insertion order.
- `Dates`: `parse_date` and `date_serializer`.
- `Mapper`: `get_mapped_output`.
- `Intake`: the `practice.py` helpers.
- `Sql`: statement text and how the server reads it.
- `Store`: the database, connection and cursor.
- `Executor`: the three functions of `inserting_JSON_to_DB.py`.

Code that updates state step by step is a `method` whose `ensures` ties it to a
function, and the properties are lemmas about those functions:
- the loops of the executor;
- the cleaning and normalising loops of the mapper;
- the field loop of the migration;
- the cursor and connection objects.

Some behaviours of the Python program that the proofs make visible:
- The column list and placeholder count of a multi-row insert come from the
  first kept record only. A later record whose keys come in another order
  puts its values in the wrong columns (`Executor.MisalignedRecords`). One
  with a different number of keys makes pymysql raise before anything is
  sent (`Executor.RaggedRecordsFail`).
- Verification looks a row up by a column literally named `id`. Under the
  schema of `mapping_collectedinfo_to_schema.py:25`, `patients` is keyed by
  `patient_id`, so every document that inserts a patient ends in error 1054
  and is rolled back (`Executor.PatientRowRolledBack`).
- A `records` item whose records all lose every field executes nothing.
  Its log line then reports the cursor's previous `rowcount`
  (`Executor.NothingLeftToInsert`, `Executor.ProcessItemEntry`).

## Model

| member | source | states |
|---|---|---|
| `Executor.CleanKeeps` | inserting_JSON_to_DB.py:24 | an entry survives the cleaning exactly when its value is not `None` (falsy values such as `""`, `0`, `False` stay) |
| `Executor.CleanAppend` | inserting_JSON_to_DB.py:24 | cleaning keeps the original order: it distributes over concatenation |
| `Executor.InsertSingleRecord` | inserting_JSON_to_DB.py:22-32 | the method leaves the cursor and connection in the state `SingleInsert` gives, or returns its exception |
| `Executor.SingleInsertStatement` | inserting_JSON_to_DB.py:26-32 | a single insert executes `INSERT INTO t (<kept keys joined by ", ">) VALUES (<one %s per kept key>)` with the kept values, aligned position for position |
| `Executor.SingleInsertRow` | inserting_JSON_to_DB.py:22-32 | with distinct known non-key columns and storable values (a literal, or one inside one-element lists), the insert appends one row, hands out the next key as `LAST_INSERT_ID()`, sets `rowcount` to 1 and changes no other table |
| `Executor.KeptColumnsWritten` | inserting_JSON_to_DB.py:24-32 | the new row holds every non-`None` value, as the server stores it, under its own key, the generated key under the key column and NULL elsewhere |
| `Executor.Kept` | inserting_JSON_to_DB.py:41-44 | every kept record is non-empty: records that lose all their fields are dropped |
| `Executor.CleanRecordsFromKept` | inserting_JSON_to_DB.py:40-44 | the cleaning loop succeeds exactly when every record is a dict and then yields the non-empty cleaned records in order |
| `Executor.KeptFrom` | inserting_JSON_to_DB.py:41-44 | each kept record is the cleaned form of some input record |
| `Executor.InsertMultipleRecords` | inserting_JSON_to_DB.py:35-57 | the method, with its cleaning loop, leaves the state `MultipleInsert` gives, or returns its exception |
| `Executor.NothingLeftToInsert` | inserting_JSON_to_DB.py:46-48 | when every record cleans to `{}`, nothing is executed and the state, `rowcount` included, is unchanged |
| `Executor.MultipleInsertStatement` | inserting_JSON_to_DB.py:50-57 | one `executemany` of the INSERT over the first kept record's columns, with one tuple per kept record built from that record's own values |
| `Executor.MultipleInsertRows` | inserting_JSON_to_DB.py:50-57 | an acceptable multi-row insert (known distinct columns, storable values) appends the tuples as rows of that one table, `rowcount` being the number of kept records |
| `Executor.MultipleInsertCells` | inserting_JSON_to_DB.py:50-53 | the j-th value of the i-th kept record, as stored, lands in the first kept record's j-th column |
| `Executor.SingletonListStored` | inserting_JSON_to_DB.py:35-57 | a `records` item `{"substance": ["peanuts"]}` is inserted with the text `peanuts` in its row, the one-element list being read as the literal inside |
| `Executor.MisalignedRecords` | inserting_JSON_to_DB.py:50-53 | records `{a:1, b:2}` then `{b:3, a:4}` store the second row as `a=3, b=4` |
| `Executor.RaggedRecordsFail` | inserting_JSON_to_DB.py:51-57 | a kept record with a different number of fields makes the whole call fail with pymysql's format error |
| `Executor.ProcessOne` | inserting_JSON_to_DB.py:83-114 | one pass of the item loop leaves the state and log `ProcessItem` gives, or returns its exception |
| `Executor.ProcessSingleOf` | inserting_JSON_to_DB.py:95-101 | after a successful single insert, the item appends `{table, id: LAST_INSERT_ID}` and the result set is consumed |
| `Executor.ProcessItemEntry` | inserting_JSON_to_DB.py:83-114 | a non-dict item, one without a truthy `table`, or a `records` item with an empty list changes nothing. Any other item appends exactly one line naming its table: `single` with `LAST_INSERT_ID()` exactly when `columns` is present (it wins over `records`), else `multiple` with the cursor's `rowcount` |
| `Executor.RunItemsLog` | inserting_JSON_to_DB.py:83-114 | the loop keeps the lines it started with and appends one line per reported item, in document order, with its table and kind |
| `Executor.ProcessItemGrows` | inserting_JSON_to_DB.py:95-114 | processing an item only inserts: each table keeps its columns and key and its old rows as a prefix |
| `Executor.RunItemsGrows` | inserting_JSON_to_DB.py:83-114 | the same for the whole loop |
| `Executor.VerifyOne` | inserting_JSON_to_DB.py:118-126 | the method checks one log line as `VerifyEntry` says, `multiple` lines passing unchecked |
| `Executor.VerifyEntryReads` | inserting_JSON_to_DB.py:118-126 | checking a line leaves every table as it was |
| `Executor.VerifyAllReads` | inserting_JSON_to_DB.py:118-126 | the same for the whole verification loop |
| `Executor.VerifySingleIff` | inserting_JSON_to_DB.py:119-123 | on a table with an `id` column, a `single` line passes exactly when some row has that `id` |
| `Executor.VerifyWithoutIdColumn` | inserting_JSON_to_DB.py:120 | on a table without an `id` column, the lookup by the literal `id` raises MySQL error 1054 |
| `Executor.PatientRowInserted` | inserting_JSON_to_DB.py:95-101 | a `patients` item is inserted and logged as `single` with id 1 |
| `Executor.PatientRowRolledBack` | inserting_JSON_to_DB.py:118-141 | with `patients` keyed by `patient_id`, that document ends in error 1054, so nothing is committed |
| `Executor.NestedDictRolledBack` | inserting_JSON_to_DB.py:26-32 | a `patients` item whose column value is a dict raises pymysql's `dict can not be used as parameter`, so the document is rolled back |
| `Executor.NestedListRolledBack` | inserting_JSON_to_DB.py:26-32 | a list as a `patients` column value ends the run with pymysql's dict error when it holds a dict, 1064 when it holds an empty list, 1241 when it is a row value, and otherwise is stored and fails the check by `id` with 1054; the document is rolled back in every case |
| `Executor.PatientValueInserted` | inserting_JSON_to_DB.py:22-32 | a `patients` item with a storable value goes in, the row holding the literal inside the value's parentheses, and is logged with id 1 |
| `Executor.PatientValueRolledBack` | inserting_JSON_to_DB.py:118-141 | such a document is rolled back with error 1054, the check by `id` failing on a table keyed by `patient_id` |
| `Executor.PatientListRefused` | inserting_JSON_to_DB.py:26-32 | the INSERT of a value that holds a dict, holds an empty list or is a row value fails with pymysql's dict error, 1064 or 1241 |
| `Executor.IngestCommitsInserts` | inserting_JSON_to_DB.py:65-135 | on success the committed tables are the pre-image plus inserts only, the status is `"success"`, and the log has one line per reported item in order |
| `Executor.CommittedRowsFound` | inserting_JSON_to_DB.py:116-129 | on success every `single` line names a committed row: its table exists and some row carries the logged id |
| `Executor.VerifiedRowsFound` | inserting_JSON_to_DB.py:118-123 | every `single` line of a log the verification loop passed names an existing row with that id |
| `Executor.VerifiedEntryFound` | inserting_JSON_to_DB.py:119-123 | a `single` line that passes the check names an existing table and a row with that id |
| `Executor.InsertDataFromMappedJson` | inserting_JSON_to_DB.py:65-146 | on success the database holds what `Ingest` commits and the summary is returned. On any exception the committed rows are exactly those of the pre-image (the auto-increment counters may have advanced) and the exception is returned. Cursor and connection end closed on every path |
| `Sql.InsertReadBack` | inserting_JSON_to_DB.py:26-30 | the server reads the INSERT text of well-formed identifiers back as that table and column list |
| `Sql.SelectReadBack` | inserting_JSON_to_DB.py:120 | the server reads the lookup text back as a lookup of that table by that column and number |
| `Sql.ReadBack` | inserting_JSON_to_DB.py:30-120 | every well-formed statement the script sends is read back as itself |
| `Store.MatchingRows` | inserting_JSON_to_DB.py:120-122 | a row is in the result set exactly when it is a row of the table holding the looked-up value in that column |
| `Store.InsertStatementGrows` | inserting_JSON_to_DB.py:30-32 | an INSERT only appends rows to its table, `rowcount` being the number of tuples |
| `Store.ExecuteGrows` | inserting_JSON_to_DB.py:32 | no statement `execute` runs removes or changes a row, a column or a key |
| `Store.ExecuteManyGrows` | inserting_JSON_to_DB.py:57 | the same for `executemany` |
| `Store.NewRowAligned` | inserting_JSON_to_DB.py:26-32 | the new row holds the i-th value, as the server stores it, under the i-th column |
| `Store.NewRowContents` | inserting_JSON_to_DB.py:26-32 | the new row has exactly the table's columns, each given value as stored, NULL where no value is given and a fresh key when the key column is not given |
| `Store.InsertAccepted` | inserting_JSON_to_DB.py:50-57 | an acceptable `executemany` INSERT (known table, distinct known columns, one storable value per column) appends all tuples, sets `rowcount` to their number and, when the key is generated, sets `LAST_INSERT_ID()` to the first generated key |
| `Store.InsertOneAccepted` | inserting_JSON_to_DB.py:26-32 | the same for a one-row `execute` |
| `Store.InsertTakesStorables` | inserting_JSON_to_DB.py:26-57 | an INSERT that succeeds was given only storable values: no dict, no empty list anywhere, no row value |
| `Store.StorableIff` | inserting_JSON_to_DB.py:26-57 | a value is storable exactly when it holds no dict, holds no empty list and is not a row value |
| `Store.Stored` | inserting_JSON_to_DB.py:26-57 | a non-list is stored as itself, and a storable value as a single literal |
| `Store.DictArgumentRaises` | inserting_JSON_to_DB.py:26-57 | a dict among the arguments raises pymysql's format-stage `TypeError` before anything is sent |
| `Store.ListArgumentRefused` | inserting_JSON_to_DB.py:26-57 | among arguments without a dict and of the right count, an empty list anywhere gives 1064 before the table is checked, and a row value gives a server error, 1241 once the table and columns pass |
| `Store.InsertBadTuple` | inserting_JSON_to_DB.py:53-57 | a tuple of the wrong length makes `executemany` fail with a format error |
| `Store.InsertAllCells` | inserting_JSON_to_DB.py:53-57 | a multi-row insert puts the j-th value of the i-th tuple, as stored, under the j-th column of the i-th new row |
| `Store.InsertGeneratedKey` | inserting_JSON_to_DB.py:30-32 | a one-row insert without the key column appends a row and advances the table's next key |
| `Store.InsertGeneratesKey` | inserting_JSON_to_DB.py:97-100 | such an insert makes the table's next key the session's `LAST_INSERT_ID()` and stores it in the new row |
| `Store.LastInsertIdRead` | inserting_JSON_to_DB.py:99-100 | `SELECT LAST_INSERT_ID()` yields one row holding the last generated key and changes nothing else |
| `Store.LookupReads` | inserting_JSON_to_DB.py:120 | a lookup changes no table |
| `Store.LookupSelects` | inserting_JSON_to_DB.py:120-122 | a lookup fails with 1146 or 1054 on an unknown table or column, and otherwise returns the matching rows |
| `Store.LookupFinds` | inserting_JSON_to_DB.py:120-122 | a lookup by a value some row holds returns a non-empty result |
| `Store.InsertedRowFound` | inserting_JSON_to_DB.py:97-122 | after a key-generating insert, looking the row up by the key column and `LAST_INSERT_ID()` finds it |
| `Store.Connection.constructor` | inserting_JSON_to_DB.py:73 | a new open session sees the committed tables, with `LAST_INSERT_ID()` 0 |
| `Store.Connection.Begin` | inserting_JSON_to_DB.py:77 | `begin` implicitly commits what the session holds, so the transaction starts from it |
| `Store.Connection.Commit` | inserting_JSON_to_DB.py:129 | `commit` makes the session's tables the committed ones |
| `Store.Connection.Rollback` | inserting_JSON_to_DB.py:137-139 | `rollback` restores the committed rows, columns and keys, while each table's auto-increment counter keeps the session's value, in the database and in the session |
| `Store.RolledBackRestores` | inserting_JSON_to_DB.py:137-139 | after a rollback the committed rows are unchanged and every counter is the session's |
| `Store.Connection.Close` | inserting_JSON_to_DB.py:145-146 | `close` rolls back what was not committed, the counters again staying advanced, and closes the session |
| `Store.Cursor.constructor` | inserting_JSON_to_DB.py:74 | a new open cursor on that connection has `rowcount` -1 and no result rows |
| `Store.Cursor.Execute` | inserting_JSON_to_DB.py:32 | `execute` moves to the state the server's reading of the text gives. On a server error the tables and `LAST_INSERT_ID()` are unchanged while `rowcount` is 0 and the result is cleared; a format error leaves everything as it was |
| `Store.Cursor.ExecuteMany` | inserting_JSON_to_DB.py:57 | the same for `executemany` |
| `Store.Cursor.FetchOne` | inserting_JSON_to_DB.py:100 | `fetchone` returns the first result row, or `None`, and consumes it |
| `Store.Cursor.Close` | inserting_JSON_to_DB.py:143-144 | `close` closes the cursor |
| `Dates.IsoFormatReadBack` | mapping_collectedinfo_to_schema.py:84-93 | `%Y-%m-%d` reads every `YYYY-MM-DD` rendering back as its date, and as the first format it wins the loop |
| `Dates.ParseDateResult` | mapping_collectedinfo_to_schema.py:77-108 | `parse_date` returns its argument unchanged or the `YYYY-MM-DD` rendering of some valid date |
| `Dates.ParseDateIdempotent` | mapping_collectedinfo_to_schema.py:77-108 | `parse_date(parse_date(v)) == parse_date(v)` for every value |
| `Dates.StrptimeNoSeparator` | mapping_collectedinfo_to_schema.py:91-95 | a format whose separator is absent from the text raises `ValueError` |
| `Dates.NoSeparatorNoMatch` | mapping_collectedinfo_to_schema.py:83-95 | a text with neither `-` nor `/` matches none of the six formats |
| `Dates.DayFirstReadings` | mapping_collectedinfo_to_schema.py:85-86 | `%d/%m/%Y` reads `dd/mm/yyyy` as the date, while `%m/%d/%Y` reads the swapped date whenever it exists |
| `Dates.DayFirst` | mapping_collectedinfo_to_schema.py:83-95 | a `dd/mm/yyyy` text normalises to its day-first date, even when the month-first reading is another valid date |
| `Dates.AmbiguousExample` | mapping_collectedinfo_to_schema.py:83-95 | `parse_date("01/02/2003")` is `"2003-02-01"` |
| `Dates.FromDateReprReadBack` | mapping_collectedinfo_to_schema.py:98-105 | the split on `(`, `)` and `,` of a date's repr and `int()` of each part give back that date |
| `Dates.DateReprReadBack` | mapping_collectedinfo_to_schema.py:97-105 | `parse_date` turns the repr `datetime.date(Y, M, D)` into `YYYY-MM-DD` |
| `Dates.SerializerAgreesWithParseDate` | mapping_collectedinfo_to_schema.py:71-80 | `date_serializer` succeeds exactly on dates and then equals `parse_date`; any other value raises `TypeError` |
| `Mapper.NormaliseSurgeriesLoop` | mapping_collectedinfo_to_schema.py:120-125 | the loop normalises `surgery_date` of each dict surgery that has one and leaves every other element alone |
| `Mapper.NormalisePatientData` | mapping_collectedinfo_to_schema.py:115-125 | the in-place updates normalise a truthy `DOB` and the surgery dates, and nothing else |
| `Mapper.CollectSymptomRecords` | mapping_collectedinfo_to_schema.py:151-165 | the loop produces one record per element, in order |
| `Mapper.SpecialistBlock` | mapping_collectedinfo_to_schema.py:174-177 | the heading `Recommended Specialists:` followed by `- <specialist>` for each specialist, in order |
| `Mapper.BuildNotes` | mapping_collectedinfo_to_schema.py:172-179 | the notes list: the specialist block if there are specialists, then the rationale line if there is a rationale, or the error the iteration raises |
| `Mapper.CollectRecommendation` | mapping_collectedinfo_to_schema.py:167-184 | the method builds the recommendation record as `RecommendationRecords` says |
| `Mapper.BuildOperations` | mapping_collectedinfo_to_schema.py:128-208 | the method builds the operation list as `Operations` says |
| `Mapper.GetMappedOutput` | mapping_collectedinfo_to_schema.py:110-210 | the method returns `MappedOutput` and leaves the document normalised in place as `NormalisedInput` says |
| `Mapper.TruthyColumnsFacts` | mapping_collectedinfo_to_schema.py:131-140 | the patient columns are exactly the listed keys whose value is truthy, with that value, in the listed order |
| `Mapper.OperationListShape` | mapping_collectedinfo_to_schema.py:141-206 | at most two operations; `patients` present exactly when it has columns and then first; anything after it is `symptoms` |
| `Mapper.OperationsShape` | mapping_collectedinfo_to_schema.py:128-208 | at most two operations; `patients` first exactly when some patient field is truthy, carrying exactly the truthy fields |
| `Mapper.SymptomsOperation` | mapping_collectedinfo_to_schema.py:202-206 | the last operation is `symptoms` exactly when there is a record, and it carries the current-symptom, recommendation and appointment records in that order |
| `Mapper.CurrentSymptomsCount` | mapping_collectedinfo_to_schema.py:151-153 | one record per element of a list `current_symptoms`, none for a non-list |
| `Mapper.SymptomRecordFacts` | mapping_collectedinfo_to_schema.py:153-165 | every record has exactly the keys `symptom_description`, `severity`, `duration`. Dicts use `description`/`severity`/`duration` defaulting to `"not specified"`; other elements become `str(element)` with both other fields `"not specified"` |
| `Mapper.RecordLookups` | mapping_collectedinfo_to_schema.py:155-159 | a record has those three keys in that order and holds the given values |
| `Mapper.RecommendationRecord` | mapping_collectedinfo_to_schema.py:168-184 | a recommendation adds exactly one `info`/`N/A` record when it has specialists or a rationale, and none otherwise |
| `Mapper.AppointmentRecord` | mapping_collectedinfo_to_schema.py:186-200 | an `appointment` key adds exactly one `info`/`N/A` record |
| `Mapper.ParseDateTruthy` | mapping_collectedinfo_to_schema.py:116-117 | normalising a truthy `DOB` keeps it truthy |
| `Mapper.DobColumn` | mapping_collectedinfo_to_schema.py:116-140 | a truthy `DOB` reaches the `patients` columns normalised by `parse_date` |
| `Mapper.NormaliseSurgeryIdempotent` | mapping_collectedinfo_to_schema.py:124-125 | normalising a surgery twice is normalising it once |
| `Mapper.NormaliseDictIdempotent` | mapping_collectedinfo_to_schema.py:116-125 | the in-place normalisation of `patient_data` changes nothing the second time |
| `Mapper.OperationsIgnorePatientData` | mapping_collectedinfo_to_schema.py:128-208 | once `patient_data` is normalised, the rest of the document matters only through `specialist_recommendations` |
| `Mapper.RecommendationsIgnorePatientData` | mapping_collectedinfo_to_schema.py:168-184 | the recommendation record does not depend on `patient_data` |
| `Mapper.MappingStable` | mapping_collectedinfo_to_schema.py:113-125 | mapping the document as the call leaves it gives the same output, and a second call changes it no more |
| `Mapper.MappingFailures` | mapping_collectedinfo_to_schema.py:209-210 | every failure reads `Error mapping data: ...`; a non-dict document or `patient_data` always fails |
| `Intake.MissingFacts` | practice.py:249-250 | a field is reported exactly when it is required and absent or falsy, and only listed fields are reported |
| `Intake.MissingAppend` | practice.py:249-250 | the report keeps the list's order: the report for `a + b` is the report for `a` followed by the report for `b` |
| `Intake.IntakeCompleteIff` | practice.py:249-273 | the intake completes exactly when `patient_data` is a dict with all six required fields truthy |
| `Intake.MigrateExistingData` | practice.py:517-542 | the method, with its loop over the required fields, computes `Migrated` |
| `Intake.MoveNotesLookup` | practice.py:525-528 | with a `notes` key and a falsy `address`, `address` becomes the old notes and `notes` becomes `""`; no other key changes |
| `Intake.AddMissingLookup` | practice.py:530-538 | each absent required key gets `""`; every other key keeps its value |
| `Intake.AddMissingPresent` | practice.py:534-538 | with every required key present, the loop changes nothing |
| `Intake.MigrateDictLookup` | practice.py:525-538 | after migration each key holds what the notes move left, or `""` if it is required and was absent |
| `Intake.MigrateDictHasRequired` | practice.py:530-538 | after migration every required key is present |
| `Intake.MigrateDictIdempotent` | practice.py:517-542 | migrating twice is migrating once (see Left out for the one excluded case) |
| `Intake.MigratedIdempotent` | practice.py:517-542 | `migrate_existing_data` applied to its own successful result changes nothing more, under the same exclusion |
| `Intake.MigrateNotIdempotentOnNoneNotes` | practice.py:526-528 | with `notes: None` and no address, the first run sets `address` to `None` and the second to `""` |
| `Intake.MigratedCases` | practice.py:517-542 | a non-dict, or a dict without `patient_data`, is returned unchanged; a dict `patient_data` is migrated in place, keeping the document's keys |
| `Intake.NameShadowsItsCompounds` | practice.py:448-482 | as written no message routes to `procedure_name` or `hospital_name`, because `"name"` is checked first |
| `Intake.ProcedureQuestionCounterexample` | practice.py:448-478 | `"procedure name?"` routes to `name` as written and to `procedure_name` in the intended order |
| `Intake.IntendedRouting` | practice.py:441-485 | in the intended order the procedure and hospital questions reach their fields; every other message is routed as written |
| `Intake.AsWrittenIgnoresQuestion` | practice.py:433-436 | as written the route is computed from the user's own answer, whatever the question was |
| `Intake.EmailAnswerCounterexample` | practice.py:433-443 | asked `"your email?"`, the answer `a@b.c` is stored as `email` by the intended step but as `notes` as written |
| `Intake.ConfirmAnswerFollowsQuestion` | practice.py:436-478 | the intended step routes on the bot's question: a valid email answer to an email question is stored as `email`, an answer about a procedure as `procedure_name` |
| `Intake.EmailBranch` | practice.py:441-447 | a stripped answer with `@` and `.` is stored as the email; any other answer leaves the dict unchanged with `"Invalid email format"` |
| `Intake.AgeBranch` | practice.py:450-454 | the age is stored as an int when `int()` parses the answer and as the text otherwise |
| `Intake.AddressBranch` | practice.py:459-464 | a non-blank answer is stored as the address; the notes move after it never fires |
| `Intake.SymptomBranch` | practice.py:465-467 | sets `symptom_list` and the `symptoms` flag `"yes"` |
| `Intake.AllergyBranch` | practice.py:468-470 | sets `allergy_list` and the `allergies` flag `"yes"` |
| `Intake.MedicationBranch` | practice.py:471-473 | sets `medication_list` and the `medications` flag `"yes"` |
| `Intake.FinalCheckFacts` | practice.py:498-510 | confirmation happens exactly when the email is truthy and contains `@`. It keeps the email and fills an empty address from truthy notes, which are then cleared |

## Left out

- `Intake.MigrateDictIdempotent`: does not cover a moved `notes` that is falsy and not `""` (`None`, `0`, `[]`). There a second run replaces that address with `""`; `Intake.MigrateNotIdempotentOnNoneNotes` shows that case.
- `Intake.MigratedIdempotent`: the same exclusion as `Intake.MigrateDictIdempotent`, for the `patient_data` dict.
- `Executor.VerifySingleIff`: stated for a table name that is an identifier, an `id` column that exists, and a non-negative id. Other log lines fail earlier, as `Executor.VerifyWithoutIdColumn` and the SQL reader show.
- `connect_to_db`, `db_config` and `load_mapped_output`:
  - the environment, the network and file reading are outside the model;
  - `Executor.InsertDataFromMappedJson` takes the loaded document and a database object instead;
  - connection failures are not modelled.
- `print` diagnostics and the Streamlit UI, CSS and session state in `practice.py`, including the progress bar's float arithmetic. They have no effect on the data.
- Every text-generation call and its prompt text: `dynamic_medical_intake`, `post_analysis_and_followup`, `recommend_specialist`, `build_prompt` and `get_db_schema_text`. These are foreign calls. The dispatch takes the bot's question, and the final check takes the assistant's `confirmed` status as given.
- `extract_json`: its substance is `json.loads`, a library call.
- The `booking` module is not part of this model.
- The mapper's `main` and the JSON file writes.
- `strptime` is modelled as digit-field parsers:
  - digits are ASCII digits only: `\d` in CPython's patterns also matches other Unicode decimal digits, such as `٢٠٠٣-١٢-١٣`, which Python normalises to `2003-12-13` and the model returns unchanged;
  - `%Y` is exactly four digits;
  - `%m` and `%d` are one or two digits;
  - the `" 1"` space-padded day form is not modelled;
  - dates are valid Gregorian dates.

  The year is rendered zero-padded to four digits.
- `datetime` values are modelled as dates; the time part is not modelled. Floats are not among the modelled JSON values.
- `str.lower`, `str.strip` and `int()` are modelled on ASCII: ASCII letters, ASCII digits and ASCII whitespace. `int()` has no digit limit: Python 3.11 and later raise `ValueError` above 4300 digits, so there the age branch would store such an answer as text. `repr()` escapes ASCII control characters only.
- MySQL is modelled through the three statement shapes the script sends:
  - column types, constraints and type coercion are not modelled;
  - an explicit key value does not advance the auto-increment counter;
  - an explicit `0` (or NULL) in the key column is stored as given, whereas MySQL's default mode generates a key and sets `LAST_INSERT_ID()`;
  - column names are compared exactly, whereas MySQL compares them without regard to case; a `dob` key for a `DOB` column is error 1054 in the model;
  - reserved words and quoted identifiers are not modelled; a name that is not an identifier is a syntax error.
- `Store.Cursor.ExecuteMany`: for a text that is not an INSERT, pymysql runs one `execute` per tuple. A failure part-way is modelled as if no earlier tuple had run. The script only sends INSERTs to `executemany`.
- pymysql's escaping of the arguments is modelled only as far as it decides success: a dict raises, a list becomes a parenthesised tuple, which the server refuses when it holds `()` or is a row of two or more values and otherwise reads as the literal inside, and other values become one literal each. The escaped text itself is not modelled, and neither is the splitting of large `executemany` batches.
- Concurrency: other sessions and isolation levels are not modelled.
- Aliasing:
  - `get_mapped_output` updates the caller's `patient_data` and its surgery dicts in place; the model returns the updated document (`Mapper.GetMappedOutput`'s `after`) instead of sharing it.
  - `migrate_existing_data` returns the document it updated; the model returns the updated value.
  - `confirm_mandatory_fields` updates `d` in place; the model returns the updated value.

## Findings

| source | as written | input that shows it | evidently intended | confidence | as-written member | corrected member |
|---|---|---|---|---|---|---|
| practice.py:434-436 | the user's answer is appended to the history before the "last bot message" is read from it, so the routing looks at the answer itself | question `"your email?"`, answer `a@b.c`: stored under `notes` | route on the bot's question, the turn before the answer | high; not executed | `Intake.ConfirmAnswerAsWritten` (`Intake.EmailAnswerCounterexample`) | `Intake.ConfirmAnswer` (`Intake.ConfirmAnswerFollowsQuestion`) |
| practice.py:448 | `"name"` is checked before `"procedure name"` and `"hospital name"`, so the branches at lines 477-478 and 481-482 are never taken | bot message `"procedure name?"`: the answer overwrites `name` | check the compound keywords before `"name"` | high; not executed | `Intake.RouteOf` (`Intake.NameShadowsItsCompounds`, `Intake.ProcedureQuestionCounterexample`) | `Intake.IntendedRouteOf` (`Intake.IntendedRouting`) |
