# VitaNote in Dafny

VitaNote is a personal health diary for people with diabetes. Users record
meals, blood-glucose readings, medications, weight and blood pressure; they
see daily statistics and trends; and they can chat with an assistant. The
repository has three data paths, and this project models the logic of each:

- **The desktop client (Tauri).**
  - `HealthStore` models the Rust SQLite store (`database.rs`). It holds one
    table per entity and implements create, paged date-range queries,
    deletion, "mark as taken" for medications, and chat history.
  - `ClientRepositories` models the TypeScript repositories (`index.ts`) that
    call the store. They convert between camelCase and snake_case records,
    fill defaults, unwrap responses and compute today's statistics.
  - `TableEmulator` models the in-browser SQL emulator (`Database.ts`). It
    runs CREATE TABLE / INSERT / UPDATE / DELETE / SELECT over tables of rows
    with JavaScript comparison semantics.
- **The ASP.NET Web API (`src/VitaNote.WebApi`).** `WebApiServices` models the
  food, glucose, medication and chat services over the
  `ApplicationDbContext`, which Entity Framework Core runs against SQLite
  (the default provider): paged queries, adds, upserts, deletes, daily
  statistics and chat history.
- **The layered backend (`backend/src/VitaNote`).**
  - `BackendPersistence` models `VitaNoteDbContext`: the change tracker, the
    audit-timestamp hook that runs before every save, and the all-or-nothing
    save.
  - `BackendRepositories` models the food and health-record repositories.
  - `FoodRecordServices` and `HealthRecordServices` model the application
    services: typed health records stored as JSON, statistics and trend
    analysis.
  - `ExceptionMiddlewares` models the mapping from exceptions to HTTP
    problem responses.
- **The web front end's state stores (zustand).** `RecordsStore`, `LlmStore`
  and `AuthStore` model the reducers of `recordsStore.ts`, `llmStore.ts` and
  `authStore.ts`. `AuthStore` includes the persisted slice.

Three modules hold shared definitions:

- `Wrappers`: Option and Result.
- `Seqs`: filters, a stable insertion sort, decimal digits, SQL `LIMIT`/`OFFSET` as SQLite
  reads them (a negative limit means no limit, a negative offset counts as
  0), paging with C#'s 32-bit wrap-around on the offset, sums, minimum and
  maximum, and the soundness of "filter, order newest first, skip, take".
- `Timestamps`: code-point order on ISO-8601 strings, the order of SQLite's BINARY collation.

Representation choices:

- A .NET `DateTime` is an integer count of ticks.
- A `Guid` is a string.
- Floating-point and decimal numbers are `real`.
- JSON stored in a column is a `Payload` datatype that records which value
  object it holds.

## Model

| member | source | states |
|---|---|---|
| HealthStore.EncodeMedication | vita-note/src-tauri/src/database.rs:608 | `is_taken` is stored as 1 or 0 |
| HealthStore.MedicationRoundTrip | vita-note/src-tauri/src/database.rs:608-657 | reading back a stored medication gives the medication that was written; the column is 1 exactly when it was taken |
| HealthStore.MarkRowTaken | vita-note/src-tauri/src/database.rs:692 | the row reads back as taken at the given time; no other column changes |
| HealthStore.ApplyProfile | vita-note/src-tauri/src/database.rs:322-342 | an update keeps the stored id, password hash and creation time and takes every other column from the given user |
| HealthStore.UserUpdateEffect | vita-note/src-tauri/src/database.rs:322-342 | `UPDATE users … WHERE id = ?` rewrites exactly the row with that id and leaves the others alone |
| HealthStore.UserUpdateKeepsKeys | vita-note/src-tauri/src/database.rs:322-342 | when no other user has the new e-mail, ids and e-mails stay unique after the update |
| Seqs.SqlLimitOffset | vita-note/src-tauri/src/database.rs:417-423 | SQLite's LIMIT/OFFSET: a non-negative limit bounds the page; a negative limit means no limit |
| HealthStore.SortedMatches | vita-note/src-tauri/src/database.rs:417-423 | the range query holds exactly the user's rows with `start <= created_at < end`, newest first, and COUNT(*) counts them |
| HealthStore.RangePageSound | vita-note/src-tauri/src/database.rs:455-462 | every page is a newest-first run of matching rows no longer than the page size |
| HealthStore.RangeBoundaries | vita-note/src-tauri/src/database.rs:421 | the range includes its start and excludes its end |
| HealthStore.RangePagesCover | vita-note/src-tauri/src/database.rs:417-423 | the k-th matching row appears on page `k / pageSize + 1` |
| HealthStore.HistorySound | vita-note/src-tauri/src/database.rs:747-751 | the history holds only the user's messages, newest first, at most `limit` of them |
| HealthStore.HealthRecordStore.CreateTables | vita-note/src-tauri/src/database.rs:141-238 | `CREATE TABLE IF NOT EXISTS` adds the five tables and keeps every row |
| HealthStore.HealthRecordStore.DbInit | vita-note/src-tauri/src/database.rs:242-252 | initialisation creates the tables and answers success |
| HealthStore.HealthRecordStore.UserCreate | vita-note/src-tauri/src/database.rs:256-278 | succeeds if and only if the table exists, the id is new and the e-mail is new (the UNIQUE column); then the user is appended; otherwise nothing changes |
| HealthStore.HealthRecordStore.UserGetByEmail | vita-note/src-tauri/src/database.rs:282-315 | always answers success; the user found has that e-mail; None exactly when no user has it |
| HealthStore.HealthRecordStore.UserGetById | vita-note/src-tauri/src/database.rs:346-379 | as above, by id |
| HealthStore.HealthRecordStore.UserUpdate | vita-note/src-tauri/src/database.rs:319-342 | succeeds if and only if the table exists and no other user has the e-mail; then every row with the id gets the new profile |
| HealthStore.HealthRecordStore.FoodEntryCreate | vita-note/src-tauri/src/database.rs:385-404 | succeeds if and only if the table exists and the id is new; then the entry is appended |
| HealthStore.HealthRecordStore.FoodEntryGetByUser | vita-note/src-tauri/src/database.rs:408-471 | the page and the total of the range query; an error without the table |
| HealthStore.HealthRecordStore.FoodEntryDelete | vita-note/src-tauri/src/database.rs:477-487 | exactly the rows with the id are removed |
| HealthStore.HealthRecordStore.BloodGlucoseCreate | vita-note/src-tauri/src/database.rs:493-513 | succeeds if and only if the table exists and the id is new; then the reading is appended |
| HealthStore.HealthRecordStore.BloodGlucoseGetByUser | vita-note/src-tauri/src/database.rs:517-576 | the page and the total of the range query |
| HealthStore.HealthRecordStore.BloodGlucoseDelete | vita-note/src-tauri/src/database.rs:582-592 | exactly the rows with the id are removed |
| HealthStore.HealthRecordStore.MedicationCreate | vita-note/src-tauri/src/database.rs:598-617 | succeeds if and only if the table exists and the id is new; then the encoded medication is appended |
| HealthStore.HealthRecordStore.MedicationGetByUser | vita-note/src-tauri/src/database.rs:621-682 | the page and the total of the range query, decoded |
| HealthStore.HealthRecordStore.MedicationMarkTaken | vita-note/src-tauri/src/database.rs:688-701 | rows with the id are marked taken at the given time; the other rows are unchanged |
| HealthStore.HealthRecordStore.MedicationDelete | vita-note/src-tauri/src/database.rs:705-715 | exactly the rows with the id are removed |
| HealthStore.HealthRecordStore.ChatMessageCreate | vita-note/src-tauri/src/database.rs:721-737 | succeeds if and only if the table exists and the id is new; then the message is appended |
| HealthStore.HealthRecordStore.ChatMessageGetHistory | vita-note/src-tauri/src/database.rs:741-779 | the user's newest `limit` messages |
| ClientRepositories.Unwrap | vita-note/src/services/repositories/index.ts:188-190 | a response is accepted if and only if it succeeded with data, and then yields that data |
| ClientRepositories.ToTauriUser | vita-note/src/services/repositories/index.ts:8-27 | missing gender, height, diabetes type and treatment plan default to 0; every other field is kept |
| ClientRepositories.DecodeUser | vita-note/src/services/repositories/index.ts:8-27 | the store accepts a user payload if and only if all nine non-optional fields are present: id, username, e-mail, password hash, creation time, gender, height, diabetes type and treatment plan |
| ClientRepositories.FromTauriUserDropsHash | vita-note/src/services/repositories/index.ts:29-46 | the client user does not depend on the password hash |
| ClientRepositories.UserRoundTrip | vita-note/src/services/repositories/index.ts:8-46 | converting a client user to the store's form and back gives the same user |
| ClientRepositories.UpdateUserAlwaysRejected | vita-note/src/services/repositories/index.ts:205-211 | the camelCase user that `updateUser` sends never decodes as a store user |
| ClientRepositories.UpdatePayload | vita-note/src/services/repositories/index.ts:205-211 | the snake_case payload decodes, and converts back to the same user |
| ClientRepositories.ToTauriFood | vita-note/src/services/repositories/index.ts:49-68 | missing meal type and source default to 0; every other field is kept |
| ClientRepositories.DecodeFood | vita-note/src/services/repositories/index.ts:49-68 | a food payload is accepted if and only if its required columns are present |
| ClientRepositories.FoodRoundTrip | vita-note/src/services/repositories/index.ts:49-89 | food entry to store form and back is the identity |
| ClientRepositories.ToTauriGlucose | vita-note/src/services/repositories/index.ts:91-106 | a missing measurement time defaults to 0; every other field is kept |
| ClientRepositories.DecodeGlucose | vita-note/src/services/repositories/index.ts:91-106 | a glucose payload is accepted if and only if its required columns are present |
| ClientRepositories.GlucoseRoundTrip | vita-note/src/services/repositories/index.ts:91-123 | glucose reading to store form and back is the identity |
| ClientRepositories.ToTauriMedication | vita-note/src/services/repositories/index.ts:125-142 | missing kind and timing default to 0; every other field is kept |
| ClientRepositories.DecodeMedication | vita-note/src/services/repositories/index.ts:125-142 | a medication payload is accepted if and only if its required columns are present |
| ClientRepositories.MedicationRoundTrip | vita-note/src/services/repositories/index.ts:125-161 | medication to store form and back is the identity |
| ClientRepositories.SumFoodStats | vita-note/src/services/repositories/index.ts:274-287 | the reduce counts the items and sums calories, carbohydrates, protein and fat |
| ClientRepositories.GlucoseStatsOf | vita-note/src/services/repositories/index.ts:350-365 | zeros without readings; otherwise the count, the mean, and as minimum and maximum the smallest and largest reading (attained, and bounding every reading) |
| ClientRepositories.GlucoseStatsMean | vita-note/src/services/repositories/index.ts:350-365 | the average is the mean and lies between the minimum and the maximum |
| ClientRepositories.FirstPageCapped | vita-note/src/services/repositories/index.ts:272 | the default first page holds `min(total, 20)` of the day's entries |
| ClientRepositories.WholeRangeInOnePage | vita-note/src/services/repositories/index.ts:234-253 | a page size at least the total returns the whole range |
| ClientRepositories.CreateUser | vita-note/src/services/repositories/index.ts:177-193 | succeeds if and only if the users table exists, the payload has every required field, and neither the id nor the e-mail is taken; then the created user, with the generated id and time, is appended; a failure leaves the users as they were |
| ClientRepositories.GetUserByEmail | vita-note/src/services/repositories/index.ts:195-198 | the user with that e-mail, or null exactly when there is none |
| ClientRepositories.GetUserById | vita-note/src/services/repositories/index.ts:200-203 | the user with that id, or null exactly when there is none |
| ClientRepositories.UpdateUserAsWritten | vita-note/src/services/repositories/index.ts:205-211 | always rejected; the store is unchanged |
| ClientRepositories.UpdateUser | vita-note/src/services/repositories/index.ts:205-211 | with the snake_case payload: succeeds if and only if the store's update does, and returns the user |
| ClientRepositories.FoodCreate | vita-note/src/services/repositories/index.ts:217-232 | succeeds if and only if the table exists, the payload has every required field and the id is new; the created entry carries the generated id and time and is appended; a failure leaves the entries as they were |
| ClientRepositories.FoodGetEntries | vita-note/src/services/repositories/index.ts:234-253 | the store's page and total, converted |
| ClientRepositories.FoodDelete | vita-note/src/services/repositories/index.ts:255-258 | true and the rows with the id removed, if and only if the table exists |
| ClientRepositories.FoodTodayStatisticsAsWritten | vita-note/src/services/repositories/index.ts:260-288 | succeeds exactly when the food table exists; the count and the calorie, fat, carbohydrate and protein totals then cover only the first page of 20; with more than 20 entries today they miss some |
| ClientRepositories.FoodTodayStatistics | vita-note/src/services/repositories/index.ts:260-288 | succeeds exactly when the food table exists; the totals then cover every entry of the day |
| ClientRepositories.GlucoseCreate | vita-note/src/services/repositories/index.ts:294-309 | as FoodCreate, for glucose readings: success exactly when the table exists, the payload decodes and the id is new |
| ClientRepositories.GlucoseGetEntries | vita-note/src/services/repositories/index.ts:311-330 | the store's page and total, converted |
| ClientRepositories.GlucoseDelete | vita-note/src/services/repositories/index.ts:332-335 | true and the rows with the id removed, if and only if the table exists |
| ClientRepositories.GlucoseTodayStatisticsAsWritten | vita-note/src/services/repositories/index.ts:337-366 | succeeds exactly when the glucose table exists; the statistics then cover the first page of 20 only |
| ClientRepositories.GlucoseTodayStatistics | vita-note/src/services/repositories/index.ts:337-366 | succeeds exactly when the glucose table exists; the statistics then cover every reading of the day |
| ClientRepositories.MedicationCreate | vita-note/src/services/repositories/index.ts:372-387 | as FoodCreate, for medications: success exactly when the table exists, the payload decodes and the id is new; the row is stored encoded |
| ClientRepositories.MedicationGetEntries | vita-note/src/services/repositories/index.ts:389-408 | the store's page and total, converted |
| ClientRepositories.MedicationMarkTaken | vita-note/src/services/repositories/index.ts:410-413 | succeeds with true if and only if the table exists; the rows with the id are marked taken |
| ClientRepositories.MedicationDelete | vita-note/src/services/repositories/index.ts:415-418 | true and the rows with the id removed, if and only if the table exists |
| ClientRepositories.ChatCreate | vita-note/src/services/repositories/index.ts:424-438 | succeeds if and only if the table exists and the id is new; the message is then appended with the generated id and time |
| ClientRepositories.GetHistory | vita-note/src/services/repositories/index.ts:440-448 | the store's newest `limit` messages, reversed to oldest first |
| ClientRepositories.HistoryOldestFirst | vita-note/src/services/repositories/index.ts:447 | the reversed history is oldest first and holds only the user's messages |
| TableEmulator.Lower | vita-note/src/services/db/sqlite/Database.ts:67 | ASCII lower-casing: same length, capitals mapped, everything else kept |
| TableEmulator.WholeNumberToString | vita-note/src/services/db/sqlite/Database.ts:221 | `String(n)` of a whole number is the digits of its magnitude, after a minus sign when negative |
| TableEmulator.WholeNumberStringRoundTrip | vita-note/src/services/db/sqlite/Database.ts:221 | `Number(String(n))` gives back every whole number `n`, so `LIKE` sees the digits that spell the value |
| TableEmulator.JsStrLtAsymmetric | vita-note/src/services/db/sqlite/Database.ts:217-220 | JavaScript's `<` on strings, lexicographic on UTF-16 code units, never holds both ways |
| TableEmulator.UnitsLtTransitive | vita-note/src/services/db/sqlite/Database.ts:238-239 | the code-unit order is transitive |
| TableEmulator.UnitsLtTotal | vita-note/src/services/db/sqlite/Database.ts:238-239 | two different code-unit sequences are ordered one way or the other |
| TableEmulator.UnitsNotLtTransitive | vita-note/src/services/db/sqlite/Database.ts:238-239 | ties under the code-unit order are transitive, so the sort comparator on strings is a strict weak order |
| TableEmulator.BmpOrderIsCodePointOrder | vita-note/src/services/db/sqlite/Database.ts:217-220 | on strings with no character above U+FFFF, such as ISO-8601 timestamps, JavaScript's string order is code-point order |
| TableEmulator.SurrogatesSortLow | vita-note/src/services/db/sqlite/Database.ts:217-220 | above U+FFFF the orders part: an emoji is below U+FF08 in JavaScript and above it by code point |
| TableEmulator.Compare | vita-note/src/services/db/sqlite/Database.ts:214-220 | `<` and `>` compare two strings by UTF-16 code unit, a character above U+FFFF counting as its surrogate pair; otherwise both sides are converted to numbers (a string by `Number()`, null as 0), and NaN (undefined, an unparsable string) orders nothing |
| TableEmulator.RemovePercent | vita-note/src/services/db/sqlite/Database.ts:221 | the pattern keeps exactly its characters other than `%` |
| TableEmulator.ColumnsOf | vita-note/src/services/db/sqlite/Database.ts:62-70 | the table has exactly the lower-cased column names |
| TableEmulator.BuildRow | vita-note/src/services/db/sqlite/Database.ts:87-107 | the new row has exactly the listed columns, lower-cased |
| TableEmulator.WithId | vita-note/src/services/db/sqlite/Database.ts:108 | a row keeps a truthy id; otherwise it gets the fresh one |
| TableEmulator.Updates | vita-note/src/services/db/sqlite/Database.ts:129-138 | the update object has exactly the SET columns, lower-cased |
| TableEmulator.FindIndex | vita-note/src/services/db/sqlite/Database.ts:141 | the first row whose column is strictly equal, or -1 exactly when none is |
| TableEmulator.Merge | vita-note/src/services/db/sqlite/Database.ts:143 | every updated column takes the new value; the others are kept |
| TableEmulator.UpdateRows | vita-note/src/services/db/sqlite/Database.ts:141-146 | an UPDATE keeps the number of rows |
| TableEmulator.UpdateFirstMatchOnly | vita-note/src/services/db/sqlite/Database.ts:141-146 | only the first matching row is rewritten; with no match nothing changes |
| TableEmulator.DeleteAllMatches | vita-note/src/services/db/sqlite/Database.ts:161 | DELETE removes every matching row and keeps the others in order |
| TableEmulator.StringToNumber | vita-note/src/services/db/sqlite/Database.ts:215-219 | `Number(s)`: a string of white space alone is 0 |
| TableEmulator.ToNumber | vita-note/src/services/db/sqlite/Database.ts:215-219 | a number is itself, null is 0, undefined is NaN, a string is `Number(s)` |
| TableEmulator.NumberToString | vita-note/src/services/db/sqlite/Database.ts:221 | `String(n)` of a non-negative whole number is its decimal digits |
| TableEmulator.DecimalParse | vita-note/src/services/db/sqlite/Database.ts:215-219 | digits, a point and digits read as the whole part plus the fraction |
| TableEmulator.FractionalLiteralsParse | vita-note/src/services/db/sqlite/Database.ts:215-219 | `Number("5.5")` is 5.5 and `Number("5.6")` is 5.6 |
| TableEmulator.FractionalConditionsCoerce | vita-note/src/services/db/sqlite/Database.ts:208-219 | `WHERE v > 5.5` keeps a reading of 5.6, and `WHERE v = 5.6` matches it |
| TableEmulator.DigitsParse | vita-note/src/services/db/sqlite/Database.ts:215-219 | a string of decimal digits reads as the number it spells |
| TableEmulator.NegativeDigitsParse | vita-note/src/services/db/sqlite/Database.ts:215-219 | a minus sign before decimal digits reads as the negated number |
| TableEmulator.NumericStringCoercion | vita-note/src/services/db/sqlite/Database.ts:215-219 | a number `==` a string that reads as it, and `<`/`>` order a number against that string as against the number |
| TableEmulator.NaNMatchesNothing | vita-note/src/services/db/sqlite/Database.ts:215-219 | against a string that is not a number, no number, null or undefined is `==`, `<` or `>` |
| TableEmulator.LiteralConditionsCoerce | vita-note/src/services/db/sqlite/Database.ts:208-219 | `WHERE x = 5` and `WHERE x > 3`, whose literals are strings, keep a row whose `x` is the number 5, and `WHERE x < 3` drops it |
| TableEmulator.Bind | vita-note/src/services/db/sqlite/Database.ts:199-211 | each condition keeps its operator and its lower-cased column |
| TableEmulator.HoldsAllSnoc | vita-note/src/services/db/sqlite/Database.ts:198-227 | a row meets all the conditions if and only if it meets the earlier ones and the last |
| TableEmulator.WhereConjunctive | vita-note/src/services/db/sqlite/Database.ts:198-227 | filtering condition by condition is the same as filtering once on their conjunction |
| TableEmulator.OrderEach | vita-note/src/services/db/sqlite/Database.ts:230-243 | ordering permutes the rows |
| TableEmulator.KeyLtStrictWeak | vita-note/src/services/db/sqlite/Database.ts:235-242 | on comparable keys the comparator is a strict weak order |
| TableEmulator.OrderByLastKey | vita-note/src/services/db/sqlite/Database.ts:230-243 | after the sorts, the rows are ordered by the last ORDER BY key |
| TableEmulator.OffsetLimit | vita-note/src/services/db/sqlite/Database.ts:246-247 | a non-zero limit bounds the result; a zero or missing limit and offset keep every row |
| TableEmulator.Project | vita-note/src/services/db/sqlite/Database.ts:250-259 | the projected row has exactly the selected columns that are defined, with the row's values |
| TableEmulator.SelectWhereSound | vita-note/src/services/db/sqlite/Database.ts:196-227 | the WHERE stage alone, before ORDER BY, OFFSET, LIMIT and projection: it keeps exactly the table's rows that meet all the conditions, in table order, and ordering only permutes them |
| TableEmulator.SelectSound | vita-note/src/services/db/sqlite/Database.ts:180-261 | the whole SELECT: every returned row is the projection of a table row meeting all the conditions; a non-zero LIMIT bounds the count; `SELECT *` without OFFSET and LIMIT returns exactly the matching rows, and is ordered by the last ORDER BY key when that column is comparable |
| TableEmulator.SelectRowsMatch | vita-note/src/services/db/sqlite/Database.ts:196-259 | every returned row is the projection of a table row meeting all the conditions |
| TableEmulator.SelectAllMatching | vita-note/src/services/db/sqlite/Database.ts:196-258 | `SELECT *` without OFFSET and LIMIT returns the matching rows, each as often as in the table |
| TableEmulator.SelectOrdered | vita-note/src/services/db/sqlite/Database.ts:229-258 | `SELECT *` with ORDER BY is sorted by the last key when that column is comparable |
| TableEmulator.OffsetLimitWindow | vita-note/src/services/db/sqlite/Database.ts:246-247 | OFFSET and LIMIT keep rows of the input only, and keep them sorted when the input was |
| TableEmulator.SelectZeroLimitIgnored | vita-note/src/services/db/sqlite/Database.ts:246-247 | `LIMIT 0` returns every matching row |
| TableEmulator.ProjectionSound | vita-note/src/services/db/sqlite/Database.ts:250-259 | `*` keeps the row; a column list keeps exactly the listed defined columns |
| TableEmulator.ApplyWhere | vita-note/src/services/db/sqlite/Database.ts:198-227 | the loop over conditions computes the condition-by-condition filter |
| TableEmulator.ApplyOrder | vita-note/src/services/db/sqlite/Database.ts:230-243 | the loop over keys computes the successive sorts |
| TableEmulator.SQLiteDatabase.constructor | vita-note/src/services/db/sqlite/Database.ts:18-20 | a new emulator is not connected |
| TableEmulator.SQLiteDatabase.Connect | vita-note/src/services/db/sqlite/Database.ts:22-48 | connecting loads the saved tables, or starts empty |
| TableEmulator.SQLiteDatabase.Close | vita-note/src/services/db/sqlite/Database.ts:319-322 | closing disconnects |
| TableEmulator.SQLiteDatabase.CreateTableStmt | vita-note/src/services/db/sqlite/Database.ts:57-79 | the table is (re)created empty with its columns |
| TableEmulator.SQLiteDatabase.InsertStmt | vita-note/src/services/db/sqlite/Database.ts:83-112 | an unknown table is an error; otherwise the built row is appended |
| TableEmulator.SQLiteDatabase.UpdateStmt | vita-note/src/services/db/sqlite/Database.ts:116-146 | an unknown table is an error; otherwise the first match is merged |
| TableEmulator.SQLiteDatabase.DeleteStmt | vita-note/src/services/db/sqlite/Database.ts:150-163 | an unknown table is an error; otherwise every match is removed |
| TableEmulator.SQLiteDatabase.Execute | vita-note/src/services/db/sqlite/Database.ts:50-171 | fails when not connected; CREATE TABLE installs the empty table with its columns; INSERT, UPDATE and DELETE fail on an unknown table and otherwise leave the table as the appended row, the merged first match or the remaining rows; an unsupported statement changes nothing; no other table changes |
| TableEmulator.SQLiteDatabase.Query | vita-note/src/services/db/sqlite/Database.ts:173-262 | fails when not connected or for an unknown table; otherwise the rows of the WHERE filter (with JavaScript's coercions), ORDER BY, OFFSET, LIMIT and projection |
| Seqs.QuerySound | src/VitaNote.WebApi/Services/FoodService.cs:28-32 | `Where(p).OrderByDescending(k)` holds exactly the matching rows, newest first, and the count counts them |
| Seqs.PageSound | src/VitaNote.WebApi/Services/FoodService.cs:33-36 | a page is a newest-first run of matching rows; no longer than a non-negative page size; every row from the offset on for a negative page size (SQLite's negative LIMIT) |
| Seqs.Wrap32 | src/VitaNote.WebApi/Services/FoodService.cs:34 | C#'s unchecked `int` result lies in the 32-bit range, differs from the exact one by a multiple of 2^32, and equals it when that fits |
| Seqs.PageInRange | src/VitaNote.WebApi/Services/FoodService.cs:34-35 | when `(page - 1) * pageSize` fits in an `int`, the page is the rows after that offset, at most `pageSize` of them |
| Seqs.PageOffsetWraps | src/VitaNote.WebApi/Services/FoodService.cs:34-35 | page 2^30 of 4 rows wraps its offset to -4, which SQLite reads as 0, so it returns the first four rows |
| WebApiServices.SlotAverage | src/VitaNote.WebApi/Services/GlucoseService.cs:91-95 | a time-of-day slot's value is its readings' mean, or 0 without readings |
| WebApiServices.Summary | src/VitaNote.WebApi/Services/GlucoseService.cs:78-88 | count, mean, and as minimum and maximum the smallest and largest reading (`Min()`/`Max()`: attained, and bounding every reading); the mean lies between them |
| WebApiServices.MealSumsAddUp | src/VitaNote.WebApi/Services/FoodService.cs:85-95 | the four meal totals add up to the day's calories |
| WebApiServices.Taken | src/VitaNote.WebApi/Services/MedicationService.cs:79-80 | marking sets taken and the actual time and nothing else |
| WebApiServices.HistorySound | src/VitaNote.WebApi/Services/ChatService.cs:40-47 | the history is the user's messages, newest first: at most `take` of them, and all of them when `take` reaches their number or is negative (`LIMIT -1`) |
| WebApiServices.FoodService.constructor | src/VitaNote.WebApi/Services/FoodService.cs:21-24 | the service uses the given context |
| WebApiServices.FoodService.GetEntries | src/VitaNote.WebApi/Services/FoodService.cs:26-45 | the total counts the matching rows; the page is the SQLite LIMIT/OFFSET window of the newest-first query: matching rows only, at most `pageSize` of them for a non-negative size, every row from the offset on for a negative one |
| WebApiServices.FoodService.AddEntry | src/VitaNote.WebApi/Services/FoodService.cs:47-54 | the entry, with a fresh id and the creation time, is appended |
| WebApiServices.FoodService.UpdateEntry | src/VitaNote.WebApi/Services/FoodService.cs:56-61 | an empty id inserts; an existing id is replaced; an unknown non-empty id fails with a concurrency error and nothing changes |
| WebApiServices.FoodService.DeleteEntry | src/VitaNote.WebApi/Services/FoodService.cs:63-71 | removes the entry with the id, if there is one |
| WebApiServices.FoodService.GetTodayStatistics | src/VitaNote.WebApi/Services/FoodService.cs:73-98 | the totals and the per-meal calories of the day's entries |
| WebApiServices.GlucoseService.constructor | src/VitaNote.WebApi/Services/GlucoseService.cs:21 | the service uses the given context |
| WebApiServices.GlucoseService.GetEntries | src/VitaNote.WebApi/Services/GlucoseService.cs:26-45 | the total counts the matching rows; the page is the SQLite LIMIT/OFFSET window of the newest-first query: matching rows only, at most `pageSize` of them for a non-negative size, every row from the offset on for a negative one |
| WebApiServices.GlucoseService.AddEntry | src/VitaNote.WebApi/Services/GlucoseService.cs:47-54 | the reading, with a fresh id and the creation time, is appended |
| WebApiServices.GlucoseService.UpdateEntry | src/VitaNote.WebApi/Services/GlucoseService.cs:56-61 | an empty id inserts; an existing id is replaced; an unknown non-empty id fails with a concurrency error and nothing changes |
| WebApiServices.GlucoseService.DeleteEntry | src/VitaNote.WebApi/Services/GlucoseService.cs:63-71 | removes the reading with the id, if there is one |
| WebApiServices.BySlot | src/VitaNote.WebApi/Services/GlucoseService.cs:90-95 | each of the five measurement times maps to the mean of its readings, 0 when it has none; no other key |
| WebApiServices.GlucoseService.GetTodayStatistics | src/VitaNote.WebApi/Services/GlucoseService.cs:73-98 | the count, mean, `Min()` and `Max()` of the day's readings (zeros without any) plus each time-of-day slot's mean |
| WebApiServices.MedicationService.constructor | src/VitaNote.WebApi/Services/MedicationService.cs:21 | the service uses the given context |
| WebApiServices.MedicationService.GetEntries | src/VitaNote.WebApi/Services/MedicationService.cs:26-45 | the total counts the matching rows; the page is the SQLite LIMIT/OFFSET window of the newest-first query: matching rows only, at most `pageSize` of them for a non-negative size, every row from the offset on for a negative one |
| WebApiServices.MedicationService.AddEntry | src/VitaNote.WebApi/Services/MedicationService.cs:47-55 | the medication, with a fresh id, the creation time and not taken, is appended |
| WebApiServices.MedicationService.UpdateEntry | src/VitaNote.WebApi/Services/MedicationService.cs:57-62 | an empty id inserts; an existing id is replaced; an unknown non-empty id fails with a concurrency error and nothing changes |
| WebApiServices.MedicationService.DeleteEntry | src/VitaNote.WebApi/Services/MedicationService.cs:64-72 | removes the medication with the id, if there is one |
| WebApiServices.MedicationService.MarkTaken | src/VitaNote.WebApi/Services/MedicationService.cs:74-83 | the medication with the id is marked taken at the given time; the others are unchanged |
| WebApiServices.ChatService.constructor | src/VitaNote.WebApi/Services/ChatService.cs:17 | the service uses the given context |
| WebApiServices.ChatService.SaveMessage | src/VitaNote.WebApi/Services/ChatService.cs:22-38 | the message is appended with a fresh id and the time |
| WebApiServices.ChatService.GetHistory | src/VitaNote.WebApi/Services/ChatService.cs:40-47 | the user's newest `take` messages, or all of them for a negative `take` |
| BackendPersistence.WithAuditOverwrites | backend/src/VitaNote/Infrastructure/Persistence/VitaNoteDbContext.cs:182-189 | writing the audit columns twice keeps the second write; writing the old ones back restores the entity |
| BackendPersistence.Stamped | backend/src/VitaNote/Infrastructure/Persistence/VitaNoteDbContext.cs:177-190 | an added entry gets created and updated time and user; a modified one gets updated time and user; other entries and columns are untouched |
| BackendPersistence.StampIdempotent | backend/src/VitaNote/Infrastructure/Persistence/VitaNoteDbContext.cs:177-190 | running the hook twice with the same clock equals running it once |
| BackendPersistence.WriteRow | backend/src/VitaNote/Infrastructure/Persistence/VitaNoteDbContext.cs:154 | an insert with a taken key, or an update or delete of a missing key, fails; otherwise the row is written; keys stay unique |
| BackendPersistence.Write | backend/src/VitaNote/Infrastructure/Persistence/VitaNoteDbContext.cs:154 | an entry writes only its own table and keeps the tables' keys unique |
| BackendPersistence.Commit | backend/src/VitaNote/Infrastructure/Persistence/VitaNoteDbContext.cs:154 | the save writes the entries in order and keeps the keys unique |
| BackendPersistence.CommitOne | backend/src/VitaNote/Infrastructure/Persistence/VitaNoteDbContext.cs:154 | with every earlier entry settled, saving writes just the new one |
| BackendPersistence.Accepted | backend/src/VitaNote/Infrastructure/Persistence/VitaNoteDbContext.cs:154 | after accepting, every entry is settled and deleted ones are gone |
| BackendPersistence.SaveOne | backend/src/VitaNote/Infrastructure/Persistence/VitaNoteDbContext.cs:151-155 | saving a settled tracker plus one entry writes that entry, stamped, and counts it once if it is pending |
| BackendPersistence.VitaNoteDbContext.constructor | backend/src/VitaNote/Infrastructure/Persistence/VitaNoteDbContext.cs:10-14 | empty tables and tracker for the current user |
| BackendPersistence.VitaNoteDbContext.UpdateTimestamps | backend/src/VitaNote/Infrastructure/Persistence/VitaNoteDbContext.cs:175-191 | the loop stamps every tracked entry and changes no table |
| BackendPersistence.VitaNoteDbContext.BaseSaveChanges | backend/src/VitaNote/Infrastructure/Persistence/VitaNoteDbContext.cs:154 | all entries are written or none; on success the result counts the pending entries and the tracker is accepted when asked |
| BackendPersistence.VitaNoteDbContext.SaveChanges | backend/src/VitaNote/Infrastructure/Persistence/VitaNoteDbContext.cs:151-155 | the hook, then the save of the stamped entries |
| BackendPersistence.VitaNoteDbContext.SaveChangesAccepting | backend/src/VitaNote/Infrastructure/Persistence/VitaNoteDbContext.cs:157-161 | as SaveChanges, accepting the changes only when asked |
| BackendPersistence.VitaNoteDbContext.SaveChangesAsync | backend/src/VitaNote/Infrastructure/Persistence/VitaNoteDbContext.cs:163-167 | as SaveChanges |
| BackendPersistence.VitaNoteDbContext.SaveChangesAsyncAccepting | backend/src/VitaNote/Infrastructure/Persistence/VitaNoteDbContext.cs:169-173 | as SaveChangesAccepting |
| BackendRepositories.StartOfDay | backend/src/VitaNote/Infrastructure/Repositories/FoodRecordRepository.cs:31-35 | the day's start is a whole day no later than the time and less than a day before it |
| BackendRepositories.EatenOnSameDay | backend/src/VitaNote/Infrastructure/Repositories/FoodRecordRepository.cs:31-35 | `start <= t < start + 1 day` if and only if t falls on the same calendar day |
| BackendRepositories.FoodRecordRepository.constructor | backend/src/VitaNote/Infrastructure/Repositories/FoodRecordRepository.cs:11-14 | the repository uses the given context |
| BackendRepositories.FoodRecordRepository.GetById | backend/src/VitaNote/Infrastructure/Repositories/FoodRecordRepository.cs:16-19 | the first record with the id, or null |
| BackendRepositories.FoodRecordRepository.GetByUserId | backend/src/VitaNote/Infrastructure/Repositories/FoodRecordRepository.cs:21-27 | exactly the user's records, newest first |
| BackendRepositories.FoodRecordRepository.GetByDate | backend/src/VitaNote/Infrastructure/Repositories/FoodRecordRepository.cs:29-38 | exactly the user's records eaten on that calendar day, newest first |
| BackendRepositories.FoodRecordRepository.GetByDateRange | backend/src/VitaNote/Infrastructure/Repositories/FoodRecordRepository.cs:40-46 | exactly the user's records with `start <= eatenAt <= end`, newest first |
| BackendRepositories.FoodRecordRepository.Add | backend/src/VitaNote/Infrastructure/Repositories/FoodRecordRepository.cs:48-52 | the stamped record is appended and can then be found by its id; a taken id fails and changes nothing |
| BackendRepositories.FoodRecordRepository.Update | backend/src/VitaNote/Infrastructure/Repositories/FoodRecordRepository.cs:54-58 | an empty id inserts the record with a fresh id; otherwise the stamped record replaces the one with its id, and a missing id fails |
| BackendRepositories.FoodRecordRepository.Delete | backend/src/VitaNote/Infrastructure/Repositories/FoodRecordRepository.cs:60-64 | the record is gone, every other record stays |
| BackendRepositories.HealthRecordRepository.constructor | backend/src/VitaNote/Infrastructure/Repositories/HealthRecordRepository.cs:12-15 | the repository uses the given context |
| BackendRepositories.HealthRecordRepository.GetById | backend/src/VitaNote/Infrastructure/Repositories/HealthRecordRepository.cs:17-20 | the first record with the id, or null |
| BackendRepositories.HealthRecordRepository.GetByUserId | backend/src/VitaNote/Infrastructure/Repositories/HealthRecordRepository.cs:22-28 | exactly the user's records, newest first |
| BackendRepositories.HealthRecordRepository.GetByType | backend/src/VitaNote/Infrastructure/Repositories/HealthRecordRepository.cs:30-36 | exactly the user's records of that type, newest first |
| BackendRepositories.HealthRecordRepository.GetByDateRange | backend/src/VitaNote/Infrastructure/Repositories/HealthRecordRepository.cs:38-44 | exactly the user's records created in the range, of any type, newest first |
| BackendRepositories.HealthRecordRepository.Add | backend/src/VitaNote/Infrastructure/Repositories/HealthRecordRepository.cs:46-50 | the stamped record is appended and can then be found by its id; a taken id fails and changes nothing |
| BackendRepositories.HealthRecordRepository.Update | backend/src/VitaNote/Infrastructure/Repositories/HealthRecordRepository.cs:52-56 | an empty id inserts the record with a fresh id; otherwise the stamped record replaces the one with its id, and a missing id fails |
| BackendRepositories.HealthRecordRepository.Delete | backend/src/VitaNote/Infrastructure/Repositories/HealthRecordRepository.cs:58-62 | the record is gone, every other record stays |
| FoodRecordServices.MealGroupsCount | backend/src/VitaNote/Application/HealthRecords/Services/IFoodRecordService.cs:80-86 | the meal groups' counts add up to the number of records |
| FoodRecordServices.MealGroupsCalories | backend/src/VitaNote/Application/HealthRecords/Services/IFoodRecordService.cs:80-86 | the meal groups' calories add up to the day's calories |
| FoodRecordServices.MealGroupsKeys | backend/src/VitaNote/Application/HealthRecords/Services/IFoodRecordService.cs:80-86 | one group per meal type that occurs, with no duplicates |
| FoodRecordServices.MealGroupsExact | backend/src/VitaNote/Application/HealthRecords/Services/IFoodRecordService.cs:80-86 | each group's count and calories are those of the records with its meal type |
| FoodRecordServices.StatisticsAverage | backend/src/VitaNote/Application/HealthRecords/Services/IFoodRecordService.cs:69-76 | the totals are sums over the day's records; the average is the mean calories, between the lightest and the heaviest record, 0 without records |
| FoodRecordServices.StatisticsGroupsAddUp | backend/src/VitaNote/Application/HealthRecords/Services/IFoodRecordService.cs:80-86 | the groups partition the day's records by count and by calories |
| FoodRecordServices.FoodRecordService.constructor | backend/src/VitaNote/Application/HealthRecords/Services/IFoodRecordService.cs:20-23 | the service uses the given repository |
| FoodRecordServices.FoodRecordService.AddFoodRecord | backend/src/VitaNote/Application/HealthRecords/Services/IFoodRecordService.cs:25-43 | the new record, stamped by the save hook, is appended; its id is returned |
| FoodRecordServices.FoodRecordService.GetFoodRecordsByDate | backend/src/VitaNote/Application/HealthRecords/Services/IFoodRecordService.cs:45-63 | the responses for the day's records, newest first |
| FoodRecordServices.FoodRecordService.GetFoodStatistics | backend/src/VitaNote/Application/HealthRecords/Services/IFoodRecordService.cs:65-89 | the statistics of the day's records |
| FoodRecordServices.FoodRecordService.DeleteFoodRecord | backend/src/VitaNote/Application/HealthRecords/Services/IFoodRecordService.cs:91-98 | true if and only if the record existed; it is then removed |
| HealthRecordServices.DecodeAll | backend/src/VitaNote/Application/HealthRecords/Services/HealthRecordService.cs:102-112 | the responses, one per row, if and only if every row holds a value of the type; otherwise a JsonException |
| HealthRecordServices.SelectAsWrittenMixesTypes | backend/src/VitaNote/Application/HealthRecords/Services/HealthRecordService.cs:98-100 | with dates, a record of another type in range is selected and decoding then fails |
| HealthRecordServices.SelectSound | backend/src/VitaNote/Application/HealthRecords/Services/HealthRecordService.cs:96-150 | the corrected selection holds exactly the user's records of the type (in range), newest first, and decodes on well-typed tables |
| HealthRecordServices.WeightTrend | backend/src/VitaNote/Application/HealthRecords/Services/HealthRecordService.cs:190-205 | "increasing" if and only if the change is at least 1, "decreasing" if and only if it is at most -1, "stable" otherwise |
| HealthRecordServices.NewestFirst | backend/src/VitaNote/Application/HealthRecords/Services/HealthRecordService.cs:169-174 | the first record of the newest-first query is at least as new as every match |
| HealthRecordServices.HealthStatisticsTotals | backend/src/VitaNote/Application/HealthRecords/Services/HealthRecordService.cs:210-213 | on well-typed tables the statistics succeed and count the user's records of each type |
| HealthRecordServices.AverageWeightSound | backend/src/VitaNote/Application/HealthRecords/Services/HealthRecordService.cs:213 | an average exists exactly when there are readings, and times their number it is the total |
| HealthRecordServices.HealthStatisticsLatest | backend/src/VitaNote/Application/HealthRecords/Services/HealthRecordService.cs:169-217 | latest weight and time are the newest reading's; the trend exists from two readings on and labels newest minus oldest |
| HealthRecordServices.Truncate | backend/src/VitaNote/Application/HealthRecords/Services/HealthRecordService.cs:272-274 | the `(int)` cast rounds toward zero |
| HealthRecordServices.TruncateBetween | backend/src/VitaNote/Application/HealthRecords/Services/HealthRecordService.cs:272-274 | truncation keeps a value between two integer bounds |
| HealthRecordServices.TruncatedAverageBetween | backend/src/VitaNote/Application/HealthRecords/Services/HealthRecordService.cs:269-275 | each blood-pressure average lies between the smallest and the largest reading |
| HealthRecordServices.WeightTrendRules | backend/src/VitaNote/Application/HealthRecords/Services/HealthRecordService.cs:252-260 | the weight chart is in time order; start, end, change and label follow from the first and last points |
| HealthRecordServices.GlucoseTrendBounds | backend/src/VitaNote/Application/HealthRecords/Services/HealthRecordService.cs:262-268 | average, minimum and maximum exist together, with minimum <= average <= maximum and every point between |
| HealthRecordServices.TrendAnalysisAsWrittenFails | backend/src/VitaNote/Application/HealthRecords/Services/HealthRecordService.cs:227-243 | with any one record of the user in the window, the trend analysis as written throws a JsonException |
| HealthRecordServices.TrendAnalysisFailsOnlyOutOfRange | backend/src/VitaNote/Application/HealthRecords/Services/HealthRecordService.cs:221-277 | the corrected analysis fails if and only if the window's start falls outside the representable dates: before the first one, or after the last one for a negative `days` |
| HealthRecordServices.HealthRecordService.constructor | backend/src/VitaNote/Application/HealthRecords/Services/HealthRecordService.cs:14-20 | the service uses the given repository |
| HealthRecordServices.HealthRecordService.AddWeightRecord | backend/src/VitaNote/Application/HealthRecords/Services/HealthRecordService.cs:22-44 | a weight record with its JSON value, stamped, is appended; well-typed tables stay well-typed |
| HealthRecordServices.HealthRecordService.AddGlucoseRecord | backend/src/VitaNote/Application/HealthRecords/Services/HealthRecordService.cs:46-70 | as above, for glucose |
| HealthRecordServices.HealthRecordService.AddBloodPressureRecord | backend/src/VitaNote/Application/HealthRecords/Services/HealthRecordService.cs:72-94 | as above, for blood pressure |
| HealthRecordServices.HealthRecordService.Records | backend/src/VitaNote/Application/HealthRecords/Services/HealthRecordService.cs:96-100 | the corrected selection: by type, and by range when dates are given |
| HealthRecordServices.HealthRecordService.GetWeightRecords | backend/src/VitaNote/Application/HealthRecords/Services/HealthRecordService.cs:96-113 | the corrected listing (the as-written one is `SelectAsWritten`): the decoded weight responses of the selection by type and range |
| HealthRecordServices.HealthRecordService.GetGlucoseRecords | backend/src/VitaNote/Application/HealthRecords/Services/HealthRecordService.cs:115-131 | the corrected listing (the as-written one is `SelectAsWritten`): the decoded glucose responses of the selection by type and range |
| HealthRecordServices.HealthRecordService.GetBloodPressureRecords | backend/src/VitaNote/Application/HealthRecords/Services/HealthRecordService.cs:133-150 | the corrected listing (the as-written one is `SelectAsWritten`): the decoded blood-pressure responses of the selection by type and range |
| HealthRecordServices.HealthRecordService.ExportData | backend/src/VitaNote/Application/HealthRecords/Services/HealthRecordService.cs:152-160 | the export reads the weight records and reports success without writing anything |
| HealthRecordServices.HealthRecordService.GetHealthStatistics | backend/src/VitaNote/Application/HealthRecords/Services/HealthRecordService.cs:162-219 | the statistics of the user's newest-first weight readings and counts |
| HealthRecordServices.HealthRecordService.GetTrendAnalysis | backend/src/VitaNote/Application/HealthRecords/Services/HealthRecordService.cs:221-277 | the corrected trend analysis |
| HealthRecordServices.HealthRecordService.CalculateBMI | backend/src/VitaNote/Application/HealthRecords/Services/HealthRecordService.cs:279-287 | always null: the BMI is not computed |
| ExceptionMiddlewares.StatusFor | backend/src/VitaNote/WebApi/Middleware/ExceptionMiddleware.cs:33-40 | the status is 401, 400, 404 or 500 |
| ExceptionMiddlewares.StatusForClasses | backend/src/VitaNote/WebApi/Middleware/ExceptionMiddleware.cs:33-40 | 401 if and only if unauthorized access; 400 if and only if invalid operation or argument; 404 if and only if key not found; 500 otherwise |
| ExceptionMiddlewares.Problem | backend/src/VitaNote/WebApi/Middleware/ExceptionMiddleware.cs:42-53 | the body carries the status; a 500 shows a generic title and detail; other statuses show the message and the stack trace |
| ExceptionMiddlewares.ServerErrorHidesException | backend/src/VitaNote/WebApi/Middleware/ExceptionMiddleware.cs:49-53 | two server errors produce the same body, whatever the exceptions say |
| ExceptionMiddlewares.Response.HandleException | backend/src/VitaNote/WebApi/Middleware/ExceptionMiddleware.cs:30-56 | on a response not yet started: content type `application/json; charset=utf-8`, the mapped status and its problem body; on a started response it fails (headers are read-only) and changes nothing |
| ExceptionMiddlewares.Response.Invoke | backend/src/VitaNote/WebApi/Middleware/ExceptionMiddleware.cs:17-28 | without an exception the response is untouched; with one it is handled as above, failing on a started response |
| RecordsStore.AddRecordFront | frontend/src/store/recordsStore.ts:43-61 | the record goes to the front of its kind's list; other lists are unchanged |
| RecordsStore.RemoveRecordSound | frontend/src/store/recordsStore.ts:63-83 | exactly the records with the id leave that kind's list |
| RecordsStore.SetRecordsSound | frontend/src/store/recordsStore.ts:85-88 | the corrected setter replaces the list of the given kind and nothing else |
| RecordsStore.SetRecordsAsWrittenAgrees | frontend/src/store/recordsStore.ts:85-88 | for every kind but blood pressure (weight, glucose and food) the setter as written does the same |
| RecordsStore.SetRecordsAsWrittenMissesBloodPressure | frontend/src/store/recordsStore.ts:85-88 | for blood pressure the setter as written leaves the list unchanged |
| RecordsStore.SettersChangeOnlyTheirField | frontend/src/store/recordsStore.ts:90-100 | each setter changes its own field and nothing else |
| Seqs.NatToString | frontend/src/store/llmStore.ts:36 | `Date.now().toString()` is a non-empty string of decimal digits |
| Seqs.NatToStringValue | frontend/src/store/llmStore.ts:36 | the digits of the id spell the clock value it was made from |
| LlmStore.AddMessageAppends | frontend/src/store/llmStore.ts:31-42 | the message is appended with id and timestamp from the clock; the rest is unchanged |
| LlmStore.MessageIdsDiffer | frontend/src/store/llmStore.ts:36 | messages added at different times get different ids |
| LlmStore.SetSuggestionsSound | frontend/src/store/llmStore.ts:44-48 | the first suggestion becomes current; an empty list changes nothing |
| LlmStore.ClearsSound | frontend/src/store/llmStore.ts:50-60 | clearing the timeout drops only the current suggestion; clearing the chat resets everything but loading, and is idempotent |
| AuthStore.LogoutIsClearAuth | frontend/src/store/authStore.ts:39-64 | logout is clearAuth and returns to the initial state, keeping only the loading flag |
| AuthStore.SettersSound | frontend/src/store/authStore.ts:33-37 | setUser sets authenticated exactly when there is a user; setTokens changes only the tokens |
| AuthStore.LoginSound | frontend/src/store/authStore.ts:48-55 | login stores user and tokens and authenticates; the hook's login and logout wrap them with the loading flag |
| AuthStore.PersistRoundTrip | frontend/src/store/authStore.ts:75-83 | rehydrating the persisted slice restores the state; the slice is user, tokens and authenticated, and nothing else |

## Left out

- Async and concurrency are not modelled. Every `await` is a plain call, and cancellation tokens are dropped.
- Clocks, random ids and generated GUIDs are parameters (`now`, `id`, `freshId`).
- `LlmStore.AddMessageAppends`: `addMessage` reads `Date.now()` twice, once for the id and once for the timestamp. The model reads the clock once.
- `HealthRecordServices.HealthRecordService.AddWeightRecord`, `AddGlucoseRecord` and `AddBloodPressureRecord`: the service and the save hook each read `DateTime.UtcNow`. The model uses one clock value for both.
- Floating-point and decimal arithmetic is exact (`real`), with no rounding.
- JSON is not a text format here. System.Text.Json is the `Payload` datatype together with the check that a row holds a value object of the expected type. A wrong-type payload throws, because of the `required` members of the value objects.
- Serde (de)serialisation in the Tauri bridge is modelled by `DecodeUser`, `DecodeFood`, `DecodeGlucose` and `DecodeMedication`: a payload decodes when its required fields are present.
- HealthStore: opening the SQLite connection, the data-directory fallback and I/O errors are not modelled.
- HealthStore: rows that `filter_map` would drop on a decoding error are not modelled; rows are always well formed.
- HealthStore: the i64 overflow of `(page - 1) * page_size` is not modelled.
- HealthStore: the `unwrap_or(0)` on the count query cannot be reached once the table exists, so it is not modelled.
- TableEmulator: regex parsing of SQL text is not modelled. Statements are a parsed datatype, and text the regexes do not match is the `Unsupported` statement, which changes nothing.
- TableEmulator: as written, the SELECT pattern's WHERE group is lazy and nothing after it is anchored, so it captures one character and a WHERE, ORDER BY, LIMIT or OFFSET in the SQL text may not reach the code that applies it. `Query` models that code on the clauses as the statement intends them, not the pattern's capture.
- TableEmulator: saving to and loading from `localStorage` is not modelled. `Connect` takes the saved tables as a parameter.
- TableEmulator: the `COUNT(*)` branch that the general SELECT pattern shadows is not modelled.
- `TableEmulator.OrderByLastKey` requires the last key's values to be mutually comparable (all strings or all numbers). With mixed or undefined values, JavaScript's comparator is not a strict weak order and `sort` gives no guarantee.
- HealthRecordService `RecognizeFoodFromOCRAsync` is a placeholder that always answers "OCR service not implemented", so it is not modelled.
- ExceptionMiddleware logging is not modelled.
- AuthStore: the storage behind the `persist` middleware is not modelled. `Partialize` and `Rehydrate` model what is written and read back.
- EF Core change tracking is reduced to one tracker list with the entity states Added, Modified, Deleted and Unchanged. Database errors other than a duplicate key and a missing row are not modelled.
- `TableEmulator.Lower`: folds ASCII letters only. JavaScript's `toLowerCase`, applied to column names and sort directions, also folds non-ASCII capitals; column names with such letters are not modelled.
- `TableEmulator.StringToNumber`: covers `Number()` on decimal strings: optional sign, digits, an optional fraction, surrounding ASCII white space. Exponents, `0x`/`0o`/`0b` prefixes, `Infinity` and non-ASCII white space read as NaN here.
- `TableEmulator.Compare`: a number is an exact `real`, not a binary double, and null, undefined and strings are the other values; booleans and objects are not represented, and NaN appears only as the result of converting a value. A string is a sequence of Unicode scalar values, so a lone surrogate, which a JavaScript string may hold, is not represented.
- `TableEmulator.NumberToString`: writes a number in plain decimal with at most 20 fraction digits; JavaScript's exponent form (below 1e-6 or from 1e21 on) and its shortest round-trip digits of a binary double are not modelled.
- `TableEmulator.Bind`: `params.shift()` also empties the caller's parameter array. The model returns the remaining parameters and does not model that side effect on the caller.
- `BackendPersistence.Stamped`: the hook reads `DateTime.UtcNow` at every assignment. The model uses one `now` for all of them.
- `BackendPersistence.VitaNoteDbContext.UpdateTimestamps`: one `now` for every entry of a save, where the source reads the clock again per entry.
- `Seqs.SortBy`: SQL leaves the order of rows with equal ORDER BY keys unspecified. The model fixes it to insertion order (a stable sort) in the Tauri store, the Web API services and the backend repositories; `HealthStore.RangePagesCover`, `Seqs.QuerySound`, `Seqs.PageSound` and the exact page contracts built on them rely on that order.
- `Seqs.Page`: models the SQLite provider. PostgreSQL, when configured, rejects a negative LIMIT or OFFSET with an error; that path is not modelled.
- `WebApiServices.GlucoseService.GetTodayStatistics` and `WebApiServices.FoodService.GetTodayStatistics`: `today` is a parameter. The source takes the local `DateTime.Today` and compares it with times stamped by `DateTime.UtcNow`, so off UTC the day window is shifted; the model does not represent time zones.

## Findings

| source | as written | input that shows it | evidently intended | confidence | as-written member | corrected member |
|---|---|---|---|---|---|---|
| vita-note/src/services/repositories/index.ts:205-211 | `updateUser` sends the client's camelCase user (`user as any`), which the Rust store cannot deserialise, so every update is rejected | any user, e.g. one with id "u1" | send the snake_case form, as `createUser` does | not executed | ClientRepositories.UpdateUserAlwaysRejected | ClientRepositories.UpdatePayload |
| vita-note/src/services/repositories/index.ts:272 | `getTodayStatistics` calls `getEntries` with the default page 1 of size 20, so its totals cover at most 20 entries | 21 food entries on the same day | statistics over every entry of the day | not executed | ClientRepositories.FoodTodayStatisticsAsWritten | ClientRepositories.FoodTodayStatistics |
| vita-note/src/services/repositories/index.ts:348 | the glucose `getTodayStatistics` has the same first-page limit | 21 glucose readings on the same day | statistics over every reading of the day | not executed | ClientRepositories.GlucoseTodayStatisticsAsWritten | ClientRepositories.GlucoseTodayStatistics |
| backend/src/VitaNote/Application/HealthRecords/Services/HealthRecordService.cs:98-100 | with dates, the listing uses `GetByDateRangeAsync`, which ignores the record type, and deserialising a record of another type throws | a user with one weight and one glucose record in the range | filter by type as well as by date | not executed | HealthRecordServices.SelectAsWrittenMixesTypes | HealthRecordServices.SelectSound |
| backend/src/VitaNote/Application/HealthRecords/Services/HealthRecordService.cs:227-243 | the trend analysis reads every type through `GetByDateRangeAsync` and then deserialises all of them as weight, glucose and blood pressure | a user with one weight record in the window | take each section's records by type | not executed | HealthRecordServices.TrendAnalysisAsWrittenFails | HealthRecordServices.TrendAnalysisFailsOnlyOutOfRange |
| frontend/src/store/recordsStore.ts:85-88 | `setRecords` writes the key `${type}Records`, which for 'blood-pressure' is "blood-pressureRecords", not `bloodPressureRecords` | `setRecords('blood-pressure', [r])` | replace the blood-pressure list | not executed | RecordsStore.SetRecordsAsWrittenMissesBloodPressure | RecordsStore.SetRecordsSound |
