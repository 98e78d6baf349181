# time-tracker in Dafny

A model of the time-tracking service DoktorGhost/time-tracker, written in Go. The service
registers people by passport series and number, and keeps tasks for each person. A task is
created, started once and stopped once. On stop its duration in seconds is recorded. The
service reports a person's stopped tasks for a period of days, longest first, each duration
rendered as hours and minutes.

The model follows the three core Go files:

- `internal/storage/postgres/db.go` becomes the class `Postgres.PostgresStorage`. The
  `users` and `tasks` tables are `map` fields keyed by id, and the serial sequences are
  counters. Each method makes the Go function's checks in the same order and returns the same
  error kinds, with one exception: as written, `ReadTask` cannot read back a stopped task, and
  the class gives the intended answer there instead (see Findings and "Left out"). `Queries` states what PostgreSQL computes for the SQL text: the user
  listing's filters, order, LIMIT and OFFSET, and the period report's selection and
  `ORDER BY all_time DESC`. The listing query is built by methods (`AddCondition`,
  `FilterQuery`, `UsersQuery`) the way `GetUsers` builds it. Each is proved against the
  text and argument list it must produce.
- `internal/validator/validator.go` becomes `Validator`: the digit check and `SecondToString`.
  The duration rendering is proved to round-trip back to whole hours and minutes.
- `internal/handlers/handlers.go` becomes `Handlers`. It covers the status-selection chains
  after each storage call, the pagination and period defaults, and the passport
  split-and-validate. Each handler is a method that calls the storage class, and its
  contract gives the HTTP status for every input and store state.

Supporting modules:

- `Wrappers`: `Option` and `Result`.
- `Strconv`: Go's `strconv.Itoa` and `strconv.Atoi` over ASCII decimal text, with the
  64-bit range check.
- `GoStrings`: `strings.Split` with a one-character separator, and its inverse `Join`.
- `Models` and `StoreErrors`: the records of `internal/models/models.go`, and one error kind
  per message or driver error that db.go returns. The handlers inspect messages with
  `strings.Contains`; the predicates `SaysNotFound`, `SaysTaskNotFound`, `SaysAlreadyFilled`
  and `SaysNotFilled` say which kinds contain each substring the handlers look for.
- `Scenarios`: client methods that drive a fresh store through the handlers. Their statuses
  follow from the contracts alone.

How outside inputs enter the model:

- Time is an integer count of seconds. PostgreSQL's `NOW()` is a `now` parameter.
- Dates are day numbers counted from 1 January 1970. `DayStart(d)` is the first second of
  day `d`.
- The external person-lookup service is the `info` parameter of `HandleAddUser`. `None`
  stands for any failure of that call.

Two behaviours of the Go code that the model keeps as they are:

- An empty period end becomes `time.Now().Format("02.01.2006")`, which is parsed back as
  midnight at the start of today. The bound `end_time <= $3` is therefore that midnight, and
  `HandleGetTasks` uses it (see Findings).
- `HandlerUpdate` checks the passport's shape but passes the whole string, for example
  `1234 567890`, to `Update`, which stores it as the number. `HandlerAddUser` stores only the
  six-digit number. `HandleUpdate`'s contract states this.

## Model

| member | source | states |
|---|---|---|
| Validator.ScanDigits | internal/validator/validator.go:17-21 | the character loop succeeds exactly when every character is a decimal digit |
| Validator.ValidateDigits | internal/validator/validator.go:13-23 | no error exactly when the length is `ln` and all characters are digits; a wrong length is reported before a non-digit |
| Validator.Pad2 | internal/validator/validator.go:44 | `%02d` gives at least two digits, exactly two below 100, and the full decimal text from 10 on (never truncated) |
| Validator.ValueOfPad2 | internal/validator/validator.go:44 | the padded text reads back as the number |
| Validator.HoursAndMinutes | internal/validator/validator.go:39-42 | hours are `seconds / 3600`, minutes are `(seconds / 60) % 60` and below 60, and the leftover seconds are dropped, not rounded |
| Validator.SecondToString | internal/validator/validator.go:39-46 | the text is the hours `seconds / 3600` and the minutes `(seconds / 60) % 60`, each `%02d`, between the ` ч ` and ` м` marks |
| Validator.SecondToStringRoundTrip | internal/validator/validator.go:39-46 | parsing the rendered text gives back exactly the whole hours and the minutes of the last hour |
| Validator.HoursNotTruncated | internal/validator/validator.go:44 | the hours field is the complete decimal hours, zero-padded only below 10 |
| Validator.SecondToStringZero | internal/validator/validator.go:39-46 | 0 seconds render as `00 ч 00 м` |
| Validator.SecondToStringHourMinute | internal/validator/validator.go:39-46 | 3661 seconds render as `01 ч 01 м` |
| Validator.SecondToStringTwoHours | internal/validator/validator.go:39-46 | 7200 seconds render as `02 ч 00 м` |
| Validator.SecondToStringHundredHours | internal/validator/validator.go:39-46 | 360000 seconds render as `100 ч 00 м`: hours are not capped at two digits |
| Strconv.AtoiItoa | internal/handlers/handlers.go:429-438 | every 64-bit integer written in decimal is read back by `Atoi` |
| Strconv.Itoa | internal/storage/postgres/db.go:171-203 | the placeholder number is written as its decimal digits, after a `-` when negative |
| Strconv.Atoi | internal/handlers/handlers.go:429-438 | an accepted text is an optional sign and digits, and the value it writes fits in 64 bits |
| Strconv.AtoiAccepts | internal/handlers/handlers.go:429-438 | `Atoi` gives `v` exactly when the text is an optional `+` or `-` followed by digits that write `v`, and `v` fits in 64 bits |
| Strconv.AtoiExamples | internal/handlers/handlers.go:429-438 | `"007"` reads as 7, `"+5"` as 5, `"-12"` as -12; the empty text, a sign alone and `"1a"` are refused |
| GoStrings.Split | internal/handlers/handlers.go:97 | `strings.Split` always gives at least one piece, and no piece contains the separator |
| GoStrings.Join | internal/handlers/handlers.go:97 | the inverse of `strings.Split`, used only to state Split's round trip (the Go code never joins): the join starts with the first piece, followed by the separator exactly when there are more pieces |
| GoStrings.SplitFirst | internal/handlers/handlers.go:97 | the first piece is the longest separator-free prefix; the rest is the split of what follows the separator |
| GoStrings.JoinSplit | internal/handlers/handlers.go:97 | joining the pieces with the separator gives back the input |
| GoStrings.SplitJoin | internal/handlers/handlers.go:97 | splitting a join of separator-free pieces gives back the pieces |
| Queries.NonEmptySpec | internal/storage/postgres/db.go:170-199 | a (column, value) pair becomes a condition exactly when it is one of the fields and its value is non-empty |
| Queries.ActiveFiltersSpec | internal/storage/postgres/db.go:170-199 | at most six conditions; a filter field is a condition exactly when it is non-empty |
| Queries.NonEmptySnoc | internal/storage/postgres/db.go:170-199 | each `if` block adds its own field's condition, or nothing, after those before it |
| Queries.WhereClauseAppend | internal/storage/postgres/db.go:171-198 | conditions for consecutive field lists continue the placeholder numbering |
| Queries.WhereClauseAt | internal/storage/postgres/db.go:171-198 | the i-th condition of the query uses placeholder `$(k + i)` |
| Queries.Wrap64 | internal/storage/postgres/db.go:201 | Go's 64-bit arithmetic: the result is a 64-bit value congruent to the exact value modulo 2^64, and equal to it when that is in range |
| Queries.Offset | internal/storage/postgres/db.go:201 | `(page - 1) * limit` is a 64-bit value, and the exact product whenever that fits in 64 bits |
| Queries.SelectUsers | internal/storage/postgres/db.go:166-206 | `WHERE` plus `ORDER BY id ASC`: only stored users matching every non-empty filter, in strictly ascending id order, and all of them |
| Queries.Window | internal/storage/postgres/db.go:203-206 | `LIMIT`/`OFFSET`: at most `limit` rows, the rows from position `offset` on |
| Queries.RunUsersQuery | internal/storage/postgres/db.go:166-225 | the listing fails, with a query error, exactly when the id filter is not an integer or LIMIT or OFFSET is negative, and holds at most `limit` rows |
| Queries.RunUsersQuerySpec | internal/storage/postgres/db.go:166-225 | the listing fails exactly when the id filter is not an integer or LIMIT or OFFSET is negative; otherwise at most `limit` stored, matching users in ascending id order |
| Queries.RunUsersQueryComplete | internal/storage/postgres/db.go:166-206 | with offset 0 and a large enough limit, every stored user matching the filter is listed |
| Queries.SelectTasks | internal/storage/postgres/db.go:330-334 | `user_id = $1 AND start_time >= $2 AND end_time <= $3`: only such tasks, ascending by id, and all of them |
| Queries.InsertDesc | internal/storage/postgres/db.go:334 | inserting a row into a list sorted by `all_time` descending keeps it sorted and adds exactly that row |
| Queries.SortDesc | internal/storage/postgres/db.go:334 | `ORDER BY all_time DESC` gives a sorted permutation of the selected rows |
| Queries.PeriodRows | internal/storage/postgres/db.go:330-352 | the report is sorted longest first and has one row per selected task |
| Queries.PeriodRowsOrdered | internal/storage/postgres/db.go:330-352 | the report is sorted longest first, is a permutation of the selected rows, and lists no task twice |
| Queries.PeriodRowsComplete | internal/storage/postgres/db.go:333 | every stopped task of the user that started at or after `from` and ended at or before `to` is reported |
| Queries.PeriodRowsSound | internal/storage/postgres/db.go:333 | every reported row comes from such a task and has a non-negative duration |
| Queries.PeriodRowsDurations | internal/storage/postgres/db.go:345-350 | no reported duration is negative, so `SecondToString` is always given a valid count |
| Postgres.Merge | internal/storage/postgres/db.go:117-131 | the id is kept, and each of the five columns takes the patch's value when it is non-empty and keeps the stored one otherwise |
| Postgres.MergeProperties | internal/storage/postgres/db.go:117-131 | the update merge keeps the id, is idempotent, changes nothing for an empty patch, and replaces the passport number exactly when one is sent |
| Postgres.UpdateError | internal/storage/postgres/db.go:107-146 | "не найден" exactly for an unknown user; otherwise success exactly when no other user holds the merged passport number, else the unique violation |
| Postgres.StartError | internal/storage/postgres/db.go:273-297 | success exactly for a known task with no start; "не найдена" exactly for an unknown task; "уже заполнено" otherwise |
| Postgres.EndError | internal/storage/postgres/db.go:299-326 | success exactly for a started, unstopped task; "не найдена" exactly for an unknown task; "не заполнено" exactly before a start; "уже заполнено" exactly after a stop |
| Postgres.StartErrorAsWritten | internal/storage/postgres/db.go:273-297 | as written, starting a task with a recorded duration fails with the `ReadTask` scan error; every other case gives the start error |
| Postgres.EndErrorAsWritten | internal/storage/postgres/db.go:299-326 | as written, stopping a task with a recorded duration fails with the `ReadTask` scan error; every other case gives the stop error |
| Postgres.ReadTaskErrorAsWritten | internal/storage/postgres/db.go:249-271 | as written, the read succeeds exactly for a known task with no duration; "не найдена" for an unknown task; the scan error for a task with a duration |
| Postgres.StartErrorByPhase | internal/storage/postgres/db.go:273-297 | starting fails for an unknown task, succeeds exactly on a created task, and is "уже заполнено" otherwise |
| Postgres.EndErrorByPhase | internal/storage/postgres/db.go:299-326 | stopping fails for an unknown task, is "не заполнено" before a start, succeeds on a started task, and is "уже заполнено" after a stop |
| Postgres.TasksEvolveTransitive | internal/storage/postgres/db.go:273-326 | along any sequence of calls, no task row disappears and no recorded start, end or duration is changed |
| Postgres.FilterArgs | internal/storage/postgres/db.go:172-197 | one text argument per condition, holding that condition's value, in order |
| Postgres.AddCondition | internal/storage/postgres/db.go:170-199 | one `if` block keeps the query text and arguments equal to those of the non-empty fields seen so far |
| Postgres.PersonFilters | internal/storage/postgres/db.go:166-184 | after the id, passport-number and surname blocks, the text and arguments hold exactly the conditions for those of the three that are non-empty |
| Postgres.FilterQuery | internal/storage/postgres/db.go:166-199 | after the six blocks, the text is the prefix plus one numbered condition per non-empty field, with the matching arguments |
| Postgres.UsersQuery | internal/storage/postgres/db.go:165-204 | the full text ends in `ORDER BY id ASC LIMIT $(n+1) OFFSET $(n+2)`, and the arguments are the n values, then `limit`, then `(page - 1) * limit` in 64 bits |
| Postgres.RenderRows | internal/storage/postgres/db.go:343-352 | the scan loop gives one report line per row, in row order, with the duration rendered by `SecondToString` |
| Postgres.PostgresStorage.Create | internal/storage/postgres/db.go:67-81 | inserts the user under the next sequence value, unless the passport number is already stored (unique violation); the sequence advances either way |
| Postgres.PostgresStorage.Read | internal/storage/postgres/db.go:83-105 | the stored row, or "не найден" exactly when there is none |
| Postgres.PostgresStorage.Update | internal/storage/postgres/db.go:107-146 | the error is "не найден", then the unique violation; on success only this user's row changes, to the merge of the patch |
| Postgres.PostgresStorage.Delete | internal/storage/postgres/db.go:148-164 | removes the row, or "не найден" when no row was removed |
| Postgres.PostgresStorage.GetUsers | internal/storage/postgres/db.go:165-226 | the result is what PostgreSQL computes for the built query, with `limit` and the 64-bit offset |
| Postgres.PostgresStorage.CreateTask | internal/storage/postgres/db.go:228-247 | fails with "не найден" exactly when the user is unknown; otherwise adds a task with a fresh id and no times |
| Postgres.PostgresStorage.ReadTask | internal/storage/postgres/db.go:249-271 | the stored task, which is consistent, or "не найдена" exactly when there is none |
| Postgres.PostgresStorage.AddStartTime | internal/storage/postgres/db.go:273-297 | the error follows the task's state; on success only the start changes, to `now`, and the task moves from created to started |
| Postgres.PostgresStorage.AddEndTime | internal/storage/postgres/db.go:299-326 | the error follows the task's state; on success only end (`now`) and duration (`now - start`, not negative) change, and the task moves from started to stopped |
| Postgres.PostgresStorage.GetTasksUser | internal/storage/postgres/db.go:328-359 | one line per selected task, longest first, each with its name and rendered duration |
| Handlers.StartTimeStatus | internal/handlers/handlers.go:554-566 | 200 exactly without an error, 404 exactly for "не найдена", 409 exactly for "уже заполнено", 500 otherwise |
| Handlers.EndTimeStatus | internal/handlers/handlers.go:599-614 | as for start, and 428 exactly for "не заполнено" |
| Handlers.AddTaskStatus | internal/handlers/handlers.go:501-512 | 200 exactly without an error, 404 exactly for a "не найден" error, 500 otherwise |
| Handlers.StartTimeByPhase | internal/handlers/handlers.go:554-569 | start answers 404 for an unknown task, 200 for a created one, 409 otherwise |
| Handlers.EndTimeByPhase | internal/handlers/handlers.go:599-617 | stop answers 404 for an unknown task, 428 before a start, 200 while running, 409 after a stop |
| Handlers.StartTwiceConflicts | internal/handlers/handlers.go:554-569 | once a start is recorded, every further start is 409 |
| Handlers.StopTwiceConflicts | internal/handlers/handlers.go:599-617 | once an end is recorded, every further start or stop is 409 |
| Handlers.StopThenScanFails | internal/storage/postgres/db.go:249-326 | as written, once a task is stopped, a further start or stop of it answers 500 |
| Handlers.ScanAgreesUntilStopped | internal/storage/postgres/db.go:249-326 | before a task is stopped, the errors as written equal the modelled start and stop errors |
| Handlers.HandleStartTime | internal/handlers/handlers.go:546-569 | a non-integer id is 422; otherwise the status follows the storage error; on 200 only the start is recorded |
| Handlers.HandleEndTime | internal/handlers/handlers.go:591-617 | a non-integer id is 422; otherwise the status follows the storage error; on 200 only end and duration are recorded |
| Handlers.HandleAddTask | internal/handlers/handlers.go:479-525 | 422 for a non-integer id, 404 for an unknown user, otherwise 200 with the new task's id |
| Handlers.Pagination | internal/handlers/handlers.go:424-438 | page and limit are 64-bit values: the text's value when `Atoi` accepts it, else 1 and 10 |
| Handlers.PaginationReadsIntegers | internal/handlers/handlers.go:424-438 | decimal page and limit are read back; unreadable text falls back to page 1 and limit 10 |
| Handlers.HandleGetUsers | internal/handlers/handlers.go:420-457 | 200 with the listing when the query succeeds, 500 with nothing otherwise |
| Handlers.ListingOutcome | internal/handlers/handlers.go:424-446 | the listing is 500 exactly for a non-integer id filter, a negative limit or a negative offset; with the default limit it holds at most ten matching users in id order |
| Handlers.CheckPassportAsWritten | internal/handlers/handlers.go:97-109 | an accepted passport yields a four-digit series and a six-digit number |
| Handlers.CheckPassport | internal/handlers/handlers.go:97-109 | never indexes out of range; an accepted passport yields a four-digit series and a six-digit number |
| Handlers.AsWrittenOutOfRange | internal/handlers/handlers.go:97-109 | as written, exactly the passports made of four digits alone reach `parts[1]` with no second piece |
| Handlers.AsWrittenPanicsOnSeriesOnly | internal/handlers/handlers.go:97-105 | `"1234"` indexes past the pieces as written, and the corrected check rejects it |
| Handlers.CheckPassportAgrees | internal/handlers/handlers.go:97-109 | the corrected check never indexes out of range, and agrees with the original on every other input |
| Handlers.ShapeAccepted | internal/handlers/handlers.go:97-109 | four digits, a space, six digits, then the end or a space, is accepted with that series and number |
| Handlers.AcceptedShape | internal/handlers/handlers.go:97-109 | only strings of that shape are accepted |
| Handlers.CheckPassportSpec | internal/handlers/handlers.go:97-109 | accepted exactly for that shape, and the series and number are its first four and its six digits |
| Handlers.CreateStatus | internal/handlers/handlers.go:118-131 | 409 exactly for the unique violation (23505), 500 otherwise |
| Handlers.HandleAddUser | internal/handlers/handlers.go:97-144 | 422 exactly for a malformed passport; then 503 when the lookup fails; then 409 exactly when the number is stored, else 200 with the new id; the user sequence advances exactly when the insert is tried |
| Handlers.HandleUpdate | internal/handlers/handlers.go:284-338 | 422 for a non-integer id, 400 for a non-empty malformed passport; then the status follows the storage error, and only a 200 changes the row; neither sequence advances |
| Handlers.UpdateStatus | internal/handlers/handlers.go:318-336 | 200 exactly without an error, 409 exactly for the unique violation, 404 exactly for "не найден", 500 otherwise |
| Handlers.UpdateOutcome | internal/handlers/handlers.go:318-338 | update is 404 for an unknown user, 409 when another user holds the resulting number, else 200 |
| Handlers.DayBounds | internal/handlers/handlers.go:658-679 | a day's first second lies on that day; a time is at or after a day's start, or before the next day's start, exactly by comparing days |
| Handlers.DefaultPeriod | internal/handlers/handlers.go:658-663 | given dates are kept; an empty start is 1 January 1900 and an empty end is today |
| Handlers.PeriodBoundsAsWritten | internal/handlers/handlers.go:658-679 | no bounds exactly when a date is unparsable; otherwise both bounds are the midnights starting the start and end days |
| Handlers.PeriodBounds | internal/handlers/handlers.go:658-679 | no bounds exactly when a date is unparsable; otherwise from the start day's midnight to the last second of the end day |
| Handlers.PeriodBoundsAsWrittenSpec | internal/handlers/handlers.go:658-679 | as written, a task is reported exactly when it is the user's, started on or after the start day, ended by the end day, and ended no later than that day's midnight; a task ending later on the end day is left out |
| Handlers.PeriodBoundsSpec | internal/handlers/handlers.go:658-679 | with the corrected bounds, a task is reported exactly when it is the user's and started and ended within the requested days |
| Handlers.DefaultPeriodMissesToday | internal/handlers/handlers.go:661-679 | a task started at midnight today and stopped a minute later is missing from the default report as written, and present with the corrected bound |
| Handlers.HandleGetTasks | internal/handlers/handlers.go:638-698 | 422 for a non-integer id, 500 for an unparsable date, otherwise 200 with the report between the two midnights the code computes |
| Scenarios.Registration | internal/handlers/handlers.go:97-132 | register (200), register the same passport again (409), send a four-digit number (422) |
| Scenarios.StartStop | internal/handlers/handlers.go:540-618 | add (200), start (200), start again (409), stop (200), stop again (409, the intended answer; see Findings) |
| Scenarios.Refusals | internal/handlers/handlers.go:473-618 | stop without a start (428), a task for an unknown user (404), a non-integer task id (422) |

## Left out

- HTTP routing, JSON encoding and decoding, the method-not-allowed checks, logging and the Swagger route are not modelled. Each handler starts from the decoded request, so the decode failures (400 or 500 by handler) are absent.
- Network, database connection and driver failures, other than the unique violation and a rejected query parameter, are not modelled. They are the `QueryFailed` error kind, which no storage method of the model returns except the user listing.
- Concurrency is not modelled. A race between `AddEndTime`'s read and its unguarded `UPDATE` (it has no `end_time IS NULL` test) cannot occur in a sequential model.
- `NewPostgresStorage`, the connection setup and the migrations are not modelled. The constructor is an empty, freshly migrated database. The tables are assumed to have a unique constraint on `passport_number`, which the 23505 check in the handlers implies.
- Deleting a user does not touch that user's tasks. The foreign-key behaviour of the schema is not part of this model.
- `HandlerCreat`, `HandlerDelete`, `HandlerGetUser`, `InitRoutes` and `GenerateRandomString` are not modelled. The first is a test handler that uses random names, and the next two only map `Read` and `Delete` errors the same way as `HandlerAddTask`.
- Date parsing and formatting (`time.Parse` with `02.01.2006`, formatting as `2006-01-02 15:04:05`) is reduced to a `DateField` that is empty, a day number, or unparsable. Time zones and the comparison of a zone-less text with the stored timestamps are not modelled.
- Timestamps are whole seconds. `EXTRACT(EPOCH FROM …)` is fractional in PostgreSQL, and the model does not capture the fractional part or how the driver scans it into an `int`.
- Postgres.PostgresStorage.ReadTask: returns the stored task, as intended. As written, Go scans `all_time`, which holds the seconds `EXTRACT(EPOCH …)` wrote, into an `sql.NullTime`, and that scan fails for every stopped task. `AddStartTime` and `AddEndTime` call `ReadTask` first, so a start or stop of a stopped task answers 500. Handlers.StartTimeByPhase, Handlers.EndTimeByPhase (the stopped case), Handlers.StopTwiceConflicts and the last step of Scenarios.StartStop state the intended 409. Handlers.StopThenScanFails states the 500 as written (see Findings).
- Postgres.StartError: "уже заполнено" for a stopped task is the intended answer; as written, `ReadTask` (db.go:255-262) fails to scan `all_time` for every stopped task, so Go returns the scan error. Postgres.StartErrorAsWritten states what Go returns.
- Postgres.EndError: "уже заполнено" for a stopped task is the intended answer; as written, `ReadTask` (db.go:255-262) fails to scan `all_time` for every stopped task, so Go returns the scan error, and the branch at db.go:319 is never reached. Postgres.EndErrorAsWritten states what Go returns.
- Postgres.StartErrorByPhase: the stopped phase's "уже заполнено" is the intended answer; as written, `ReadTask` (db.go:255-262) fails to scan `all_time` for every stopped task, so Go returns the scan error. Postgres.StartErrorAsWritten and Handlers.StopThenScanFails state what Go returns.
- Postgres.EndErrorByPhase: the stopped phase's "уже заполнено" is the intended answer; as written, `ReadTask` (db.go:255-262) fails to scan `all_time` for every stopped task, so Go returns the scan error. Postgres.EndErrorAsWritten and Handlers.StopThenScanFails state what Go returns.
- Postgres.PostgresStorage.AddStartTime: "уже заполнено" for a stopped task is the intended answer; as written, `ReadTask` (db.go:255-262) fails to scan `all_time` for every stopped task, so Go returns the scan error; either way the store does not change. Postgres.StartErrorAsWritten states what Go returns.
- Postgres.PostgresStorage.AddEndTime: "уже заполнено" for a stopped task is the intended answer; as written, `ReadTask` (db.go:255-262) fails to scan `all_time` for every stopped task, so Go returns the scan error; either way the store does not change. Postgres.EndErrorAsWritten states what Go returns.
- Handlers.StartTimeByPhase: 409 for a stopped task is the intended answer; as written Go answers 500, because the `ReadTask` scan fails first. Handlers.StopThenScanFails states the 500.
- Handlers.EndTimeByPhase: 409 for a stopped task is the intended answer; as written Go answers 500, because the `ReadTask` scan fails first. Handlers.StopThenScanFails states the 500.
- Handlers.StartTwiceConflicts: 409 for a further start of a task that has also been stopped is the intended answer; as written Go answers 500 there. Handlers.StopThenScanFails states the 500. For a started task that is not stopped, the 409 is what Go answers.
- Handlers.HandleStartTime: gives 409 for a stopped task, the intended answer; as written Go answers 500 (Handlers.StopThenScanFails).
- Handlers.HandleEndTime: gives 409 for a stopped task, the intended answer; as written Go answers 500 (Handlers.StopThenScanFails).
- Handlers.HandleAddUser: uses the corrected passport check, so a series alone such as `"1234"` answers 422. As written, handlers.go:105 indexes past the pieces; the panic is recovered by `net/http`, and the connection closes with no status (see Findings). Handlers.AsWrittenOutOfRange and Handlers.CheckPassportAgrees show that inputs of four digits alone are the only ones where the two checks differ.
- Handlers.HandleUpdate: uses the corrected passport check, so a series alone answers 400. As written, handlers.go:311 panics on it, and no status is written (see Findings).
- Validator.SecondToString: requires `seconds >= 0`. Go's `/` truncates toward zero, so -61 seconds renders as `00 ч -1 м`, and that case is not modelled. Every duration `AddEndTime` stores is non-negative under the clock requirement below, so the report never passes a negative count.
- Postgres.PostgresStorage.AddEndTime: requires that the clock has not gone back past the recorded start. The source assumes this of `NOW()` and does not check it.
- Handlers.HandleEndTime: requires the same clock assumption for every started task.
- `Validator.ValidateDigits` measures length in characters and accepts ASCII digits only. Go's `len` counts bytes and `unicode.IsDigit` accepts every Unicode decimal digit, so a string of two-byte digits is not modelled.
- Strconv.Atoi: models Go's `strconv.Atoi` for ASCII text with one optional sign. Underscores and other bases are not accepted by Go's `Atoi` either. Error values are reduced to `None`.
- The id filter of the listing is read by PostgreSQL as an integer. The model uses `Atoi` for that reading. It does not capture the narrower range of a 32-bit `serial` column. Nor does it capture the wider text PostgreSQL's integer input accepts: surrounding whitespace, and from version 16 hexadecimal, octal and binary prefixes and underscores between digits. So an id filter of `" 5"` lists user 5 in PostgreSQL, where the model answers 500.
- Rows with equal `all_time` are kept in ascending id order. PostgreSQL leaves the order of ties unspecified, and this model fixes one order.
- `GetUsers` returns each user's id as text in `UserData`. The model returns the `User` row, whose id is an integer.

## Findings

| source | as written | input that shows it | evidently intended | confidence | as-written member | corrected member |
|---|---|---|---|---|---|---|
| internal/handlers/handlers.go:105 (and :311) | `parts[1]` is read without checking that the split produced two pieces | passport `"1234"`: the series check passes, then the index is out of range; the Go panic is recovered by `net/http`, which closes the connection without writing any status | reject the passport: 422 in `HandlerAddUser`, 400 in `HandlerUpdate` | not executed | Handlers.AsWrittenPanicsOnSeriesOnly | Handlers.CheckPassportSpec |
| internal/handlers/handlers.go:661-679 with internal/storage/postgres/db.go:333 | the end date becomes midnight at the start of that day, and `end_time <= $3` then excludes every task that ends during the end day; the default end is today, so today's tasks never appear | default period, a task started at 00:00:00 today and stopped at 00:01:00 | include the whole end day: bound `DayStart(end + 1) - 1` | not executed | Handlers.DefaultPeriodMissesToday | Handlers.PeriodBoundsSpec |
| internal/storage/postgres/db.go:255-262 with :309-310 and internal/models/models.go:31 | `all_time` holds a number of seconds but is scanned into `sql.NullTime`, which refuses a non-NULL number, so `ReadTask` fails on every stopped task | start a task, stop it (200), then stop it again: `ReadTask` fails and the handler answers 500 | 409 ("уже заполнено") for a second start or stop | not executed | Handlers.StopThenScanFails | Handlers.StopTwiceConflicts |
