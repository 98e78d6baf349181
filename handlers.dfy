/**
 * The decisions internal/handlers/handlers.go makes around each storage call: which HTTP
 * status a storage error becomes, the defaults for pagination and for the report period, and
 * the split-and-validate of a passport string. JSON decoding, routing, logging and the HTTP
 * method checks are not modelled; a handler here starts from the already decoded request.
 */
module Handlers {
  import opened Wrappers
  import opened Strconv
  import opened Validator
  import opened Models
  import opened StoreErrors
  import opened Queries
  import opened Postgres
  import opened GoStrings

  const StatusOK := 200
  const StatusBadRequest := 400
  const StatusNotFound := 404
  const StatusConflict := 409
  const StatusUnprocessableEntity := 422
  const StatusPreconditionRequired := 428
  const StatusInternalServerError := 500
  const StatusServiceUnavailable := 503

  // ---------------------------------------------------------------- task status chains

  /** `HandlerStartTime`: "не найдена" is 404, "уже заполнено" is 409, any other error 500. */
  function StartTimeStatus(err: Option<StoreError>): (status: int)
    ensures status == StatusOK <==> err.None?
    ensures status == StatusNotFound <==> err.Some? && err.value.TaskNotFound?
    ensures status == StatusConflict <==> err.Some? && (err.value.StartAlreadySet? || err.value.EndAlreadySet?)
    ensures status in {StatusOK, StatusNotFound, StatusConflict, StatusInternalServerError}
  {
    if err.None? then StatusOK
    else if SaysTaskNotFound(err.value) then StatusNotFound
    else if SaysAlreadyFilled(err.value) then StatusConflict
    else StatusInternalServerError
  }

  /**
   * `HandlerEndTime`: "не найдена" is 404, "уже заполнено" is 409, "не заполнено" is 428, any
   * other error 500.
   */
  function EndTimeStatus(err: Option<StoreError>): (status: int)
    ensures status == StatusOK <==> err.None?
    ensures status == StatusNotFound <==> err.Some? && err.value.TaskNotFound?
    ensures status == StatusConflict <==> err.Some? && (err.value.StartAlreadySet? || err.value.EndAlreadySet?)
    ensures status == StatusPreconditionRequired <==> err == Some(StartNotSet)
    ensures status in {StatusOK, StatusNotFound, StatusConflict, StatusPreconditionRequired, StatusInternalServerError}
  {
    if err.None? then StatusOK
    else if SaysTaskNotFound(err.value) then StatusNotFound
    else if SaysAlreadyFilled(err.value) then StatusConflict
    else if SaysNotFilled(err.value) then StatusPreconditionRequired
    else StatusInternalServerError
  }

  /** `HandlerAddTask`: "не найден" is 404, any other error 500. */
  function AddTaskStatus(err: Option<StoreError>): (status: int)
    ensures status == StatusOK <==> err.None?
    ensures status == StatusNotFound <==> err.Some? && (err.value.UserNotFound? || err.value.TaskNotFound?)
    ensures status in {StatusOK, StatusNotFound, StatusInternalServerError}
  {
    if err.None? then StatusOK
    else if SaysNotFound(err.value) then StatusNotFound
    else StatusInternalServerError
  }

  /** Starting a task answers 404 for an unknown id, 200 for a task not yet started, 409 otherwise. */
  lemma StartTimeByPhase(tasks: map<int, Task>, taskId: int)
    requires WellFormedTasks(tasks)
    ensures StartTimeStatus(StartError(tasks, taskId))
         == if taskId !in tasks then StatusNotFound
            else if PhaseOf(tasks[taskId]) == Created then StatusOK
            else StatusConflict
  {
    StartErrorByPhase(tasks, taskId);
  }

  /**
   * Stopping a task answers 404 for an unknown id, 428 before it was started, 200 while it
   * runs and 409 once it has stopped.
   */
  lemma EndTimeByPhase(tasks: map<int, Task>, taskId: int)
    requires WellFormedTasks(tasks)
    ensures EndTimeStatus(EndError(tasks, taskId))
         == if taskId !in tasks then StatusNotFound
            else match PhaseOf(tasks[taskId])
              case Created => StatusPreconditionRequired
              case Started => StatusOK
              case Stopped => StatusConflict
  {
    EndErrorByPhase(tasks, taskId);
  }

  /** Once a start is recorded, every further start request for the task is a conflict. */
  lemma StartTwiceConflicts(tasks: map<int, Task>, taskId: int, now: int)
    requires taskId in tasks
    ensures StartTimeStatus(StartError(tasks[taskId := tasks[taskId].(start := Some(now))], taskId)) == StatusConflict
  {
  }

  /** Once an end is recorded, every further start or stop request for the task is a conflict. */
  lemma StopTwiceConflicts(tasks: map<int, Task>, taskId: int, now: int)
    requires taskId in tasks && tasks[taskId].start.Some?
    ensures var t := tasks[taskId];
            var after := tasks[taskId := t.(end := Some(now), allTime := Some(now - t.start.value))];
            && EndTimeStatus(EndError(after, taskId)) == StatusConflict
            && StartTimeStatus(StartError(after, taskId)) == StatusConflict
  {
  }

  /**
   * As written, a stopped task cannot be read back (the `all_time` scan fails), so a further
   * start or stop of it answers 500 where `StopTwiceConflicts` gives the intended 409.
   */
  lemma StopThenScanFails(tasks: map<int, Task>, taskId: int, now: int)
    requires taskId in tasks && tasks[taskId].start.Some?
    ensures var t := tasks[taskId];
            var after := tasks[taskId := t.(end := Some(now), allTime := Some(now - t.start.value))];
            && EndTimeStatus(EndErrorAsWritten(after, taskId)) == StatusInternalServerError
            && StartTimeStatus(StartErrorAsWritten(after, taskId)) == StatusInternalServerError
  {
  }

  /** Until a task is stopped the scan succeeds, and the errors as written are the modelled ones. */
  lemma ScanAgreesUntilStopped(tasks: map<int, Task>, taskId: int)
    requires WellFormedTasks(tasks)
    requires taskId in tasks ==> PhaseOf(tasks[taskId]) != Stopped
    ensures StartErrorAsWritten(tasks, taskId) == StartError(tasks, taskId)
    ensures EndErrorAsWritten(tasks, taskId) == EndError(tasks, taskId)
  {
  }

  /** `HandlerStartTime` after the id is read from the path. */
  method HandleStartTime(store: PostgresStorage, taskIdText: string, now: int) returns (status: int)
    requires store.Valid()
    modifies store
    ensures store.Valid()
    ensures Atoi(taskIdText).None? ==> status == StatusUnprocessableEntity && store.tasks == old(store.tasks)
    ensures Atoi(taskIdText).Some? ==> status == StartTimeStatus(StartError(old(store.tasks), Atoi(taskIdText).value))
    ensures status == StatusOK ==> var id := Atoi(taskIdText).value;
                                   store.tasks == old(store.tasks)[id := old(store.tasks)[id].(start := Some(now))]
    ensures status != StatusOK ==> store.tasks == old(store.tasks)
    ensures TasksEvolve(old(store.tasks), store.tasks)
    ensures store.users == old(store.users)
    ensures store.nextUserId == old(store.nextUserId) && store.nextTaskId == old(store.nextTaskId)
  {
    var taskId := Atoi(taskIdText);
    if taskId.None? {
      return StatusUnprocessableEntity;
    }
    var err := store.AddStartTime(taskId.value, now);
    status := StartTimeStatus(err);
  }

  /** `HandlerEndTime` after the id is read from the path; the clock has not gone back past any start. */
  method HandleEndTime(store: PostgresStorage, taskIdText: string, now: int) returns (status: int)
    requires store.Valid()
    requires forall id :: id in store.tasks && store.tasks[id].start.Some? ==> store.tasks[id].start.value <= now
    modifies store
    ensures store.Valid()
    ensures Atoi(taskIdText).None? ==> status == StatusUnprocessableEntity && store.tasks == old(store.tasks)
    ensures Atoi(taskIdText).Some? ==> status == EndTimeStatus(EndError(old(store.tasks), Atoi(taskIdText).value))
    ensures status == StatusOK ==> var id := Atoi(taskIdText).value;
                                   var t := old(store.tasks)[id];
                                   store.tasks == old(store.tasks)[id := t.(end := Some(now), allTime := Some(now - t.start.value))]
    ensures status != StatusOK ==> store.tasks == old(store.tasks)
    ensures TasksEvolve(old(store.tasks), store.tasks)
    ensures store.users == old(store.users)
    ensures store.nextUserId == old(store.nextUserId) && store.nextTaskId == old(store.nextTaskId)
  {
    var taskId := Atoi(taskIdText);
    if taskId.None? {
      return StatusUnprocessableEntity;
    }
    var err := store.AddEndTime(taskId.value, now);
    status := EndTimeStatus(err);
  }

  /** `HandlerAddTask` after the id is read from the path and the task name from the body. */
  method HandleAddTask(store: PostgresStorage, userIdText: string, name: string) returns (status: int, taskId: Option<int>)
    requires store.Valid()
    modifies store
    ensures store.Valid()
    ensures Atoi(userIdText).None? ==> status == StatusUnprocessableEntity && store.tasks == old(store.tasks)
    ensures Atoi(userIdText).Some? ==> status == (if Atoi(userIdText).value in old(store.users) then StatusOK else StatusNotFound)
    ensures taskId.Some? <==> status == StatusOK
    ensures taskId.Some? ==> taskId.value !in old(store.tasks)
                             && store.tasks == old(store.tasks)[taskId.value := Task(taskId.value, Atoi(userIdText).value, name, None, None, None)]
    ensures taskId.Some? ==> taskId.value == old(store.nextTaskId) && store.nextTaskId == old(store.nextTaskId) + 1
    ensures taskId.None? ==> store.tasks == old(store.tasks) && store.nextTaskId == old(store.nextTaskId)
    ensures store.users == old(store.users) && store.nextUserId == old(store.nextUserId)
  {
    var userId := Atoi(userIdText);
    if userId.None? {
      return StatusUnprocessableEntity, None;
    }
    var r := store.CreateTask(userId.value, name);
    if r.Err? {
      status, taskId := AddTaskStatus(Some(r.error)), None;
    } else {
      status, taskId := AddTaskStatus(None), Some(r.value);
    }
  }

  // ---------------------------------------------------------------- user listing

  /**
   * `HandlerGetUsers`' pagination: page 1 and limit 10 unless the path segment reads as an
   * integer. A segment that does not parse falls back to the default silently.
   */
  function Pagination(pageText: string, limitText: string): (pl: (int, int))
    ensures IsInt64(pl.0) && IsInt64(pl.1)
    ensures pl.0 == 1 || Atoi(pageText) == Some(pl.0)
    ensures pl.1 == 10 || Atoi(limitText) == Some(pl.1)
    ensures Atoi(pageText).Some? ==> pl.0 == Atoi(pageText).value
    ensures Atoi(limitText).Some? ==> pl.1 == Atoi(limitText).value
  {
    var page := if pageText != "" && Atoi(pageText).Some? then Atoi(pageText).value else 1;
    var limit := if limitText != "" && Atoi(limitText).Some? then Atoi(limitText).value else 10;
    (page, limit)
  }

  /** Integers written in decimal are read back; anything unreadable gives the defaults. */
  lemma PaginationReadsIntegers(page: int, limit: int, pageText: string, limitText: string)
    requires IsInt64(page) && IsInt64(limit)
    ensures Pagination(Itoa(page), Itoa(limit)) == (page, limit)
    ensures Atoi(pageText).None? ==> Pagination(pageText, limitText).0 == 1
    ensures Atoi(limitText).None? ==> Pagination(pageText, limitText).1 == 10
  {
    AtoiItoa(page);
    AtoiItoa(limit);
  }

  /** `HandlerGetUsers`: any storage error is 500, otherwise the users come back with 200. */
  method HandleGetUsers(store: PostgresStorage, filter: UserData, pageText: string, limitText: string)
    returns (status: int, listed: seq<User>)
    requires store.Valid()
    ensures var (page, limit) := Pagination(pageText, limitText);
            var r := RunUsersQuery(store.users, store.nextUserId, filter, limit, Offset(page, limit));
            && (status == StatusOK <==> r.Ok?)
            && (status != StatusOK ==> status == StatusInternalServerError && listed == [])
            && (r.Ok? ==> listed == r.value)
  {
    var (page, limit) := Pagination(pageText, limitText);
    var r := store.GetUsers(filter, page, limit);
    if r.Err? {
      return StatusInternalServerError, [];
    }
    status, listed := StatusOK, r.value;
  }

  /**
   * The listing fails with 500 exactly when the id filter is not an integer, the limit is
   * negative, or the page makes the offset negative; with the default pagination it returns
   * at most ten users, matching the filter, in ascending id order.
   */
  lemma ListingOutcome(users: map<int, User>, bound: int, filter: UserData, pageText: string, limitText: string)
    requires KeyedById(users)
    ensures var (page, limit) := Pagination(pageText, limitText);
            var r := RunUsersQuery(users, bound, filter, limit, Offset(page, limit));
            && (r.Err? <==> !IdFilterReadable(filter) || limit < 0 || Offset(page, limit) < 0)
            && (r.Ok? && limitText == "" ==> |r.value| <= 10)
            && (r.Ok? ==> forall i, j :: 0 <= i < j < |r.value| ==> r.value[i].id < r.value[j].id)
            && (r.Ok? ==> forall i :: 0 <= i < |r.value| ==> Matches(r.value[i], filter))
  {
    var (page, limit) := Pagination(pageText, limitText);
    RunUsersQuerySpec(users, bound, filter, limit, Offset(page, limit));
  }

  // ---------------------------------------------------------------- passport strings

  /** Outcome of splitting and validating a passport string. */
  datatype PassportCheck =
    | Accepted(series: string, number: string)
    | Rejected
      /** `parts[1]` read past the end of the pieces: a run-time panic in Go. */
    | IndexOutOfRange

  /**
   * The passport check of `HandlerAddUser` and `HandlerUpdate` as written: split on spaces,
   * the first piece must be 4 digits, then the second piece is read without checking that
   * there is one, and must be 6 digits. Pieces after the second are ignored.
   */
  function CheckPassportAsWritten(passport: string): (r: PassportCheck)
    ensures r.Accepted? ==> |r.series| == 4 && AllDigits(r.series) && |r.number| == 6 && AllDigits(r.number)
  {
    var parts := Split(passport, ' ');
    if ValidateDigits(parts[0], 4).Some? then Rejected
    else if |parts| < 2 then IndexOutOfRange
    else if ValidateDigits(parts[1], 6).Some? then Rejected
    else Accepted(parts[0], parts[1])
  }

  /** The same check with the missing second piece treated as invalid input. */
  function CheckPassport(passport: string): (r: PassportCheck)
    ensures !r.IndexOutOfRange?
    ensures r.Accepted? ==> |r.series| == 4 && AllDigits(r.series) && |r.number| == 6 && AllDigits(r.number)
  {
    var parts := Split(passport, ' ');
    if ValidateDigits(parts[0], 4).Some? then Rejected
    else if |parts| < 2 then Rejected
    else if ValidateDigits(parts[1], 6).Some? then Rejected
    else Accepted(parts[0], parts[1])
  }

  /** The shape the check accepts: 4 digits, a space, 6 digits, then the end or another space. */
  predicate PassportShape(p: string)
  {
    |p| >= 11 && AllDigits(p[..4]) && p[4] == ' ' && AllDigits(p[5..11]) && (|p| == 11 || p[11] == ' ')
  }

  /** Exactly the strings of four digits and nothing else reach the unguarded `parts[1]`. */
  lemma {:induction false} AsWrittenOutOfRange(passport: string)
    ensures CheckPassportAsWritten(passport).IndexOutOfRange? <==> |passport| == 4 && AllDigits(passport)
  {
    SplitFirst(passport, ' ');
    var parts := Split(passport, ' ');
  }

  /** A concrete input: "1234" passes the series check and has no second piece. */
  lemma AsWrittenPanicsOnSeriesOnly()
    ensures CheckPassportAsWritten("1234") == IndexOutOfRange
    ensures CheckPassport("1234") == Rejected
  {
    AsWrittenOutOfRange("1234");
  }

  /** The corrected check never panics and agrees with the original wherever that one does not. */
  lemma CheckPassportAgrees(passport: string)
    ensures !CheckPassport(passport).IndexOutOfRange?
    ensures !CheckPassportAsWritten(passport).IndexOutOfRange? ==> CheckPassport(passport) == CheckPassportAsWritten(passport)
  {
  }

  /** Every string of the passport shape is accepted, with its series and number. */
  lemma {:induction false} ShapeAccepted(passport: string)
    requires PassportShape(passport)
    ensures CheckPassport(passport) == Accepted(passport[..4], passport[5..11])
  {
    assert ' ' !in passport[..4] by {
      forall i | 0 <= i < 4 ensures passport[..4][i] != ' ' {
        assert IsDigit(passport[..4][i]);
      }
    }
    SplitAt(passport, ' ', 4);
    var rest := passport[5..];
    assert ' ' !in rest[..6] by {
      forall i | 0 <= i < 6 ensures rest[..6][i] != ' ' {
        assert rest[..6] == passport[5..11];
        assert IsDigit(passport[5..11][i]);
      }
    }
    if |rest| == 6 {
      assert rest[..6] == rest;
      SplitNone(rest, ' ');
    } else {
      SplitAt(rest, ' ', 6);
    }
    assert passport[5..11] == rest[..6];
  }

  /** Only strings of the passport shape are accepted. */
  lemma {:induction false} AcceptedShape(passport: string)
    requires CheckPassport(passport).Accepted?
    ensures PassportShape(passport)
  {
    SplitFirst(passport, ' ');
    var parts := Split(passport, ' ');
    assert |parts[0]| == 4 && 4 < |passport|;
    var rest := passport[5..];
    SplitFirst(rest, ' ');
    assert parts[1] == Split(rest, ' ')[0];
    assert passport[5..11] == rest[..6];
  }

  /** The corrected check accepts exactly the passport shape, and reads series and number from it. */
  lemma CheckPassportSpec(passport: string)
    ensures CheckPassport(passport).Accepted? <==> PassportShape(passport)
    ensures CheckPassport(passport).Accepted? ==>
              CheckPassport(passport) == Accepted(passport[..4], passport[5..11])
  {
    if PassportShape(passport) {
      ShapeAccepted(passport);
    }
    if CheckPassport(passport).Accepted? {
      AcceptedShape(passport);
      ShapeAccepted(passport);
    }
  }

  // ---------------------------------------------------------------- user creation and update

  /** `HandlerAddUser`'s answer to a storage error: the unique violation is 409, anything else 500. */
  function CreateStatus(err: StoreError): (status: int)
    ensures status == StatusConflict <==> err == UniqueViolation
    ensures status in {StatusConflict, StatusInternalServerError}
  {
    if err.UniqueViolation? then StatusConflict else StatusInternalServerError
  }

  /**
   * `HandlerAddUser` after the body is decoded: check the passport (422), ask the external
   * service, whose answer is `info` (503 when it fails), store the user with the series and
   * number the service was asked about (409 when the number is already stored), answer 200
   * with the new id.
   */
  method HandleAddUser(store: PostgresStorage, passport: string, info: Option<UserData>)
    returns (status: int, userId: Option<int>)
    requires store.Valid()
    modifies store
    ensures store.Valid()
    ensures status == StatusUnprocessableEntity <==> !PassportShape(passport)
    ensures PassportShape(passport) && info.None? ==> status == StatusServiceUnavailable
    ensures PassportShape(passport) && info.Some? ==>
              status == (if PassportHolders(old(store.users), passport[5..11]) != {} then StatusConflict else StatusOK)
    ensures userId.Some? <==> status == StatusOK
    ensures userId.Some? ==>
              var data := info.value.(passportSeries := passport[..4], passportNumber := passport[5..11]);
              userId.value !in old(store.users) && store.users == old(store.users)[userId.value := NewUser(userId.value, data)]
    ensures userId.Some? ==> userId.value == old(store.nextUserId)
    ensures userId.None? ==> store.users == old(store.users)
    ensures store.tasks == old(store.tasks) && store.nextTaskId == old(store.nextTaskId)
    ensures store.nextUserId == old(store.nextUserId) + (if PassportShape(passport) && info.Some? then 1 else 0)
  {
    CheckPassportSpec(passport);
    var check := CheckPassport(passport);
    if !check.Accepted? {
      return StatusUnprocessableEntity, None;
    }
    if info.None? {
      return StatusServiceUnavailable, None;
    }
    var data := info.value.(passportSeries := check.series, passportNumber := check.number);
    var r := store.Create(data);
    if r.Err? {
      return CreateStatus(r.error), None;
    }
    status, userId := StatusOK, Some(r.value);
  }

  /**
   * `HandlerUpdate`'s answer to a storage error: the unique violation is checked first (409),
   * then "не найден" (404), anything else is 500.
   */
  function UpdateStatus(err: Option<StoreError>): (status: int)
    ensures status == StatusOK <==> err.None?
    ensures status == StatusConflict <==> err == Some(UniqueViolation)
    ensures status == StatusNotFound <==> err.Some? && (err.value.UserNotFound? || err.value.TaskNotFound?)
    ensures status in {StatusOK, StatusConflict, StatusNotFound, StatusInternalServerError}
  {
    if err.None? then StatusOK
    else if err.value.UniqueViolation? then StatusConflict
    else if SaysNotFound(err.value) then StatusNotFound
    else StatusInternalServerError
  }

  /**
   * `HandlerUpdate` after the body is decoded: an unreadable id is 422, a non-empty passport
   * that fails the check is 400; the stored passport number is the whole string sent.
   */
  method HandleUpdate(store: PostgresStorage, userIdText: string, patch: UserData) returns (status: int)
    requires store.Valid()
    modifies store
    ensures store.Valid()
    ensures Atoi(userIdText).None? ==> status == StatusUnprocessableEntity && store.users == old(store.users)
    ensures Atoi(userIdText).Some? && patch.passportNumber != "" && !PassportShape(patch.passportNumber) ==>
              status == StatusBadRequest && store.users == old(store.users)
    ensures Atoi(userIdText).Some? && (patch.passportNumber == "" || PassportShape(patch.passportNumber)) ==>
              status == UpdateStatus(UpdateError(old(store.users), Atoi(userIdText).value, patch))
    ensures status == StatusOK ==>
              var id := Atoi(userIdText).value;
              store.users == old(store.users)[id := Merge(old(store.users)[id], patch)]
    ensures status != StatusOK ==> store.users == old(store.users)
    ensures store.tasks == old(store.tasks)
    ensures store.nextUserId == old(store.nextUserId) && store.nextTaskId == old(store.nextTaskId)
  {
    var userId := Atoi(userIdText);
    if userId.None? {
      return StatusUnprocessableEntity;
    }
    if |patch.passportNumber| > 0 {
      CheckPassportSpec(patch.passportNumber);
      if !CheckPassport(patch.passportNumber).Accepted? {
        return StatusBadRequest;
      }
    }
    var err := store.Update(userId.value, patch);
    status := UpdateStatus(err);
  }

  /** Update answers 404 for an unknown user, 409 when the number belongs to someone else, else 200. */
  lemma UpdateOutcome(users: map<int, User>, userId: int, patch: UserData)
    ensures UpdateStatus(UpdateError(users, userId, patch))
         == if userId !in users then StatusNotFound
            else if exists other :: other in users && other != userId
                                    && users[other].passportNumber == Merge(users[userId], patch).passportNumber
            then StatusConflict
            else StatusOK
  {
    if userId in users {
      var p := Merge(users[userId], patch).passportNumber;
      if exists other :: other in users && other != userId && users[other].passportNumber == p {
        var other :| other in users && other != userId && users[other].passportNumber == p;
        assert other in PassportHolders(users, p) - {userId};
      } else {
        assert PassportHolders(users, p) - {userId} == {};
      }
    }
  }

  // ---------------------------------------------------------------- the report period

  /** A date field of the request: left empty, a day (counted from 1 January 1970), or unparsable. */
  datatype DateField = NoDate | OnDay(day: int) | BadDate

  /** 1 January 1900, the default start of the period. */
  const Day1900: int := -25567

  const SecondsPerDay: int := 86400

  /** The first second of a day. */
  function DayStart(day: int): int
  {
    day * SecondsPerDay
  }

  /** The day a timestamp falls on. */
  function DayOf(t: int): int
  {
    t / SecondsPerDay
  }

  /** An empty start is 1 January 1900 and an empty end is today. */
  function DefaultPeriod(start: DateField, end: DateField, today: int): (period: (DateField, DateField))
    ensures !period.0.NoDate? && !period.1.NoDate?
    ensures start != NoDate ==> period.0 == start
    ensures end != NoDate ==> period.1 == end
    ensures end == NoDate ==> period.1 == OnDay(today)
  {
    (if start == NoDate then OnDay(Day1900) else start,
     if end == NoDate then OnDay(today) else end)
  }

  /**
   * `HandlerGetTasks` as written: both dates become their midnight, so the upper bound of
   * `end_time <= $3` is the first second of the end day. `None` is the 500 for a bad date.
   */
  function PeriodBoundsAsWritten(start: DateField, end: DateField, today: int): (r: Option<(int, int)>)
    ensures r.None? <==> start.BadDate? || end.BadDate?
    ensures r.Some? ==> DayOf(r.value.0) == DefaultPeriod(start, end, today).0.day && r.value.0 % SecondsPerDay == 0
    ensures r.Some? ==> DayOf(r.value.1) == DefaultPeriod(start, end, today).1.day && r.value.1 % SecondsPerDay == 0
  {
    var (s, e) := DefaultPeriod(start, end, today);
    if s.BadDate? || e.BadDate? then None else Some((DayStart(s.day), DayStart(e.day)))
  }

  /** The bounds with the whole end day included: up to the last second before the next midnight. */
  function PeriodBounds(start: DateField, end: DateField, today: int): (r: Option<(int, int)>)
    ensures r.None? <==> start.BadDate? || end.BadDate?
    ensures r.Some? ==> DayOf(r.value.0) == DefaultPeriod(start, end, today).0.day && r.value.0 % SecondsPerDay == 0
    ensures r.Some? ==> DayOf(r.value.1) == DefaultPeriod(start, end, today).1.day && DayOf(r.value.1 + 1) == DayOf(r.value.1) + 1
  {
    var (s, e) := DefaultPeriod(start, end, today);
    if s.BadDate? || e.BadDate? then None else Some((DayStart(s.day), DayStart(e.day + 1) - 1))
  }

  /** Any day's start is on that day, and a timestamp lies between its day's start and the next. */
  lemma DayBounds(t: int, day: int)
    ensures DayOf(DayStart(day)) == day
    ensures DayStart(DayOf(t)) <= t < DayStart(DayOf(t) + 1)
    ensures DayStart(day) <= t <==> day <= DayOf(t)
    ensures t <= DayStart(day + 1) - 1 <==> DayOf(t) <= day
  {
    var d := DayOf(t);
    assert t == d * SecondsPerDay + t % SecondsPerDay;
    if day <= d {
      assert day * SecondsPerDay <= d * SecondsPerDay;
    }
    if d <= day {
      assert (d + 1) * SecondsPerDay <= (day + 1) * SecondsPerDay;
    }
  }

  /** The task is the user's, and started and ended within the days `first` through `last`. */
  predicate WithinDays(t: Task, userId: int, first: int, last: int)
  {
    t.userId == userId && t.start.Some? && t.end.Some? && first <= DayOf(t.start.value) && DayOf(t.end.value) <= last
  }

  /**
   * With the bounds as written, a task is in the report exactly when it belongs to the user,
   * started on or after the start day, and ended no later than midnight at the start of the
   * end day; so a task that ends later on the end day is left out.
   */
  lemma PeriodBoundsAsWrittenSpec(t: Task, userId: int, start: DateField, end: DateField, today: int)
    requires PeriodBoundsAsWritten(start, end, today).Some?
    ensures var (s, e) := DefaultPeriod(start, end, today);
            var (from, to) := PeriodBoundsAsWritten(start, end, today).value;
            InPeriod(t, userId, from, to) <==> WithinDays(t, userId, s.day, e.day) && t.end.value <= DayStart(e.day)
    ensures var (s, e) := DefaultPeriod(start, end, today);
            var (from, to) := PeriodBoundsAsWritten(start, end, today).value;
            t.end.Some? && DayOf(t.end.value) == e.day && t.end.value > DayStart(e.day) ==> !InPeriod(t, userId, from, to)
  {
    var (s, e) := DefaultPeriod(start, end, today);
    if t.start.Some? && t.end.Some? {
      DayBounds(t.start.value, s.day);
      DayBounds(t.end.value, e.day - 1);
    }
  }

  /**
   * With the corrected bounds, a task is in the report exactly when it belongs to the user,
   * started on or after the start day and ended on or before the end day, at any time of day.
   */
  lemma PeriodBoundsSpec(t: Task, userId: int, start: DateField, end: DateField, today: int)
    requires PeriodBounds(start, end, today).Some?
    ensures var (s, e) := DefaultPeriod(start, end, today);
            var (from, to) := PeriodBounds(start, end, today).value;
            InPeriod(t, userId, from, to) <==> WithinDays(t, userId, s.day, e.day)
  {
    var (s, e) := DefaultPeriod(start, end, today);
    if t.start.Some? && t.end.Some? {
      DayBounds(t.start.value, s.day);
      DayBounds(t.end.value, e.day);
    }
  }

  /**
   * A task started at midnight today and stopped a minute later is missing from the default
   * report as written, and present with the corrected bound.
   */
  lemma DefaultPeriodMissesToday(today: int, t: Task)
    requires today >= Day1900
    requires t.start == Some(DayStart(today)) && t.end == Some(DayStart(today) + 60)
    ensures var (from, to) := PeriodBoundsAsWritten(NoDate, NoDate, today).value;
            !InPeriod(t, t.userId, from, to)
    ensures var (from, to) := PeriodBounds(NoDate, NoDate, today).value;
            InPeriod(t, t.userId, from, to)
  {
    assert DayStart(Day1900) <= DayStart(today);
    DayBounds(DayStart(today) + 60, today);
  }

  /**
   * `HandlerGetTasks` after the body is decoded: 422 for a bad id, 500 for a bad date, and
   * otherwise the report between the two midnights the dates are turned into.
   */
  method HandleGetTasks(store: PostgresStorage, userIdText: string, start: DateField, end: DateField, today: int)
    returns (status: int, report: seq<TaskSummary>)
    requires store.Valid()
    ensures Atoi(userIdText).None? ==> status == StatusUnprocessableEntity && report == []
    ensures Atoi(userIdText).Some? && PeriodBoundsAsWritten(start, end, today).None? ==>
              status == StatusInternalServerError && report == []
    ensures Atoi(userIdText).Some? && PeriodBoundsAsWritten(start, end, today).Some? ==>
              var (from, to) := PeriodBoundsAsWritten(start, end, today).value;
              var rows := PeriodRows(store.tasks, store.nextTaskId, Atoi(userIdText).value, from, to);
              && status == StatusOK && |report| == |rows|
              && forall k :: 0 <= k < |rows| ==>
                   rows[k].allTime >= 0 && report[k] == TaskSummary(rows[k].name, SecondToString(rows[k].allTime))
  {
    var userId := Atoi(userIdText);
    if userId.None? {
      return StatusUnprocessableEntity, [];
    }
    var bounds := PeriodBoundsAsWritten(start, end, today);
    if bounds.None? {
      return StatusInternalServerError, [];
    }
    var (from, to) := bounds.value;
    report := store.GetTasksUser(userId.value, from, to);
    status := StatusOK;
  }
}
