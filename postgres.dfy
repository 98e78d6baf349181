/**
 * internal/storage/postgres/db.go over an in-memory database: the `users` and `tasks` tables
 * are maps from id to row, the serial id sequences are counters, and PostgreSQL's `NOW()` is
 * the `now` the caller passes in. Each method makes the same checks in the same order as the
 * Go function it is named after.
 */
module Postgres {
  import opened Wrappers
  import opened Strconv
  import opened Validator
  import opened Models
  import opened StoreErrors
  import opened Queries

  // ---------------------------------------------------------------- table invariants

  /** The ids of the users whose passport number is `passport`. */
  function PassportHolders(users: map<int, User>, passport: string): set<int>
  {
    set id | id in users && users[id].passportNumber == passport
  }

  /** Rows keyed by their own id, ids drawn from the sequence, passport numbers unique. */
  predicate UsersWellFormed(users: map<int, User>, nextId: int)
  {
    && (forall id :: id in users ==> 1 <= id < nextId && users[id].id == id)
    && (forall a, b :: a in users && b in users && a != b ==> users[a].passportNumber != users[b].passportNumber)
  }

  predicate TasksWellFormed(tasks: map<int, Task>, nextId: int)
  {
    WellFormedTasks(tasks) && forall id :: id in tasks ==> 1 <= id < nextId
  }

  // ---------------------------------------------------------------- users

  /** The row `Create` inserts for `data` (the passport series is not a column). */
  function NewUser(id: int, data: UserData): User
  {
    User(id, data.passportNumber, data.surname, data.name, data.patronymic, data.address)
  }

  /** The updatable columns of a row, in the order `Update`'s SQL sets them. */
  function Columns(u: User): seq<string>
  {
    [u.passportNumber, u.surname, u.name, u.patronymic, u.address]
  }

  /** The incoming values for those columns. */
  function PatchColumns(patch: UserData): seq<string>
  {
    [patch.passportNumber, patch.surname, patch.name, patch.patronymic, patch.address]
  }

  /** `Update`'s merge: a non-empty incoming field replaces the stored one. */
  function Merge(u: User, patch: UserData): (r: User)
    ensures r.id == u.id
    ensures forall i :: 0 <= i < 5 ==>
              Columns(r)[i] == if PatchColumns(patch)[i] != "" then PatchColumns(patch)[i] else Columns(u)[i]
  {
    User(u.id,
         if patch.passportNumber != "" then patch.passportNumber else u.passportNumber,
         if patch.surname != "" then patch.surname else u.surname,
         if patch.name != "" then patch.name else u.name,
         if patch.patronymic != "" then patch.patronymic else u.patronymic,
         if patch.address != "" then patch.address else u.address)
  }

  /** Merging keeps the id, an empty patch changes nothing, and merging twice is merging once. */
  lemma MergeProperties(u: User, patch: UserData)
    ensures Merge(u, patch).id == u.id
    ensures Merge(Merge(u, patch), patch) == Merge(u, patch)
    ensures Merge(u, UserData(patch.userId, patch.passportSeries, "", "", "", "", "")) == u
    ensures patch.passportNumber != "" ==> Merge(u, patch).passportNumber == patch.passportNumber
    ensures patch.passportNumber == "" ==> Merge(u, patch).passportNumber == u.passportNumber
  {
  }

  /** The error `Update` returns: missing user first, then the passport uniqueness constraint. */
  function UpdateError(users: map<int, User>, userId: int, patch: UserData): (err: Option<StoreError>)
    ensures err == Some(UserNotFound(userId)) <==> userId !in users
    ensures err.None? <==> userId in users && PassportHolders(users, Merge(users[userId], patch).passportNumber) <= {userId}
    ensures err.Some? && userId in users ==> err == Some(UniqueViolation)
  {
    if userId !in users then Some(UserNotFound(userId))
    else if PassportHolders(users, Merge(users[userId], patch).passportNumber) - {userId} != {} then Some(UniqueViolation)
    else None
  }

  // ---------------------------------------------------------------- tasks

  /** The error `AddStartTime` returns. */
  function StartError(tasks: map<int, Task>, taskId: int): (err: Option<StoreError>)
    ensures err.None? <==> taskId in tasks && tasks[taskId].start.None?
    ensures err == Some(TaskNotFound(taskId)) <==> taskId !in tasks
    ensures err.Some? && taskId in tasks ==> err == Some(StartAlreadySet)
  {
    if taskId !in tasks then Some(TaskNotFound(taskId))
    else if tasks[taskId].start.Some? then Some(StartAlreadySet)
    else None
  }

  /** The error `AddEndTime` returns: missing task, then start unset, then end already set. */
  function EndError(tasks: map<int, Task>, taskId: int): (err: Option<StoreError>)
    ensures err.None? <==> taskId in tasks && tasks[taskId].start.Some? && tasks[taskId].end.None?
    ensures err == Some(TaskNotFound(taskId)) <==> taskId !in tasks
    ensures err == Some(StartNotSet) <==> taskId in tasks && tasks[taskId].start.None?
    ensures err == Some(EndAlreadySet) <==> taskId in tasks && tasks[taskId].start.Some? && tasks[taskId].end.Some?
  {
    if taskId !in tasks then Some(TaskNotFound(taskId))
    else if tasks[taskId].start.None? then Some(StartNotSet)
    else if tasks[taskId].end.Some? then Some(EndAlreadySet)
    else None
  }

  /**
   * `ReadTask` as written: `all_time` holds the seconds `EXTRACT(EPOCH …)` stored there, but
   * is scanned into an `sql.NullTime`, which refuses every non-NULL number. Reading a task
   * that has a duration therefore fails with that scan error, a driver error here.
   */
  function ReadTaskErrorAsWritten(tasks: map<int, Task>, taskId: int): (err: Option<StoreError>)
    ensures err.None? <==> taskId in tasks && tasks[taskId].allTime.None?
    ensures taskId !in tasks ==> err == Some(TaskNotFound(taskId))
    ensures taskId in tasks && tasks[taskId].allTime.Some? ==> err == Some(QueryFailed)
  {
    if taskId !in tasks then Some(TaskNotFound(taskId))
    else if tasks[taskId].allTime.Some? then Some(QueryFailed)
    else None
  }

  /** The error `AddStartTime` returns as written: its `ReadTask` call fails first. */
  function StartErrorAsWritten(tasks: map<int, Task>, taskId: int): (err: Option<StoreError>)
    ensures taskId in tasks && tasks[taskId].allTime.Some? ==> err == Some(QueryFailed)
    ensures !(taskId in tasks && tasks[taskId].allTime.Some?) ==> err == StartError(tasks, taskId)
  {
    var read := ReadTaskErrorAsWritten(tasks, taskId);
    if read.Some? then read else StartError(tasks, taskId)
  }

  /** The error `AddEndTime` returns as written: its `ReadTask` call fails first. */
  function EndErrorAsWritten(tasks: map<int, Task>, taskId: int): (err: Option<StoreError>)
    ensures taskId in tasks && tasks[taskId].allTime.Some? ==> err == Some(QueryFailed)
    ensures !(taskId in tasks && tasks[taskId].allTime.Some?) ==> err == EndError(tasks, taskId)
  {
    var read := ReadTaskErrorAsWritten(tasks, taskId);
    if read.Some? then read else EndError(tasks, taskId)
  }

  /** Starting succeeds exactly on a created task; otherwise the start is already recorded. */
  lemma StartErrorByPhase(tasks: map<int, Task>, taskId: int)
    requires WellFormedTasks(tasks)
    ensures StartError(tasks, taskId)
         == if taskId !in tasks then Some(TaskNotFound(taskId))
            else if PhaseOf(tasks[taskId]) == Created then None
            else Some(StartAlreadySet)
  {
  }

  /** Stopping succeeds exactly on a started task: a created one has no start, a stopped one an end. */
  lemma EndErrorByPhase(tasks: map<int, Task>, taskId: int)
    requires WellFormedTasks(tasks)
    ensures EndError(tasks, taskId)
         == if taskId !in tasks then Some(TaskNotFound(taskId))
            else match PhaseOf(tasks[taskId])
              case Created => Some(StartNotSet)
              case Started => None
              case Stopped => Some(EndAlreadySet)
  {
  }

  /**
   * What a later version of a task row may look like: the same id, owner and name, a recorded
   * start or end (with its duration) kept as it was, and a phase no earlier than before.
   */
  predicate TaskSucceeds(a: Task, b: Task)
  {
    && a.id == b.id && a.userId == b.userId && a.name == b.name
    && (a.start.Some? ==> b.start == a.start)
    && (a.end.Some? ==> b.end == a.end && b.allTime == a.allTime)
    && Rank(PhaseOf(a)) <= Rank(PhaseOf(b))
  }

  /** No task row disappears, and every row evolves as `TaskSucceeds` allows. */
  predicate TasksEvolve(before: map<int, Task>, after: map<int, Task>)
  {
    && before.Keys <= after.Keys
    && forall id :: id in before ==> TaskSucceeds(before[id], after[id])
  }

  /** Evolving is preserved along any sequence of calls: nothing recorded is ever cleared or overwritten. */
  lemma TasksEvolveTransitive(a: map<int, Task>, b: map<int, Task>, c: map<int, Task>)
    requires TasksEvolve(a, b) && TasksEvolve(b, c)
    ensures TasksEvolve(a, c)
  {
  }

  // ---------------------------------------------------------------- the user listing query text

  /** The driver arguments for the filter conditions, one per condition, in order. */
  function FilterArgs(conds: seq<(string, string)>): (args: seq<SqlArg>)
    ensures |args| == |conds|
    ensures forall i :: 0 <= i < |conds| ==> args[i] == TextArg(conds[i].1)
  {
    seq(|conds|, i requires 0 <= i < |conds| => TextArg(conds[i].1))
  }

  lemma AppendCondition(query: string, conds: seq<(string, string)>, column: string, value: string)
    requires query == SelectUsersPrefix + WhereClause(conds, 1)
    ensures query + (" AND " + column + " = $" + Itoa(|conds| + 1))
         == SelectUsersPrefix + WhereClause(conds + [(column, value)], 1)
  {
    var c := (column, value);
    var cond := " AND " + column + " = $" + Itoa(|conds| + 1);
    WhereClauseSnoc(conds, c, 1);
    assert Condition(c, 1 + |conds|) == cond;
    ConcatAssoc(SelectUsersPrefix, WhereClause(conds, 1), cond);
  }

  lemma FilterArgsSnoc(conds: seq<(string, string)>, c: (string, string))
    ensures FilterArgs(conds + [c]) == FilterArgs(conds) + [TextArg(c.1)]
  {
    assert |FilterArgs(conds + [c])| == |conds| + 1;
  }

  lemma PagingText(query: string, k: int)
    ensures query + " ORDER BY id ASC" + (" LIMIT $" + Itoa(k) + " OFFSET $" + Itoa(k + 1)) == query + PagingClause(k)
  {
    var limits := " LIMIT $" + Itoa(k) + " OFFSET $" + Itoa(k + 1);
    assert query + " ORDER BY id ASC" + limits == query + (" ORDER BY id ASC" + limits);
  }

  lemma PagingArgs(conds: seq<(string, string)>, args: seq<SqlArg>, limit: int, offset: int)
    requires args == FilterArgs(conds)
    ensures var all := args + [IntArg(limit), IntArg(offset)];
            && |all| == |conds| + 2
            && (forall i :: 0 <= i < |conds| ==> all[i] == TextArg(conds[i].1))
            && all[|conds|] == IntArg(limit) && all[|conds| + 1] == IntArg(offset)
  {
  }

  /** The query text, arguments and next placeholder number once the conditions `conds` are added. */
  ghost predicate Built(query: string, args: seq<SqlArg>, argCounter: int, conds: seq<(string, string)>)
  {
    query == SelectUsersPrefix + WhereClause(conds, 1) && args == FilterArgs(conds) && argCounter == |conds| + 1
  }

  /**
   * One `if dataFilter.X != ""` block of `GetUsers`, for the `k`-th filter field: the
   * conditions and arguments collected so far are those of the non-empty fields before it.
   */
  method AddCondition(query: string, args: seq<SqlArg>, argCounter: int,
                      ghost fields: seq<(string, string)>, ghost k: int, column: string, value: string)
    returns (query': string, args': seq<SqlArg>, argCounter': int)
    requires 0 <= k < |fields| && fields[k] == (column, value)
    requires Built(query, args, argCounter, NonEmpty(fields[..k]))
    ensures Built(query', args', argCounter', NonEmpty(fields[..k + 1]))
  {
    ghost var conds := NonEmpty(fields[..k]);
    NonEmptyPrefix(fields, k);
    query', args', argCounter' := query, args, argCounter;
    if value != "" {
      query' := query + (" AND " + column + " = $" + Itoa(argCounter));
      args' := args + [TextArg(value)];
      argCounter' := argCounter + 1;
      AppendCondition(query, conds, column, value);
      FilterArgsSnoc(conds, (column, value));
    } else {
      assert conds + [] == conds;
    }
  }

  /** The first three `if` blocks of `GetUsers`: id, passport number and surname. */
  method PersonFilters(filter: UserData) returns (query: string, args: seq<SqlArg>, argCounter: int)
    ensures Built(query, args, argCounter, NonEmpty(FilterFields(filter)[..3]))
  {
    query := SelectUsersPrefix;
    args := [];
    argCounter := 1;
    ghost var fs := FilterFields(filter);
    assert NonEmpty(fs[..0]) == [];
    assert Built(query, args, argCounter, NonEmpty(fs[..0]));
    query, args, argCounter := AddCondition(query, args, argCounter, fs, 0, "id", filter.userId);
    query, args, argCounter := AddCondition(query, args, argCounter, fs, 1, "passport_number", filter.passportNumber);
    query, args, argCounter := AddCondition(query, args, argCounter, fs, 2, "surname", filter.surname);
  }

  /** The WHERE part of `GetUsers`: one condition and one argument per non-empty filter field. */
  method FilterQuery(filter: UserData) returns (query: string, args: seq<SqlArg>, argCounter: int)
    ensures var conds := ActiveFilters(filter);
            && query == SelectUsersPrefix + WhereClause(conds, 1)
            && args == FilterArgs(conds)
            && argCounter == |conds| + 1
  {
    query, args, argCounter := PersonFilters(filter);
    ghost var fs := FilterFields(filter);
    query, args, argCounter := AddCondition(query, args, argCounter, fs, 3, "name", filter.name);
    query, args, argCounter := AddCondition(query, args, argCounter, fs, 4, "patronymic", filter.patronymic);
    query, args, argCounter := AddCondition(query, args, argCounter, fs, 5, "address", filter.address);
    assert fs[..6] == fs;
  }

  /**
   * The text and arguments `GetUsers` sends: one `AND column = $k` per non-empty filter field,
   * numbered 1..n, then `ORDER BY id ASC` and LIMIT/OFFSET on `$(n+1)` and `$(n+2)`, with
   * `offset = (page - 1) * limit`.
   */
  method UsersQuery(filter: UserData, page: int, limit: int) returns (query: string, args: seq<SqlArg>)
    ensures var conds := ActiveFilters(filter);
            var n := |conds|;
            && query == SelectUsersPrefix + WhereClause(conds, 1) + PagingClause(n + 1)
            && |args| == n + 2
            && (forall i :: 0 <= i < n ==> args[i] == TextArg(conds[i].1))
            && args[n] == IntArg(limit)
            && args[n + 1] == IntArg(Offset(page, limit))
  {
    var argCounter;
    query, args, argCounter := FilterQuery(filter);
    ghost var conds := ActiveFilters(filter);
    ghost var where := query;

    var offset := Wrap64((page - 1) * limit);
    query := query + " ORDER BY id ASC";
    query := query + (" LIMIT $" + Itoa(argCounter) + " OFFSET $" + Itoa(argCounter + 1));
    PagingText(where, argCounter);
    ghost var filterArgs := args;
    args := args + [IntArg(limit), IntArg(offset)];
    PagingArgs(conds, filterArgs, limit, offset);
  }

  /** The scan loop of `GetTasksUser`: one report line per row, in row order. */
  method RenderRows(rows: seq<TaskRow>) returns (result: seq<TaskSummary>)
    requires forall k :: 0 <= k < |rows| ==> rows[k].allTime >= 0
    ensures |result| == |rows|
    ensures forall k :: 0 <= k < |rows| ==> result[k] == TaskSummary(rows[k].name, SecondToString(rows[k].allTime))
  {
    result := [];
    var i := 0;
    while i < |rows|
      invariant 0 <= i <= |rows| && |result| == i
      invariant forall k :: 0 <= k < i ==> result[k] == TaskSummary(rows[k].name, SecondToString(rows[k].allTime))
    {
      var line := TaskSummary(rows[i].name, SecondToString(rows[i].allTime));
      result := result + [line];
      i := i + 1;
    }
  }

  // ---------------------------------------------------------------- the store

  class PostgresStorage {
    var users: map<int, User>
    var tasks: map<int, Task>
    /** The next values of the `users.id` and `tasks.id` sequences. */
    var nextUserId: int
    var nextTaskId: int

    ghost predicate Valid()
      reads this
    {
      && 1 <= nextUserId && 1 <= nextTaskId
      && UsersWellFormed(users, nextUserId)
      && TasksWellFormed(tasks, nextTaskId)
    }

    /** A freshly migrated database: both tables empty. */
    constructor ()
      ensures Valid()
      ensures users == map[] && tasks == map[]
      ensures nextUserId == 1 && nextTaskId == 1
    {
      users, tasks := map[], map[];
      nextUserId, nextTaskId := 1, 1;
    }

    /**
     * `Create`: insert the user and return the new id; a passport number already stored
     * violates the unique constraint. The sequence advances even when the insert fails.
     */
    method Create(data: UserData) returns (r: Result<int, StoreError>)
      requires Valid()
      modifies this
      ensures Valid()
      ensures r.Err? <==> PassportHolders(old(users), data.passportNumber) != {}
      ensures r.Err? ==> r.error == UniqueViolation && users == old(users)
      ensures r.Ok? ==> r.value == old(nextUserId) && r.value !in old(users)
                        && users == old(users)[r.value := NewUser(r.value, data)]
      ensures nextUserId == old(nextUserId) + 1
      ensures tasks == old(tasks) && nextTaskId == old(nextTaskId)
    {
      var id := nextUserId;
      nextUserId := nextUserId + 1;
      if PassportHolders(users, data.passportNumber) != {} {
        return Err(UniqueViolation);
      }
      forall a | a in users ensures users[a].passportNumber != data.passportNumber {
        assert a !in PassportHolders(users, data.passportNumber);
      }
      users := users[id := NewUser(id, data)];
      r := Ok(id);
    }

    /** `Read`: the user's row, or "пользователь с id … не найден". */
    method Read(userId: int) returns (r: Result<User, StoreError>)
      requires Valid()
      ensures r.Ok? <==> userId in users
      ensures r.Ok? ==> r.value == users[userId] && r.value.id == userId
      ensures r.Err? ==> r.error == UserNotFound(userId)
    {
      if userId in users {
        r := Ok(users[userId]);
      } else {
        r := Err(UserNotFound(userId));
      }
    }

    /**
     * `Update`: read the user (its error is passed on), replace the fields the patch fills in,
     * write every column back; a passport number held by another user violates the unique
     * constraint. Errors change nothing.
     */
    method Update(userId: int, userData: UserData) returns (err: Option<StoreError>)
      requires Valid()
      modifies this
      ensures Valid()
      ensures err == UpdateError(old(users), userId, userData)
      ensures err.None? ==> users == old(users)[userId := Merge(old(users)[userId], userData)]
      ensures err.Some? ==> users == old(users)
      ensures tasks == old(tasks) && nextUserId == old(nextUserId) && nextTaskId == old(nextTaskId)
    {
      var read := Read(userId);
      if read.Err? {
        return Some(read.error);
      }
      var data := read.value;
      if userData.passportNumber != "" {
        data := data.(passportNumber := userData.passportNumber);
      }
      if userData.surname != "" {
        data := data.(surname := userData.surname);
      }
      if userData.name != "" {
        data := data.(name := userData.name);
      }
      if userData.patronymic != "" {
        data := data.(patronymic := userData.patronymic);
      }
      if userData.address != "" {
        data := data.(address := userData.address);
      }
      assert data == Merge(users[userId], userData);
      if PassportHolders(users, data.passportNumber) - {userId} != {} {
        return Some(UniqueViolation);
      }
      forall a | a in users && a != userId ensures users[a].passportNumber != data.passportNumber {
        assert a !in PassportHolders(users, data.passportNumber) - {userId};
      }
      users := users[userId := data];
      err := None;
    }

    /** `Delete`: remove the user's row; no row removed is "пользователь с id … не найден". */
    method Delete(userId: int) returns (err: Option<StoreError>)
      requires Valid()
      modifies this
      ensures Valid()
      ensures userId in old(users) ==> err.None? && users == old(users) - {userId}
      ensures userId !in old(users) ==> err == Some(UserNotFound(userId)) && users == old(users)
      ensures tasks == old(tasks) && nextUserId == old(nextUserId) && nextTaskId == old(nextTaskId)
    {
      if userId !in users {
        return Some(UserNotFound(userId));
      }
      users := users - {userId};
      err := None;
    }

    /** `GetUsers`: build the query, then run it; rows come back ordered by id. */
    method GetUsers(dataFilter: UserData, page: int, limit: int) returns (r: Result<seq<User>, StoreError>)
      requires Valid()
      ensures r == RunUsersQuery(users, nextUserId, dataFilter, limit, Offset(page, limit))
    {
      var query, args := UsersQuery(dataFilter, page, limit);
      var n := |args| - 2;
      r := RunUsersQuery(users, nextUserId, dataFilter, args[n].number, args[n + 1].number);
    }

    /** `CreateTask`: the owner must exist (its `Read` error is passed on); the new task is not started. */
    method CreateTask(userId: int, nameTask: string) returns (r: Result<int, StoreError>)
      requires Valid()
      modifies this
      ensures Valid()
      ensures r.Err? <==> userId !in old(users)
      ensures r.Err? ==> r.error == UserNotFound(userId) && tasks == old(tasks)
      ensures r.Ok? ==> (r.value == old(nextTaskId) && r.value !in old(tasks)
                         && tasks == old(tasks)[r.value := Task(r.value, userId, nameTask, None, None, None)]
                         && PhaseOf(tasks[r.value]) == Created)
      ensures TasksEvolve(old(tasks), tasks)
      ensures nextTaskId == if r.Ok? then old(nextTaskId) + 1 else old(nextTaskId)
      ensures users == old(users) && nextUserId == old(nextUserId)
    {
      var read := Read(userId);
      if read.Err? {
        return Err(read.error);
      }
      var taskId := nextTaskId;
      tasks := tasks[taskId := Task(taskId, userId, nameTask, None, None, None)];
      nextTaskId := nextTaskId + 1;
      r := Ok(taskId);
    }

    /** `ReadTask`: the task's row, or "задача с id … не найдена". */
    method ReadTask(taskId: int) returns (r: Result<Task, StoreError>)
      requires Valid()
      ensures r.Ok? <==> taskId in tasks
      ensures r.Ok? ==> r.value == tasks[taskId] && r.value.id == taskId && Consistent(r.value)
      ensures r.Err? ==> r.error == TaskNotFound(taskId)
    {
      if taskId in tasks {
        r := Ok(tasks[taskId]);
      } else {
        r := Err(TaskNotFound(taskId));
      }
    }

    /**
     * `AddStartTime`: a missing task is not found, a recorded start is "уже заполнено", and
     * otherwise the start becomes `now` and nothing else changes.
     */
    method AddStartTime(taskId: int, now: int) returns (err: Option<StoreError>)
      requires Valid()
      modifies this
      ensures Valid()
      ensures err == StartError(old(tasks), taskId)
      ensures err.Some? ==> tasks == old(tasks)
      ensures err.None? ==> tasks == old(tasks)[taskId := old(tasks)[taskId].(start := Some(now))]
      ensures err.None? ==> PhaseOf(old(tasks)[taskId]) == Created && PhaseOf(tasks[taskId]) == Started
      ensures TasksEvolve(old(tasks), tasks)
      ensures users == old(users) && nextUserId == old(nextUserId) && nextTaskId == old(nextTaskId)
    {
      var task := ReadTask(taskId);
      if task.Err? {
        return Some(task.error);
      }
      if task.value.start.None? {
        // UPDATE tasks SET start_time = NOW() WHERE id = $1 AND start_time IS NULL
        if tasks[taskId].start.None? {
          tasks := tasks[taskId := tasks[taskId].(start := Some(now))];
        }
      } else {
        return Some(StartAlreadySet);
      }
      err := None;
    }

    /**
     * `AddEndTime`: a missing task is not found, an unset start is "не заполнено", a recorded
     * end is "уже заполнено"; otherwise the end becomes `now` and the duration `now - start`.
     * The database clock is required not to run backwards past the recorded start.
     */
    method AddEndTime(taskId: int, now: int) returns (err: Option<StoreError>)
      requires Valid()
      requires taskId in tasks && tasks[taskId].start.Some? ==> tasks[taskId].start.value <= now
      modifies this
      ensures Valid()
      ensures err == EndError(old(tasks), taskId)
      ensures err.Some? ==> tasks == old(tasks)
      ensures err.None? ==> var t := old(tasks)[taskId];
                            tasks == old(tasks)[taskId := t.(end := Some(now), allTime := Some(now - t.start.value))]
      ensures err.None? ==> (PhaseOf(old(tasks)[taskId]) == Started && PhaseOf(tasks[taskId]) == Stopped
                             && tasks[taskId].allTime.value >= 0)
      ensures TasksEvolve(old(tasks), tasks)
      ensures users == old(users) && nextUserId == old(nextUserId) && nextTaskId == old(nextTaskId)
    {
      var task := ReadTask(taskId);
      if task.Err? {
        return Some(task.error);
      }
      if task.value.start.Some? {
        if task.value.end.None? {
          // UPDATE tasks SET end_time = NOW(), all_time = EXTRACT(EPOCH FROM NOW() - start_time) WHERE id = $1
          var row := tasks[taskId];
          tasks := tasks[taskId := row.(end := Some(now), allTime := Some(now - row.start.value))];
        } else {
          return Some(EndAlreadySet);
        }
      } else {
        return Some(StartNotSet);
      }
      err := None;
    }

    /**
     * `GetTasksUser`: the period query, then one report line per row, the duration rendered
     * by `SecondToString`.
     */
    method GetTasksUser(userId: int, from: int, to: int) returns (result: seq<TaskSummary>)
      requires Valid()
      ensures var rows := PeriodRows(tasks, nextTaskId, userId, from, to);
              && |result| == |rows|
              && forall k :: 0 <= k < |rows| ==>
                   rows[k].allTime >= 0 && result[k] == TaskSummary(rows[k].name, SecondToString(rows[k].allTime))
    {
      var rows := PeriodRows(tasks, nextTaskId, userId, from, to);
      PeriodRowsDurations(tasks, nextTaskId, userId, from, to);
      result := RenderRows(rows);
    }
  }
}
