/** The records of internal/models/models.go and the rows of the `users` and `tasks` tables. */
module Models {
  import opened Wrappers

  /**
   * `models.UserData` as it arrives in a request: a registration, a partial update (an empty
   * field means "leave unchanged") or a filter (an empty field means "any value").
   */
  datatype UserData = UserData(
    userId: string,
    passportSeries: string,
    passportNumber: string,
    surname: string,
    name: string,
    patronymic: string,
    address: string)

  /** A row of the `users` table. */
  datatype User = User(
    id: int,
    passportNumber: string,
    surname: string,
    name: string,
    patronymic: string,
    address: string)

  /**
   * A row of the `tasks` table (`models.TaskData`). Timestamps are whole seconds; `allTime` is
   * the elapsed time in seconds (declared as a nullable time in the Go struct, but it holds a
   * number of seconds).
   */
  datatype Task = Task(
    id: int,
    userId: int,
    name: string,
    start: Option<int>,
    end: Option<int>,
    allTime: Option<int>)

  /** `models.TaskTime`: the period of a task report, as dates `DD.MM.YYYY`. */
  datatype TaskTime = TaskTime(start: string, end: string)

  /** `models.Tasks`: one line of a task report. */
  datatype TaskSummary = TaskSummary(name: string, allTime: string)

  /** The three states a task row passes through. */
  datatype Phase = Created | Started | Stopped

  function PhaseOf(t: Task): Phase
  {
    if t.start.None? then Created else if t.end.None? then Started else Stopped
  }

  function Rank(p: Phase): nat
  {
    match p
    case Created => 0
    case Started => 1
    case Stopped => 2
  }

  /**
   * What the store keeps true of every task row: no end without a start, the elapsed time is
   * present exactly when the end is, and then it is end minus start and not negative.
   */
  predicate Consistent(t: Task)
  {
    && (t.start.None? ==> t.end.None?)
    && (t.end.None? <==> t.allTime.None?)
    && (t.end.Some? ==> t.start.Some? && t.allTime.value == t.end.value - t.start.value >= 0)
  }
}

/** The errors internal/storage/postgres/db.go returns, one kind per message or driver error. */
module StoreErrors {

  datatype StoreError =
      /** `Read`, `Delete`: "пользователь с id %d не найден" (contains "не найден"). */
    | UserNotFound(userId: int)
      /** `ReadTask`: "задача с id %d не найдена" (contains "не найдена" and "не найден"). */
    | TaskNotFound(taskId: int)
      /** `AddStartTime`: "поле start_time уже заполнено" (contains "уже заполнено"). */
    | StartAlreadySet
      /** `AddEndTime`: "поле end_time уже заполнено" (contains "уже заполнено"). */
    | EndAlreadySet
      /** `AddEndTime`: "поле start_time не заполнено" (contains "не заполнено"). */
    | StartNotSet
      /** A driver error with PostgreSQL code 23505: the passport number is already stored. */
    | UniqueViolation
      /** Any other driver error, such as a rejected query parameter; its text matches none of the above. */
    | QueryFailed

  /** `strings.Contains(err.Error(), "не найден")`. */
  predicate SaysNotFound(e: StoreError) { e.UserNotFound? || e.TaskNotFound? }

  /** `strings.Contains(err.Error(), "не найдена")`. */
  predicate SaysTaskNotFound(e: StoreError) { e.TaskNotFound? }

  /** `strings.Contains(err.Error(), "уже заполнено")`. */
  predicate SaysAlreadyFilled(e: StoreError) { e.StartAlreadySet? || e.EndAlreadySet? }

  /** `strings.Contains(err.Error(), "не заполнено")`. */
  predicate SaysNotFilled(e: StoreError) { e.StartNotSet? }
}
