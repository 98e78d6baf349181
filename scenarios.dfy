/**
 * A client of the handlers: one user and two tasks driven through the service on a fresh
 * database, with the status of every request fixed by the handlers' contracts alone.
 */
module Scenarios {
  import opened Wrappers
  import opened Strconv
  import opened Models
  import opened Postgres
  import opened Handlers

  const Ivanov: UserData := UserData("", "", "", "Иванов", "Иван", "Иванович", "г. Москва, ул. Ленина, д. 5")

  /** Register a user (200), register the same passport again (409), send a four-digit number (422). */
  method Registration() returns (codes: seq<int>)
    ensures codes == [200, 409, 422]
  {
    var store := new PostgresStorage();
    var passport := "1234 567890";
    assert PassportShape(passport);
    var c1, u1 := HandleAddUser(store, passport, Some(Ivanov));
    assert store.users[1].passportNumber == passport[5..11];
    assert 1 in PassportHolders(store.users, passport[5..11]);
    var c2, u2 := HandleAddUser(store, passport, Some(Ivanov));
    assert !PassportShape("1234 5678");
    var c3, u3 := HandleAddUser(store, "1234 5678", Some(Ivanov));
    codes := [c1, c2, c3];
  }

  /** A store holding one user, id 1. */
  method OneUser() returns (store: PostgresStorage)
    ensures fresh(store) && store.Valid()
    ensures store.users.Keys == {1} && store.tasks == map[] && store.nextTaskId == 1
  {
    store := new PostgresStorage();
    var r := store.Create(Ivanov);
  }

  /** Add a task (200), start it (200) and again (409), stop it (200) and again (409). */
  method StartStop() returns (codes: seq<int>)
    ensures codes == [200, 200, 409, 200, 409]
  {
    var store := OneUser();
    assert Atoi("1") == Some(1);
    var c1, t1 := HandleAddTask(store, "1", "отчёт");
    assert store.tasks == map[1 := Task(1, 1, "отчёт", None, None, None)];
    var c2 := HandleStartTime(store, "1", 100);
    assert store.tasks == map[1 := Task(1, 1, "отчёт", Some(100), None, None)];
    var c3 := HandleStartTime(store, "1", 150);
    var c4 := HandleEndTime(store, "1", 400);
    assert store.tasks == map[1 := Task(1, 1, "отчёт", Some(100), Some(400), Some(300))];
    var c5 := HandleEndTime(store, "1", 500);
    codes := [c1, c2, c3, c4, c5];
  }

  /** Stop a task that never started (428), add a task for an unknown user (404), start task "abc" (422). */
  method Refusals() returns (codes: seq<int>)
    ensures codes == [428, 404, 422]
  {
    var store := OneUser();
    assert Atoi("1") == Some(1);
    var c0, t1 := HandleAddTask(store, "1", "ревью");
    var c1 := HandleEndTime(store, "1", 600);
    assert Atoi("7") == Some(7);
    var c2, t2 := HandleAddTask(store, "7", "чужая");
    assert Atoi("abc").None?;
    var c3 := HandleStartTime(store, "abc", 700);
    codes := [c1, c2, c3];
  }
}
