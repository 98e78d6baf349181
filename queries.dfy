/**
 * What PostgreSQL computes for the statements internal/storage/postgres/db.go sends: the text
 * and arguments of the user listing query, the rows it selects, and the rows of the period
 * report. Tables are maps from id to row; ids are the serial values 1, 2, ... below a bound.
 */
module Queries {
  import opened Wrappers
  import opened Strconv
  import opened Models
  import opened StoreErrors

  /** A query argument as the driver receives it. */
  datatype SqlArg = TextArg(text: string) | IntArg(number: int)

  // ---------------------------------------------------------------- the user listing query

  const SelectUsersPrefix: string := "SELECT * FROM users WHERE 1=1"

  /** The filterable columns with the filter's value for each, in the order `GetUsers` tests them. */
  function FilterFields(f: UserData): seq<(string, string)>
  {
    [("id", f.userId), ("passport_number", f.passportNumber), ("surname", f.surname),
     ("name", f.name), ("patronymic", f.patronymic), ("address", f.address)]
  }

  function Keep(c: (string, string)): seq<(string, string)>
  {
    if c.1 != "" then [c] else []
  }

  /** The pairs of `fs` whose value is non-empty, in order. */
  function NonEmpty(fs: seq<(string, string)>): (r: seq<(string, string)>)
    ensures |r| <= |fs|
    decreases |fs|
  {
    if fs == [] then [] else Keep(fs[0]) + NonEmpty(fs[1..])
  }

  /** A pair is kept exactly when it is one of `fs` and its value is non-empty. */
  lemma {:induction false} NonEmptySpec(fs: seq<(string, string)>, c: (string, string))
    ensures c in NonEmpty(fs) <==> c in fs && c.1 != ""
    decreases |fs|
  {
    if fs != [] {
      NonEmptySpec(fs[1..], c);
      assert fs == [fs[0]] + fs[1..];
    }
  }

  /** The (column, value) pairs that become conditions: the non-empty fields, in order. */
  function ActiveFilters(f: UserData): seq<(string, string)>
  {
    NonEmpty(FilterFields(f))
  }

  /** A field becomes a condition exactly when it is non-empty; nothing else does. */
  lemma ActiveFiltersSpec(f: UserData, c: (string, string))
    ensures |ActiveFilters(f)| <= 6
    ensures c in ActiveFilters(f) <==> c in FilterFields(f) && c.1 != ""
  {
    NonEmptySpec(FilterFields(f), c);
  }

  /** Keeping the pairs of a longer prefix keeps one more pair at most. */
  lemma {:induction false} NonEmptySnoc(fs: seq<(string, string)>, c: (string, string))
    ensures NonEmpty(fs + [c]) == NonEmpty(fs) + Keep(c)
    decreases |fs|
  {
    if fs == [] {
      assert [] + [c] == [c];
      assert NonEmpty([c]) == Keep(c) + NonEmpty([]);
    } else {
      assert (fs + [c])[0] == fs[0] && (fs + [c])[1..] == fs[1..] + [c];
      NonEmptySnoc(fs[1..], c);
    }
  }

  lemma NonEmptyPrefix(fs: seq<(string, string)>, k: int)
    requires 0 <= k < |fs|
    ensures NonEmpty(fs[..k + 1]) == NonEmpty(fs[..k]) + Keep(fs[k])
  {
    assert fs[..k + 1] == fs[..k] + [fs[k]];
    NonEmptySnoc(fs[..k], fs[k]);
  }

  /** `" AND <column> = $<k>"`. */
  function Condition(c: (string, string), k: int): string
  {
    " AND " + c.0 + " = $" + Itoa(k)
  }

  /** The conditions for `conds`, numbered from placeholder `k` on. */
  function WhereClause(conds: seq<(string, string)>, k: int): string
    decreases |conds|
  {
    if conds == [] then "" else Condition(conds[0], k) + WhereClause(conds[1..], k + 1)
  }

  lemma TailOfAppend<T>(a: seq<T>, b: seq<T>)
    requires a != []
    ensures a + b != [] && (a + b)[0] == a[0] && (a + b)[1..] == a[1..] + b
  {
  }

  lemma ConcatAssoc<T>(x: seq<T>, y: seq<T>, z: seq<T>)
    ensures x + (y + z) == x + y + z
  {
  }

  /** The first condition of `a + b` is `a`'s first, and the rest continue from `a`'s tail. */
  lemma WhereClauseCons(a: seq<(string, string)>, b: seq<(string, string)>, k: int)
    requires a != []
    ensures WhereClause(a + b, k) == Condition(a[0], k) + WhereClause(a[1..] + b, k + 1)
    ensures WhereClause(a, k) == Condition(a[0], k) + WhereClause(a[1..], k + 1)
  {
    TailOfAppend(a, b);
  }

  /** With nothing before it, a list keeps its own numbering. */
  lemma WhereClauseNil(a: seq<(string, string)>, b: seq<(string, string)>, k: int)
    requires a == []
    ensures WhereClause(a + b, k) == WhereClause(a, k) + WhereClause(b, k + |a|)
  {
    assert a + b == b;
  }

  /** One step of the induction: the property for `a`'s tail gives it for `a`. */
  lemma WhereClauseAppendStep(a: seq<(string, string)>, b: seq<(string, string)>, k: int)
    requires a != []
    requires WhereClause(a[1..] + b, k + 1) == WhereClause(a[1..], k + 1) + WhereClause(b, k + 1 + |a[1..]|)
    ensures WhereClause(a + b, k) == WhereClause(a, k) + WhereClause(b, k + |a|)
  {
    WhereClauseCons(a, b, k);
    assert k + 1 + |a[1..]| == k + |a|;
    Regroup(WhereClause(a + b, k), Condition(a[0], k), WhereClause(a[1..] + b, k + 1),
            WhereClause(a[1..], k + 1), WhereClause(b, k + |a|), WhereClause(a, k));
  }

  /** Conditions for consecutive lists continue the numbering. */
  lemma {:induction false} WhereClauseAppend(a: seq<(string, string)>, b: seq<(string, string)>, k: int)
    ensures WhereClause(a + b, k) == WhereClause(a, k) + WhereClause(b, k + |a|)
    decreases |a|
  {
    if a == [] {
      WhereClauseNil(a, b, k);
    } else {
      WhereClauseAppend(a[1..], b, k + 1);
      WhereClauseAppendStep(a, b, k);
    }
  }

  /** If `w` is `c` then `x`, `x` is `r` then `t`, and `y` is `c` then `r`, then `w` is `y` then `t`. */
  lemma Regroup<T>(w: seq<T>, c: seq<T>, x: seq<T>, r: seq<T>, t: seq<T>, y: seq<T>)
    requires w == c + x && x == r + t && y == c + r
    ensures w == y + t
  {
    ConcatAssoc(c, r, t);
  }

  lemma {:induction false} WhereClauseSnoc(conds: seq<(string, string)>, c: (string, string), k: int)
    ensures WhereClause(conds + [c], k) == WhereClause(conds, k) + Condition(c, k + |conds|)
  {
    WhereClauseAppend(conds, [c], k);
    assert WhereClause([c], k + |conds|) == Condition(c, k + |conds|) + WhereClause([], k + |conds| + 1);
  }

  /** A condition between two lists is numbered after the first list. */
  lemma {:induction false} WhereClauseAround(conds: seq<(string, string)>, p: seq<(string, string)>, c: (string, string),
                                            b: seq<(string, string)>, k: int)
    requires conds == p + [c] + b
    ensures WhereClause(conds, k) == WhereClause(p, k) + Condition(c, k + |p|) + WhereClause(b, k + |p| + 1)
  {
    WhereClauseAppend(p + [c], b, k);
    WhereClauseSnoc(p, c, k);
  }

  lemma SliceAround<T>(s: seq<T>, i: int)
    requires 0 <= i < |s|
    ensures s == s[..i] + [s[i]] + s[i + 1..]
  {
  }

  /** Placeholders are consecutive: the i-th condition uses `$(k + i)`. */
  lemma {:induction false} WhereClauseAt(conds: seq<(string, string)>, k: int, i: int)
    requires 0 <= i < |conds|
    ensures WhereClause(conds, k)
         == WhereClause(conds[..i], k) + Condition(conds[i], k + i) + WhereClause(conds[i + 1..], k + i + 1)
  {
    SliceAround(conds, i);
    WhereClauseAround(conds, conds[..i], conds[i], conds[i + 1..], k);
  }

  /** `" ORDER BY id ASC"`, then LIMIT and OFFSET on placeholders `k` and `k + 1`. */
  function PagingClause(k: int): string
  {
    " ORDER BY id ASC" + (" LIMIT $" + Itoa(k) + " OFFSET $" + Itoa(k + 1))
  }

  /** Go's 64-bit `int` arithmetic wraps around. */
  function Wrap64(x: int): (r: int)
    ensures IsInt64(r)
    ensures IsInt64(x) ==> r == x
    ensures (x - r) % 0x1_0000_0000_0000_0000 == 0
  {
    (x - MinInt64) % 0x1_0000_0000_0000_0000 + MinInt64
  }

  /** `offset := (page - 1) * limit`, computed in 64 bits. */
  function Offset(page: int, limit: int): (r: int)
    ensures IsInt64(r)
    ensures IsInt64((page - 1) * limit) ==> r == (page - 1) * limit
  {
    Wrap64((page - 1) * limit)
  }

  // ---------------------------------------------------------------- rows of the user listing

  /** PostgreSQL must read the id filter as an integer; otherwise the query fails. */
  predicate IdFilterReadable(f: UserData)
  {
    f.userId == "" || Atoi(f.userId).Some?
  }

  /** The conjunction of `field = value` over the non-empty filter fields. */
  predicate Matches(u: User, f: UserData)
    requires IdFilterReadable(f)
  {
    && (f.userId == "" || Atoi(f.userId).value == u.id)
    && (f.passportNumber == "" || f.passportNumber == u.passportNumber)
    && (f.surname == "" || f.surname == u.surname)
    && (f.name == "" || f.name == u.name)
    && (f.patronymic == "" || f.patronymic == u.patronymic)
    && (f.address == "" || f.address == u.address)
  }

  predicate KeyedById(users: map<int, User>)
  {
    forall id :: id in users ==> users[id].id == id
  }

  /** The matching users with ids in [lo, hi), ordered by id ascending. */
  function SelectUsers(users: map<int, User>, f: UserData, lo: int, hi: int): (rows: seq<User>)
    requires IdFilterReadable(f) && KeyedById(users)
    ensures forall i :: 0 <= i < |rows| ==>
              lo <= rows[i].id < hi && rows[i].id in users && users[rows[i].id] == rows[i] && Matches(rows[i], f)
    ensures forall i, j :: 0 <= i < j < |rows| ==> rows[i].id < rows[j].id
    ensures forall id :: lo <= id < hi && id in users && Matches(users[id], f) ==> users[id] in rows
    decreases hi - lo
  {
    if lo >= hi then []
    else (if lo in users && Matches(users[lo], f) then [users[lo]] else []) + SelectUsers(users, f, lo + 1, hi)
  }

  /** LIMIT and OFFSET: skip `offset` rows, then keep at most `limit`. */
  function Window(rows: seq<User>, offset: nat, limit: nat): (r: seq<User>)
    ensures |r| == if offset >= |rows| then 0 else if offset + limit >= |rows| then |rows| - offset else limit
    ensures forall i :: 0 <= i < |r| ==> offset + i < |rows| && r[i] == rows[offset + i]
  {
    if offset >= |rows| then [] else if offset + limit >= |rows| then rows[offset..] else rows[offset..offset + limit]
  }

  /**
   * `SELECT * FROM users WHERE <filter> ORDER BY id ASC LIMIT limit OFFSET offset` over the
   * users with ids below `bound`. PostgreSQL refuses an id filter that is not an integer and a
   * negative LIMIT or OFFSET.
   */
  function RunUsersQuery(users: map<int, User>, bound: int, f: UserData, limit: int, offset: int)
    : (r: Result<seq<User>, StoreError>)
    requires KeyedById(users)
    ensures r.Err? <==> !IdFilterReadable(f) || limit < 0 || offset < 0
    ensures r.Err? ==> r.error == QueryFailed
    ensures r.Ok? ==> |r.value| <= limit
  {
    if !IdFilterReadable(f) then Err(QueryFailed)
    else if limit < 0 || offset < 0 then Err(QueryFailed)
    else Ok(Window(SelectUsers(users, f, 1, bound), offset, limit))
  }

  /** The listing: stored matching users, ascending ids, at most `limit`, and the error cases. */
  lemma RunUsersQuerySpec(users: map<int, User>, bound: int, f: UserData, limit: int, offset: int)
    requires KeyedById(users)
    ensures var r := RunUsersQuery(users, bound, f, limit, offset);
            && (r.Err? <==> !IdFilterReadable(f) || limit < 0 || offset < 0)
            && (r.Ok? ==>
                  && |r.value| <= limit
                  && (forall i :: 0 <= i < |r.value| ==>
                        r.value[i].id in users && users[r.value[i].id] == r.value[i] && Matches(r.value[i], f))
                  && (forall i, j :: 0 <= i < j < |r.value| ==> r.value[i].id < r.value[j].id))
  {
    var r := RunUsersQuery(users, bound, f, limit, offset);
    if r.Ok? {
      var all := SelectUsers(users, f, 1, bound);
      assert forall i :: 0 <= i < |r.value| ==> r.value[i] == all[offset + i];
    }
  }

  /** With offset 0 and a limit no smaller than the number of matches, every match is listed. */
  lemma RunUsersQueryComplete(users: map<int, User>, bound: int, f: UserData, limit: int, u: User)
    requires KeyedById(users) && IdFilterReadable(f)
    requires u.id in users && users[u.id] == u && 1 <= u.id < bound && Matches(u, f)
    requires limit >= bound
    ensures RunUsersQuery(users, bound, f, limit, 0).Ok?
    ensures u in RunUsersQuery(users, bound, f, limit, 0).value
  {
    var all := SelectUsers(users, f, 1, bound);
    assert u in all;
    var ids := set i | 0 <= i < |all| :: all[i].id;
    assert |all| <= bound - 1 by {
      IdsBound(all, 1, bound);
    }
  }

  /** A strictly ascending list of ids in [lo, hi) has at most hi - lo elements. */
  lemma {:induction false} IdsBound(rows: seq<User>, lo: int, hi: int)
    requires forall i :: 0 <= i < |rows| ==> lo <= rows[i].id < hi
    requires forall i, j :: 0 <= i < j < |rows| ==> rows[i].id < rows[j].id
    ensures |rows| <= if hi > lo then hi - lo else 0
    decreases |rows|
  {
    if rows != [] {
      IdsBound(rows[1..], rows[0].id + 1, hi);
    }
  }

  // ---------------------------------------------------------------- the period report

  /** `user_id = $1 AND start_time >= $2 AND end_time <= $3`; a NULL time never compares true. */
  predicate InPeriod(t: Task, userId: int, from: int, to: int)
  {
    t.userId == userId && t.start.Some? && t.start.value >= from && t.end.Some? && t.end.value <= to
  }

  predicate WellFormedTasks(tasks: map<int, Task>)
  {
    forall id :: id in tasks ==> tasks[id].id == id && Consistent(tasks[id])
  }

  /** The tasks in the period with ids in [lo, hi), ascending by id. */
  function SelectTasks(tasks: map<int, Task>, userId: int, from: int, to: int, lo: int, hi: int): (sel: seq<Task>)
    requires WellFormedTasks(tasks)
    ensures forall i :: 0 <= i < |sel| ==>
              lo <= sel[i].id < hi && sel[i].id in tasks && tasks[sel[i].id] == sel[i]
              && InPeriod(sel[i], userId, from, to) && Consistent(sel[i])
    ensures forall i, j :: 0 <= i < j < |sel| ==> sel[i].id < sel[j].id
    ensures forall id :: lo <= id < hi && id in tasks && InPeriod(tasks[id], userId, from, to) ==> tasks[id] in sel
    decreases hi - lo
  {
    if lo >= hi then []
    else
      (if lo in tasks && InPeriod(tasks[lo], userId, from, to) then [tasks[lo]] else [])
      + SelectTasks(tasks, userId, from, to, lo + 1, hi)
  }

  /** `SELECT name_task, all_time`. */
  datatype TaskRow = TaskRow(name: string, allTime: int)

  function Row(t: Task): TaskRow
    requires t.allTime.Some?
  {
    TaskRow(t.name, t.allTime.value)
  }

  function Rows(ts: seq<Task>): (rs: seq<TaskRow>)
    requires forall i :: 0 <= i < |ts| ==> ts[i].allTime.Some?
    ensures |rs| == |ts| && forall i :: 0 <= i < |ts| ==> rs[i] == Row(ts[i])
    decreases |ts|
  {
    if ts == [] then [] else [Row(ts[0])] + Rows(ts[1..])
  }

  /** `ORDER BY all_time DESC`. */
  predicate SortedDesc(rs: seq<TaskRow>)
  {
    forall i, j :: 0 <= i < j < |rs| ==> rs[i].allTime >= rs[j].allTime
  }

  function InsertDesc(r: TaskRow, rs: seq<TaskRow>): (o: seq<TaskRow>)
    requires SortedDesc(rs)
    ensures SortedDesc(o)
    ensures multiset(o) == multiset(rs) + multiset{r}
    decreases |rs|
  {
    if rs == [] || r.allTime >= rs[0].allTime then [r] + rs
    else
      var tail := InsertDesc(r, rs[1..]);
      InsertDescBag(r, rs, tail);
      InsertDescSorted(r, rs, tail);
      [rs[0]] + tail
  }

  lemma InsertDescBag(r: TaskRow, rs: seq<TaskRow>, tail: seq<TaskRow>)
    requires rs != [] && multiset(tail) == multiset(rs[1..]) + multiset{r}
    ensures multiset([rs[0]] + tail) == multiset(rs) + multiset{r}
  {
    assert rs == [rs[0]] + rs[1..];
  }

  lemma InsertDescSorted(r: TaskRow, rs: seq<TaskRow>, tail: seq<TaskRow>)
    requires SortedDesc(rs) && rs != [] && r.allTime < rs[0].allTime
    requires SortedDesc(tail) && multiset(tail) == multiset(rs[1..]) + multiset{r}
    ensures SortedDesc([rs[0]] + tail)
  {
    var o := [rs[0]] + tail;
    forall x | x in tail ensures x.allTime <= rs[0].allTime {
      assert x in multiset(tail);
      if x != r {
        assert x in multiset(rs[1..]);
        var k :| 0 <= k < |rs[1..]| && rs[1..][k] == x;
        assert rs[k + 1] == x;
      }
    }
    forall i, j | 0 <= i < j < |o| ensures o[i].allTime >= o[j].allTime {
      assert o[j] == tail[j - 1];
      assert o[j] in tail;
      if i > 0 { assert o[i] == tail[i - 1]; }
    }
  }

  /** Insertion by all_time, longest first; equal durations keep their id order. */
  function SortDesc(rs: seq<TaskRow>): (o: seq<TaskRow>)
    ensures SortedDesc(o)
    ensures multiset(o) == multiset(rs)
    ensures |o| == |rs|
    decreases |rs|
  {
    if rs == [] then []
    else
      assert rs == [rs[0]] + rs[1..];
      InsertDesc(rs[0], SortDesc(rs[1..]))
  }

  /** The rows `GetTasksUser` reads for a user and the period [from, to]. */
  function PeriodRows(tasks: map<int, Task>, bound: int, userId: int, from: int, to: int): (rows: seq<TaskRow>)
    requires WellFormedTasks(tasks)
    ensures SortedDesc(rows)
    ensures |rows| == |SelectTasks(tasks, userId, from, to, 1, bound)|
  {
    SortDesc(Rows(SelectTasks(tasks, userId, from, to, 1, bound)))
  }

  /** The report is ordered longest first and lists each selected task exactly once. */
  lemma PeriodRowsOrdered(tasks: map<int, Task>, bound: int, userId: int, from: int, to: int)
    requires WellFormedTasks(tasks)
    ensures var sel := SelectTasks(tasks, userId, from, to, 1, bound);
            var rows := PeriodRows(tasks, bound, userId, from, to);
            && SortedDesc(rows)
            && multiset(rows) == multiset(Rows(sel))
            && (forall i, j :: 0 <= i < j < |sel| ==> sel[i].id != sel[j].id)
  {
  }

  /** Every stored task of the user that started and ended inside the period is reported. */
  lemma PeriodRowsComplete(tasks: map<int, Task>, bound: int, userId: int, from: int, to: int, id: int)
    requires WellFormedTasks(tasks)
    requires id in tasks && 1 <= id < bound && InPeriod(tasks[id], userId, from, to)
    ensures tasks[id].allTime.Some? && Row(tasks[id]) in PeriodRows(tasks, bound, userId, from, to)
  {
    var sel := SelectTasks(tasks, userId, from, to, 1, bound);
    var rs := Rows(sel);
    var i :| 0 <= i < |sel| && sel[i] == tasks[id];
    assert rs[i] == Row(tasks[id]);
    assert Row(tasks[id]) in multiset(rs);
    assert Row(tasks[id]) in multiset(PeriodRows(tasks, bound, userId, from, to));
  }

  lemma InPermutation<T>(x: T, a: seq<T>, b: seq<T>)
    requires multiset(a) == multiset(b) && x in a
    ensures x in b
  {
    assert x in multiset(a);
  }

  /**
   * Every reported row comes from a stored task of the user that started and ended inside the
   * period, so an open task is never reported, and its duration is not negative.
   */
  lemma PeriodRowsSound(tasks: map<int, Task>, bound: int, userId: int, from: int, to: int, r: TaskRow)
    requires WellFormedTasks(tasks)
    requires r in PeriodRows(tasks, bound, userId, from, to)
    ensures r.allTime >= 0
    ensures exists id :: id in tasks && InPeriod(tasks[id], userId, from, to) && Row(tasks[id]) == r
  {
    var sel := SelectTasks(tasks, userId, from, to, 1, bound);
    InPermutation(r, PeriodRows(tasks, bound, userId, from, to), Rows(sel));
    var id := SelectedRow(tasks, userId, from, to, bound, sel, r);
  }

  /** A row of the selection comes from a stored task in the period; returns that task's id. */
  lemma SelectedRow(tasks: map<int, Task>, userId: int, from: int, to: int, bound: int, sel: seq<Task>, r: TaskRow)
      returns (id: int)
    requires WellFormedTasks(tasks)
    requires sel == SelectTasks(tasks, userId, from, to, 1, bound) && r in Rows(sel)
    ensures r.allTime >= 0
    ensures id in tasks && InPeriod(tasks[id], userId, from, to) && Row(tasks[id]) == r
  {
    var rs := Rows(sel);
    var i :| 0 <= i < |rs| && rs[i] == r;
    RowOfSelected(tasks, userId, from, to, bound, sel, i);
    id := sel[i].id;
  }

  /** No reported duration is negative. */
  lemma PeriodRowsDurations(tasks: map<int, Task>, bound: int, userId: int, from: int, to: int)
    requires WellFormedTasks(tasks)
    ensures var rows := PeriodRows(tasks, bound, userId, from, to);
            forall k :: 0 <= k < |rows| ==> rows[k].allTime >= 0
  {
    var rows := PeriodRows(tasks, bound, userId, from, to);
    forall k | 0 <= k < |rows| ensures rows[k].allTime >= 0 {
      PeriodRowsSound(tasks, bound, userId, from, to, rows[k]);
    }
  }

  lemma RowOfSelected(tasks: map<int, Task>, userId: int, from: int, to: int, bound: int, sel: seq<Task>, i: int)
    requires WellFormedTasks(tasks)
    requires sel == SelectTasks(tasks, userId, from, to, 1, bound) && 0 <= i < |sel|
    ensures Rows(sel)[i].allTime >= 0
    ensures var id := sel[i].id; id in tasks && InPeriod(tasks[id], userId, from, to) && Row(tasks[id]) == Rows(sel)[i]
  {
  }
}
