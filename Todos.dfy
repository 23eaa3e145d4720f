/**
 * The todos router: CRUD over the todo table, every operation restricted to
 * the rows of the authenticated caller.  The table (Prisma's `todo` model) is a
 * sequence of rows with unique ids, kept in a class that the handlers update.
 */
module Todos {
  import opened Common
  import opened BearerAuth

  /** One row of the todo table; a new row is taken to start uncompleted, stamped with its creation time. */
  datatype Todo = Todo(id: string, title: string, completed: bool, userId: string, createdAt: int)

  /** The body of PATCH /todos/{id}: both fields optional. */
  datatype TodoUpdateIn = TodoUpdateIn(completed: Option<bool>, title: Option<string>)

  /** The columns an update may set, and the values it sets them to. */
  datatype Field = CompletedField | TitleField
  datatype FieldValue = BoolValue(b: bool) | TextValue(text: string)

  /** An update record whose values have the types of their columns. */
  ghost predicate WellTyped(data: map<Field, FieldValue>)
  {
    && (CompletedField in data ==> data[CompletedField].BoolValue?)
    && (TitleField in data ==> data[TitleField].TextValue?)
  }

  ghost predicate UniqueIds(rows: seq<Todo>)
  {
    forall i, j :: 0 <= i < j < |rows| ==> rows[i].id != rows[j].id
  }

  /** The rows that belong to `user`, in table order (`where={"userId": user}`). */
  function OwnedBy(rows: seq<Todo>, user: string): (r: seq<Todo>)
    ensures |r| <= |rows|
    ensures forall k :: 0 <= k < |r| ==> r[k].userId == user
  {
    if rows == [] then []
    else if rows[0].userId == user then [rows[0]] + OwnedBy(rows[1..], user)
    else OwnedBy(rows[1..], user)
  }

  /** The filter keeps exactly the rows owned by `user`, each no more often than the table holds it. */
  lemma {:induction false} OwnedByMembers(rows: seq<Todo>, user: string)
    ensures forall t :: t in OwnedBy(rows, user) <==> t in rows && t.userId == user
    ensures multiset(OwnedBy(rows, user)) <= multiset(rows)
  {
    if rows != [] {
      assert rows == [rows[0]] + rows[1..];
      OwnedByMembers(rows[1..], user);
    }
  }

  lemma {:induction false} OwnedByConcat(a: seq<Todo>, b: seq<Todo>, user: string)
    ensures OwnedBy(a + b, user) == OwnedBy(a, user) + OwnedBy(b, user)
  {
    if a != [] {
      var ab := a + b;
      assert ab[0] == a[0];
      assert ab[1..] == a[1..] + b;
      OwnedByConcat(a[1..], b, user);
      if a[0].userId == user {
        calc {
          OwnedBy(ab, user);
          [a[0]] + OwnedBy(a[1..] + b, user);
          [a[0]] + (OwnedBy(a[1..], user) + OwnedBy(b, user));
          ([a[0]] + OwnedBy(a[1..], user)) + OwnedBy(b, user);
        }
      }
    } else {
      assert a + b == b;
    }
  }

  /** Replacing a row by one with the same owner leaves every other user's rows as they were. */
  lemma OwnedByReplace(rows: seq<Todo>, i: nat, t: Todo, user: string)
    requires i < |rows|
    requires rows[i].userId != user && t.userId != user
    ensures OwnedBy(rows[i := t], user) == OwnedBy(rows, user)
  {
    assert rows == rows[..i] + [rows[i]] + rows[i + 1..];
    assert rows[i := t] == rows[..i] + [t] + rows[i + 1..];
    OwnedByConcat(rows[..i] + [rows[i]], rows[i + 1..], user);
    OwnedByConcat(rows[..i], [rows[i]], user);
    OwnedByConcat(rows[..i] + [t], rows[i + 1..], user);
    OwnedByConcat(rows[..i], [t], user);
  }

  /** Removing a row leaves the rows of every user but its owner as they were. */
  lemma OwnedByRemove(rows: seq<Todo>, i: nat, user: string)
    requires i < |rows|
    requires rows[i].userId != user
    ensures OwnedBy(rows[..i] + rows[i + 1..], user) == OwnedBy(rows, user)
  {
    var before, after := rows[..i], rows[i + 1..];
    assert rows == (before + [rows[i]]) + after;
    calc {
      OwnedBy(rows, user);
      { OwnedByConcat(before + [rows[i]], after, user); }
      OwnedBy(before + [rows[i]], user) + OwnedBy(after, user);
      { OwnedByConcat(before, [rows[i]], user); }
      OwnedBy(before, user) + OwnedBy([rows[i]], user) + OwnedBy(after, user);
      { assert OwnedBy([rows[i]], user) == []; }
      OwnedBy(before, user) + OwnedBy(after, user);
      { OwnedByConcat(before, after, user); }
      OwnedBy(before + after, user);
    }
  }

  /** `order={"createdAt": "desc"}`: no row is older than one after it. */
  predicate NewestFirst(s: seq<Todo>)
  {
    forall i, j :: 0 <= i < j < |s| ==> s[i].createdAt >= s[j].createdAt
  }

  /** A row no older than any row of a newest-first sequence may go in front of it. */
  lemma PrependNewest(x: Todo, s: seq<Todo>)
    requires NewestFirst(s)
    requires forall k :: 0 <= k < |s| ==> x.createdAt >= s[k].createdAt
    ensures NewestFirst([x] + s)
  {
    var r := [x] + s;
    forall i, j | 0 <= i < j < |r|
      ensures r[i].createdAt >= r[j].createdAt
    {
      assert r[j] == s[j - 1];
      if i > 0 {
        assert r[i] == s[i - 1];
      }
    }
  }

  /** Inserting a row older than the head of `s` into its tail gives rows no newer than that head. */
  lemma BelowHead(t: Todo, s: seq<Todo>, rest: seq<Todo>)
    requires |s| > 0 && NewestFirst(s)
    requires t.createdAt < s[0].createdAt
    requires multiset(rest) == multiset(s[1..]) + multiset{t}
    ensures forall k :: 0 <= k < |rest| ==> s[0].createdAt >= rest[k].createdAt
  {
    forall k | 0 <= k < |rest|
      ensures s[0].createdAt >= rest[k].createdAt
    {
      assert rest[k] in multiset(rest);
      if rest[k] != t {
        assert rest[k] in multiset(s[1..]);
        var j :| 0 <= j < |s[1..]| && s[1..][j] == rest[k];
        assert s[j + 1] == rest[k];
      }
    }
  }

  /** Inserts `t` into a newest-first sequence, before the first row that is not newer. */
  function InsertNewestFirst(t: Todo, s: seq<Todo>): (r: seq<Todo>)
    requires NewestFirst(s)
    ensures NewestFirst(r)
    ensures multiset(r) == multiset(s) + multiset{t}
    ensures |r| == |s| + 1
  {
    if s == [] || t.createdAt >= s[0].createdAt then
      PrependNewest(t, s);
      [t] + s
    else
      var rest := InsertNewestFirst(t, s[1..]);
      BelowHead(t, s, rest);
      PrependNewest(s[0], rest);
      assert s == [s[0]] + s[1..];
      [s[0]] + rest
  }

  /** The rows of `s`, newest first; rows created at the same time may come in any order. */
  function SortNewestFirst(s: seq<Todo>): (r: seq<Todo>)
    ensures NewestFirst(r)
    ensures multiset(r) == multiset(s)
  {
    if s == [] then []
    else
      var r := InsertNewestFirst(s[0], SortNewestFirst(s[1..]));
      assert s == [s[0]] + s[1..];
      r
  }

  /** `find_first(where={"id": id, "userId": user})`: the index of the first such row, if any. */
  function FindOwned(rows: seq<Todo>, id: string, user: string): (r: Option<nat>)
    ensures r.Some? ==> r.value < |rows| && rows[r.value].id == id && rows[r.value].userId == user
    ensures r.None? <==> forall i :: 0 <= i < |rows| ==> !(rows[i].id == id && rows[i].userId == user)
  {
    FindFirst(rows, (t: Todo) => t.id == id && t.userId == user)
  }

  /** Prisma's `update(data=...)`: the columns named in `data` take its values, every other column keeps its own. */
  function ApplyUpdate(t: Todo, data: map<Field, FieldValue>): (r: Todo)
    requires WellTyped(data)
    ensures r.id == t.id && r.userId == t.userId && r.createdAt == t.createdAt
    ensures CompletedField in data ==> r.completed == data[CompletedField].b
    ensures CompletedField !in data ==> r.completed == t.completed
    ensures TitleField in data ==> r.title == data[TitleField].text
    ensures TitleField !in data ==> r.title == t.title
    ensures data == map[] ==> r == t
  {
    var completed := if CompletedField in data then data[CompletedField].b else t.completed;
    var title := if TitleField in data then data[TitleField].text else t.title;
    t.(completed := completed, title := title)
  }

  /** `update_data`, built field by field: a column is present exactly when its input is not None. */
  method BuildUpdateData(inp: TodoUpdateIn) returns (data: map<Field, FieldValue>)
    ensures WellTyped(data)
    ensures CompletedField in data <==> inp.completed.Some?
    ensures TitleField in data <==> inp.title.Some?
    ensures data.Keys <= {CompletedField, TitleField}
    ensures inp.completed.Some? ==> data[CompletedField] == BoolValue(inp.completed.value)
    ensures inp.title.Some? ==> data[TitleField] == TextValue(inp.title.value)
  {
    data := map[];
    if inp.completed.Some? {
      data := data[CompletedField := BoolValue(inp.completed.value)];
    }
    if inp.title.Some? {
      data := data[TitleField := TextValue(inp.title.value)];
    }
  }

  const NOT_FOUND := HttpError(404, "Not found")

  class TodoTable {
    var rows: seq<Todo>

    ghost predicate Valid()
      reads this
    {
      UniqueIds(rows)
    }

    constructor ()
      ensures Valid() && rows == []
    {
      rows := [];
    }

    /** GET /todos: exactly the caller's rows, newest first. */
    method ListTodos(caller: string) returns (r: seq<Todo>)
      requires Valid()
      ensures NewestFirst(r)
      ensures multiset(r) == multiset(OwnedBy(rows, caller))
      ensures forall t :: t in r <==> t in rows && t.userId == caller
    {
      r := SortNewestFirst(OwnedBy(rows, caller));
      OwnedByMembers(rows, caller);
      assert forall t :: t in r <==> t in multiset(OwnedBy(rows, caller));
    }

    /** POST /todos: one new row with the given title, owned by the caller, not completed; `newId` and `now` are Prisma's generated id and timestamp. */
    method CreateTodo(caller: string, title: string, newId: string, now: int) returns (t: Todo)
      requires Valid()
      requires forall i :: 0 <= i < |rows| ==> rows[i].id != newId
      modifies this
      ensures Valid()
      ensures t == Todo(newId, title, false, caller, now)
      ensures rows == old(rows) + [t]
      ensures forall u :: u != caller ==> OwnedBy(rows, u) == OwnedBy(old(rows), u)
    {
      t := Todo(newId, title, false, caller, now);
      forall u | u != caller ensures OwnedBy(rows + [t], u) == OwnedBy(rows, u) {
        OwnedByConcat(rows, [t], u);
      }
      rows := rows + [t];
    }

    /** PATCH /todos/{id}: 404 unless the caller owns the row; otherwise only the supplied fields of that row change. */
    method UpdateTodo(caller: string, todoId: string, inp: TodoUpdateIn) returns (r: Result<Todo, HttpError>)
      requires Valid()
      modifies this
      ensures Valid()
      ensures FindOwned(old(rows), todoId, caller).None? ==> r == Err(NOT_FOUND) && rows == old(rows)
      ensures FindOwned(old(rows), todoId, caller).Some? ==>
        var i := FindOwned(old(rows), todoId, caller).value;
        && |rows| == |old(rows)|
        && r == Ok(rows[i])
        && rows == old(rows)[i := rows[i]]
        && rows[i].id == todoId && rows[i].userId == caller && rows[i].createdAt == old(rows)[i].createdAt
        && rows[i].completed == (if inp.completed.Some? then inp.completed.value else old(rows)[i].completed)
        && rows[i].title == (if inp.title.Some? then inp.title.value else old(rows)[i].title)
      ensures forall u :: u != caller ==> OwnedBy(rows, u) == OwnedBy(old(rows), u)
    {
      var existing := FindOwned(rows, todoId, caller);
      if existing.None? {
        return Err(NOT_FOUND);
      }
      var i := existing.value;
      var data := BuildUpdateData(inp);
      var updated := ApplyUpdate(rows[i], data);
      forall u | u != caller ensures OwnedBy(rows[i := updated], u) == OwnedBy(rows, u) {
        OwnedByReplace(rows, i, updated, u);
      }
      rows := rows[i := updated];
      r := Ok(updated);
    }

    /** DELETE /todos/{id}: 404 unless the caller owns the row; otherwise exactly that row is removed. */
    method DeleteTodo(caller: string, todoId: string) returns (r: Result<bool, HttpError>)
      requires Valid()
      modifies this
      ensures Valid()
      ensures FindOwned(old(rows), todoId, caller).None? ==> r == Err(NOT_FOUND) && rows == old(rows)
      ensures FindOwned(old(rows), todoId, caller).Some? ==>
        var i := FindOwned(old(rows), todoId, caller).value;
        && r == Ok(true)
        && rows == old(rows)[..i] + old(rows)[i + 1..]
        && forall t :: t in rows <==> t in old(rows) && t.id != todoId
      ensures forall u :: u != caller ==> OwnedBy(rows, u) == OwnedBy(old(rows), u)
    {
      var existing := FindOwned(rows, todoId, caller);
      if existing.None? {
        return Err(NOT_FOUND);
      }
      var i := existing.value;
      var rest := rows[..i] + rows[i + 1..];
      forall u | u != caller ensures OwnedBy(rest, u) == OwnedBy(rows, u) {
        OwnedByRemove(rows, i, u);
      }
      assert rows == rows[..i] + [rows[i]] + rows[i + 1..];
      assert forall k :: 0 <= k < |rest| ==> rest[k] == if k < i then rows[k] else rows[k + 1];
      rows := rest;
      r := Ok(true);
    }
  }
}
