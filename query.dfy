/** The query-builder operations the routes compose: filter (`eq`), order by
    `created_at` descending, order by a text column ascending, and lookups by
    id and by e-mail. */
module Query {
  import opened Base
  import opened Store

  /** The rows satisfying `p`, in table order. */
  function Select<T(!new)>(rows: seq<Row<T>>, p: Row<T> -> bool): (r: seq<Row<T>>)
    ensures forall x :: x in r <==> x in rows && p(x)
    ensures |r| <= |rows|
    ensures IdsIncreasing(rows) ==> IdsIncreasing(r)
    ensures forall b: Id :: IdsBelow(rows, b) ==> IdsBelow(r, b)
  {
    if rows == [] then []
    else
      var rest := Select(rows[1..], p);
      assert forall x :: x in rows[1..] ==> x in rows;
      assert forall i :: 0 <= i < |rest| ==> rest[i] in rows[1..];
      if p(rows[0]) then [rows[0]] + rest else rest
  }

  /** A selection takes each row at most as often as the table holds it. */
  lemma {:induction false} SelectSubMultiset<T(!new)>(rows: seq<Row<T>>, p: Row<T> -> bool)
    ensures multiset(Select(rows, p)) <= multiset(rows)
  {
    if rows != [] {
      SelectSubMultiset(rows[1..], p);
      assert rows == [rows[0]] + rows[1..];
    }
  }

  /** A selection every row passes is the whole table: deleting an id no row
      has leaves the table as it was. */
  lemma {:induction false} SelectKeepsAll<T(!new)>(rows: seq<Row<T>>, p: Row<T> -> bool)
    requires forall x :: x in rows ==> p(x)
    ensures Select(rows, p) == rows
  {
    if rows != [] {
      assert forall x :: x in rows[1..] ==> x in rows;
      SelectKeepsAll(rows[1..], p);
      assert rows == [rows[0]] + rows[1..];
    }
  }

  /** The rows in reverse table order: `order('created_at', {ascending: false})`. */
  function NewestFirst<T(!new)>(rows: seq<Row<T>>): (r: seq<Row<T>>)
    ensures |r| == |rows|
    ensures forall i :: 0 <= i < |r| ==> r[i] == rows[|rows| - 1 - i]
    ensures forall x :: x in r <==> x in rows
    ensures IdsIncreasing(rows) ==> IdsDecreasing(r)
  {
    if rows == [] then []
    else [rows[|rows| - 1]] + NewestFirst(rows[..|rows| - 1])
  }

  /** The position of the row with the given id, if there is one. */
  function IndexOf<T>(rows: seq<Row<T>>, id: Id): (r: Option<nat>)
    ensures r.Some? ==> r.value < |rows| && rows[r.value].id == id
    ensures r.None? <==> forall k :: 0 <= k < |rows| ==> rows[k].id != id
  {
    if rows == [] then None
    else if rows[0].id == id then Some(0)
    else match IndexOf(rows[1..], id)
      case None => None
      case Some(k) => Some(k + 1)
  }

  /** In a table whose ids are increasing, the row `IndexOf` finds is the only
      row with that id. */
  lemma {:induction false} IndexOfUnique<T>(rows: seq<Row<T>>, id: Id, k: nat)
    requires IdsIncreasing(rows) && k < |rows| && rows[k].id == id
    ensures IndexOf(rows, id) == Some(k)
  {
    var r := IndexOf(rows, id);
  }

  /** The user row with the given e-mail: `eq('email', email).maybeSingle()`. */
  function FindByEmail(users: seq<Row<User>>, email: string): (r: Option<Row<User>>)
    ensures r.Some? ==> r.value in users && r.value.val.email == email
    ensures r.None? <==> !EmailTaken(users, email)
  {
    if users == [] then None
    else if users[0].val.email == email then Some(users[0])
    else
      var r := FindByEmail(users[1..], email);
      assert forall u :: u in users ==> u == users[0] || u in users[1..];
      r
  }

  /** Ascending text order on code points: `a` sorts no later than `b`. */
  predicate LexLeq(a: string, b: string)
    decreases |a|
  {
    if a == [] then true
    else if b == [] then false
    else if a[0] != b[0] then a[0] < b[0]
    else LexLeq(a[1..], b[1..])
  }

  lemma {:induction false} LexLeqTotal(a: string, b: string)
    ensures LexLeq(a, b) || LexLeq(b, a)
    decreases |a|
  {
    if a != [] && b != [] && a[0] == b[0] {
      LexLeqTotal(a[1..], b[1..]);
    }
  }

  lemma {:induction false} LexLeqTransitive(a: string, b: string, c: string)
    requires LexLeq(a, b) && LexLeq(b, c)
    ensures LexLeq(a, c)
    decreases |a|
  {
    if a != [] && b != [] && c != [] && a[0] == b[0] && b[0] == c[0] {
      LexLeqTransitive(a[1..], b[1..], c[1..]);
    }
  }

  /** `rows` is ascending in the text column `key`. */
  predicate Ascending<T>(rows: seq<T>, key: T -> string) {
    forall i, j :: 0 <= i < j < |rows| ==> LexLeq(key(rows[i]), key(rows[j]))
  }

  function InsertAscending<T>(x: T, rows: seq<T>, key: T -> string): (r: seq<T>)
    requires Ascending(rows, key)
    ensures multiset(r) == multiset(rows) + multiset{x}
    ensures Ascending(r, key)
  {
    if rows == [] then [x]
    else if LexLeq(key(x), key(rows[0])) then
      assert forall j :: 0 < j < |rows| ==> LexLeq(key(x), key(rows[j])) by {
        forall j | 0 < j < |rows| ensures LexLeq(key(x), key(rows[j])) {
          LexLeqTransitive(key(x), key(rows[0]), key(rows[j]));
        }
      }
      [x] + rows
    else
      assert rows == [rows[0]] + rows[1..];
      var rest := InsertAscending(x, rows[1..], key);
      assert forall y :: y in rest ==> LexLeq(key(rows[0]), key(y)) by {
        forall y | y in rest ensures LexLeq(key(rows[0]), key(y)) {
          assert y in multiset(rest);
          if y == x {
            LexLeqTotal(key(x), key(rows[0]));
          } else {
            assert y in multiset(rows[1..]);
            var k :| 0 <= k < |rows[1..]| && rows[1..][k] == y;
            assert rows[k + 1] == y;
          }
        }
      }
      var r := [rows[0]] + rest;
      assert forall j :: 0 < j < |r| ==> r[j] in rest;
      r
  }

  /** `order(key, {ascending: true})`: the same rows, ascending in `key`. */
  function SortAscending<T>(rows: seq<T>, key: T -> string): (r: seq<T>)
    ensures multiset(r) == multiset(rows)
    ensures Ascending(r, key)
  {
    if rows == [] then []
    else
      assert rows == [rows[0]] + rows[1..];
      InsertAscending(rows[0], SortAscending(rows[1..], key), key)
  }
}
