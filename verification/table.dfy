/** One database table as the route handlers see it through Prisma: rows with unique ids,
    kept in insertion order, created, updated in place and deleted by id. */
module Store {
  import opened Js
  import opened Query

  datatype Row<R> = Row(id: string, data: R)

  function Ids<R>(rows: seq<Row<R>>): set<string>
    decreases |rows|
  {
    if rows == [] then {} else {rows[0].id} + Ids(rows[1..])
  }

  /** No two rows share an id (the primary key). */
  ghost predicate UniqueIds<R>(rows: seq<Row<R>>)
    decreases |rows|
  {
    rows == [] || (rows[0].id !in Ids(rows[1..]) && UniqueIds(rows[1..]))
  }

  lemma {:induction false} IdsHas<R>(rows: seq<Row<R>>, i: nat)
    requires i < |rows|
    ensures rows[i].id in Ids(rows)
    decreases i
  {
    if i > 0 {
      IdsHas(rows[1..], i - 1);
    }
  }

  /** Appending a row with a new id keeps the ids unique and adds exactly that id. */
  lemma {:induction false} IdsAppend<R>(rows: seq<Row<R>>, row: Row<R>)
    ensures Ids(rows + [row]) == Ids(rows) + {row.id}
    ensures UniqueIds(rows) && row.id !in Ids(rows) ==> UniqueIds(rows + [row])
    decreases |rows|
  {
    if rows != [] {
      assert (rows + [row])[1..] == rows[1..] + [row];
      IdsAppend(rows[1..], row);
    } else {
      assert [] + [row] == [row];
      assert Ids([row]) == {row.id} + Ids<R>([]);
    }
  }

  /** `update({ where: { id }, data })`: the row with that id gets `f` applied to it;
      every other row is left as it was, and no row changes its id. */
  function Patched<R>(rows: seq<Row<R>>, id: string, f: R -> R): (r: seq<Row<R>>)
    ensures |r| == |rows| && Ids(r) == Ids(rows)
    ensures forall i :: 0 <= i < |rows| ==> r[i].id == rows[i].id
    ensures forall i :: 0 <= i < |rows| ==>
              r[i].data == if rows[i].id == id then f(rows[i].data) else rows[i].data
    ensures UniqueIds(rows) ==> UniqueIds(r)
    decreases |rows|
  {
    if rows == [] then []
    else
      var head := if rows[0].id == id then Row(id, f(rows[0].data)) else rows[0];
      var r := [head] + Patched(rows[1..], id, f);
      assert r[1..] == Patched(rows[1..], id, f);
      r
  }

  function WithoutId<R>(rows: seq<Row<R>>, id: string): (r: seq<Row<R>>)
  {
    Filter(rows, (row: Row<R>) => row.id != id)
  }

  /** `delete({ where: { id } })` takes exactly the row with that id away and keeps the
      others in order. */
  lemma WithoutIdSpec<R>(rows: seq<Row<R>>, id: string)
    requires UniqueIds(rows)
    ensures id in Ids(rows) ==> |WithoutId(rows, id)| == |rows| - 1
    ensures id !in Ids(rows) ==> WithoutId(rows, id) == rows
    ensures Ids(WithoutId(rows, id)) == Ids(rows) - {id}
    ensures IsSubsequence(WithoutId(rows, id), rows)
  {
    WithoutIdCount(rows, id);
    FilterIsSubsequence(rows, (row: Row<R>) => row.id != id);
  }

  /** One step of the filter behind `WithoutId`. */
  lemma WithoutIdCons<R>(rows: seq<Row<R>>, id: string)
    requires rows != []
    ensures WithoutId(rows, id) == (if rows[0].id != id then [rows[0]] else []) + WithoutId(rows[1..], id)
  {
  }

  lemma {:induction false} WithoutIdCount<R>(rows: seq<Row<R>>, id: string)
    requires UniqueIds(rows)
    ensures id in Ids(rows) ==> |WithoutId(rows, id)| == |rows| - 1
    ensures id !in Ids(rows) ==> WithoutId(rows, id) == rows
    ensures Ids(WithoutId(rows, id)) == Ids(rows) - {id}
    ensures UniqueIds(WithoutId(rows, id))
    decreases |rows|
  {
    if rows != [] {
      WithoutIdCount(rows[1..], id);
      WithoutIdCons(rows, id);
      var rest := WithoutId(rows[1..], id);
      assert Ids(rows) == {rows[0].id} + Ids(rows[1..]);
      if rows[0].id != id {
        assert WithoutId(rows, id) == [rows[0]] + rest;
        WithoutIdKeepsHead(rows[0], rest);
      } else {
        assert WithoutId(rows, id) == rest;
      }
    }
  }

  /** Putting back a row whose id the rest lacks keeps the ids unique. */
  lemma WithoutIdKeepsHead<R>(head: Row<R>, rest: seq<Row<R>>)
    ensures Ids([head] + rest) == {head.id} + Ids(rest)
    ensures head.id !in Ids(rest) && UniqueIds(rest) ==> UniqueIds([head] + rest)
  {
    assert ([head] + rest)[1..] == rest;
  }

  class Table<R> {
    var rows: seq<Row<R>>

    ghost predicate Valid()
      reads this
    {
      UniqueIds(rows)
    }

    constructor (initial: seq<Row<R>>)
      requires UniqueIds(initial)
      ensures Valid() && rows == initial
    {
      rows := initial;
    }

    /** `findUnique({ where: { id } })` */
    function Find(id: string): (r: Option<R>)
      reads this
      requires Valid()
      ensures r.Some? <==> id in Ids(rows)
      ensures r.Some? ==> Row(id, r.value) in rows
    {
      FindIn(rows, id)
    }

    /** `create({ data })`. The id stands for the one the database generates, so it is new. */
    method Create(id: string, data: R)
      requires Valid() && id !in Ids(rows)
      modifies this
      ensures Valid()
      ensures rows == old(rows) + [Row(id, data)]
    {
      IdsAppend(rows, Row(id, data));
      rows := rows + [Row(id, data)];
    }

    /** `update({ where: { id }, data })`; `found` is false when Prisma would throw. */
    method Update(id: string, f: R -> R) returns (found: bool)
      requires Valid()
      modifies this
      ensures Valid()
      ensures found <==> id in Ids(old(rows))
      ensures rows == if found then Patched(old(rows), id, f) else old(rows)
    {
      found := id in Ids(rows);
      if found {
        rows := Patched(rows, id, f);
      }
    }

    /** `delete({ where: { id } })`; `found` is false when Prisma would throw. */
    method Delete(id: string) returns (found: bool)
      requires Valid()
      modifies this
      ensures Valid()
      ensures found <==> id in Ids(old(rows))
      ensures rows == if found then WithoutId(old(rows), id) else old(rows)
    {
      found := id in Ids(rows);
      if found {
        WithoutIdCount(rows, id);
        rows := WithoutId(rows, id);
      }
    }
  }

  function FindIn<R>(rows: seq<Row<R>>, id: string): (r: Option<R>)
    ensures r.Some? <==> id in Ids(rows)
    ensures r.Some? ==> Row(id, r.value) in rows
    decreases |rows|
  {
    if rows == [] then None
    else if rows[0].id == id then Some(rows[0].data)
    else
      var r := FindIn(rows[1..], id);
      assert r.Some? ==> Row(id, r.value) in rows[1..];
      r
  }
}
