/**
 * An SQLite table whose key is `id INTEGER PRIMARY KEY AUTOINCREMENT`, kept as its rows in
 * rowid order plus the largest id ever handed out (SQLite's `sqlite_sequence` entry), and the
 * three statements the database manager issues against such tables: `INSERT`,
 * `UPDATE ... WHERE id = ?` and `DELETE ... WHERE id = ?` / `WHERE parentId = ?`.
 */
module Tables {
  import opened Wrappers
  import opened Seqs
  import opened Sorting

  datatype Row<R> = Row(id: int, value: R)

  datatype Table<R> = Table(rows: seq<Row<R>>, lastId: int)

  /** Ids are positive, strictly increasing along the table, and never above `lastId`. */
  ghost predicate WellFormed<R>(t: Table<R>)
  {
    0 <= t.lastId && Bounded(t.rows, t.lastId) && Increasing(t.rows)
  }

  ghost predicate Bounded<R>(rows: seq<Row<R>>, lastId: int)
  {
    forall i :: 0 <= i < |rows| ==> 0 < rows[i].id <= lastId
  }

  ghost predicate Increasing<R>(rows: seq<Row<R>>)
  {
    forall i, j :: 0 <= i < j < |rows| ==> rows[i].id < rows[j].id
  }

  function Ids<R>(t: Table<R>): set<int>
  {
    set i | 0 <= i < |t.rows| :: t.rows[i].id
  }

  /** The empty table of a freshly created schema. */
  function Empty<R>(): (t: Table<R>)
    ensures WellFormed(t) && Ids(t) == {}
  {
    Table([], 0)
  }

  /** `INSERT`: the new row gets id `lastId + 1`, an id no row has ever had. */
  function Insert<R(==,!new)>(t: Table<R>, v: R): (r: Table<R>)
    requires WellFormed(t)
    ensures WellFormed(r)
    ensures r.lastId == t.lastId + 1 && r.lastId !in Ids(t)
    ensures Ids(r) == Ids(t) + {r.lastId}
    ensures r.rows == t.rows + [Row(r.lastId, v)]
  {
    var r := Table(t.rows + [Row(t.lastId + 1, v)], t.lastId + 1);
    assert Ids(r) == Ids(t) + {r.lastId} by {
      forall k | k in Ids(r) ensures k in Ids(t) + {r.lastId} {
        var i :| 0 <= i < |r.rows| && r.rows[i].id == k;
        if i < |t.rows| { assert t.rows[i].id == k; }
      }
      forall k | k in Ids(t) ensures k in Ids(r) {
        var i :| 0 <= i < |t.rows| && t.rows[i].id == k;
        assert r.rows[i].id == k;
      }
      assert r.rows[|t.rows|].id == r.lastId;
    }
    r
  }

  /** Inserts `vs` one after the other, as a `for` loop of `INSERT`s does. */
  function InsertAll<R(==,!new)>(t: Table<R>, vs: seq<R>): (r: Table<R>)
    requires WellFormed(t)
    ensures WellFormed(r)
    ensures r.lastId == t.lastId + |vs|
  {
    if vs == [] then t else Insert(InsertAll(t, vs[..|vs| - 1]), vs[|vs| - 1])
  }

  /** `UPDATE ... WHERE id = ?`: replaces the value of the row with that id, if there is one. */
  function UpdateWhere<R(==,!new)>(t: Table<R>, id: int, v: R): (r: Table<R>)
    requires WellFormed(t)
    ensures WellFormed(r) && Ids(r) == Ids(t) && r.lastId == t.lastId
    ensures forall k, w :: Row(k, w) in r.rows <==>
      (k != id && Row(k, w) in t.rows) || (k == id && id in Ids(t) && w == v)
  {
    ReplaceRowsShape(t, id, v);
    ReplaceRowsMembers(t.rows, id, v);
    Table(ReplaceRows(t.rows, id, v), t.lastId)
  }

  function ReplaceRows<R>(rows: seq<Row<R>>, id: int, v: R): (r: seq<Row<R>>)
    ensures |r| == |rows|
    ensures forall i :: 0 <= i < |rows| ==> r[i] == if rows[i].id == id then Row(id, v) else rows[i]
  {
    seq(|rows|, i requires 0 <= i < |rows| => if rows[i].id == id then Row(id, v) else rows[i])
  }

  /** Replacing values keeps every id in its place, so the table stays well formed. */
  lemma ReplaceRowsShape<R(!new)>(t: Table<R>, id: int, v: R)
    requires WellFormed(t)
    ensures var r := Table(ReplaceRows(t.rows, id, v), t.lastId);
      WellFormed(r) && Ids(r) == Ids(t)
  {
    var r := Table(ReplaceRows(t.rows, id, v), t.lastId);
    assert forall i :: 0 <= i < |r.rows| ==> r.rows[i].id == t.rows[i].id;
    assert Ids(r) == Ids(t) by {
      forall k | k in Ids(t) ensures k in Ids(r) {
        var i :| 0 <= i < |t.rows| && t.rows[i].id == k;
        assert r.rows[i].id == k;
      }
    }
  }

  /** The rows after the update: the old ones, except that the row with `id` now holds `v`. */
  lemma ReplaceRowsMembers<R>(rows: seq<Row<R>>, id: int, v: R)
    ensures forall k, w :: Row(k, w) in ReplaceRows(rows, id, v) <==>
      (k != id && Row(k, w) in rows) || (k == id && (exists i :: 0 <= i < |rows| && rows[i].id == id) && w == v)
  {
    var r := ReplaceRows(rows, id, v);
    forall k, w | Row(k, w) in r
      ensures (k != id && Row(k, w) in rows) || (k == id && (exists i :: 0 <= i < |rows| && rows[i].id == id) && w == v)
    {
      var i :| 0 <= i < |r| && r[i] == Row(k, w);
    }
    forall k, w | (k != id && Row(k, w) in rows) || (k == id && (exists i :: 0 <= i < |rows| && rows[i].id == id) && w == v)
      ensures Row(k, w) in r
    {
      if k != id {
        var i :| 0 <= i < |rows| && rows[i] == Row(k, w);
        assert r[i] == Row(k, w);
      } else {
        var i :| 0 <= i < |rows| && rows[i].id == id;
        assert r[i] == Row(k, w);
      }
    }
  }

  /** `DELETE ... WHERE id = ?`: removes the row with that id; the others keep their order. */
  function DeleteWhere<R(==,!new)>(t: Table<R>, id: int): (r: Table<R>)
    requires WellFormed(t)
    ensures WellFormed(r) && Ids(r) == Ids(t) - {id} && r.lastId == t.lastId
    ensures forall k, w :: Row(k, w) in r.rows <==> k != id && Row(k, w) in t.rows
  {
    var p := (x: Row<R>) => x.id != id;
    DropIdFacts(t, id, p);
    Table(Filter(t.rows, p), t.lastId)
  }

  /** Keeping the rows whose id is not `id` is deleting exactly the row with that id. */
  lemma DropIdFacts<R(!new)>(t: Table<R>, id: int, p: Row<R> -> bool)
    requires WellFormed(t)
    requires forall x :: p(x) <==> x.id != id
    ensures var r := Table(Filter(t.rows, p), t.lastId);
      WellFormed(r) && Ids(r) == Ids(t) - {id}
      && forall k, w :: Row(k, w) in r.rows <==> k != id && Row(k, w) in t.rows
  {
    FilterIncreasing(t.rows, p);
    FilterBounded(t, p);
    forall x ensures x in Filter(t.rows, p) <==> x in t.rows && x.id != id {
      FilterKeeps(t.rows, p, x);
    }
    DropIdIds(t, id, Table(Filter(t.rows, p), t.lastId));
  }

  lemma DropIdIds<R>(t: Table<R>, id: int, r: Table<R>)
    requires forall x :: x in r.rows <==> x in t.rows && x.id != id
    ensures Ids(r) == Ids(t) - {id}
  {
    forall k | k in Ids(r) ensures k in Ids(t) - {id} {
      var i :| 0 <= i < |r.rows| && r.rows[i].id == k;
      assert r.rows[i] in r.rows;
      var j :| 0 <= j < |t.rows| && t.rows[j] == r.rows[i];
    }
    forall k | k in Ids(t) - {id} ensures k in Ids(r) {
      var i :| 0 <= i < |t.rows| && t.rows[i].id == k;
      assert t.rows[i] in r.rows;
      var j :| 0 <= j < |r.rows| && r.rows[j] == t.rows[i];
    }
  }

  /** Any filter of a table keeps ids increasing. */
  lemma {:induction false} FilterIncreasing<R>(rows: seq<Row<R>>, p: Row<R> -> bool)
    requires Increasing(rows)
    ensures Increasing(Filter(rows, p))
  {
    if rows != [] {
      var init := rows[..|rows| - 1];
      var last := rows[|rows| - 1];
      FilterIncreasing(init, p);
      var fi := Filter(init, p);
      forall x | x in fi ensures x.id < last.id {
        var k :| 0 <= k < |init| && init[k] == x;
      }
      if p(last) {
        var r := fi + [last];
        assert Filter(rows, p) == r;
        forall i, j | 0 <= i < j < |r| ensures r[i].id < r[j].id {
          assert fi[i].id < last.id;
          assert r[i] == fi[i] && fi[i] in fi;
          if j < |fi| {
            assert r[j] == fi[j];
          } else {
            assert r[j] == last;
          }
        }
      } else {
        assert Filter(rows, p) == fi;
      }
    }
  }

  /** A filter of a well-formed table keeps ids within bounds. */
  lemma FilterBounded<R>(t: Table<R>, p: Row<R> -> bool)
    requires WellFormed(t)
    ensures Bounded(Filter(t.rows, p), t.lastId)
  {
    var r := Filter(t.rows, p);
    forall i | 0 <= i < |r| ensures 0 < r[i].id <= t.lastId {
      assert r[i] in r;
      FilterKeeps(t.rows, p, r[i]);
      var j :| 0 <= j < |t.rows| && t.rows[j] == r[i];
    }
  }

  // ---------------------------------------------------------------------------------------
  // Child tables: rows that point at a parent row through a `parentId` column.
  // ---------------------------------------------------------------------------------------

  /** `SELECT ... WHERE parentId = p`: the rows under `p`, in table order. */
  function Children<R>(rows: seq<Row<R>>, parentOf: R -> int, p: int): (r: seq<Row<R>>)
    ensures forall i :: 0 <= i < |r| ==> r[i] in rows && parentOf(r[i].value) == p
  {
    if rows == [] then []
    else
      var last := rows[|rows| - 1];
      Children(rows[..|rows| - 1], parentOf, p) + (if parentOf(last.value) == p then [last] else [])
  }

  /** The stored values of some rows, ids set aside. */
  function Values<R>(rows: seq<Row<R>>): (r: seq<R>)
    ensures |r| == |rows| && forall i :: 0 <= i < |rows| ==> r[i] == rows[i].value
  {
    seq(|rows|, i requires 0 <= i < |rows| => rows[i].value)
  }

  /** Values in `vs` whose parent is `p`, in order. */
  function WithParent<R>(vs: seq<R>, parentOf: R -> int, p: int): seq<R>
  {
    if vs == [] then []
    else WithParent(vs[..|vs| - 1], parentOf, p)
         + (if parentOf(vs[|vs| - 1]) == p then [vs[|vs| - 1]] else [])
  }

  /** `DELETE ... WHERE parentId = p`. */
  function DeleteChildren<R>(t: Table<R>, parentOf: R -> int, p: int): (r: Table<R>)
    requires WellFormed(t)
    ensures WellFormed(r) && r.lastId == t.lastId
  {
    var keep := (x: Row<R>) => parentOf(x.value) != p;
    FilterIncreasing(t.rows, keep);
    FilterBounded(t, keep);
    Table(Filter(t.rows, keep), t.lastId)
  }

  /** After `DELETE ... WHERE parentId = p`, `p` has no children and every other parent keeps its own. */
  lemma {:induction false} ChildrenAfterDelete<R>(t: Table<R>, parentOf: R -> int, p: int, q: int)
    requires WellFormed(t)
    ensures Children(DeleteChildren(t, parentOf, p).rows, parentOf, q)
         == if q == p then [] else Children(t.rows, parentOf, q)
  {
    ChildrenFiltered(t.rows, parentOf, p, q);
  }

  lemma {:induction false} ChildrenFiltered<R>(rows: seq<Row<R>>, parentOf: R -> int, p: int, q: int)
    ensures Children(Filter(rows, (x: Row<R>) => parentOf(x.value) != p), parentOf, q)
         == if q == p then [] else Children(rows, parentOf, q)
  {
    var keep := (x: Row<R>) => parentOf(x.value) != p;
    if rows != [] {
      var init := rows[..|rows| - 1];
      var last := rows[|rows| - 1];
      ChildrenFiltered(init, parentOf, p, q);
      var fi := Filter(init, keep);
      if keep(last) {
        assert Filter(rows, keep) == fi + [last];
        assert (fi + [last])[..|fi + [last]| - 1] == fi;
      } else {
        assert Filter(rows, keep) == fi;
      }
    }
  }

  /** Inserting values appends, under each parent, exactly the inserted values with that parent, in order. */
  lemma ChildrenAfterInsertAll<R(!new)>(t: Table<R>, vs: seq<R>, parentOf: R -> int, q: int)
    requires WellFormed(t)
    ensures Values(Children(InsertAll(t, vs).rows, parentOf, q))
         == Values(Children(t.rows, parentOf, q)) + WithParent(vs, parentOf, q)
  {
    InsertAllRows(t, vs);
    ChildrenAfterAppendRows(t.rows, t.lastId, vs, parentOf, q);
  }

  /** The rows `InsertAll` adds after `rows`: `vs[i]` under id `lastId + i + 1`. */
  function AppendRows<R>(rows: seq<Row<R>>, lastId: int, vs: seq<R>): seq<Row<R>>
  {
    if vs == [] then rows else AppendRows(rows, lastId, vs[..|vs| - 1]) + [Row(lastId + |vs|, vs[|vs| - 1])]
  }

  lemma {:induction false} InsertAllRows<R(!new)>(t: Table<R>, vs: seq<R>)
    requires WellFormed(t)
    ensures InsertAll(t, vs).rows == AppendRows(t.rows, t.lastId, vs)
  {
    if vs != [] {
      InsertAllRows(t, vs[..|vs| - 1]);
    }
  }

  lemma {:induction false} ChildrenAfterAppendRows<R>(rows: seq<Row<R>>, lastId: int, vs: seq<R>, parentOf: R -> int, q: int)
    ensures Values(Children(AppendRows(rows, lastId, vs), parentOf, q))
         == Values(Children(rows, parentOf, q)) + WithParent(vs, parentOf, q)
  {
    if vs != [] {
      var init := vs[..|vs| - 1];
      var last := vs[|vs| - 1];
      ChildrenAfterAppendRows(rows, lastId, init, parentOf, q);
      ChildrenAppend(AppendRows(rows, lastId, init), Row(lastId + |vs|, last), parentOf, q);
      var extra := if parentOf(last) == q then [last] else [];
      var old0 := Values(Children(rows, parentOf, q));
      var mid := WithParent(init, parentOf, q);
      assert (old0 + mid) + extra == old0 + (mid + extra);
    }
  }

  lemma ChildrenAppend<R>(rows: seq<Row<R>>, row: Row<R>, parentOf: R -> int, q: int)
    ensures Values(Children(rows + [row], parentOf, q))
         == Values(Children(rows, parentOf, q)) + (if parentOf(row.value) == q then [row.value] else [])
  {
    assert (rows + [row])[..|rows + [row]| - 1] == rows;
    var c := Children(rows, parentOf, q);
    if parentOf(row.value) == q {
      assert Values(c + [row]) == Values(c) + [row.value];
    }
  }

  /** Values that all share parent `p` are all kept, in order. */
  lemma {:induction false} WithParentAll<R>(vs: seq<R>, parentOf: R -> int, p: int)
    requires forall i :: 0 <= i < |vs| ==> parentOf(vs[i]) == p
    ensures WithParent(vs, parentOf, p) == vs
  {
    if vs != [] {
      WithParentAll(vs[..|vs| - 1], parentOf, p);
    }
  }

  /** Values that all have a parent other than `q` contribute nothing under `q`. */
  lemma {:induction false} WithParentNone<R>(vs: seq<R>, parentOf: R -> int, q: int)
    requires forall i :: 0 <= i < |vs| ==> parentOf(vs[i]) != q
    ensures WithParent(vs, parentOf, q) == []
  {
    if vs != [] {
      WithParentNone(vs[..|vs| - 1], parentOf, q);
    }
  }

  // ---------------------------------------------------------------------------------------
  // Reading: a `while sqlite3_step(...) == SQLITE_ROW` loop that turns each row into a record,
  // skipping the rows its `guard` rejects.
  // ---------------------------------------------------------------------------------------

  /** The records `dec` builds from `rows`, in row order; rows it rejects (`None`) are skipped. */
  function DecodeRows<R, T>(rows: seq<Row<R>>, dec: Row<R> -> Option<T>): (r: seq<T>)
    ensures |r| <= |rows|
  {
    if rows == [] then []
    else
      var last := rows[|rows| - 1];
      DecodeRows(rows[..|rows| - 1], dec) + (if dec(last).Some? then [dec(last).value] else [])
  }

  /** Decoding one more row appends that row's record, if it has one. */
  lemma DecodeRowsStep<R, T>(rows: seq<Row<R>>, i: nat, dec: Row<R> -> Option<T>)
    requires i < |rows|
    ensures DecodeRows(rows[..i + 1], dec) ==
      DecodeRows(rows[..i], dec) + (if dec(rows[i]).Some? then [dec(rows[i]).value] else [])
  {
    assert rows[..i + 1][..i] == rows[..i];
  }

  /** A record is listed exactly when some row decodes to it. */
  lemma {:induction false} DecodeRowsMember<R, T>(rows: seq<Row<R>>, dec: Row<R> -> Option<T>, x: T)
    ensures x in DecodeRows(rows, dec) <==> exists k :: 0 <= k < |rows| && dec(rows[k]) == Some(x)
  {
    if rows != [] {
      var init := rows[..|rows| - 1];
      DecodeRowsMember(init, dec, x);
      if exists k :: 0 <= k < |init| && dec(init[k]) == Some(x) {
        var k :| 0 <= k < |init| && dec(init[k]) == Some(x);
        assert rows[k] == init[k];
      }
      if exists k :: 0 <= k < |rows| && dec(rows[k]) == Some(x) {
        var k :| 0 <= k < |rows| && dec(rows[k]) == Some(x);
        if k < |init| { assert init[k] == rows[k]; }
      }
    }
  }

  /** A decoder that accepts every row yields one record per row, in row order. */
  lemma {:induction false} DecodeRowsTotal<R, T>(rows: seq<Row<R>>, dec: Row<R> -> Option<T>)
    requires forall k :: 0 <= k < |rows| ==> dec(rows[k]).Some?
    ensures |DecodeRows(rows, dec)| == |rows|
    ensures forall k :: 0 <= k < |rows| ==> DecodeRows(rows, dec)[k] == dec(rows[k]).value
  {
    if rows != [] {
      var init := rows[..|rows| - 1];
      assert forall k :: 0 <= k < |init| ==> init[k] == rows[k];
      DecodeRowsTotal(init, dec);
    }
  }

  /**
   * Records keep the relative order of the rows they come from: if the records of any two rows
   * are ordered as their rows are, the listing is sorted.
   */
  lemma {:induction false} DecodeRowsSorted<R, T>(rows: seq<Row<R>>, dec: Row<R> -> Option<T>, keyOf: T -> SortKey, desc: bool)
    requires forall i, j :: 0 <= i < j < |rows| && dec(rows[i]).Some? && dec(rows[j]).Some? ==>
      Precedes(keyOf(dec(rows[i]).value), keyOf(dec(rows[j]).value), desc)
    ensures SortedBy(DecodeRows(rows, dec), keyOf, desc)
  {
    if rows != [] {
      var init := rows[..|rows| - 1];
      var last := rows[|rows| - 1];
      assert forall k :: 0 <= k < |init| ==> init[k] == rows[k];
      DecodeRowsSorted(init, dec, keyOf, desc);
      var di := DecodeRows(init, dec);
      if dec(last).Some? {
        var r := di + [dec(last).value];
        forall i, j | 0 <= i < j < |r| ensures Precedes(keyOf(r[i]), keyOf(r[j]), desc) {
          if j < |di| {
            assert r[i] == di[i] && r[j] == di[j];
          } else {
            assert r[i] == di[i] && di[i] in di;
            DecodeRowsMember(init, dec, di[i]);
            var k :| 0 <= k < |init| && dec(init[k]) == Some(di[i]);
            assert dec(rows[k]) == Some(r[i]);
            assert rows[|rows| - 1] == last;
          }
        }
      }
    }
  }
}
