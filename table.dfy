/**
 * An ORM table as the two entity services use it: rows keyed by a
 * primary-key id, each with its creation time, looked up by id, replaced,
 * destroyed, and read newest first one page at a time.
 */
module Table {
  import opened Js
  import opened ApiResponse
  import opened ErrorHandler

  datatype Row<A> = Row(id: string, createdAt: int, attrs: A)

  /** The primary key is unique. */
  predicate DistinctIds<A>(rows: seq<Row<A>>)
  {
    forall i, j :: 0 <= i < j < |rows| ==> rows[i].id != rows[j].id
  }

  predicate HasId<A>(rows: seq<Row<A>>, id: string)
  {
    exists i :: 0 <= i < |rows| && rows[i].id == id
  }

  /** `Model.findByPk(id)`: the row with that id, or `null`. */
  function Find<A>(rows: seq<Row<A>>, id: string): (r: Option<Row<A>>)
    ensures r.Some? ==> r.value in rows && r.value.id == id
    ensures r.None? <==> !HasId(rows, id)
    decreases |rows|
  {
    if rows == [] then None
    else if rows[0].id == id then Some(rows[0])
    else
      var rest := Find(rows[1..], id);
      assert HasId(rows, id) ==> rows[0].id == id || HasId(rows[1..], id) by {
        if HasId(rows, id) {
          var i :| 0 <= i < |rows| && rows[i].id == id;
          if i > 0 { assert rows[1..][i - 1].id == id; }
        }
      }
      assert HasId(rows[1..], id) ==> HasId(rows, id) by {
        if HasId(rows[1..], id) {
          var i :| 0 <= i < |rows[1..]| && rows[1..][i].id == id;
          assert rows[i + 1].id == id;
        }
      }
      rest
  }

  /** `instance.save()` of a row read by id: the row with the same id is replaced, the others stay in place. */
  function Replace<A>(rows: seq<Row<A>>, row: Row<A>): (out: seq<Row<A>>)
    ensures |out| == |rows|
    ensures forall i :: 0 <= i < |rows| ==> out[i] == if rows[i].id == row.id then row else rows[i]
    decreases |rows|
  {
    if rows == [] then []
    else [if rows[0].id == row.id then row else rows[0]] + Replace(rows[1..], row)
  }

  /** `instance.destroy()`: the rows without that id, in their order. */
  function Remove<A>(rows: seq<Row<A>>, id: string): (out: seq<Row<A>>)
    ensures forall i :: 0 <= i < |out| ==> out[i] in rows && out[i].id != id
    ensures forall i :: 0 <= i < |rows| && rows[i].id != id ==> rows[i] in out
    ensures |out| <= |rows|
    decreases |rows|
  {
    if rows == [] then []
    else if rows[0].id == id then Remove(rows[1..], id)
    else [rows[0]] + Remove(rows[1..], id)
  }

  /** Destroying a present row of a table with unique ids removes exactly one row and keeps the ids unique. */
  lemma {:induction false} RemoveOne<A>(rows: seq<Row<A>>, id: string)
    requires DistinctIds(rows) && HasId(rows, id)
    ensures |Remove(rows, id)| == |rows| - 1
    ensures DistinctIds(Remove(rows, id))
    decreases |rows|
  {
    DistinctIdsTail(rows);
    if rows[0].id == id {
      AbsentRemovesNothing(rows[1..], id);
    } else {
      var i :| 0 <= i < |rows| && rows[i].id == id;
      assert rows[1..][i - 1].id == id;
      RemoveOne(rows[1..], id);
      var out := Remove(rows, id);
      assert out == [rows[0]] + Remove(rows[1..], id);
      forall a, b | 0 <= a < b < |out|
        ensures out[a].id != out[b].id
      {
        if a == 0 {
          assert out[b] in Remove(rows[1..], id);
          assert out[b] in rows[1..];
        }
      }
    }
  }

  /** Removing an id that is not there changes nothing. */
  lemma {:induction false} AbsentRemovesNothing<A>(rows: seq<Row<A>>, id: string)
    requires !HasId(rows, id)
    ensures Remove(rows, id) == rows
    decreases |rows|
  {
    if rows != [] {
      assert rows[0].id != id;
      forall k | 0 <= k < |rows[1..]|
        ensures rows[1..][k].id != id
      {
        assert rows[1..][k] == rows[k + 1];
      }
      AbsentRemovesNothing(rows[1..], id);
    }
  }

  /** The tail of a table with unique ids has unique ids, none equal to the head's. */
  lemma DistinctIdsTail<A>(rows: seq<Row<A>>)
    requires DistinctIds(rows) && rows != []
    ensures DistinctIds(rows[1..])
    ensures forall r :: r in rows[1..] ==> r.id != rows[0].id
  {
    forall r | r in rows[1..]
      ensures r.id != rows[0].id
    {
      var k :| 0 <= k < |rows[1..]| && rows[1..][k] == r;
      assert rows[k + 1] == r;
    }
  }

  /** A column with a unique index: no two rows hold the same value in it. */
  predicate UniqueColumn<A>(rows: seq<Row<A>>, column: A -> string)
  {
    forall i, j :: 0 <= i < j < |rows| ==> column(rows[i].attrs) != column(rows[j].attrs)
  }

  /** Some row other than the one keyed `except` already holds `value` in the column. */
  predicate Taken<A>(rows: seq<Row<A>>, column: A -> string, value: string, except: string)
  {
    exists i :: 0 <= i < |rows| && rows[i].id != except && column(rows[i].attrs) == value
  }

  /**
   * What the ORM throws when a write would break a unique index: one error
   * item naming the column and the offending value.
   */
  function UniqueViolation(column: string, value: string): Exception
  {
    Exception("SequelizeUniqueConstraintError", "Validation error",
              [ErrorItem(Some(column), column + " must be unique", Some(value))])
  }

  /** The error middleware answers a unique violation with a validation response naming the value. */
  lemma DuplicateAnswered(column: string, value: string)
    ensures HandleError(UniqueViolation(column, value)) ==
      Reply(422, ErrorBody("Validation failed", 422, Some([FieldError(Some(column), value + " already exists")])))
  {
    var items := UniqueItems(UniqueViolation(column, value).errors);
    assert items[0] == FieldError(Some(column), value + " already exists");
    assert items == [FieldError(Some(column), value + " already exists")];
  }

  /** In a table with unique ids, looking up any row's id finds that row. */
  lemma {:induction false} FindUnique<A>(rows: seq<Row<A>>, k: nat)
    requires DistinctIds(rows) && k < |rows|
    ensures Find(rows, rows[k].id) == Some(rows[k])
    decreases |rows|
  {
    if k > 0 {
      DistinctIdsTail(rows);
      assert rows[1..][k - 1] == rows[k];
      FindUnique(rows[1..], k - 1);
    }
  }

  /** A row created under a new id keeps the ids unique and is found by its id; the other rows are found as before. */
  lemma AppendSpec<A>(rows: seq<Row<A>>, row: Row<A>, id: string)
    requires DistinctIds(rows) && !HasId(rows, row.id)
    ensures DistinctIds(rows + [row])
    ensures Find(rows + [row], row.id) == Some(row)
    ensures id != row.id ==> Find(rows + [row], id) == Find(rows, id)
  {
    var out := rows + [row];
    assert out[|rows|] == row;
    FindUnique(out, |rows|);
    if id != row.id {
      if HasId(rows, id) {
        var k :| 0 <= k < |rows| && rows[k].id == id;
        FindUnique(rows, k);
        assert out[k] == rows[k];
        FindUnique(out, k);
      } else {
        forall k | 0 <= k < |out|
          ensures out[k].id != id
        {
          if k < |rows| { assert out[k] == rows[k]; }
        }
      }
    }
  }

  /** A row whose unique value no other row holds can be added without breaking the index. */
  lemma AppendKeepsUnique<A>(rows: seq<Row<A>>, row: Row<A>, column: A -> string)
    requires UniqueColumn(rows, column) && !Taken(rows, column, column(row.attrs), row.id)
    requires !HasId(rows, row.id)
    ensures UniqueColumn(rows + [row], column)
  {
    var out := rows + [row];
    forall i, j | 0 <= i < j < |out|
      ensures column(out[i].attrs) != column(out[j].attrs)
    {
      assert out[i] == rows[i];
      if j < |rows| { assert out[j] == rows[j]; }
    }
  }

  /** Saving a row over the one with its id keeps the ids, and a unique value no other row holds. */
  lemma ReplaceSpec<A>(rows: seq<Row<A>>, row: Row<A>, column: A -> string)
    requires DistinctIds(rows) && HasId(rows, row.id)
    requires UniqueColumn(rows, column) && !Taken(rows, column, column(row.attrs), row.id)
    ensures DistinctIds(Replace(rows, row)) && UniqueColumn(Replace(rows, row), column)
    ensures Find(Replace(rows, row), row.id) == Some(row)
  {
    var out := Replace(rows, row);
    forall i, j | 0 <= i < j < |out|
      ensures out[i].id != out[j].id && column(out[i].attrs) != column(out[j].attrs)
    {
      assert rows[i].id != rows[j].id;
    }
    var k :| 0 <= k < |rows| && rows[k].id == row.id;
    FindUnique(out, k);
  }

  /** The tail of a uniquely indexed table is uniquely indexed, and holds no value of the head's. */
  lemma UniqueColumnTail<A>(rows: seq<Row<A>>, column: A -> string)
    requires UniqueColumn(rows, column) && rows != []
    ensures UniqueColumn(rows[1..], column)
    ensures forall r :: r in rows[1..] ==> column(r.attrs) != column(rows[0].attrs)
  {
    var tail := rows[1..];
    forall i, j | 0 <= i < j < |tail|
      ensures column(tail[i].attrs) != column(tail[j].attrs)
    {
      assert tail[i] == rows[i + 1] && tail[j] == rows[j + 1];
    }
    forall r | r in tail
      ensures column(r.attrs) != column(rows[0].attrs)
    {
      var k :| 0 <= k < |tail| && tail[k] == r;
      assert rows[k + 1] == r;
    }
  }

  /** Destroying a row keeps a unique index unique. */
  lemma {:induction false} RemoveKeepsUnique<A>(rows: seq<Row<A>>, id: string, column: A -> string)
    requires UniqueColumn(rows, column)
    ensures UniqueColumn(Remove(rows, id), column)
    decreases |rows|
  {
    if rows != [] {
      var tail := rows[1..];
      UniqueColumnTail(rows, column);
      RemoveKeepsUnique(tail, id, column);
      if rows[0].id != id {
        var rest := Remove(tail, id);
        assert Remove(rows, id) == [rows[0]] + rest;
        forall r | r in rest
          ensures column(r.attrs) != column(rows[0].attrs)
        {
          assert r in tail;
        }
        ConsUnique(rows[0], rest, column);
      }
    }
  }

  /** A row whose value no row of a uniquely indexed list holds can go in front of it. */
  lemma ConsUnique<A>(row: Row<A>, rest: seq<Row<A>>, column: A -> string)
    requires UniqueColumn(rest, column)
    requires forall r :: r in rest ==> column(r.attrs) != column(row.attrs)
    ensures UniqueColumn([row] + rest, column)
  {
    var out := [row] + rest;
    forall i, j | 0 <= i < j < |out|
      ensures column(out[i].attrs) != column(out[j].attrs)
    {
      assert out[j] == rest[j - 1];
      if i > 0 {
        assert out[i] == rest[i - 1];
      }
    }
  }

  /** After a row is destroyed its id is no longer found. */
  lemma RemovedNotFound<A>(rows: seq<Row<A>>, id: string)
    ensures Find(Remove(rows, id), id) == None
  {
    var out := Remove(rows, id);
    forall k | 0 <= k < |out|
      ensures out[k].id != id
    {
    }
  }

  /** `order: [['createdAt', 'DESC']]`. */
  predicate NewestFirst<A>(rows: seq<Row<A>>)
  {
    forall i, j :: 0 <= i < j < |rows| ==> rows[i].createdAt >= rows[j].createdAt
  }

  /** Puts `row` before the first row that is not newer than it. */
  function InsertNewestFirst<A>(row: Row<A>, sorted: seq<Row<A>>): seq<Row<A>>
    decreases |sorted|
  {
    if sorted == [] then [row]
    else if row.createdAt >= sorted[0].createdAt then [row] + sorted
    else [sorted[0]] + InsertNewestFirst(row, sorted[1..])
  }

  /**
   * The rows newest first. The database leaves the order of rows created at
   * the same instant open; this definition keeps them in table order.
   */
  function SortNewestFirst<A>(rows: seq<Row<A>>): seq<Row<A>>
    decreases |rows|
  {
    if rows == [] then [] else InsertNewestFirst(rows[0], SortNewestFirst(rows[1..]))
  }

  /** Inserting adds exactly the one row. */
  lemma {:induction false} InsertKeepsRows<A>(row: Row<A>, sorted: seq<Row<A>>)
    ensures multiset(InsertNewestFirst(row, sorted)) == multiset(sorted) + multiset{row}
    decreases |sorted|
  {
    if sorted != [] && row.createdAt < sorted[0].createdAt {
      InsertKeepsRows(row, sorted[1..]);
      assert sorted == [sorted[0]] + sorted[1..];
    }
  }

  /** Inserting into rows that are newest first keeps them newest first. */
  lemma {:induction false} InsertKeepsOrder<A>(row: Row<A>, sorted: seq<Row<A>>)
    requires NewestFirst(sorted)
    ensures NewestFirst(InsertNewestFirst(row, sorted))
    decreases |sorted|
  {
    if sorted != [] && row.createdAt < sorted[0].createdAt {
      var tail := sorted[1..];
      assert NewestFirst(tail) by {
        forall i, j | 0 <= i < j < |tail|
          ensures tail[i].createdAt >= tail[j].createdAt
        {
          assert tail[i] == sorted[i + 1] && tail[j] == sorted[j + 1];
        }
      }
      InsertKeepsOrder(row, tail);
      InsertKeepsRows(row, tail);
      var rest := InsertNewestFirst(row, tail);
      forall j | 0 <= j < |rest|
        ensures sorted[0].createdAt >= rest[j].createdAt
      {
        assert rest[j] in multiset(rest);
        if rest[j] != row {
          assert rest[j] in multiset(tail);
          var k :| 0 <= k < |tail| && tail[k] == rest[j];
          assert sorted[k + 1] == rest[j];
        }
      }
      var out := [sorted[0]] + rest;
      assert InsertNewestFirst(row, sorted) == out;
      forall i, j | 0 <= i < j < |out|
        ensures out[i].createdAt >= out[j].createdAt
      {
        if i == 0 {
          assert out[j] == rest[j - 1];
        } else {
          assert out[i] == rest[i - 1] && out[j] == rest[j - 1];
        }
      }
    }
  }

  /** Sorting yields the same rows, newest first. */
  lemma {:induction false} SortSpec<A>(rows: seq<Row<A>>)
    ensures NewestFirst(SortNewestFirst(rows))
    ensures multiset(SortNewestFirst(rows)) == multiset(rows)
    ensures |SortNewestFirst(rows)| == |rows|
    decreases |rows|
  {
    if rows != [] {
      SortSpec(rows[1..]);
      InsertKeepsRows(rows[0], SortNewestFirst(rows[1..]));
      InsertKeepsOrder(rows[0], SortNewestFirst(rows[1..]));
      assert rows == [rows[0]] + rows[1..];
    }
    assert |multiset(SortNewestFirst(rows))| == |multiset(rows)|;
  }

  function Min(a: int, b: int): int
  {
    if a <= b then a else b
  }

  /** `limit` and `offset` on an ordered query: the rows at positions `offset` to `offset + limit - 1`. */
  function Window<A>(rows: seq<Row<A>>, offset: nat, limit: nat): (w: seq<Row<A>>)
    ensures |w| == if offset >= |rows| then 0 else Min(limit, |rows| - offset)
    ensures forall i :: 0 <= i < |w| ==> w[i] == rows[offset + i]
  {
    if offset >= |rows| then [] else rows[offset..Min(offset + limit, |rows|)]
  }

  /**
   * A page of the rows newest first: rows of the table, newest first, as
   * many as the limit allows from the offset on.
   */
  lemma PageSpec<A>(rows: seq<Row<A>>, offset: nat, limit: nat)
    ensures var w := Window(SortNewestFirst(rows), offset, limit);
      && |w| == (if offset >= |rows| then 0 else Min(limit, |rows| - offset))
      && (forall i, j :: 0 <= i < j < |w| ==> w[i].createdAt >= w[j].createdAt)
      && (forall i :: 0 <= i < |w| ==> w[i] in rows)
  {
    var sorted := SortNewestFirst(rows);
    SortSpec(rows);
    var w := Window(sorted, offset, limit);
    forall i | 0 <= i < |w|
      ensures w[i] in rows
    {
      assert w[i] == sorted[offset + i];
      assert sorted[offset + i] in multiset(rows);
    }
    forall i, j | 0 <= i < j < |w|
      ensures w[i].createdAt >= w[j].createdAt
    {
      assert w[i] == sorted[offset + i] && w[j] == sorted[offset + j];
    }
  }

  /** `Math.ceil(n / d)` for a positive divisor: the fewest pages of `d` rows that hold `n` rows. */
  function CeilDiv(n: nat, d: nat): (q: nat)
    requires d > 0
    ensures q * d >= n
    ensures q == 0 || (q - 1) * d < n
  {
    if n == 0 then 0 else 1 + CeilDiv(if n > d then n - d else 0, d)
  }

  /** The `pagination` block of a list response. */
  datatype Pagination = Pagination(total: nat, limit: nat, offset: nat, pages: Option<nat>)

  /**
   * `Math.ceil(count / limit)`. Dividing by a zero limit gives Infinity or
   * NaN, which the JSON response carries as `null`.
   */
  function Pages(total: nat, limit: nat): (p: Option<nat>)
    ensures p.None? <==> limit == 0
    ensures p.Some? ==> p.value == CeilDiv(total, limit)
  {
    if limit == 0 then None else Some(CeilDiv(total, limit))
  }

  /**
   * With a positive limit every row is on exactly one of the pages 0 to
   * `pages - 1`: the window at `p * limit` holds row `p * limit + i`, and
   * none of the pages is empty.
   */
  lemma PagesCover<A>(rows: seq<Row<A>>, limit: nat, k: nat)
    requires limit > 0 && k < |rows|
    ensures k / limit < Pages(|rows|, limit).value
    ensures k % limit < |Window(rows, (k / limit) * limit, limit)| &&
            Window(rows, (k / limit) * limit, limit)[k % limit] == rows[k]
    ensures forall p :: 0 <= p < Pages(|rows|, limit).value ==> |Window(rows, p * limit, limit)| > 0
  {
    RowOnPage(|rows|, limit, k);
    RowInWindow(rows, limit, k);
    forall p | 0 <= p < CeilDiv(|rows|, limit)
      ensures |Window(rows, p * limit, limit)| > 0
    {
      PageStartsInside(|rows|, limit, p);
    }
  }

  /** Row `k` of `n` is on a page below the page count. */
  lemma RowOnPage(n: nat, limit: nat, k: nat)
    requires limit > 0 && k < n
    ensures k / limit < CeilDiv(n, limit)
  {
    var p := k / limit;
    var q := CeilDiv(n, limit);
    assert p * limit <= k by {
      assert k == p * limit + k % limit;
    }
    MulStrict(p, q, limit);
  }

  /** The window of row `k`'s page holds it at position `k % limit`. */
  lemma RowInWindow<A>(rows: seq<Row<A>>, limit: nat, k: nat)
    requires limit > 0 && k < |rows|
    ensures k % limit < |Window(rows, (k / limit) * limit, limit)| &&
            Window(rows, (k / limit) * limit, limit)[k % limit] == rows[k]
  {
    var offset := (k / limit) * limit;
    var i := k % limit;
    assert k == offset + i;
    assert i < Min(limit, |rows| - offset);
  }

  /** Every page below the page count starts at a row that exists. */
  lemma PageStartsInside(n: nat, limit: nat, p: nat)
    requires limit > 0 && p < CeilDiv(n, limit)
    ensures p * limit < n
  {
    MulMonotone(p, CeilDiv(n, limit) - 1, limit);
  }

  lemma MulStrict(a: nat, b: nat, c: nat)
    requires a * c < b * c
    ensures a < b
  {
    if a >= b {
      MulMonotone(b, a, c);
    }
  }

  lemma MulMonotone(a: nat, b: nat, c: nat)
    requires a <= b
    ensures a * c <= b * c
  {
  }
}
