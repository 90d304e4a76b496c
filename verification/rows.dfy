/** Table rows as sequences in scan order, and the three query shapes the
    stores use on them: `filter_by(...)` (the rows a predicate keeps),
    `.count()` and `.one()`. */
module Rows {
  import opened Faults

  /** The rows `keep` accepts, in their original order. */
  function Filter<T>(rows: seq<T>, keep: T -> bool): (r: seq<T>)
    ensures |r| <= |rows|
  {
    if |rows| == 0 then []
    else (if keep(rows[0]) then [rows[0]] else []) + Filter(rows[1..], keep)
  }

  /** A row is kept exactly when it is in the table and accepted. */
  lemma {:induction false} FilterMember<T>(rows: seq<T>, keep: T -> bool, x: T)
    ensures x in Filter(rows, keep) <==> x in rows && keep(x)
  {
    if |rows| > 0 {
      FilterMember(rows[1..], keep, x);
      assert rows == [rows[0]] + rows[1..];
    }
  }

  /** `FilterMember` for every row at once. */
  lemma FilterMembers<T>(rows: seq<T>, keep: T -> bool)
    ensures forall x :: x in Filter(rows, keep) <==> x in rows && keep(x)
  {
    forall x
      ensures x in Filter(rows, keep) <==> x in rows && keep(x)
    {
      FilterMember(rows, keep, x);
    }
  }

  /** Filtering by the negation drops exactly the selected rows. */
  lemma FilterOut<T>(rows: seq<T>, sel: T -> bool)
    ensures forall x :: x in Filter(rows, Not(sel)) <==> x in rows && !sel(x)
  {
    forall x
      ensures x in Filter(rows, Not(sel)) <==> x in rows && !sel(x)
    {
      FilterMember(rows, Not(sel), x);
    }
  }

  /** Each accepted row keeps its multiplicity; the others disappear. */
  lemma {:induction false} FilterMultiset<T>(rows: seq<T>, keep: T -> bool, x: T)
    ensures multiset(Filter(rows, keep))[x] == if keep(x) then multiset(rows)[x] else 0
  {
    if |rows| > 0 {
      FilterMultiset(rows[1..], keep, x);
      assert rows == [rows[0]] + rows[1..];
    }
  }

  /** Filtering a table whose rows are all accepted changes nothing. */
  lemma {:induction false} FilterKeepsAll<T>(rows: seq<T>, keep: T -> bool)
    requires forall i :: 0 <= i < |rows| ==> keep(rows[i])
    ensures Filter(rows, keep) == rows
  {
    if |rows| > 0 {
      FilterKeepsAll(rows[1..], keep);
      assert rows == [rows[0]] + rows[1..];
    }
  }

  /** Filtering distributes over appending rows. */
  lemma {:induction false} FilterAppend<T>(a: seq<T>, b: seq<T>, keep: T -> bool)
    ensures Filter(a + b, keep) == Filter(a, keep) + Filter(b, keep)
  {
    if |a| == 0 {
      assert a + b == b;
    } else {
      FilterAppend(a[1..], b, keep);
      var head := if keep(a[0]) then [a[0]] else [];
      calc {
        Filter(a + b, keep);
        { assert (a + b)[0] == a[0] && (a + b)[1..] == a[1..] + b; }
        head + Filter(a[1..] + b, keep);
        head + (Filter(a[1..], keep) + Filter(b, keep));
        (head + Filter(a[1..], keep)) + Filter(b, keep);
        Filter(a, keep) + Filter(b, keep);
      }
    }
  }

  /** `.count()`: how many rows `keep` accepts. */
  function CountOf<T>(rows: seq<T>, keep: T -> bool): nat
  {
    if |rows| == 0 then 0
    else (if keep(rows[0]) then 1 else 0) + CountOf(rows[1..], keep)
  }

  /** The count is the size of the filtered table. */
  lemma {:induction false} CountFilter<T>(rows: seq<T>, keep: T -> bool)
    ensures CountOf(rows, keep) == |Filter(rows, keep)|
  {
    if |rows| > 0 {
      CountFilter(rows[1..], keep);
    }
  }

  /** The positions `keep` accepts. */
  ghost function Selected<T>(rows: seq<T>, keep: T -> bool): set<nat>
  {
    set i: nat | i < |rows| && keep(rows[i])
  }

  /** The count is the number of accepted positions. */
  lemma {:induction false} CountSelected<T>(rows: seq<T>, keep: T -> bool)
    ensures CountOf(rows, keep) == |Selected(rows, keep)|
  {
    if |rows| > 0 {
      var init := rows[..|rows| - 1];
      var last := rows[|rows| - 1];
      CountSelected(init, keep);
      assert rows == init + [last];
      FilterAppend(init, [last], keep);
      CountFilter(rows, keep);
      CountFilter(init, keep);
      var more: set<nat> := if keep(last) then {|init|} else {};
      assert Selected(rows, keep) == Selected(init, keep) + more by {
        forall i: nat | i < |init|
          ensures rows[i] == init[i]
        {
        }
      }
      assert |init| !in Selected(init, keep);
    }
  }

  /** The count is positive exactly when some row is accepted. */
  lemma {:induction false} CountPositive<T>(rows: seq<T>, keep: T -> bool)
    ensures CountOf(rows, keep) > 0 <==> exists i :: 0 <= i < |rows| && keep(rows[i])
  {
    if |rows| > 0 {
      CountPositive(rows[1..], keep);
      if exists i :: 0 <= i < |rows| && keep(rows[i]) {
        var i :| 0 <= i < |rows| && keep(rows[i]);
        if i > 0 {
          assert rows[1..][i - 1] == rows[i];
        }
      }
      if exists i :: 0 <= i < |rows[1..]| && keep(rows[1..][i]) {
        var i :| 0 <= i < |rows[1..]| && keep(rows[1..][i]);
        assert rows[i + 1] == rows[1..][i];
      }
    }
  }

  /** More than one row is accepted exactly when two positions are. */
  lemma {:induction false} FilterTwo<T>(rows: seq<T>, keep: T -> bool)
    ensures |Filter(rows, keep)| > 1 <==>
      exists i, j :: 0 <= i < j < |rows| && keep(rows[i]) && keep(rows[j])
  {
    if |rows| > 0 {
      var tail := rows[1..];
      FilterTwo(tail, keep);
      CountFilter(tail, keep);
      CountPositive(tail, keep);
      if exists i, j :: 0 <= i < j < |rows| && keep(rows[i]) && keep(rows[j]) {
        var i, j :| 0 <= i < j < |rows| && keep(rows[i]) && keep(rows[j]);
        assert tail[j - 1] == rows[j];
        if i > 0 {
          assert tail[i - 1] == rows[i];
        }
      }
      if |Filter(rows, keep)| > 1 {
        if keep(rows[0]) {
          var j :| 0 <= j < |tail| && keep(tail[j]);
          assert rows[j + 1] == tail[j];
        } else {
          var i, j :| 0 <= i < j < |tail| && keep(tail[i]) && keep(tail[j]);
          assert rows[i + 1] == tail[i] && rows[j + 1] == tail[j];
        }
      }
    }
  }

  /** `.one()`: the single row of a query, `NoResultFound` when there is
      none and `MultipleResultsFound` when there are several. */
  function One<T>(rows: seq<T>): (r: Result<T>)
    ensures r.Ok? <==> |rows| == 1
    ensures r.Ok? ==> r.value in rows
    ensures r == Err(NoResultFound) <==> |rows| == 0
    ensures r == Err(MultipleResultsFound) <==> |rows| > 1
  {
    if |rows| == 0 then Err(NoResultFound)
    else if |rows| == 1 then Ok(rows[0])
    else Err(MultipleResultsFound)
  }

  /** No two rows share a key: the table's primary-key constraint. */
  ghost predicate KeysUnique<T, K>(rows: seq<T>, key: T -> K)
  {
    forall i, j :: 0 <= i < j < |rows| ==> key(rows[i]) != key(rows[j])
  }

  /** Under a primary key, the rows with a given key number at most one. */
  lemma {:induction false} UniqueKeyFilter<T, K>(rows: seq<T>, key: T -> K, k: K, keep: T -> bool)
    requires KeysUnique(rows, key)
    requires forall x :: keep(x) <==> key(x) == k
    ensures |Filter(rows, keep)| <= 1
  {
    if |rows| > 0 {
      UniqueKeyFilter(rows[1..], key, k, keep);
      var rest := Filter(rows[1..], keep);
      if keep(rows[0]) && |rest| > 0 {
        FilterMember(rows[1..], keep, rest[0]);
      }
    }
  }

  /** A sub-table of a table with unique keys has unique keys. */
  lemma {:induction false} FilterKeysUnique<T, K>(rows: seq<T>, keep: T -> bool, key: T -> K)
    requires KeysUnique(rows, key)
    ensures KeysUnique(Filter(rows, keep), key)
  {
    if |rows| > 0 {
      FilterKeysUnique(rows[1..], keep, key);
      var rest := Filter(rows[1..], keep);
      if keep(rows[0]) {
        var r := [rows[0]] + rest;
        forall i, j | 0 <= i < j < |r|
          ensures key(r[i]) != key(r[j])
        {
          if i == 0 {
            assert r[j] == rest[j - 1];
            FilterMember(rows[1..], keep, r[j]);
            var m :| 0 <= m < |rows[1..]| && rows[1..][m] == r[j];
            assert rows[m + 1] == r[j];
          } else {
            assert r[i] == rest[i - 1] && r[j] == rest[j - 1];
          }
        }
      }
    }
  }

  /** The last row with each key: `dict((key(row), row) for row in rows)`. */
  function ByKey<T, K>(rows: seq<T>, key: T -> K): (m: map<K, T>)
    ensures m.Keys == set i | 0 <= i < |rows| :: key(rows[i])
    ensures forall k :: k in m ==> m[k] in rows && key(m[k]) == k
  {
    if |rows| == 0 then map[]
    else
      var init := rows[..|rows| - 1];
      var last := rows[|rows| - 1];
      assert (set i | 0 <= i < |rows| :: key(rows[i]))
          == (set i | 0 <= i < |init| :: key(init[i])) + {key(last)} by {
        forall i | 0 <= i < |init|
          ensures init[i] == rows[i]
        {
        }
      }
      ByKey(init, key)[key(last) := last]
  }

  /** Each entry of `ByKey` is the last row carrying its key. */
  lemma {:induction false} ByKeyLast<T, K>(rows: seq<T>, key: T -> K, i: nat)
    requires i < |rows|
    requires forall j :: i < j < |rows| ==> key(rows[j]) != key(rows[i])
    ensures ByKey(rows, key)[key(rows[i])] == rows[i]
  {
    if i < |rows| - 1 {
      var front := rows[..|rows| - 1];
      assert forall j :: i < j < |front| ==> key(front[j]) != key(front[i]);
      ByKeyLast(front, key, i);
    }
  }

  /** Under a primary key every row is its key's entry: nothing is lost. */
  lemma ByKeyUnique<T, K>(rows: seq<T>, key: T -> K, i: nat)
    requires KeysUnique(rows, key)
    requires i < |rows|
    ensures ByKey(rows, key)[key(rows[i])] == rows[i]
  {
    ByKeyLast(rows, key, i);
  }

  /** The complement of a selection: what `.delete()` leaves behind. */
  function Not<T>(sel: T -> bool): T -> bool
  {
    x => !sel(x)
  }

  /** The rows whose key is `k`: `filter_by(<key> = k)`. */
  function KeyIs<T, K(==)>(key: T -> K, k: K): T -> bool
  {
    x => key(x) == k
  }

  /** The position of the first row `sel` accepts. */
  function FirstWhere<T>(rows: seq<T>, sel: T -> bool): (i: nat)
    requires exists i :: 0 <= i < |rows| && sel(rows[i])
    ensures i < |rows| && sel(rows[i])
    ensures forall j :: 0 <= j < i ==> !sel(rows[j])
  {
    if sel(rows[0]) then 0
    else
      var j :| 0 <= j < |rows| && sel(rows[j]);
      assert rows[1..][j - 1] == rows[j];
      1 + FirstWhere(rows[1..], sel)
  }

  /** A table with a primary key `key`: a second row with the key of an
      existing one is refused. Rows are kept in scan order. */
  class KeyedTable<T(==), K(==)> {
    const key: T -> K
    var rows: seq<T>

    ghost predicate Valid()
      reads this
    {
      KeysUnique(rows, key)
    }

    constructor(key: T -> K)
      ensures this.key == key && rows == [] && Valid()
    {
      this.key := key;
      rows := [];
    }

    /** `session.add(row)`: `DuplicateEntry`, with nothing written, when
        the key is taken; otherwise the row is appended. */
    method Save(row: T) returns (r: Result<()>)
      requires Valid()
      modifies this
      ensures Valid()
      ensures (exists i :: 0 <= i < |old(rows)| && key(old(rows)[i]) == key(row)) ==>
        r == Err(DuplicateEntry) && rows == old(rows)
      ensures (forall i :: 0 <= i < |old(rows)| ==> key(old(rows)[i]) != key(row)) ==>
        r == Ok(()) && rows == old(rows) + [row]
    {
      if exists i | 0 <= i < |rows| :: key(rows[i]) == key(row) {
        return Err(DuplicateEntry);
      }
      rows := rows + [row];
      r := Ok(());
    }

    /** `filter_by(...).one()`: the single selected row; `NoResultFound`
        when none is selected, `MultipleResultsFound` when several are. */
    function Get(sel: T -> bool): (r: Result<T>)
      reads this
      ensures r.Ok? ==> r.value in rows && sel(r.value)
      ensures r == Err(NoResultFound) <==> forall i :: 0 <= i < |rows| ==> !sel(rows[i])
      ensures r == Err(MultipleResultsFound) <==>
        exists i, j :: 0 <= i < j < |rows| && sel(rows[i]) && sel(rows[j])
      ensures r.Err? ==> r.fault in {NoResultFound, MultipleResultsFound}
    {
      FilterMembers(rows, sel);
      FilterTwo(rows, sel);
      CountFilter(rows, sel);
      CountPositive(rows, sel);
      One(Filter(rows, sel))
    }

    /** Selecting by the primary key never finds several rows. */
    lemma GetByKey(k: K)
      requires Valid()
      ensures Get(KeyIs(key, k)) != Err(MultipleResultsFound)
    {
      UniqueKeyFilter(rows, key, k, KeyIs(key, k));
    }

    /** `filter_by(...).count()`: the number of selected rows. */
    function Count(sel: T -> bool): (n: nat)
      reads this
      ensures n == |Filter(rows, sel)|
      ensures n == |Selected(rows, sel)|
      ensures n > 0 <==> exists i :: 0 <= i < |rows| && sel(rows[i])
    {
      CountFilter(rows, sel);
      CountPositive(rows, sel);
      CountSelected(rows, sel);
      CountOf(rows, sel)
    }

    /** `.one()` then `row.update(...)`: the single selected row is replaced;
        the errors of `Get`, or `DuplicateEntry` when the new key belongs to
        another row, leave the table as it was. */
    method Update(sel: T -> bool, row: T) returns (r: Result<()>)
      requires Valid()
      modifies this
      ensures Valid()
      ensures old(Get(sel)).Err? ==> r == Err(old(Get(sel)).fault) && rows == old(rows)
      ensures old(Get(sel)).Ok? ==>
        var i := FirstWhere(old(rows), sel);
        if exists j :: 0 <= j < |old(rows)| && j != i && key(old(rows)[j]) == key(row)
        then r == Err(DuplicateEntry) && rows == old(rows)
        else r == Ok(()) && rows == old(rows)[i := row]
    {
      var found := Get(sel);
      if found.Err? {
        return Err(found.fault);
      }
      var i := FirstWhere(rows, sel);
      if exists j | 0 <= j < |rows| :: j != i && key(rows[j]) == key(row) {
        return Err(DuplicateEntry);
      }
      rows := rows[i := row];
      r := Ok(());
    }

    /** `filter_by(...).delete()`: exactly the selected rows go; the rest
        keep their order. */
    method Delete(sel: T -> bool)
      requires Valid()
      modifies this
      ensures Valid()
      ensures rows == Filter(old(rows), Not(sel))
      ensures forall x :: x in rows <==> x in old(rows) && !sel(x)
      ensures (forall i :: 0 <= i < |old(rows)| ==> !sel(old(rows)[i])) ==> rows == old(rows)
    {
      ghost var before := rows;
      FilterKeysUnique(rows, Not(sel), key);
      if forall i | 0 <= i < |rows| :: !sel(rows[i]) {
        FilterKeepsAll(rows, Not(sel));
      }
      rows := Filter(rows, Not(sel));
      FilterOut(before, sel);
    }

    /** `query(...).delete()` with no filter: the table is emptied. */
    method Clear()
      modifies this
      ensures Valid()
      ensures rows == []
    {
      rows := [];
    }
  }
}
