/**
 * A SQLite table as the stores use it: rows in table order, a look-up that
 * returns the first match (`fetchone()` on `SELECT ... WHERE key = ?`), and
 * the save that looks the key up first and then runs either an `UPDATE`
 * over every matching row or an `INSERT` of one row at the end.
 */
module Tables {
  import opened Wrappers
  import opened Lists

  predicate HasKey<T, K(==)>(rows: seq<T>, key: T -> K, k: K)
  {
    exists i :: 0 <= i < |rows| && key(rows[i]) == k
  }

  /** The first row with the key, in table order. */
  function Lookup<T, K(==)>(rows: seq<T>, key: T -> K, k: K): (r: Option<T>)
    ensures r.None? <==> !HasKey(rows, key, k)
    ensures r.Some? ==> key(r.value) == k && r.value in rows
  {
    match FirstIndex(rows, (t: T) => key(t) == k)
    case Some(i) => Some(rows[i])
    case None => None
  }

  /** `UPDATE ... WHERE key = ?` setting every other column: each row with the key becomes `row`. */
  function UpdateWhere<T, K(==)>(rows: seq<T>, key: T -> K, row: T): (r: seq<T>)
    ensures |r| == |rows|
  {
    seq(|rows|, i requires 0 <= i < |rows| => if key(rows[i]) == key(row) then row else rows[i])
  }

  /** The save: an update of the existing rows with the key, or one row inserted at the end. */
  function Upsert<T, K(==)>(rows: seq<T>, key: T -> K, row: T): seq<T>
  {
    if HasKey(rows, key, key(row)) then UpdateWhere(rows, key, row) else rows + [row]
  }

  /** A save adds a row exactly when no row had the key. */
  lemma UpsertCount<T, K>(rows: seq<T>, key: T -> K, row: T)
    ensures |Upsert(rows, key, row)| == |rows| + (if HasKey(rows, key, key(row)) then 0 else 1)
  {
  }

  /** After a save, looking its key up gives the saved row. */
  lemma UpsertThenLookup<T, K>(rows: seq<T>, key: T -> K, row: T)
    ensures Lookup(Upsert(rows, key, row), key, key(row)) == Some(row)
  {
    var r := Upsert(rows, key, row);
    var i := FirstIndex(r, (t: T) => key(t) == key(row));
    assert HasKey(r, key, key(row)) by {
      if HasKey(rows, key, key(row)) {
        var j :| 0 <= j < |rows| && key(rows[j]) == key(row);
        assert key(r[j]) == key(row);
      } else {
        assert key(r[|rows|]) == key(row);
      }
    }
    assert r[i.value] == row;
  }

  /** A save leaves every other key's look-up as it was. */
  lemma UpsertLeavesOthers<T, K>(rows: seq<T>, key: T -> K, row: T, k: K)
    requires k != key(row)
    ensures Lookup(Upsert(rows, key, row), key, k) == Lookup(rows, key, k)
  {
    var r := Upsert(rows, key, row);
    var p := (t: T) => key(t) == k;
    assert forall j :: 0 <= j < |rows| ==> (p(r[j]) <==> p(rows[j])) && (p(rows[j]) ==> r[j] == rows[j]);
    var a, b := FirstIndex(r, p), FirstIndex(rows, p);
    if a.Some? && b.Some? {
      assert !(a.value < b.value) && !(b.value < a.value);
    }
  }

  /** Rows whose key the save does not touch keep their place; a new key goes at the end. */
  lemma UpsertKeepsOrder<T, K>(rows: seq<T>, key: T -> K, row: T)
    ensures forall j :: 0 <= j < |rows| && key(rows[j]) != key(row) ==> Upsert(rows, key, row)[j] == rows[j]
    ensures !HasKey(rows, key, key(row)) ==> Upsert(rows, key, row) == rows + [row]
  {
  }

  /** A save never gives two rows the same key. */
  lemma UpsertKeepsUniqueKeys<T, K>(rows: seq<T>, key: T -> K, row: T)
    requires UniqueKeys(rows, key)
    ensures UniqueKeys(Upsert(rows, key, row), key)
  {
    var r := Upsert(rows, key, row);
    forall i, j | 0 <= i < j < |r| ensures key(r[i]) != key(r[j]) {
      if HasKey(rows, key, key(row)) {
        assert key(rows[i]) != key(rows[j]);
      } else if j == |rows| {
        assert key(rows[i]) != key(row);
      } else {
        assert key(rows[i]) != key(rows[j]);
      }
    }
  }
}
