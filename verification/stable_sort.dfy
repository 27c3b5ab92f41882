/**
 * A stable sort by an integer key, largest key first. JavaScript's
 * `Array.prototype.sort` is stable, and the comparator
 * `(a, b) => key(b) - key(a)` orders by descending key; elements with equal
 * keys keep their relative order. The same order serves SQL's
 * `ORDER BY ... DESC` over a column whose text order agrees with the key.
 */
module StableSort {

  /** Inserts `x` into descending `s` after every element whose key is at least `x`'s. */
  function Insert<T>(s: seq<T>, x: T, key: T -> int): seq<T>
  {
    if |s| == 0 then [x]
    else if key(s[|s| - 1]) >= key(x) then s + [x]
    else Insert(s[..|s| - 1], x, key) + [s[|s| - 1]]
  }

  /** Insertion sort: the reference definition of the order. */
  function SortDesc<T>(s: seq<T>, key: T -> int): seq<T>
  {
    if |s| == 0 then [] else Insert(SortDesc(s[..|s| - 1], key), s[|s| - 1], key)
  }

  ghost predicate SortedDesc<T>(s: seq<T>, key: T -> int)
  {
    forall i, j :: 0 <= i < j < |s| ==> key(s[i]) >= key(s[j])
  }

  /** The elements of `s` whose key is `k`, in their order in `s`. */
  function WithKey<T>(s: seq<T>, key: T -> int, k: int): seq<T>
  {
    if |s| == 0 then []
    else WithKey(s[..|s| - 1], key, k) + (if key(s[|s| - 1]) == k then [s[|s| - 1]] else [])
  }

  lemma {:induction false} WithKeyAppend<T>(s: seq<T>, t: seq<T>, key: T -> int, k: int)
    ensures WithKey(s + t, key, k) == WithKey(s, key, k) + WithKey(t, key, k)
    decreases |t|
  {
    if |t| == 0 {
      assert s + t == s;
    } else {
      assert (s + t)[..|s + t| - 1] == s + t[..|t| - 1];
      WithKeyAppend(s, t[..|t| - 1], key, k);
    }
  }

  lemma {:induction false} InsertPermutes<T>(s: seq<T>, x: T, key: T -> int)
    ensures multiset(Insert(s, x, key)) == multiset(s) + multiset{x}
  {
    if |s| > 0 && key(s[|s| - 1]) < key(x) {
      InsertPermutes(s[..|s| - 1], x, key);
      assert s == s[..|s| - 1] + [s[|s| - 1]];
    }
  }

  lemma {:induction false} InsertKeepsOrder<T>(s: seq<T>, x: T, key: T -> int)
    requires SortedDesc(s, key)
    ensures SortedDesc(Insert(s, x, key), key)
  {
    if |s| > 0 && key(s[|s| - 1]) < key(x) {
      var init, last := s[..|s| - 1], s[|s| - 1];
      InsertKeepsOrder(init, x, key);
      InsertPermutes(init, x, key);
      var r := Insert(init, x, key);
      forall i | 0 <= i < |r| ensures key(r[i]) >= key(last) {
        assert r[i] in multiset(r);
        assert r[i] in multiset(init) || r[i] == x;
        if r[i] != x {
          var m :| 0 <= m < |init| && init[m] == r[i];
          assert s[m] == init[m];
        }
      }
    }
  }

  lemma {:induction false} InsertKeepsTies<T>(s: seq<T>, x: T, key: T -> int, k: int)
    ensures WithKey(Insert(s, x, key), key, k) == WithKey(s, key, k) + WithKey([x], key, k)
  {
    assert [x][..0] == [];
    if |s| == 0 {
    } else if key(s[|s| - 1]) >= key(x) {
      WithKeyAppend(s, [x], key, k);
    } else {
      var init, last := s[..|s| - 1], s[|s| - 1];
      InsertKeepsTies(init, x, key, k);
      WithKeyAppend(Insert(init, x, key), [last], key, k);
      assert [last][..0] == [];
    }
  }

  /** The sort yields a descending order. */
  lemma {:induction false} SortDescSorted<T>(s: seq<T>, key: T -> int)
    ensures SortedDesc(SortDesc(s, key), key)
  {
    if |s| > 0 {
      SortDescSorted(s[..|s| - 1], key);
      InsertKeepsOrder(SortDesc(s[..|s| - 1], key), s[|s| - 1], key);
    }
  }

  /** The sort is a permutation of its input. */
  lemma {:induction false} SortDescPermutes<T>(s: seq<T>, key: T -> int)
    ensures multiset(SortDesc(s, key)) == multiset(s)
    ensures |SortDesc(s, key)| == |s|
  {
    if |s| > 0 {
      SortDescPermutes(s[..|s| - 1], key);
      InsertPermutes(SortDesc(s[..|s| - 1], key), s[|s| - 1], key);
      assert s == s[..|s| - 1] + [s[|s| - 1]];
    }
  }

  /** The sort is stable: elements with equal keys keep their input order. */
  lemma {:induction false} SortDescStable<T>(s: seq<T>, key: T -> int, k: int)
    ensures WithKey(SortDesc(s, key), key, k) == WithKey(s, key, k)
  {
    if |s| > 0 {
      var init, last := s[..|s| - 1], s[|s| - 1];
      SortDescStable(init, key, k);
      InsertKeepsTies(SortDesc(init, key), last, key, k);
      assert [last][..0] == [];
    }
  }

  /** One backward step of `Insert`: moving past an element with a smaller key. */
  lemma InsertStepBack<T>(sorted: seq<T>, j: nat, i: nat, x: T, key: T -> int)
    requires 0 < j <= i <= |sorted|
    requires key(sorted[j - 1]) < key(x)
    ensures Insert(sorted[..j], x, key) + sorted[j..i]
         == Insert(sorted[..j - 1], x, key) + sorted[j - 1..i]
  {
    assert sorted[..j][..j - 1] == sorted[..j - 1];
    assert sorted[j - 1..i] == [sorted[j - 1]] + sorted[j..i];
  }

  /**
   * Moves `a[i]` left past every element of `a[..i]` with a strictly smaller
   * key; the prefix `a[..i + 1]` becomes the insertion of the old `a[i]`.
   */
  method ShiftIntoPlace<T>(a: array<T>, i: nat, key: T -> int)
    requires i < a.Length
    modifies a
    ensures a[..i + 1] == Insert(old(a[..i]), old(a[i]), key)
    ensures a[i + 1..] == old(a[i + 1..])
  {
    ghost var sorted := a[..i];
    ghost var rest := a[i + 1..];
    var x := a[i];
    var j := i;
    assert a[..] == sorted[..j] + [x] + sorted[j..i] + rest;
    assert sorted[..j] == sorted && sorted[j..i] == [];
    while j > 0 && key(a[j - 1]) < key(x)
      invariant 0 <= j <= i
      invariant a.Length == i + 1 + |rest|
      invariant a[..] == sorted[..j] + [x] + sorted[j..i] + rest
      invariant Insert(sorted, x, key) == Insert(sorted[..j], x, key) + sorted[j..i]
    {
      InsertStepBack(sorted, j, i, x, key);
      ghost var before := a[..];
      assert before[j] == x && before[j - 1] == sorted[j - 1];
      SwapBack(before, sorted, rest, x, j, i);
      var t := a[j - 1];
      a[j - 1] := a[j];
      a[j] := t;
      assert a[..] == before[j - 1 := x][j := before[j - 1]];
      j := j - 1;
    }
    if j > 0 {
      assert a[..][j - 1] == sorted[j - 1];
      assert sorted[..j][..j - 1] == sorted[..j - 1];
    }
    assert Insert(sorted[..j], x, key) == sorted[..j] + [x];
    assert a[..] == Insert(sorted, x, key) + rest;
    assert a[..][..i + 1] == a[..i + 1];
    assert a[..][i + 1..] == a[i + 1..];
  }

  /** The sequence view of one swap step in `ShiftIntoPlace`. */
  lemma SwapBack<T>(v: seq<T>, sorted: seq<T>, rest: seq<T>, x: T, j: nat, i: nat)
    requires 0 < j <= i == |sorted|
    requires v == sorted[..j] + [x] + sorted[j..i] + rest
    ensures v[j - 1 := x][j := v[j - 1]] == sorted[..j - 1] + [x] + sorted[j - 1..i] + rest
  {
    var w := v[j - 1 := x][j := v[j - 1]];
    var u := sorted[..j - 1] + [x] + sorted[j - 1..i] + rest;
    assert |w| == |u|;
    forall k | 0 <= k < |w| ensures w[k] == u[k] {
      if k < j - 1 {
      } else if k == j - 1 {
      } else if k == j {
        assert v[j - 1] == sorted[j - 1];
      } else {
        assert v[k] == u[k];
      }
    }
  }

  /**
   * Sorts `a` in place (the shape of `Array.prototype.sort`): insertion
   * sort that moves each new element left past the strictly smaller keys.
   */
  method SortInPlace<T>(a: array<T>, key: T -> int)
    modifies a
    ensures a[..] == SortDesc(old(a[..]), key)
  {
    ghost var input := a[..];
    var i := 0;
    while i < a.Length
      invariant 0 <= i <= a.Length
      invariant a[..i] == SortDesc(input[..i], key)
      invariant a[i..] == input[i..]
    {
      ShiftIntoPlace(a, i, key);
      assert input[..i + 1][..i] == input[..i];
      i := i + 1;
    }
    assert a[..] == a[..a.Length];
    assert input[..a.Length] == input;
  }
}
