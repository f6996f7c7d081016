/** A stable sort by a (column, row) key, the ordering that
    `OrderBy(column).ThenBy(row)` gives: an insertion sort that puts each
    element before the first later-sorted element whose key is not smaller,
    so that elements with equal keys keep their original order. */
module StableSort {

  /** An element with its two sort keys, computed once per element. */
  datatype Keyed<T> = Keyed(column: int, row: int, item: T)

  predicate KeyLe<T>(a: Keyed<T>, b: Keyed<T>) { a.column < b.column || (a.column == b.column && a.row <= b.row) }

  predicate SameKey<T>(a: Keyed<T>, b: Keyed<T>) { a.column == b.column && a.row == b.row }

  predicate Sorted<T>(s: seq<Keyed<T>>)
  {
    forall i, j :: 0 <= i < j < |s| ==> KeyLe(s[i], s[j])
  }

  /** Put `x` before the first element of `s` whose key is not smaller. */
  function Insert<T>(x: Keyed<T>, s: seq<Keyed<T>>): (r: seq<Keyed<T>>)
    ensures multiset(r) == multiset(s) + multiset{x}
  {
    if s == [] || KeyLe(x, s[0]) then [x] + s
    else
      assert s == [s[0]] + s[1..];
      [s[0]] + Insert(x, s[1..])
  }

  /** `OrderBy(column).ThenBy(row)`. */
  function SortByKey<T>(ks: seq<Keyed<T>>): (r: seq<Keyed<T>>)
    ensures multiset(r) == multiset(ks)
  {
    if ks == [] then []
    else
      assert ks == [ks[0]] + ks[1..];
      Insert(ks[0], SortByKey(ks[1..]))
  }

  lemma {:induction false} InsertSorted<T>(x: Keyed<T>, s: seq<Keyed<T>>)
    requires Sorted(s)
    ensures Sorted(Insert(x, s))
  {
    if s != [] && !KeyLe(x, s[0]) {
      InsertSorted(x, s[1..]);
      var rest := Insert(x, s[1..]);
      forall e | e in rest
        ensures KeyLe(s[0], e)
      {
        assert e in multiset(rest);
        if e != x {
          assert e in multiset(s[1..]);
          var k :| 0 <= k < |s[1..]| && s[1..][k] == e;
          assert s[k + 1] == e;
        }
      }
      var r := [s[0]] + rest;
      forall i, j | 0 <= i < j < |r|
        ensures KeyLe(r[i], r[j])
      {
        if i == 0 {
          assert r[j] == rest[j - 1];
          assert r[j] in rest;
        } else {
          assert r[i] == rest[i - 1] && r[j] == rest[j - 1];
        }
      }
    } else if s != [] {
      var r := [x] + s;
      forall i, j | 0 <= i < j < |r|
        ensures KeyLe(r[i], r[j])
      {
        if i == 0 && j > 1 {
          assert KeyLe(s[0], s[j - 1]);
        }
      }
    }
  }

  /** The result is ordered by column, then by row. */
  lemma {:induction false} SortByKeySorted<T>(ks: seq<Keyed<T>>)
    ensures Sorted(SortByKey(ks))
  {
    if ks != [] {
      SortByKeySorted(ks[1..]);
      InsertSorted(ks[0], SortByKey(ks[1..]));
    }
  }

  /** The elements of `s` with the key of `k`, in their order in `s`. */
  function WithKey<T>(s: seq<Keyed<T>>, k: Keyed<T>): seq<Keyed<T>>
  {
    if s == [] then [] else (if SameKey(s[0], k) then [s[0]] else []) + WithKey(s[1..], k)
  }

  /** The keyed selection of a sequence with a known first element. */
  lemma WithKeyCons<T>(h: Keyed<T>, t: seq<Keyed<T>>, k: Keyed<T>)
    ensures WithKey([h] + t, k) == (if SameKey(h, k) then [h] else []) + WithKey(t, k)
  {
    assert ([h] + t)[0] == h;
    assert ([h] + t)[1..] == t;
  }

  /** Inserting puts `x` before the elements with its key. */
  lemma {:induction false} InsertWithKey<T>(x: Keyed<T>, s: seq<Keyed<T>>, k: Keyed<T>)
    ensures WithKey(Insert(x, s), k) == (if SameKey(x, k) then [x] else []) + WithKey(s, k)
  {
    var mine := if SameKey(x, k) then [x] else [];
    if s == [] || KeyLe(x, s[0]) {
      assert Insert(x, s) == [x] + s;
      WithKeyCons(x, s, k);
    } else {
      var rest := Insert(x, s[1..]);
      var head := if SameKey(s[0], k) then [s[0]] else [];
      assert Insert(x, s) == [s[0]] + rest;
      assert s == [s[0]] + s[1..];
      WithKeyCons(s[0], rest, k);
      WithKeyCons(s[0], s[1..], k);
      InsertWithKey(x, s[1..], k);
      assert WithKey(Insert(x, s), k) == head + (mine + WithKey(s[1..], k));
      assert WithKey(s, k) == head + WithKey(s[1..], k);
      var tail := WithKey(s[1..], k);
      if SameKey(x, k) {
        assert head == [];
        assert head + (mine + tail) == mine + tail;
        assert WithKey(s, k) == tail;
      } else {
        assert mine == [];
        assert mine + tail == tail;
        assert mine + WithKey(s, k) == WithKey(s, k);
      }
    }
  }

  /** The sort is stable: the elements sharing a key keep their order. */
  lemma {:induction false} SortByKeyStable<T>(ks: seq<Keyed<T>>, k: Keyed<T>)
    ensures WithKey(SortByKey(ks), k) == WithKey(ks, k)
  {
    if ks != [] {
      SortByKeyStable(ks[1..], k);
      InsertWithKey(ks[0], SortByKey(ks[1..]), k);
    }
  }
}
