/**
 * Ranking of explanation records. Both classifiers sort their explanations
 * with `Array.prototype.sort` and a comparator `(a, b) => key(b) - key(a)`,
 * that is by descending key, and JavaScript's sort is stable, so records with
 * equal keys keep their original order. They then keep the first `explain`
 * records (`slice(0, explain)` in SvmJs, `splice(explain, ...)` in Winnow).
 */
module Ranking {

  /** Descending by `key`. */
  ghost predicate SortedDesc<T>(s: seq<T>, key: T -> real)
  {
    forall i, j :: 0 <= i < j < |s| ==> key(s[i]) >= key(s[j])
  }

  /** The records whose key is exactly `k`, in their order. */
  function WithKey<T>(s: seq<T>, key: T -> real, k: real): (r: seq<T>)
    decreases |s|
  {
    if |s| == 0 then []
    else if key(s[0]) == k then [s[0]] + WithKey(s[1..], key, k)
    else WithKey(s[1..], key, k)
  }

  /** Inserts `x` after every record whose key is at least `key(x)`. */
  function Insert<T>(s: seq<T>, x: T, key: T -> real): (r: seq<T>)
    decreases |s|
  {
    if |s| == 0 then [x]
    else if key(s[0]) < key(x) then [x] + s
    else [s[0]] + Insert(s[1..], x, key)
  }

  /** A stable sort by descending key: insertion of each record in turn. */
  function SortDesc<T>(s: seq<T>, key: T -> real): (r: seq<T>)
    ensures |r| == |s|
    decreases |s|
  {
    if |s| == 0 then []
    else
      InsertLength(SortDesc(s[..|s| - 1], key), s[|s| - 1], key);
      Insert(SortDesc(s[..|s| - 1], key), s[|s| - 1], key)
  }

  /** The first `n` records, or all of them when there are fewer. */
  function Take<T>(s: seq<T>, n: int): (r: seq<T>)
    ensures |r| == if n <= 0 then 0 else if n < |s| then n else |s|
    ensures forall i :: 0 <= i < |r| ==> r[i] == s[i]
  {
    if n <= 0 then [] else if n < |s| then s[..n] else s
  }

  lemma {:induction false} InsertMultiset<T>(s: seq<T>, x: T, key: T -> real)
    ensures multiset(Insert(s, x, key)) == multiset(s) + multiset{x}
    decreases |s|
  {
    if |s| > 0 && key(s[0]) >= key(x) {
      InsertMultiset(s[1..], x, key);
      assert s == [s[0]] + s[1..];
    }
  }

  lemma {:induction false} InsertLength<T>(s: seq<T>, x: T, key: T -> real)
    ensures |Insert(s, x, key)| == |s| + 1
    decreases |s|
  {
    if |s| > 0 && key(s[0]) >= key(x) {
      InsertLength(s[1..], x, key);
    }
  }

  /** Every record of the insertion result is `x` or a record of `s`. */
  lemma {:induction false} InsertFrom<T>(s: seq<T>, x: T, key: T -> real, i: nat)
    requires i < |Insert(s, x, key)|
    ensures Insert(s, x, key)[i] == x || exists j :: 0 <= j < |s| && Insert(s, x, key)[i] == s[j]
    decreases |s|
  {
    var r := Insert(s, x, key);
    if |s| > 0 && key(s[0]) >= key(x) && i > 0 {
      InsertFrom(s[1..], x, key, i - 1);
      if r[i] != x {
        var j :| 0 <= j < |s[1..]| && Insert(s[1..], x, key)[i - 1] == s[1..][j];
        assert r[i] == s[j + 1];
      }
    } else if |s| > 0 && key(s[0]) < key(x) && i > 0 {
      assert r[i] == s[i - 1];
    }
  }

  lemma {:induction false} InsertSorted<T>(s: seq<T>, x: T, key: T -> real)
    requires SortedDesc(s, key)
    ensures SortedDesc(Insert(s, x, key), key)
    decreases |s|
  {
    if |s| > 0 && key(s[0]) >= key(x) {
      var t := Insert(s[1..], x, key);
      InsertSorted(s[1..], x, key);
      InsertLength(s[1..], x, key);
      forall j | 0 <= j < |t|
        ensures key(s[0]) >= key(t[j])
      {
        InsertFrom(s[1..], x, key, j);
      }
      assert Insert(s, x, key) == [s[0]] + t;
    }
  }

  /** Inserting `x` appends it to the records of its own key, and leaves the other keys' records alone. */
  lemma {:induction false} InsertWithKey<T>(s: seq<T>, x: T, key: T -> real, k: real)
    requires SortedDesc(s, key)
    ensures WithKey(Insert(s, x, key), key, k) == WithKey(s, key, k) + (if key(x) == k then [x] else [])
    decreases |s|
  {
    if |s| == 0 {
    } else if key(s[0]) < key(x) {
      var r := [x] + s;
      assert r[1..] == s;
      if key(x) == k {
        WithKeyBelow(s, key, k);
      }
    } else {
      var r := [s[0]] + Insert(s[1..], x, key);
      assert r[1..] == Insert(s[1..], x, key);
      InsertWithKey(s[1..], x, key, k);
    }
  }

  /** No record of a descending sequence headed below `k` has key `k`. */
  lemma {:induction false} WithKeyBelow<T>(s: seq<T>, key: T -> real, k: real)
    requires SortedDesc(s, key) && |s| > 0 && key(s[0]) < k
    ensures WithKey(s, key, k) == []
    decreases |s|
  {
    if |s| > 1 {
      WithKeyBelow(s[1..], key, k);
    }
  }

  lemma {:induction false} WithKeySnoc<T>(s: seq<T>, x: T, key: T -> real, k: real)
    ensures WithKey(s + [x], key, k) == WithKey(s, key, k) + (if key(x) == k then [x] else [])
    decreases |s|
  {
    if |s| > 0 {
      assert (s + [x])[1..] == s[1..] + [x];
      WithKeySnoc(s[1..], x, key, k);
    }
  }

  /**
   * The ranking is a permutation of its input, in descending key order, and
   * stable: for every key, the records with that key appear in input order.
   */
  lemma {:induction false} SortDescSpec<T>(s: seq<T>, key: T -> real)
    ensures |SortDesc(s, key)| == |s|
    ensures multiset(SortDesc(s, key)) == multiset(s)
    ensures SortedDesc(SortDesc(s, key), key)
    ensures forall k :: WithKey(SortDesc(s, key), key, k) == WithKey(s, key, k)
    decreases |s|
  {
    if |s| > 0 {
      var p, x := s[..|s| - 1], s[|s| - 1];
      assert s == p + [x];
      SortDescSpec(p, key);
      InsertLength(SortDesc(p, key), x, key);
      InsertMultiset(SortDesc(p, key), x, key);
      InsertSorted(SortDesc(p, key), x, key);
      forall k
        ensures WithKey(SortDesc(s, key), key, k) == WithKey(s, key, k)
      {
        InsertWithKey(SortDesc(p, key), x, key, k);
        WithKeySnoc(p, x, key, k);
      }
    }
  }
  /** In a descending sequence, no record after position `m` has a higher key than one before it. */
  lemma SortedSplit<T>(r: seq<T>, key: T -> real, m: nat)
    requires SortedDesc(r, key) && m <= |r|
    ensures forall x, y :: x in r[m..] && y in r[..m] ==> key(y) >= key(x)
  {
    forall x, y | x in r[m..] && y in r[..m]
      ensures key(y) >= key(x)
    {
      var a :| 0 <= a < m && r[..m][a] == y;
      var c :| 0 <= c < |r| - m && r[m..][c] == x;
      assert r[a] == y && r[m + c] == x;
    }
  }

  /**
   * Keeping the first `n` ranked records keeps the highest keys: the kept
   * records are records of `s`, in descending order, and none of the records
   * left out has a higher key than a kept one.
   */
  lemma TopRecords<T>(s: seq<T>, key: T -> real, n: int)
    ensures multiset(Take(SortDesc(s, key), n)) <= multiset(s)
    ensures SortedDesc(Take(SortDesc(s, key), n), key)
    ensures forall x, y ::
              x in multiset(s) - multiset(Take(SortDesc(s, key), n)) && y in Take(SortDesc(s, key), n) ==> key(y) >= key(x)
  {
    var r := SortDesc(s, key);
    SortDescSpec(s, key);
    var m := |Take(r, n)|;
    assert r == r[..m] + r[m..];
    assert Take(r, n) == r[..m];
    assert multiset(r) == multiset(r[..m]) + multiset(r[m..]);
    assert multiset(s) - multiset(Take(r, n)) == multiset(r[m..]);
    SortedSplit(r, key, m);
  }
}
