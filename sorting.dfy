/**
 * The ordering and aggregation the store queries rely on: `sort({k: -1})`
 * (descending by one integer key), `limit(n)`, and `$sum`.
 * The store does not promise an order among equal keys; the model uses a
 * stable insertion sort, which is one of the orders it may return.
 */
module Sorting {

  ghost predicate SortedDesc<T>(s: seq<T>, key: T -> int) {
    forall i, j :: 0 <= i < j < |s| ==> key(s[i]) >= key(s[j])
  }

  /** Inserts `x` before the first element whose key is not larger. */
  function InsertDesc<T>(x: T, s: seq<T>, key: T -> int): (r: seq<T>)
    ensures |r| == |s| + 1
    ensures multiset(r) == multiset(s) + multiset{x}
  {
    if s == [] then [x]
    else if key(s[0]) <= key(x) then [x] + s
    else
      assert s == [s[0]] + s[1..];
      [s[0]] + InsertDesc(x, s[1..], key)
  }

  /** Inserting into a descending sequence keeps it descending; no element outranks both `x` and the old head. */
  lemma {:induction false} InsertDescSorted<T>(x: T, s: seq<T>, key: T -> int)
    requires SortedDesc(s, key)
    ensures forall j :: 0 <= j < |InsertDesc(x, s, key)| ==>
              key(InsertDesc(x, s, key)[j]) <= key(x) || (|s| > 0 && key(InsertDesc(x, s, key)[j]) <= key(s[0]))
    ensures SortedDesc(InsertDesc(x, s, key), key)
  {
    if s != [] && key(s[0]) > key(x) {
      var rest := InsertDesc(x, s[1..], key);
      InsertDescSorted(x, s[1..], key);
      assert InsertDesc(x, s, key) == [s[0]] + rest;
      assert forall j :: 0 <= j < |rest| ==> key(rest[j]) <= key(s[0]);
    }
  }

  /** `find(...).sort({key: -1})`: a permutation of `s` in descending key order. */
  function SortDesc<T>(s: seq<T>, key: T -> int): (r: seq<T>)
    ensures SortedDesc(r, key)
    ensures multiset(r) == multiset(s)
    ensures |r| == |s|
  {
    if s == [] then []
    else
      assert s == [s[0]] + s[1..];
      InsertDescSorted(s[0], SortDesc(s[1..], key), key);
      InsertDesc(s[0], SortDesc(s[1..], key), key)
  }

  /**
   * MongoDB's `cursor.limit(n)`: zero means no limit, and a negative limit
   * behaves as its absolute value.
   */
  function Limit<T>(s: seq<T>, n: int): (r: seq<T>)
    ensures |r| == if n == 0 || |s| <= (if n < 0 then -n else n) then |s| else (if n < 0 then -n else n)
    ensures r == s[..|r|]
  {
    var m := if n < 0 then -n else n;
    if n == 0 || |s| <= m then s else s[..m]
  }

  /** A limited sorted sequence is sorted and holds only elements of the original. */
  lemma LimitOfSorted<T>(s: seq<T>, key: T -> int, n: int)
    requires SortedDesc(s, key)
    ensures SortedDesc(Limit(s, n), key)
    ensures forall i :: 0 <= i < |Limit(s, n)| ==> Limit(s, n)[i] in multiset(s)
    ensures multiset(Limit(s, n)) <= multiset(s)
  {
    var r := Limit(s, n);
    assert forall i :: 0 <= i < |r| ==> r[i] == s[i];
    assert s == r + s[|r|..];
  }

  /** `$sum` of `f` over `s`, and JavaScript's `reduce((a, x) => a + f(x), 0)`. */
  function SumBy<T>(s: seq<T>, f: T -> int): int {
    if s == [] then 0 else f(s[0]) + SumBy(s[1..], f)
  }

  lemma {:induction false} SumByAppend<T>(a: seq<T>, b: seq<T>, f: T -> int)
    ensures SumBy(a + b, f) == SumBy(a, f) + SumBy(b, f)
  {
    if a != [] {
      assert (a + b)[1..] == a[1..] + b;
      SumByAppend(a[1..], b, f);
    } else {
      assert a + b == b;
    }
  }

  /** Replacing one element changes the sum by the difference of the two values. */
  lemma {:induction false} SumByUpdate<T>(s: seq<T>, i: int, x: T, f: T -> int)
    requires 0 <= i < |s|
    ensures SumBy(s[i := x], f) == SumBy(s, f) - f(s[i]) + f(x)
  {
    if i > 0 {
      assert s[i := x][1..] == s[1..][i - 1 := x];
      SumByUpdate(s[1..], i - 1, x, f);
    }
  }

  lemma {:induction false} SumByInsert<T>(x: T, s: seq<T>, key: T -> int, f: T -> int)
    ensures SumBy(InsertDesc(x, s, key), f) == f(x) + SumBy(s, f)
  {
    if s != [] && key(s[0]) > key(x) {
      var rest := InsertDesc(x, s[1..], key);
      assert InsertDesc(x, s, key) == [s[0]] + rest;
      assert ([s[0]] + rest)[1..] == rest;
      SumByInsert(x, s[1..], key, f);
    }
  }

  /** Sorting does not change a sum: the totals the stats command reports are order-free. */
  lemma {:induction false} SumBySort<T>(s: seq<T>, key: T -> int, f: T -> int)
    ensures SumBy(SortDesc(s, key), f) == SumBy(s, f)
  {
    if s != [] {
      SumBySort(s[1..], key, f);
      SumByInsert(s[0], SortDesc(s[1..], key), key, f);
    }
  }

  /** Every element of a descending sequence before position `k` ranks at least as high as every one from `k` on. */
  lemma PrefixDominates<T>(s: seq<T>, key: T -> int, k: int, x: T, y: T)
    requires SortedDesc(s, key) && 0 <= k <= |s|
    requires x in s[..k] && y in s[k..]
    ensures key(x) >= key(y)
  {
    var i :| 0 <= i < k && s[..k][i] == x;
    var j :| 0 <= j < |s| - k && s[k..][j] == y;
    assert s[i] == x && s[k + j] == y;
  }

  /** What a limit keeps of a descending sequence ranks at least as high as anything it drops. */
  lemma LimitDominates<T>(s: seq<T>, key: T -> int, n: int, x: T, y: T)
    requires SortedDesc(s, key)
    requires x in Limit(s, n) && y in s && y !in Limit(s, n)
    ensures key(x) >= key(y)
  {
    var r := Limit(s, n);
    var j :| 0 <= j < |s| && s[j] == y;
    assert s == r + s[|r|..];
    assert s[|r|..][j - |r|] == y;
    PrefixDominates(s, key, |r|, x, y);
  }

  /** Updating the second part of a concatenation updates the whole at the shifted position. */
  lemma ConcatUpdate<T>(h: seq<T>, s: seq<T>, k: int, x: T)
    requires 0 <= k < |s|
    ensures h + s[k := x] == (h + s)[|h| + k := x]
  {
  }
}
