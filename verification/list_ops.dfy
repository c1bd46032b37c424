/**
 * The few list built-ins the scheduler relies on, with the exact behaviour
 * the algorithms depend on:
 *  - `min(xs, key=f)` returns the FIRST element whose key is minimal;
 *  - `list.remove(x)` drops the FIRST element equal to `x`;
 *  - `list.sort(key=f)` and `sorted(xs, key=f)` are stable.
 */
module ListOps {

  /** An unset attribute (`None`) or a set one. */
  datatype Option<T> = None | Some(value: T) {
    function GetOr(default: T): T {
      match this
      case Some(v) => v
      case None => default
    }
  }

  /** No element occurs twice. */
  predicate Distinct<T(==)>(s: seq<T>) {
    forall i, j :: 0 <= i < j < |s| ==> s[i] != s[j]
  }

  /** `min(a, b)` on two integers. */
  function Min(a: int, b: int): (m: int)
    ensures m <= a && m <= b && (m == a || m == b)
  {
    if b < a then b else a
  }

  /** `max(a, b)` on two integers. */
  function Max(a: int, b: int): (m: int)
    ensures a <= m && b <= m && (m == a || m == b)
  {
    if b > a then b else a
  }

  /** The positions `lo, lo + 1, ..., hi - 1`. */
  function Range(lo: nat, hi: nat): (r: seq<nat>)
    ensures |r| == if lo <= hi then hi - lo else 0
    ensures forall k :: 0 <= k < |r| ==> r[k] == lo + k
    decreases hi - lo
  {
    if lo >= hi then [] else [lo] + Range(lo + 1, hi)
  }

  // ---------------------------------------------------------------------
  // min(xs, key=f)
  // ---------------------------------------------------------------------

  /**
   * `min([x for x in s if ok(x)], key=key)` as a position in `s`: `None` when
   * no element qualifies, else the first qualifying element of minimal key.
   */
  function FirstMinWhere<T>(s: seq<T>, ok: T -> bool, key: T -> int): (r: Option<nat>)
    ensures r.None? <==> forall i :: 0 <= i < |s| ==> !ok(s[i])
    ensures r.Some? ==> r.value < |s| && ok(s[r.value])
    ensures r.Some? ==> forall i :: 0 <= i < |s| && ok(s[i]) ==> key(s[r.value]) <= key(s[i])
    ensures r.Some? ==> forall i :: 0 <= i < r.value && ok(s[i]) ==> key(s[r.value]) < key(s[i])
  {
    if s == [] then None
    else
      var r := FirstMinWhere(s[..|s| - 1], ok, key);
      var last := s[|s| - 1];
      if !ok(last) then r
      else if r.None? || key(last) < key(s[r.value]) then Some(|s| - 1)
      else r
  }

  /** The choice depends only on which elements qualify and on their keys. */
  lemma {:induction false} FirstMinWhereAgree<S, T>(s: seq<S>, okS: S -> bool, keyS: S -> int,
                                                    u: seq<T>, okT: T -> bool, keyT: T -> int)
    requires |s| == |u|
    requires forall i :: 0 <= i < |s| ==> okS(s[i]) == okT(u[i]) && keyS(s[i]) == keyT(u[i])
    ensures FirstMinWhere(s, okS, keyS) == FirstMinWhere(u, okT, keyT)
  {
    if s != [] {
      FirstMinWhereAgree(s[..|s| - 1], okS, keyS, u[..|u| - 1], okT, keyT);
    }
  }

  // ---------------------------------------------------------------------
  // list.remove(x)
  // ---------------------------------------------------------------------

  /** Position of the first element equal to `x`. */
  function FirstIndexOf<T(==)>(s: seq<T>, x: T): (k: nat)
    requires x in s
    ensures k < |s| && s[k] == x && x !in s[..k]
  {
    if s[0] == x then 0 else 1 + FirstIndexOf(s[1..], x)
  }

  /** `list.remove(x)`: the list without the first element equal to `x`. */
  function RemoveFirst<T(==)>(s: seq<T>, x: T): (r: seq<T>)
    requires x in s
    ensures |r| == |s| - 1
    ensures multiset(r) == multiset(s) - multiset{x}
  {
    var k := FirstIndexOf(s, x);
    assert s == s[..k] + [x] + s[k + 1..];
    s[..k] + s[k + 1..]
  }

  /** Cutting position `k` out of a list removes one occurrence of `s[k]` and nothing else. */
  lemma RemoveAtCount<T>(s: seq<T>, k: nat)
    requires k < |s|
    ensures multiset(s[..k] + s[k + 1..]) == multiset(s) - multiset{s[k]}
  {
    assert s == s[..k] + [s[k]] + s[k + 1..];
  }

  /** In a list without repetitions, removing `s[k]` removes position `k`. */
  lemma RemoveFirstAt<T>(s: seq<T>, k: nat)
    requires k < |s| && Distinct(s)
    ensures RemoveFirst(s, s[k]) == s[..k] + s[k + 1..]
  {
    var f := FirstIndexOf(s, s[k]);
    assert s[k] in s[..k + 1];
  }

  /** In a list without repetitions, removing position `k` removes exactly the element there. */
  lemma RemovedIndex<T>(rem: seq<T>, k: nat, i: T)
    requires Distinct(rem) && k < |rem|
    ensures i in rem[..k] + rem[k + 1..] <==> i in rem && i != rem[k]
  {
    var r := rem[..k] + rem[k + 1..];
    if i in rem && i != rem[k] {
      var j :| 0 <= j < |rem| && rem[j] == i;
      if j < k {
        assert r[j] == i;
      } else {
        assert r[j - 1] == i;
      }
    }
    if i in r {
      var j :| 0 <= j < |r| && r[j] == i;
      if j < k {
        assert rem[j] == i;
      } else {
        assert rem[j + 1] == i;
      }
    }
  }

  // ---------------------------------------------------------------------
  // list.sort(key=f) / sorted(xs, key=f)
  // ---------------------------------------------------------------------

  /** Keys never decrease from left to right. */
  predicate SortedBy<T>(s: seq<T>, key: T -> int) {
    forall i, j :: 0 <= i < j < |s| ==> key(s[i]) <= key(s[j])
  }

  /** Inserts `x` into a sorted list after every element whose key is not larger. */
  function InsertAfterEqual<T>(x: T, s: seq<T>, key: T -> int): (r: seq<T>)
    ensures |r| == |s| + 1
  {
    if s == [] then [x]
    else if key(x) < key(s[0]) then [x] + s
    else [s[0]] + InsertAfterEqual(x, s[1..], key)
  }

  /** A stable sort by `key` (insertion sort, element by element from the left). */
  function SortBy<T>(s: seq<T>, key: T -> int): (r: seq<T>)
    ensures |r| == |s|
  {
    if s == [] then []
    else InsertAfterEqual(s[|s| - 1], SortBy(s[..|s| - 1], key), key)
  }

  /** The elements whose key is `v`, in their order. */
  function WithKey<T>(s: seq<T>, key: T -> int, v: int): seq<T> {
    if s == [] then []
    else (if key(s[0]) == v then [s[0]] else []) + WithKey(s[1..], key, v)
  }

  lemma {:induction false} InsertKeepsElements<T>(x: T, s: seq<T>, key: T -> int)
    ensures |InsertAfterEqual(x, s, key)| == |s| + 1
    ensures multiset(InsertAfterEqual(x, s, key)) == multiset(s) + multiset{x}
  {
    if s != [] && key(s[0]) <= key(x) {
      InsertKeepsElements(x, s[1..], key);
      assert s == [s[0]] + s[1..];
    }
  }

  lemma {:induction false} InsertKeepsSorted<T>(x: T, s: seq<T>, key: T -> int)
    requires SortedBy(s, key)
    ensures SortedBy(InsertAfterEqual(x, s, key), key)
    ensures forall y :: y in InsertAfterEqual(x, s, key) ==> y == x || y in s
  {
    if s != [] && key(s[0]) <= key(x) {
      InsertKeepsSorted(x, s[1..], key);
      var r := InsertAfterEqual(x, s[1..], key);
      forall y | y in r ensures key(s[0]) <= key(y) {
        if y != x {
          var i :| 0 <= i < |s[1..]| && s[1..][i] == y;
          assert s[i + 1] == y;
        }
      }
    }
  }

  lemma {:induction false} WithKeyAppend<T>(a: seq<T>, b: seq<T>, key: T -> int, v: int)
    ensures WithKey(a + b, key, v) == WithKey(a, key, v) + WithKey(b, key, v)
  {
    if a == [] {
      assert a + b == b;
    } else {
      var head := if key(a[0]) == v then [a[0]] else [];
      assert (a + b)[0] == a[0] && (a + b)[1..] == a[1..] + b;
      assert WithKey(a + b, key, v) == head + WithKey(a[1..] + b, key, v);
      assert WithKey(a, key, v) == head + WithKey(a[1..], key, v);
      WithKeyAppend(a[1..], b, key, v);
    }
  }

  lemma {:induction false} WithKeyAbsent<T>(s: seq<T>, key: T -> int, v: int)
    requires forall i :: 0 <= i < |s| ==> key(s[i]) > v
    ensures WithKey(s, key, v) == []
  {
    if s != [] {
      WithKeyAbsent(s[1..], key, v);
    }
  }

  /** Inserting in front of a sorted list whose keys are all larger. */
  lemma InsertInFront<T>(x: T, s: seq<T>, key: T -> int, v: int)
    requires SortedBy(s, key) && s != [] && key(x) < key(s[0])
    ensures WithKey(InsertAfterEqual(x, s, key), key, v)
         == WithKey(s, key, v) + (if key(x) == v then [x] else [])
  {
    assert InsertAfterEqual(x, s, key) == [x] + s;
    assert ([x] + s)[1..] == s;
    if key(x) == v {
      WithKeyAbsent(s, key, v);
    }
  }

  lemma {:induction false} InsertKeepsOrderPerKey<T>(x: T, s: seq<T>, key: T -> int, v: int)
    requires SortedBy(s, key)
    ensures WithKey(InsertAfterEqual(x, s, key), key, v)
         == WithKey(s, key, v) + (if key(x) == v then [x] else [])
  {
    if s == [] {
      assert WithKey([x], key, v) == (if key(x) == v then [x] else []) + WithKey([x][1..], key, v);
    } else if key(x) < key(s[0]) {
      InsertInFront(x, s, key, v);
    } else {
      var head := if key(s[0]) == v then [s[0]] else [];
      var r := InsertAfterEqual(x, s[1..], key);
      InsertKeepsOrderPerKey(x, s[1..], key, v);
      assert InsertAfterEqual(x, s, key) == [s[0]] + r;
      assert ([s[0]] + r)[1..] == r;
      assert WithKey([s[0]] + r, key, v) == head + WithKey(r, key, v);
      assert WithKey(s, key, v) == head + WithKey(s[1..], key, v);
    }
  }

  /**
   * The sort keeps every element, orders the keys, and is stable: for each
   * key the elements carrying it keep their relative order.
   */
  lemma {:induction false} SortByIsStableSort<T>(s: seq<T>, key: T -> int)
    ensures multiset(SortBy(s, key)) == multiset(s)
    ensures SortedBy(SortBy(s, key), key)
    ensures forall v :: WithKey(SortBy(s, key), key, v) == WithKey(s, key, v)
  {
    if s != [] {
      var init, last := s[..|s| - 1], s[|s| - 1];
      assert s == init + [last];
      SortByIsStableSort(init, key);
      InsertKeepsElements(last, SortBy(init, key), key);
      InsertKeepsSorted(last, SortBy(init, key), key);
      forall v ensures WithKey(SortBy(s, key), key, v) == WithKey(s, key, v) {
        InsertKeepsOrderPerKey(last, SortBy(init, key), key, v);
        WithKeyAppend(init, [last], key, v);
        assert [last][1..] == [];
      }
    }
  }

  /** `list.sort(key=f)`: the same array now holds its elements stably sorted. */
  method SortInPlace<T>(a: array<T>, key: T -> int)
    modifies a
    ensures a[..] == SortBy(old(a[..]), key)
  {
    var sorted := SortBy(a[..], key);
    forall i | 0 <= i < a.Length {
      a[i] := sorted[i];
    }
  }

  lemma {:induction false} DistinctCount<T>(s: seq<T>, x: T)
    requires Distinct(s)
    ensures multiset(s)[x] <= 1
  {
    if s != [] {
      var init, last := s[..|s| - 1], s[|s| - 1];
      assert s == init + [last];
      assert Distinct(init);
      DistinctCount(init, x);
      if last == x {
        assert x !in init;
      }
    }
  }

  /** A rearrangement of a list without repetitions has none either. */
  lemma DistinctPermutation<T>(a: seq<T>, b: seq<T>)
    requires Distinct(a) && multiset(a) == multiset(b)
    ensures Distinct(b)
  {
    forall i, j | 0 <= i < j < |b| ensures b[i] != b[j] {
      if b[i] == b[j] {
        var x := b[i];
        assert b == b[..j] + [x] + b[j + 1..];
        assert x in b[..j];
        assert multiset(b)[x] >= 2;
        DistinctCount(a, x);
      }
    }
  }

  /** Sorting a list without repetitions rearranges it: each element listed once, none added. */
  lemma SortedPermutes<T>(s: seq<T>, key: T -> int)
    requires Distinct(s)
    ensures Distinct(SortBy(s, key))
    ensures forall k :: 0 <= k < |s| ==> SortBy(s, key)[k] in s
  {
    var sorted := SortBy(s, key);
    SortByIsStableSort(s, key);
    DistinctPermutation(s, sorted);
    assert forall k :: 0 <= k < |sorted| ==> sorted[k] in multiset(s);
  }
}
