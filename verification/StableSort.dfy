/** `Array.prototype.sort` with a numeric key: ascending and stable. */
module StableSort {

  function Insert<T>(x: T, ys: seq<T>, key: T -> int): seq<T> {
    if ys == [] || key(x) <= key(ys[0]) then [x] + ys else [ys[0]] + Insert(x, ys[1..], key)
  }

  function Sort<T>(xs: seq<T>, key: T -> int): seq<T> {
    if xs == [] then [] else Insert(xs[0], Sort(xs[1..], key), key)
  }

  ghost predicate Sorted<T>(xs: seq<T>, key: T -> int) {
    forall i, j :: 0 <= i < j < |xs| ==> key(xs[i]) <= key(xs[j])
  }

  function Level<T>(xs: seq<T>, key: T -> int, k: int): seq<T> {
    if xs == [] then [] else (if key(xs[0]) == k then [xs[0]] else []) + Level(xs[1..], key, k)
  }

  lemma {:induction false} InsertIsPermutation<T>(x: T, ys: seq<T>, key: T -> int)
    ensures multiset(Insert(x, ys, key)) == multiset([x]) + multiset(ys)
  {
    if ys == [] || key(x) <= key(ys[0]) {
    } else {
      InsertIsPermutation(x, ys[1..], key);
      assert ys == [ys[0]] + ys[1..];
    }
  }

  lemma {:induction false} SortIsPermutation<T>(xs: seq<T>, key: T -> int)
    ensures multiset(Sort(xs, key)) == multiset(xs) && |Sort(xs, key)| == |xs|
  {
    if xs != [] {
      SortIsPermutation(xs[1..], key);
      InsertIsPermutation(xs[0], Sort(xs[1..], key), key);
      assert xs == [xs[0]] + xs[1..];
    }
    assert |multiset(Sort(xs, key))| == |multiset(xs)|;
  }

  lemma {:induction false} InsertIsSorted<T>(x: T, ys: seq<T>, key: T -> int)
    requires Sorted(ys, key)
    ensures Sorted(Insert(x, ys, key), key)
  {
    if ys == [] || key(x) <= key(ys[0]) {
    } else {
      InsertIsSorted(x, ys[1..], key);
      InsertIsPermutation(x, ys[1..], key);
      var rest := Insert(x, ys[1..], key);
      forall j | 0 <= j < |rest|
        ensures key(ys[0]) <= key(rest[j])
      {
        assert rest[j] in multiset(rest);
        assert rest[j] == x || rest[j] in ys[1..];
      }
    }
  }

  lemma {:induction false} SortIsSorted<T>(xs: seq<T>, key: T -> int)
    ensures Sorted(Sort(xs, key), key)
  {
    if xs != [] {
      SortIsSorted(xs[1..], key);
      InsertIsSorted(xs[0], Sort(xs[1..], key), key);
    }
  }

  lemma {:induction false} InsertIsStable<T>(x: T, ys: seq<T>, key: T -> int, k: int)
    requires Sorted(ys, key)
    ensures Level(Insert(x, ys, key), key, k) == Level([x] + ys, key, k)
  {
    assert ([x] + ys)[1..] == ys;
    if ys == [] || key(x) <= key(ys[0]) {
    } else {
      InsertIsStable(x, ys[1..], key, k);
      assert ([x] + ys[1..])[1..] == ys[1..];
      assert Insert(x, ys, key)[1..] == Insert(x, ys[1..], key);
    }
  }

  /** Elements of equal key keep their order. */
  lemma {:induction false} SortIsStable<T>(xs: seq<T>, key: T -> int, k: int)
    ensures Level(Sort(xs, key), key, k) == Level(xs, key, k)
  {
    if xs != [] {
      SortIsStable(xs[1..], key, k);
      SortIsSorted(xs[1..], key);
      InsertIsStable(xs[0], Sort(xs[1..], key), key, k);
      assert ([xs[0]] + Sort(xs[1..], key))[1..] == Sort(xs[1..], key);
    }
  }

  lemma {:induction false} SortedIsFixed<T>(xs: seq<T>, key: T -> int)
    requires Sorted(xs, key)
    ensures Sort(xs, key) == xs
  {
    if xs != [] {
      SortedIsFixed(xs[1..], key);
      assert xs == [xs[0]] + xs[1..];
    }
  }
}
