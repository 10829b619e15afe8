/** The contract of `sort.SliceStable` with an integer key, and the facts the
    rule compiler needs from it. */
module StableSort {
  import opened Text

  predicate Sorted<T>(xs: seq<T>, key: T -> int) {
    forall i, j | 0 <= i < j < |xs| :: key(xs[i]) <= key(xs[j])
  }

  /** Puts `x` in front of the first element whose key is not smaller. */
  function Insert<T>(x: T, xs: seq<T>, key: T -> int): seq<T> {
    if xs == [] || key(x) <= key(xs[0]) then [x] + xs
    else [xs[0]] + Insert(x, xs[1..], key)
  }

  function Sort<T>(xs: seq<T>, key: T -> int): seq<T> {
    if xs == [] then [] else Insert(xs[0], Sort(xs[1..], key), key)
  }

  function Filter<T>(xs: seq<T>, p: T -> bool): seq<T> {
    if xs == [] then [] else if p(xs[0]) then [xs[0]] + Filter(xs[1..], p) else Filter(xs[1..], p)
  }

  function First<T>(xs: seq<T>, p: T -> bool): Option<T> {
    if xs == [] then None else if p(xs[0]) then Some(xs[0]) else First(xs[1..], p)
  }

  lemma {:induction false} FirstSpec<T>(xs: seq<T>, p: T -> bool)
    ensures First(xs, p) == None <==> forall y | y in xs :: !p(y)
    ensures First(xs, p).Some? ==> First(xs, p).value in xs && p(First(xs, p).value)
  {
    if xs != [] {
      assert xs == [xs[0]] + xs[1..];
      FirstSpec(xs[1..], p);
    }
  }

  lemma {:induction false} InsertElements<T>(x: T, xs: seq<T>, key: T -> int)
    ensures multiset(Insert(x, xs, key)) == multiset{x} + multiset(xs)
  {
    if xs != [] && key(x) > key(xs[0]) {
      InsertElements(x, xs[1..], key);
      assert xs == [xs[0]] + xs[1..];
    }
  }

  lemma {:induction false} InsertSorted<T>(x: T, xs: seq<T>, key: T -> int)
    requires Sorted(xs, key)
    ensures Sorted(Insert(x, xs, key), key)
  {
    if xs != [] && key(x) > key(xs[0]) {
      InsertSorted(x, xs[1..], key);
      InsertElements(x, xs[1..], key);
      var rest := Insert(x, xs[1..], key);
      forall j | 0 <= j < |rest| ensures key(xs[0]) <= key(rest[j]) {
        assert rest[j] in multiset(rest);
        if rest[j] != x {
          assert rest[j] in multiset(xs[1..]);
        }
      }
    }
  }

  lemma {:induction false} SortSorted<T>(xs: seq<T>, key: T -> int)
    ensures Sorted(Sort(xs, key), key)
    ensures multiset(Sort(xs, key)) == multiset(xs)
  {
    if xs != [] {
      SortSorted(xs[1..], key);
      InsertSorted(xs[0], Sort(xs[1..], key), key);
      InsertElements(xs[0], Sort(xs[1..], key), key);
      assert xs == [xs[0]] + xs[1..];
    }
  }

  lemma {:induction false} FilterSubset<T>(xs: seq<T>, p: T -> bool)
    ensures forall y | y in Filter(xs, p) :: y in xs && p(y)
    ensures forall y | y in xs && p(y) :: y in Filter(xs, p)
  {
    if xs != [] {
      FilterSubset(xs[1..], p);
      assert xs == [xs[0]] + xs[1..];
    }
  }

  lemma FilterCons<T>(x: T, xs: seq<T>, p: T -> bool)
    ensures Filter([x] + xs, p) == if p(x) then [x] + Filter(xs, p) else Filter(xs, p)
  {
    assert ([x] + xs)[1..] == xs;
  }

  lemma {:induction false} FilterInsert<T>(x: T, xs: seq<T>, key: T -> int, p: T -> bool)
    requires Sorted(xs, key)
    ensures Filter(Insert(x, xs, key), p) == if p(x) then Insert(x, Filter(xs, p), key) else Filter(xs, p)
  {
    if xs == [] || key(x) <= key(xs[0]) {
      FilterCons(x, xs, p);
      FilterSubset(xs, p);
      var f := Filter(xs, p);
      if f != [] {
        assert f[0] in f;
      }
    } else {
      FilterInsert(x, xs[1..], key, p);
      FilterCons(xs[0], Insert(x, xs[1..], key), p);
      if p(x) && p(xs[0]) {
        assert Filter(xs, p)[1..] == Filter(xs[1..], p);
      }
    }
  }

  /** Dropping elements and stable sorting commute. */
  lemma {:induction false} FilterSort<T>(xs: seq<T>, key: T -> int, p: T -> bool)
    ensures Filter(Sort(xs, key), p) == Sort(Filter(xs, p), key)
  {
    if xs != [] {
      FilterSort(xs[1..], key, p);
      SortSorted(xs[1..], key);
      FilterInsert(xs[0], Sort(xs[1..], key), key, p);
      if p(xs[0]) {
        assert Filter(xs, p)[1..] == Filter(xs[1..], p);
      }
    }
  }

  function HasKey<T>(key: T -> int, k: int): T -> bool {
    x => key(x) == k
  }

  lemma {:induction false} SortConstant<T>(xs: seq<T>, key: T -> int, k: int)
    requires forall x | x in xs :: key(x) == k
    ensures Sort(xs, key) == xs
  {
    if xs != [] {
      SortConstant(xs[1..], key, k);
      assert xs == [xs[0]] + xs[1..];
    }
  }

  /** Elements with equal keys keep their input order. */
  lemma {:induction false} SortIsStable<T>(xs: seq<T>, key: T -> int, k: int)
    ensures Filter(Sort(xs, key), HasKey(key, k)) == Filter(xs, HasKey(key, k))
  {
    FilterSort(xs, key, HasKey(key, k));
    FilterSubset(xs, HasKey(key, k));
    SortConstant(Filter(xs, HasKey(key, k)), key, k);
  }

  ghost predicate SameClasses<T>(a: seq<T>, b: seq<T>, key: T -> int) {
    forall k :: Filter(a, HasKey(key, k)) == Filter(b, HasKey(key, k))
  }

  /** The head of `a` is in `b`, so the head of the sorted `b` has no larger key. */
  lemma HeadBound<T>(a: seq<T>, b: seq<T>, key: T -> int)
    requires a != [] && Sorted(b, key) && SameClasses(a, b, key)
    ensures b != [] && key(b[0]) <= key(a[0])
  {
    var h := HasKey(key, key(a[0]));
    FilterSubset(a, h);
    FilterSubset(b, h);
    assert a[0] in Filter(b, h);
  }

  lemma {:induction false} SortedByClassesEqual<T>(a: seq<T>, b: seq<T>, key: T -> int)
    requires Sorted(a, key) && Sorted(b, key) && SameClasses(a, b, key)
    ensures a == b
  {
    if a == [] {
      if b != [] {
        HeadBound(b, a, key);
      }
    } else {
      HeadBound(a, b, key);
      HeadBound(b, a, key);
      var x, y, a', b' := a[0], b[0], a[1..], b[1..];
      assert a == [x] + a' && b == [y] + b';
      forall k ensures x == y && Filter(a', HasKey(key, k)) == Filter(b', HasKey(key, k)) {
        var h0, h := HasKey(key, key(x)), HasKey(key, k);
        FilterCons(x, a', h0);
        FilterCons(y, b', h0);
        assert Filter(a, h0) == Filter(b, h0);
        assert Filter(a, h0)[0] == x && Filter(b, h0)[0] == y;
        FilterCons(x, a', h);
        FilterCons(y, b', h);
        assert Filter(a, h) == Filter(b, h);
        if key(x) == k {
          assert Filter(a, h)[1..] == Filter(a', h) && Filter(b, h)[1..] == Filter(b', h);
        }
      }
      SortedByClassesEqual(a', b', key);
    }
  }

  /** Whatever algorithm is used, a stable sort has exactly one result. */
  lemma {:induction false} StableSortUnique<T>(xs: seq<T>, ys: seq<T>, key: T -> int)
    requires Sorted(ys, key) && SameClasses(xs, ys, key)
    ensures ys == Sort(xs, key)
  {
    forall k ensures Filter(ys, HasKey(key, k)) == Filter(Sort(xs, key), HasKey(key, k)) {
      SortIsStable(xs, key, k);
    }
    SortSorted(xs, key);
    SortedByClassesEqual(ys, Sort(xs, key), key);
  }

  /** `i` is the element satisfying `p` that is least by (key, position). */
  ghost predicate IsLeast<T>(xs: seq<T>, key: T -> int, p: T -> bool, i: nat) {
    i < |xs| && p(xs[i])
    && forall j | 0 <= j < |xs| && p(xs[j]) :: key(xs[i]) < key(xs[j]) || (key(xs[i]) == key(xs[j]) && i <= j)
  }

  lemma {:induction false} FirstInsert<T>(x: T, xs: seq<T>, key: T -> int, p: T -> bool)
    requires Sorted(xs, key)
    ensures First(Insert(x, xs, key), p) ==
            var f := First(xs, p);
            if p(x) && (f == None || key(x) <= key(f.value)) then Some(x) else f
  {
    if xs == [] || key(x) <= key(xs[0]) {
      assert ([x] + xs)[1..] == xs;
      FirstSpec(xs, p);
    } else {
      FirstInsert(x, xs[1..], key, p);
      assert Insert(x, xs, key)[1..] == Insert(x, xs[1..], key);
    }
  }

  lemma IndexIn<T>(ys: seq<T>, xs: seq<T>, y: T) returns (j: nat)
    requires multiset(ys) == multiset(xs) && y in ys
    ensures j < |xs| && xs[j] == y
  {
    assert y in multiset(xs);
    j :| 0 <= j < |xs| && xs[j] == y;
  }

  /** The first match after stable sorting is the least match by (key, input position). */
  lemma {:induction false} FirstOfSorted<T>(xs: seq<T>, key: T -> int, p: T -> bool, i: nat)
    requires IsLeast(xs, key, p, i)
    ensures First(Sort(xs, key), p) == Some(xs[i])
  {
    var rest := xs[1..];
    SortSorted(rest, key);
    FirstInsert(xs[0], Sort(rest, key), key, p);
    if i == 0 {
      FirstSpec(Sort(rest, key), p);
      var f := First(Sort(rest, key), p);
      if f.Some? {
        var j := IndexIn(Sort(rest, key), rest, f.value);
        assert xs[j + 1] == f.value;
      }
    } else {
      assert rest[i - 1] == xs[i];
      assert forall j | 0 <= j < |rest| :: rest[j] == xs[j + 1];
      FirstOfSorted(rest, key, p, i - 1);
    }
  }
}
