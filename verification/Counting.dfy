/** Counting the entries of a map that satisfy a predicate, as one entry changes. */
module Counting {
  ghost function Select<K(!new), T>(m: map<K, T>, p: T -> bool): set<K> {
    set k | k in m && p(m[k])
  }

  function One(b: bool): nat { if b then 1 else 0 }

  lemma SelectSets<K(!new), T>(m: map<K, T>, k: K, v: T, p: T -> bool)
    ensures Select(m[k := v], p) == if p(v) then Select(m, p) + {k} else Select(m, p) - {k}
  {
    forall x ensures x in Select(m[k := v], p) <==> if x == k then p(v) else x in Select(m, p) {
    }
  }

  lemma CardinalityUpdate<K(!new)>(before: set<K>, k: K, b: bool)
    ensures |if b then before + {k} else before - {k}| == |before| + One(b) - One(k in before)
  {
    if k in before {
      assert before + {k} == before;
      assert before == (before - {k}) + {k};
    } else {
      assert before - {k} == before;
    }
  }

  lemma SelectUpdate<K(!new), T>(m: map<K, T>, k: K, v: T, p: T -> bool)
    ensures |Select(m[k := v], p)| == |Select(m, p)| + One(p(v)) - One(k in m && p(m[k]))
  {
    SelectSets(m, k, v, p);
    CardinalityUpdate(Select(m, p), k, p(v));
  }

  lemma {:induction false} SelectSplit<K(!new), T>(m: map<K, T>, p: T -> bool, q: T -> bool, r: T -> bool)
    requires forall k | k in m :: (p(m[k]) <==> q(m[k]) || r(m[k])) && !(q(m[k]) && r(m[k]))
    ensures |Select(m, p)| == |Select(m, q)| + |Select(m, r)|
  {
    assert Select(m, p) == Select(m, q) + Select(m, r);
    assert Select(m, q) !! Select(m, r);
  }
}
